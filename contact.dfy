/**
 * The contact form (src/Pages/Contact.jsx): a record of named fields, one
 * field replaced per change event, all fields cleared on submit.  The record
 * is a map from field names to values, as the object spread treats it.
 */
module Contact {

  /** The initial form: the three fields name, email and message, all empty (src/Pages/Contact.jsx:11). */
  function EmptyForm(): (f: map<string, string>)
    ensures f.Keys == {"name", "email", "message"}
    ensures forall k :: k in f ==> f[k] == ""
  {
    map["name" := "", "email" := "", "message" := ""]
  }

  /** The named field takes the value, every other field keeps its own (src/Pages/Contact.jsx:14). */
  function Changed(form: map<string, string>, name: string, value: string): (r: map<string, string>)
    ensures r.Keys == form.Keys + {name}
    ensures r[name] == value
    ensures forall k :: k in form && k != name ==> r[k] == form[k]
  {
    form[name := value]
  }

  /** The input fields, named after the record's fields, keep the record's shape. */
  lemma ChangeKeepsShape(form: map<string, string>, name: string, value: string)
    requires form.Keys == EmptyForm().Keys && name in EmptyForm()
    ensures Changed(form, name, value).Keys == EmptyForm().Keys
  {
  }

  /** Changes to different fields do not interfere; a later change to one field overrides an earlier one. */
  lemma ChangesCommute(form: map<string, string>, a: string, x: string, b: string, y: string)
    ensures a != b ==> Changed(Changed(form, a, x), b, y) == Changed(Changed(form, b, y), a, x)
    ensures Changed(Changed(form, a, x), a, y) == Changed(form, a, y)
  {
  }

  /** The form's state. */
  class ContactForm {
    var formData: map<string, string>

    constructor ()
      ensures formData == EmptyForm()
    {
      formData := EmptyForm();
    }

    /** `handleChange` for the input named `name` now holding `value`. */
    method HandleChange(name: string, value: string)
      modifies this
      ensures formData == Changed(old(formData), name, value)
    {
      formData := formData[name := value];
    }

    /**
     * `handleSubmit`: every field is cleared, whatever it held, so a second
     * submit changes nothing.
     */
    method HandleSubmit()
      modifies this
      ensures formData == EmptyForm()
      ensures forall k :: k in formData ==> formData[k] == ""
    {
      formData := map["name" := "", "email" := "", "message" := ""];
    }
  }
}
