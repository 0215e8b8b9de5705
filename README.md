# Portfolio site state machines, in Dafny

A model of the small pieces of state behind a React portfolio site
(ElvisNjaramba/React-Web-Portfolio): the About page's typing effect, the
theme provider, the crossfading phrase cycler, the boot-up terminal, the
GitHub repository lists of the Projects and Home pages, and the contact form.

Every timer callback (`setTimeout`, `setInterval`) is one abstract tick, as is
the effect run that moves the typing effect to the next word (it runs
synchronously, not in a timer). Each component with state is a class. Its
fields are the component's state plus the outside state it writes. In the
theme store, `storage` stands for `localStorage` and `rootDark` for the root
element's class list. In the typing effect, `words` is the hook's argument, not
state. In the terminal, `currentLine` is the closure variable of the interval
callback, and `running` says whether the interval is still set.
Each tick or event handler is a method. For the timer-driven components, the
theme store and the contact form, the method's postcondition ties the new state
to a pure step function of the old state, and the properties are proved about
those functions. The two fetch handlers (`FetchRepos`, `LoadRepos`) are tied
instead to relations: the list is sorted by recency and a permutation of the
body, or `TopByRecency` holds. `fetch` is replaced by a `Response` value given to the page:
`Failed(message)` for a network error, or `Received(ok, body)` whose body is
an array of repositories, some other JSON value, or a parse error. Push
times are integer timestamps.

Files, one module each: `util.dfy` (Option, Result, `Min`, JavaScript
truthiness of optional strings), `about.dfy`, `theme.dfy`, `cycle_text.dfy`,
`terminal.dfy`, `repos.dfy` (what both repository pages share: the data, the
in-place sort by recency, the sums, the description fallback), `projects.dfy`,
`home.dfy`, `contact.dfy`.

Three behaviours of the code that a reader might not expect, which the model follows:

- A stored theme is not validated. Any non-empty stored string becomes the theme. Only an absent or empty value falls back to "dark". Toggling such a value gives "light", and two toggles from it give "dark", not the original value.
- `subIndex` climbs to the word's length plus one before the direction flips. The extra step shows the same text, because `substring` clamps. So the typing state's bound is `len + 1`, and the bound on the visible text holds only after clamping.
- The Home page does not check `res.ok`. It sorts any array body. Every other outcome throws inside the promise chain and is caught, and the list stays empty.

## Model

| member | source | states |
|---|---|---|
| About.Step | src/Pages/About.jsx:18-34 | one tick does exactly one thing: flip to shrinking (only at `len + 1`, changing nothing else), flip back to growing and move to `(index + 1) mod n` (only at 0, `subIndex` stays 0), or move `subIndex` one step in the current direction; the `index === words.length` guard leaves the state alone; the invariant `index < n`, `subIndex <= len + 1` is preserved |
| About.Run | src/Pages/About.jsx:18-34 | any number of ticks keeps the index at most `n`, the value the early-return guard tests for |
| About.Render | src/Pages/About.jsx:41 | the returned text is a prefix of the active word, `min(subIndex, len)` characters long, followed by "|" when the cursor blinks on and " " otherwise |
| About.RunKeepsInv | src/Pages/About.jsx:20-32 | the invariant `index < n` and `subIndex <= len + 1` holds after any number of ticks |
| About.ReachableStatesAreValid | src/Pages/About.jsx:19-41 | every state reached from the initial one names a word (so the `index === words.length` guard never fires) and renders at most `len + 1` characters |
| About.GrowToFull | src/Pages/About.jsx:29-32 | growing from `j` characters reaches `len + 1` in `len + 1 - j` ticks |
| About.ShrinkToEmpty | src/Pages/About.jsx:29-32 | shrinking from `j` characters reaches 0 in `j` ticks, still shrinking |
| About.FullCycle | src/Pages/About.jsx:20-32 | from word `i`, empty and growing, `2 * len + 4` ticks reach word `(i + 1) mod n`, empty and growing |
| About.SingleWordCycles | src/Pages/About.jsx:20-32 | with a single word the effect returns to that word, empty and growing, after a full cycle |
| About.FlipKeepsText | src/Pages/About.jsx:20-22 | the step that flips to shrinking leaves the displayed text unchanged |
| About.TypingEffect.constructor | src/Pages/About.jsx:12-16 | a mounted hook starts at index 0, subIndex 0, growing, cursor shown; the word list must be non-empty |
| About.TypingEffect.Tick | src/Pages/About.jsx:18-34 | the fields change as `Step` says, the invariant is kept and `blink` is untouched |
| About.TypingEffect.BlinkTick | src/Pages/About.jsx:36-39 | the blink interval flips `blink` and changes nothing else, so two flips restore it |
| About.TypingEffect.Text | src/Pages/About.jsx:41 | the hook's string is at most the active word's length plus the cursor |
| ThemeProvider.InitialTheme | src/components/ThemeProvider.jsx:7 | the initial theme is the stored "theme" value when it is a non-empty string, otherwise "dark"; never empty |
| ThemeProvider.Toggled | src/components/ThemeProvider.jsx:14 | the toggle always yields "light" or "dark", and yields "dark" exactly when the theme was "light" |
| ThemeProvider.ToggleTwiceRestores | src/components/ThemeProvider.jsx:14 | from "light" or "dark", two toggles restore the theme |
| ThemeProvider.UnexpectedThemeNotRestored | src/components/ThemeProvider.jsx:14 | from any other stored value, two toggles give "dark", not the original value |
| ThemeProvider.TogglesByParity | src/components/ThemeProvider.jsx:14 | after at least one toggle the theme is "light" or "dark"; from those two it depends only on the parity of the number of toggles |
| ThemeProvider.ThemeStore.constructor | src/components/ThemeProvider.jsx:7-12 | mounting picks the initial theme, then the effect stores it and sets the root class to match |
| ThemeProvider.ThemeStore.Persist | src/components/ThemeProvider.jsx:9-12 | the effect writes the theme under "theme", keeps the other stored keys, and sets the root `dark` class exactly when the theme is "dark" |
| ThemeProvider.ThemeStore.ToggleTheme | src/components/ThemeProvider.jsx:14 | the theme becomes its toggle, and storage and the root class mirror the new theme |
| CycleText.Advance | src/components/CycleText.jsx:19 | the next index is within `0..total`: one more, or 0 after the last phrase |
| CycleText.AfterTicks | src/components/CycleText.jsx:14-19 | starting at 0, the index stays within `0..total` on every tick |
| CycleText.AfterTicksIsMod | src/components/CycleText.jsx:14-19 | after `k` ticks the index is `k mod total`, so `total` ticks return it to 0 |
| CycleText.Display | src/components/CycleText.jsx:26-39 | the line is `System.out.println(`, then the phrase between the curly quotes “ and ”, then `)` |
| CycleText.EveryTickChangesDisplay | src/components/CycleText.jsx:19-29 | each tick shows a different phrase, so the keyed span crossfades on every tick |
| CycleText.Cycler.constructor | src/components/CycleText.jsx:14 | the index starts at 0 |
| CycleText.Cycler.Text | src/components/CycleText.jsx:26-39 | the line on screen holds the phrase at the current index, after `System.out.println(` |
| CycleText.Cycler.Tick | src/components/CycleText.jsx:17-22 | one interval firing sets the index to its `Advance` and keeps it in range |
| HolographicTerminal.Step | src/components/HolographicTerminal.jsx:18-25 | a firing appends at most one line and never changes the lines already shown; it keeps the invariant that the lines are exactly the first `currentLine` commands; once the interval is cleared nothing is appended |
| HolographicTerminal.RunFromStart | src/components/HolographicTerminal.jsx:5-27 | after `k` firings from the empty start, the lines are the first `min(k, 5)` commands, `currentLine` is `min(k, 5)`, and the interval is cleared exactly from the sixth firing on |
| HolographicTerminal.AllCommandsShown | src/components/HolographicTerminal.jsx:9-23 | after five or more firings the lines are exactly the command list |
| HolographicTerminal.Rows | src/components/HolographicTerminal.jsx:42-60 | each line is rendered with its own text, and the cursor follows the last line and no other |
| HolographicTerminal.TerminalView.constructor | src/components/HolographicTerminal.jsx:5-17 | the lines start empty, `currentLine` at 0, the interval running |
| HolographicTerminal.TerminalView.Tick | src/components/HolographicTerminal.jsx:18-25 | one firing changes the state as `Step` says and keeps the invariant |
| GitHubRepos.SortByRecency | src/Pages/Projects.jsx:28 | sorting in place leaves a permutation of the array ordered by non-increasing push time |
| GitHubRepos.SumOf | src/Pages/Projects.jsx:41-42 | the `reduce` sum of an empty list is 0 |
| GitHubRepos.TotalStars | src/Pages/Projects.jsx:41 | the star total is 0 for an empty list and otherwise the total of the list without its last repository plus that repository's stars, as the left fold computes it |
| GitHubRepos.TotalForks | src/Pages/Projects.jsx:42 | the fork total is 0 for an empty list and otherwise the total of the list without its last repository plus that repository's forks |
| GitHubRepos.SumOfAppend | src/Pages/Projects.jsx:41-42 | the sum over two lists joined is the sum of the two sums |
| GitHubRepos.SumOfNonNegative | src/Pages/Projects.jsx:41-42 | sums of non-negative counts are non-negative |
| GitHubRepos.SumOfPermutation | src/Pages/Projects.jsx:41-42 | a sum does not depend on the order of the list |
| GitHubRepos.TotalsIgnoreOrder | src/Pages/Projects.jsx:41-42 | the star and fork totals of two permutations of a list are equal |
| GitHubRepos.CardDescription | src/Pages/Projects.jsx:180 | a card shows the description when it is non-empty, otherwise "No description provided."; never empty |
| Projects.Validate | src/Pages/Projects.jsx:21-32 | the fetch succeeds exactly on an ok response whose body is an array; a network error keeps its message, a non-ok response gives "GitHub API request failed", a body that is not an array gives "Unexpected GitHub response", a parse error keeps its message |
| Projects.PageView | src/Pages/Projects.jsx:108-148 | the loading and error views are never shown together; once loaded, exactly one of the error view and the statistics shows; the statistics show exactly when not loading and the error is falsy; cards show only with the statistics, one per repository |
| Projects.Badges | src/Pages/Projects.jsx:184-197 | at most four badges: the language first, and only when it is set, then the first `min(3, n)` topics in their order; no topic badges when `topics` is absent |
| Projects.ProjectsPage.constructor | src/Pages/Projects.jsx:16-18 | the page starts with no repositories, loading, and no error |
| Projects.ProjectsPage.StarsTotal | src/Pages/Projects.jsx:41 | the statistics' star total is the fold over the page's current list, 0 when it is empty |
| Projects.ProjectsPage.ForksTotal | src/Pages/Projects.jsx:42 | the statistics' fork total is the fold over the page's current list, 0 when it is empty |
| Projects.ProjectsPage.CurrentView | src/Pages/Projects.jsx:108-148 | for the page's state, loading and error views never show together, once loaded exactly one of the error view and the statistics shows, and cards show only with the statistics, one per repository |
| Projects.ProjectsPage.FetchRepos | src/Pages/Projects.jsx:20-39 | after the fetch `loading` is false whatever the outcome; on success `repos` is the body sorted by recency (a permutation, non-increasing push times); on failure `error` holds the message and `repos` is unchanged |
| Projects.MountAndFetch | src/Pages/Projects.jsx:16-148 | a freshly mounted page given the fetch's outcome stops showing the spinner; a non-ok response shows the error view only, with no statistics and no cards; any error shows no cards, and the error view exactly when the message is non-empty; a valid array shows the statistics and one card per repository, with the totals over the repositories as delivered |
| Projects.TotalsOfFetchedRepos | src/Pages/Projects.jsx:41-42 | after a successful fetch the totals equal the sums over the repositories as delivered |
| Home.PrefixDominates | src/Pages/Home.jsx:30-32 | in a list sorted by recency, every repository in a prefix was pushed no earlier than every repository after it |
| Home.SortedPrefixIsTop | src/Pages/Home.jsx:30-32 | sorting then keeping the first three gives `min(3, n)` repositories from the list, sorted, none older than any left out |
| Home.LanguageLabel | src/Pages/Home.jsx:357 | a card shows the language when set, otherwise "Code"; never empty |
| Home.FeaturedGrid | src/Pages/Home.jsx:315-358 | an empty list shows only "Loading projects..."; otherwise one card per repository, in order, with the repository's name and stars, its description or "No description provided.", and its language or "Code" |
| Home.JourneySide | src/Pages/Home.jsx:243 | a journey item sits on the right exactly when its position is even |
| Home.JourneyAlternates | src/Pages/Home.jsx:243 | the first journey item is on the right and sides alternate from item to item (right exactly at even positions) |
| Home.HomePage.constructor | src/Pages/Home.jsx:22 | the page starts with no repositories |
| Home.HomePage.ShownGrid | src/Pages/Home.jsx:315-324 | the page shows the placeholder exactly when its list is empty, and otherwise one card per repository |
| Home.HomePage.LoadRepos | src/Pages/Home.jsx:26-36 | an array body leaves the three most recent repositories, by the `TopByRecency` definition; any other outcome leaves `repos` unchanged, so empty on a fresh page |
| Contact.EmptyForm | src/Pages/Contact.jsx:11 | the form has the fields name, email and message, all empty |
| Contact.Changed | src/Pages/Contact.jsx:14 | the named field takes the new value and every other field keeps its value |
| Contact.ChangeKeepsShape | src/Pages/Contact.jsx:14 | a change to one of the three fields keeps exactly those three fields |
| Contact.ChangesCommute | src/Pages/Contact.jsx:14 | changes to different fields commute, and a later change to a field overrides an earlier one |
| Contact.ContactForm.constructor | src/Pages/Contact.jsx:11 | the form starts empty |
| Contact.ContactForm.HandleChange | src/Pages/Contact.jsx:13-15 | the form becomes `Changed` of the old form |
| Contact.ContactForm.HandleSubmit | src/Pages/Contact.jsx:17-21 | every field is cleared whatever it held, so a second submit changes nothing |

## Left out

- Network and side effects: `fetch` and JSON decoding are replaced by the `Response` value. `console.error`, `alert` and `preventDefault` are not modelled.
- Timing: the delays (100 ms growth, 50 ms shrink, 1000 ms pause, 500 ms blink, 2500 ms cycle, 400 ms terminal) and timer cancellation on unmount. Each callback is one tick.
- The About pause timer has no cleanup and is re-armed whenever the effect re-runs. The word array is rebuilt on every render, so this happens on every blink. A stale pause timer can then fire after the next word has started growing, set `reverse`, and make that word shrink early, so a word can be skipped. The model makes the pause a single flip step, so About.FullCycle and About.SingleWordCycles hold only under that simplification.
- About.Step, About.Render and About.FullCycle: lengths count characters (Unicode scalar values), while `words[index].length` and `substring` count UTF-16 code units. The two differ for words with characters outside the Basic Multilingual Plane, such as most emoji. They agree for the ASCII words the About page passes.
- About.TypingEffect.Tick: the `index === words.length` early return is not in the method. The class invariant rules it out, and `Step` keeps the branch.
- An empty word list: the hook crashes on it, so the constructor requires a non-empty list.
- Date parsing and invalid dates (`new Date`, NaN comparisons, `toLocaleDateString`): push times are integers.
- GitHubRepos.SortByRecency: the sort is proved sorted and a permutation. It is not proved stable, although the JavaScript sort is stable.
- Projects.ProjectsPage.FetchRepos: the order among repositories with equal push times is not pinned, because the sort is not proved stable.
- Home.HomePage.LoadRepos: when push times tie at the cut of `slice(0, 3)`, a stable sort keeps the repository that came first in the body. `TopByRecency` allows either.
- Repository fields that are missing or not numbers, which would make the `reduce` totals NaN.
- The terminal's `setLines` updater reads `currentLine` lazily. The model appends the command and then increments, as intended.
- Exceptions from `localStorage` are not modelled. Storage is a map and the root `dark` class a boolean.
- The subscriber notification of the theme context is not modelled. Consumers read the theme field.
- Floating point, randomness and 3D visuals (SkillGlobe, NeuralNetwork, QuantumGrid), routing and navigation (App, Nav, Footer), and all animation and styling.
