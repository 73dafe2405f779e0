# Portfolio typewriter and project filter, modelled in Dafny

This project models the two pieces of the portfolio site's front-end scripts
whose behaviour can be stated precisely:

- **The typewriter** (`js/typing.js`, module `Typing`). The hero subtitle is
  typed one character at a time. Once the word is complete there is a pause.
  The word is then deleted one character at a time, and the next word of the
  list (cyclically) is typed. The pure function `Next` is one call of `type()`
  on a `State` record: word index, character index, the `isDeleting` and
  `isWaiting` flags, and the displayed text. It returns the next state and the
  delay before the next call. The class `TypeWriter` keeps the same state in
  mutable fields. Its `Step` method updates them in place and is proved to agree
  with `Next`. `Run` and `Elapsed` iterate `Next`. The lemmas prove the state
  invariant, one full type/wait/delete cycle (its end state and its duration),
  and the order in which the words are visited.
- **The project filter** (`js/projects.js`, module `Projects`). Filter buttons
  carry a `data-filter` attribute and an active class. Project cards carry a
  `data-category` attribute and the `display` and `opacity` styles the filter
  sets. `ApplyFilter` restyles the cards in place by the show rule and returns
  the timer each card gets: a staggered fade-in, or a collapse after 300 ms.
  The class `ProjectFilter` models the `ProjectFilter` object: `init`,
  `handleFilterClick`, `filterProjects` and `getProjectCount`.
  `PageFilterClick` models the click handler that `initProjectsPage` attaches
  itself.

JavaScript semantics are written out where they matter:

- `x || d` treats both a missing option and 0 as absent (`OrDefault`).
- `substring(0, k)` clamps `k` into the word's bounds (`Substring`).
- `(i + 1) % n` is applied to a non-negative index, so Dafny's `%` gives the
  same result.
- A `data-*` attribute that is absent is `None`, and `undefined === undefined`
  holds. So the page's own handler, when a button has no `data-filter`, shows
  exactly the cards that have no `data-category`.

Three details of the code shape the model:

- The phase is held in two booleans, `isDeleting` and `isWaiting`, exactly as
  the code holds it. `isWaiting` is examined first, and `Inv` proves that the
  two flags are never both set in a reachable state.
- The character bound holds only when every word is non-empty, because the
  code has no guard. `EmptyWordTypesForever` shows what an empty word does:
  the character index grows without bound and the engine never leaves that
  word.
- The text before the first step is whatever the element held. The typed
  prefix is guaranteed only once a character has been typed, or after `reset()`.

## Model

| member | source | states |
|---|---|---|
| `Typing.OrDefault` | js/typing.js:27-29 | a missing option or the falsy value 0 gives the default; any other value is kept; a non-zero default never gives 0 |
| `Typing.Configure` | js/typing.js:27-29 | the type, delete and pause delays default to 100, 50 and 2000 ms when missing or 0, keep any other given value, and are never 0 |
| `Typing.Substring` | js/typing.js:59-62 | `substring(0, k)` is always a prefix of the word, of length k when k is in bounds, empty for k <= 0 and the whole word for k >= length |
| `Typing.Next` | js/typing.js:44-88 | one step keeps the word index in range and either keeps it or advances it by one mod the word count; the next delay is one of the three configured delays; the two flags are never both set afterwards |
| `Typing.NextDisplays` | js/typing.js:48-77 | a typing or deleting step displays the prefix of the (new) current word up to the new character index; a waiting step changes neither the text nor the character index |
| `Typing.InitialInv` | js/typing.js:31-34 | the initial state (word 0, no characters, no flags) satisfies the invariant when every word is non-empty |
| `Typing.NextKeepsInv` | js/typing.js:44-88 | with non-empty words, a step keeps 0 <= charIndex <= word length, wordIndex < word count, never both flags, waiting only at the full word, deleting only with a character shown; afterwards the displayed text is exactly the typed prefix of the current word |
| `Typing.Run` | js/typing.js:44-88 | any number of steps keeps the word index below the word count |
| `Typing.TypingPhase` | js/typing.js:72-86 | from c typed characters, word length - c typing steps display the whole word and enter waiting, taking (length - c - 1) typing delays plus one pause |
| `Typing.DeletingPhase` | js/typing.js:56-70 | from c shown characters, c deleting steps empty the display, clear deleting and advance the word index by one mod the word count, taking c deleting delays |
| `Typing.FullCycle` | js/typing.js:44-88 | from a word's start, 2 * length + 1 steps (type, wait, delete) return to character 0 in the typing state on the next word mod the word count, with an empty display, after (length - 1) * typeSpeed + pauseDuration + (length + 1) * deleteSpeed ms |
| `Typing.VisitsWordsInOrder` | js/typing.js:67 | from the initial state, after k full cycles the engine is at the start of word k mod the word count: every word is visited, in order, forever |
| `Typing.EmptyWordTypesForever` | js/typing.js:72-86 | on an empty word, k typing steps raise the character index by k, never enter waiting and display "": the engine never leaves an empty word |
| `Typing.RolesFirstCycle` | js/typing.js:122-134 | with the page's roles and options (80, 40, 2500 ms), "Data Engineer." takes 29 steps and 4140 ms, after which "ML Researcher." is next with an empty display |
| `Typing.TypeWriter.constructor` | js/typing.js:24-38 | the delays are derived from the options as `Configure` states, both indices are 0 and both flags clear |
| `Typing.TypeWriter.Step` | js/typing.js:44-88 | the new fields are the state `Next` gives and the returned delay is its delay. Waiting: waiting cleared, deleting set, indices and text unchanged, next delay deleteSpeed. Deleting: charIndex - 1, shorter prefix shown, deleting cleared and word index advanced mod n at 0, next delay deleteSpeed. Typing: charIndex + 1, longer prefix shown, waiting set with a pause delay at the full word, typeSpeed otherwise. The invariant is preserved |
| `Typing.TypeWriter.Start` | js/typing.js:93-97 | the first step is scheduled exactly when the element exists and the word list is non-empty, after half the pause duration (a real number) |
| `Typing.TypeWriter.Reset` | js/typing.js:102-108 | both indices are 0, both flags clear and the text is ""; with non-empty words the invariant holds again |
| `Projects.ShowRule` | js/projects.js:69-70 | the show rule `ShouldShow` (also used inline at js/projects.js:137): "all" selects every card; any other filter selects exactly the cards of that category, a subset of what "all" selects; two different category filters never select the same card |
| `Projects.Settles` | js/projects.js:75-91 | after the immediate restyle (`Restyle`) and the card's timer (`Decide` chooses it, `Fire` applies it), a shown card has display "block" and opacity "1" and a hidden card has display "none" and opacity "0" |
| `Projects.InCategory` | js/projects.js:106-108 | the filtered list is no longer than the card list and holds only cards of that list whose category is the given one |
| `Projects.InCategoryCountsShown` | js/projects.js:101-108 | for any category other than "all", the length of the filtered list equals the number of cards the show rule shows for that filter |
| `Projects.AllShowsEveryCard` | js/projects.js:102-104 | the filter "all" shows as many cards as there are |
| `Projects.FadeInsAreShown` | js/projects.js:68-92 | the cards whose timer (as `Decide` chooses it) fades them in are exactly the cards the show rule selects |
| `Projects.ExactlyOneActive` | js/projects.js:53-56 | when exactly the clicked button has the active class, the number of active buttons is 1 |
| `Projects.Activate` | js/projects.js:53-56 | afterwards only button b is active, nothing else about the buttons changes, and exactly one button is active |
| `Projects.ApplyFilter` | js/projects.js:67-94 | every card is restyled in place by the show rule (a shown card gets display "block" and opacity "0", a hidden one only opacity "0") and gets the timer `Decide` chooses, in card order (a fade-in after index * stagger ms if shown, a collapse after 300 ms if not); the cards faded in are exactly those the rule shows |
| `Projects.PageFilterClick` | js/projects.js:119-158 | the page's own handler (attached only when there are buttons and cards) makes exactly the clicked button active even for an absent or empty filter, and filters the cards by the same rule with a 50 ms stagger |
| `Projects.ProjectFilter.constructor` | js/projects.js:17-25 | the buttons and cards are those found, and the active filter starts as "all" |
| `Projects.ProjectFilter.Init` | js/projects.js:30-38 | the click handler is attached only when there is at least one button and one card |
| `Projects.ProjectFilter.HandleFilterClick` | js/projects.js:44-61 | a missing or empty `data-filter` changes nothing; otherwise exactly the clicked button is active, the active filter is the clicked one, and the cards are filtered by it with a 100 ms stagger |
| `Projects.ProjectFilter.FilterProjects` | js/projects.js:67-94 | every card is restyled by the show rule with a 100 ms stagger, and the number of cards faded in equals `getProjectCount` of the same filter |
| `Projects.ProjectFilter.GetProjectCount` | js/projects.js:101-109 | the count is the number of cards the show rule selects for that value: all cards for "all", else the cards of that category |

## Left out

- Timers: `setTimeout` is not modelled as a scheduler. Each typewriter step returns its delay. Each card's timer is returned as a `Timer` value, and `Fire` states what it does. When timers from successive clicks interleave (an old collapse firing after a new fade-in), the result is not modelled.
- A second `start()` call starts a second concurrent chain of steps. Concurrent timer chains are not modelled.
- Option values that are not integers (fractions, NaN, strings) are not modelled. Options are integers or absent.
- `Typing.TypeWriter.Step` and `Typing.TypeWriter.Reset` require the element to exist. In the source, writing to a missing element throws; `reset()` throws only after it has already zeroed the fields. `start()` guards the step chain by the same test.
- `Typing.TypeWriter.Step` also requires a non-empty word list. In the source, `type()` on an empty list reads `undefined` as the current word, increments the character index and then throws at `currentWord.substring`. Only `start()` keeps this from happening, by the same test.
- `Typing.Substring`, `Typing.FullCycle` and every character count count Unicode scalar values (Dafny strings), whereas JavaScript's `length` and `substring` count UTF-16 code units. For a word with a character outside the Basic Multilingual Plane (an emoji, say), the source takes two typing steps for that character and shows a lone surrogate in between, so its cycle has more steps and lasts longer than the model's. The page's own roles are ASCII, for which the two counts agree.
- `Projects.ProjectFilter.HandleFilterClick` requires the clicked button to be one of the filter buttons. The handler is attached only to them.
- CSS `transform` and `transition` strings, and the hover effects of `initProjectHoverEffects`, are left out. They are presentation only.
- The `DOMContentLoaded` bootstrapping and the DOM queries are left out. The model starts from the buttons and cards those queries return.
- `js/main.js` (navigation toggle, scroll shadow, smooth scroll, reveal on scroll) and `js/journey.js` (timeline animations) are not part of this model. They are browser layout and intersection-observer plumbing.
