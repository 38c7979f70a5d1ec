# Repository showcase loader — a Dafny model

This project models the one piece of logic in a single-page portfolio site:
the loader (`loadRepos` in `src/App.tsx`) that fetches a user's public
repositories and two fixed auxiliary repository records, ranks the user's
repositories by star count, keeps the top six, rewrites that working list by
a few name-keyed rules, and publishes either the list or an error flag. It
also models the two small pieces of state next to it: the light/dark theme
toggle and the split of the work history into a three-entry preview and the
rest.

Modules, one per concern of the loader:

- `Repos` (`repos.dfy`): the repository record (`GithubRepo`), `findIndex`
  by name and JavaScript's `slice` with clamped bounds.
- `Ranking` (`ranking.dfy`): the copy sorted by stars, highest first, and its
  top six. `Array.prototype.sort` is stable, so the ranking is defined as a
  stable insertion sort, and `StableSortIsUnique` shows that any descending
  stable sort gives the same list, whatever algorithm the JavaScript engine
  uses.
- `MergeRules` (`merge_rules.dfy`): the rules as functions on the list —
  substitute the first `sc-simple-demo` by the `polkadot-ui/library` record,
  the first `sc-parachain-demo` by the `paritytech/substrate-connect` record,
  swap the first `library` and `substrate-connect` entries when both exist,
  and point the first `dashboard` entry at the fellowship dashboard.
- `Showcase` (`showcase.dfy`): how each request settled (`Fetch`), the outcome
  (`Ready(list)` or `Errored`), the specification function `Load`, and the
  imperative pipeline `ComputeShowcase`, which fills a fresh array with the
  ranked top six and lets in-place methods (index assignment, the
  destructuring swap, the field write) rewrite it, each proved equal to its
  rule.
- `App` (`app.dfy`): the theme, the experience split, and a class `AppState`
  holding the component's `theme`, `repos` and `reposError` state, whose
  `LoadRepos` publishes the outcome only while the component is mounted.

The network is not modelled: each request is an input saying how its
promise settled — rejected, or a response with its `ok` status and a body
that either decodes or makes `json()` reject.

Only an auxiliary response whose status is not ok is tolerated. A rejected
auxiliary `fetch` makes `Promise.all` reject, and an ok auxiliary response
whose body does not decode makes `json()` reject inside the `try`. Both end
in the error flag (`Showcase.Load`).

## Model

| member | source | states |
|---|---|---|
| Repos.IndexOfName | src/App.tsx:209 | `findIndex` by name: -1 exactly when no record has the name, otherwise the first index whose record has it |
| Repos.Slice | src/App.tsx:205 | `slice` with bounds clamped to the length: the length of the result and that it holds the elements from the start bound on |
| Ranking.SortByStars | src/App.tsx:204 | the sorted copy has the same length and the same records (a permutation) |
| Ranking.SortByStarsIsStableSort | src/App.tsx:204 | the sorted copy is non-increasing in stars and keeps the API's order among records with equal stars |
| Ranking.StableSortIsUnique | src/App.tsx:204 | any non-increasing order that keeps the tie order equals the model's sort, so the result does not depend on the engine's algorithm |
| Ranking.TopRepos | src/App.tsx:204-205 | for n input records the working list has min(6, n) entries, is non-increasing in stars, and holds only records of `data` (sub-multiset) |
| Ranking.TopReposAreMostStarred | src/App.tsx:204-205 | every record the cut leaves out has no more stars than any kept record |
| Ranking.TopReposKeepTieOrder | src/App.tsx:204-205 | for each star count, the kept records with that count are a prefix of that count's records in API order |
| MergeRules.Substitute | src/App.tsx:207-213 | with a fetched record and an entry with the sentinel name, exactly the first such slot is replaced wholesale; otherwise the list is unchanged; length kept |
| MergeRules.SwapNamed | src/App.tsx:225-234 | when both names occur their first occurrences trade places and nothing else moves; when either is missing the list is unchanged; length and multiset of records kept |
| MergeRules.OverrideDashboard | src/App.tsx:236-239 | only the first `dashboard` entry changes, and only its `html_url`, to the fellowship dashboard link; no `dashboard` entry means no change |
| MergeRules.Merge | src/App.tsx:207-239 | keeps the length of the working list; defined as the four rules in source order, each applied to the previous rule's output |
| MergeRules.MergeKeepsSlot | src/App.tsx:207-239 | a slot whose record no rule looks for (including a sentinel whose auxiliary record is missing) keeps its record through all four rules |
| Showcase.Auxiliary | src/App.tsx:207-208 | an auxiliary request contributes a record exactly when its response is ok and its body decodes |
| Showcase.Load | src/App.tsx:194-247 | a rejected request or a primary response that is not ok gives `Errored` whatever else happened; `Ready` exactly when every request got a response, the primary is ok and every body read decodes; for n primary records a ready list has min(6, n) ≤ 6 entries |
| Showcase.FindIndex | src/App.tsx:209 | the loop over the working array returns what `findIndex` returns |
| Showcase.SubstituteInPlace | src/App.tsx:209-212 | the index assignment leaves the array equal to `Substitute` of its old contents |
| Showcase.SwapInPlace | src/App.tsx:225-234 | the destructuring swap leaves the array equal to `SwapNamed` of its old contents |
| Showcase.OverrideDashboardInPlace | src/App.tsx:236-239 | the field write leaves the array equal to `OverrideDashboard` of its old contents |
| Showcase.ComputeShowcase | src/App.tsx:193-240 | the imperative pipeline over a fresh array returns exactly `Load` of the three settled requests |
| Showcase.LibraryNotOkKeepsSentinel | src/App.tsx:207-213 | a library response that is not ok is not fatal, and every `sc-simple-demo` slot of the working list keeps its own record in the published list |
| Showcase.SubstrateConnectNotOkKeepsSentinel | src/App.tsx:215-223 | the same for a substrate-connect response that is not ok and the `sc-parachain-demo` slots |
| App.Toggle | src/App.tsx:257-259 | the toggle always changes the theme |
| App.ToggleTwice | src/App.tsx:258 | toggling twice gives back the theme |
| App.InitialTheme | src/App.tsx:176-179 | the page starts light exactly when a window exists and prefers the light scheme |
| App.PreviewExperience | src/App.tsx:284 | for n entries of work history the preview is the first min(3, n) of them |
| App.ExtraExperience | src/App.tsx:285 | preview followed by the extra entries is the whole work history |
| App.HasMoreExperience | src/App.tsx:286 | there is more to show exactly when the history has more than three entries |
| App.AppState.constructor | src/App.tsx:176-181 | the state starts with the initial theme, no repositories and no error |
| App.AppState.ToggleTheme | src/App.tsx:257-259 | the theme is toggled and the repository state is untouched |
| App.AppState.LoadRepos | src/App.tsx:191-248 | while mounted, a ready outcome becomes `repos` and an error sets `reposError`; after teardown nothing changes; the theme is never touched |

## Left out

- Network requests and JSON decoding (`fetch`, `Promise.all`, `response.json()`, the unchecked casts): each request is an input describing how it settled; a body of the wrong shape is not modelled apart from "does not decode".
- Timing of the effect: `isMounted` is an argument giving the flag's value when the code checks it; effect scheduling and the cleanup callback are React's.
- Object aliasing: records are values. In the code the dashboard write also changes the same object inside the parsed response, which is discarded afterwards, so nothing observable is lost.
- Pages beyond the first 100 repositories: the API returns one page and the model takes that page as its input list.
- The theme's DOM effect (`dataset.theme`), `matchMedia` itself, scrolling, the height animation and resize listeners: DOM plumbing.
- All JSX rendering, `GitHubCalendar`, and the static `skills`, `experience`, `education` and `languages` data: presentation and constants (the experience split is generic over the entries).
- `tailwind.config.cjs` and `vite.config.js`: styling and build configuration with no logic to model.
