# Media activity feed: merge, search and load, in Dafny

This project models the logic of the media screen of the CRM mobile
application (`src/component/media/index.js`). The screen fetches activity
records from three backends (email, whatsapp, meeting). It tags each record
with the source it came from and merges the three lists. It then shows the
records that pass a category filter and a case-insensitive text search.

- `wrappers.dfy`: `Option`, for a field that may be absent.
- `text.dfy`: ASCII `toLowerCase` (`Lower`, `LowerStr`) and `includes`
  (`Contains`), with `Contains` proved equal to the positional definition of
  a substring.
- `activity.dfy`: sources, records, the tag step (`Tag`, `TagAll`) and the
  merge (`Merge`). The JavaScript `type` field is called `kind`, because
  `type` is a Dafny keyword. `rest` maps every other payload field
  (timestamp and source-specific ones) to its JSON value (`Value`), and those
  fields pass through untouched.
- `search.dfy`: the filter callback (`Keep`) and the filtered list
  (`Visible`), with lemmas about order, membership, case-insensitivity, the
  empty query and categories on a merged list. The module `Scenario` works
  one example through the merge and the search.
- `screen.dfy`: the screen's state cells as the class `MediaScreen`. Its
  method `FetchAllData` is the load run: `StartLoad` (the state while the
  requests are pending) followed by `FinishLoad`. `Settle` is the
  all-or-nothing result of `Promise.all` followed by the merge. The ghost
  fields `loadingLog` and `dataLog` record every write to `loading` and
  `data`; all writes go through `SetLoading` and `SetData`, and `Valid` ties
  each cell to the last entry of its log.

How the code behaves, where one might expect otherwise:

- An empty query does not let every record through. Optional chaining
  (`item.name?.…`) turns an absent field into `undefined`, so `includes('')`
  is only reached for a present field. A record with neither `name` nor
  `details` is therefore never shown, even for the empty query
  (`EmptyQueryKeep`, `FieldlessNeverVisible`).
- A failed load is not reported as a result value. The error is only logged.
  `data` keeps its previous value, which is `[]` because the effect runs once
  at mount. `loading` is reset in `finally` on every path.

## Model

| member | source | states |
|---|---|---|
| `Text.LowerStr` | src/component/media/index.js:65-66 | `toLowerCase` keeps the length and lower-cases each character; no upper-case ASCII letter remains |
| `Text.LowerStrIdempotent` | src/component/media/index.js:65-66 | lower-casing an already lower-cased string changes nothing |
| `Text.Contains` | src/component/media/index.js:65-66 | `includes`: the empty string is contained in every string; a contained string is no longer than the container |
| `Text.ContainsIffOccurs` | src/component/media/index.js:65-66 | `includes(s, t)` holds iff `t` occurs in `s` at some position (both directions) |
| `Activity.Tag` | src/component/media/index.js:42-44 | the spread puts `type` last, so the record carries its source's tag whatever `type` the payload had; all other fields are unchanged |
| `Activity.TagAll` | src/component/media/index.js:42-44 | `map` keeps the length; record `i` is payload `i` with the source's tag and nothing else changed |
| `Activity.NamesDistinct` | src/component/media/index.js:42-44 | the three tags "email", "whatsapp", "meeting" are pairwise different |
| `Activity.StripTagAll` | src/component/media/index.js:42-44 | removing the tags from a tagged list gives back the untagged payloads |
| `Activity.Merge` | src/component/media/index.js:41-45 | `allData` has length \|email\|+\|whatsapp\|+\|meeting\| (nothing dropped or deduplicated) and every record carries one of the tags "email", "whatsapp", "meeting" |
| `Activity.MergeLayout` | src/component/media/index.js:41-45 | the merged list has length \|email\|+\|whatsapp\|+\|meeting\| and splits into the tagged email, then whatsapp, then meeting lists, each in its own order |
| `Activity.MergeAt` | src/component/media/index.js:41-45 | record `i` of the merge is the tagged record at the matching position of the source whose block `i` falls in |
| `Activity.MergePreservesPayloads` | src/component/media/index.js:41-45 | without the tags, the merge is the plain concatenation of the three payload lists: nothing added, dropped, deduplicated or reordered |
| `Search.TaggedCategoryMatch` | src/component/media/index.js:64 | a tagged record passes the category test exactly under "all" and under its own source's tag, whatever `type` its payload carried |
| `Search.FieldMatches` | src/component/media/index.js:65-66 | a matching field is present and at least as long as the query; a present field always matches the empty query |
| `Search.SearchMatch` | src/component/media/index.js:65-66 | a record that matches the query has a `name` or a `details` |
| `Search.Keep` | src/component/media/index.js:63-66 | a kept record has the selected `type` (unless the category is "all") and a present `name` or `details` |
| `Search.Visible` | src/component/media/index.js:62-67 | `data.filter(...)` is a subsequence of `data` and holds each record that passes the callback exactly as often as `data` does, and no other record |
| `Search.VisibleMembership` | src/component/media/index.js:62-67 | a record is shown iff it is loaded and passes both the category and the search test |
| `Search.VisibleConcat` | src/component/media/index.js:62-67 | filtering a concatenation is the concatenation of the filtered parts |
| `Search.CategoryFilters` | src/component/media/index.js:64 | under a category other than "all", every shown record has that `type`, and every loaded record of that `type` matching the query is shown |
| `Search.AllCategoryIsSearchOnly` | src/component/media/index.js:64 | under "all", a record is shown iff it is loaded and matches the query |
| `Search.FieldMatchesIffOccurs` | src/component/media/index.js:65-66 | a field matches iff it is present and the lower-cased query occurs in its lower-cased text (both directions); an absent field never matches |
| `Search.VisibleCaseInsensitive` | src/component/media/index.js:65-66 | two queries with the same lower-cased text show the same list |
| `Search.VisibleLowerQuery` | src/component/media/index.js:65-66 | a query and its lower-cased form show the same list |
| `Search.EmptyQueryKeep` | src/component/media/index.js:65-66 | the empty query passes a record iff the category matches and `name` or `details` is present |
| `Search.FieldlessNeverVisible` | src/component/media/index.js:65-66 | a record with neither `name` nor `details` is never shown, for any category and query |
| `Search.EmptyQueryShowsAll` | src/component/media/index.js:62-67 | under "all" with the empty query, the shown list is the loaded list itself when every record has `name` or `details` |
| `Search.TaggedOwnCategory` | src/component/media/index.js:64 | inside one source's tagged list, that source's category shows the same as "all" |
| `Search.TaggedOtherCategory` | src/component/media/index.js:64 | inside one source's tagged list, another source's category shows nothing |
| `Search.MergedCategory` | src/component/media/index.js:41-45 | on the merged list, a source's category shows exactly that source's matching records, in that source's order |
| `Search.FiltersAreCategories` | src/component/media/index.js:22 | every filter button is "all" or a source tag, and every source tag has a button |
| `Scenario.MergeBobAndEve` | src/component/media/index.js:41-45 | merging email [Bob], whatsapp [] and meeting [Eve] gives [Bob tagged email, Eve tagged meeting] |
| `Scenario.MeetingShowsEve` | src/component/media/index.js:62-67 | on that merge, category "meeting" with the empty query shows [Eve] |
| `Scenario.QueryShowsBob` | src/component/media/index.js:62-67 | on that merge, category "all" with the query "bo" shows [Bob] |
| `Screen.Settle` | src/component/media/index.js:36-46 | the run yields a list iff all three requests succeed, and then its length is the sum of the three lists |
| `Screen.SettleAllOrNothing` | src/component/media/index.js:36-46 | the run yields a list iff all three requests succeed, and that list holds every record of every source; one failure yields no list at all |
| `Screen.MediaScreen.Filtered` | src/component/media/index.js:62-67 | `filtered` is a subsequence of `data` and holds each loaded record that passes the callback under the current category and query exactly as often as `data` does, and no other record |
| `Screen.MediaScreen.constructor` | src/component/media/index.js:25-28 | initial state: category "all", empty query, no records, not loading |
| `Screen.MediaScreen.Mount` | src/component/media/index.js:25-55 | after mounting and the single load run, `loading` has gone true then false, and `data` is the merged list or stays `[]` on any failure |
| `Screen.MediaScreen.SetLoading` | src/component/media/index.js:35 | `setLoading(b)` sets `loading` to `b` and appends `b` to its log |
| `Screen.MediaScreen.SetData` | src/component/media/index.js:46 | `setData(d)` sets `data` to `d` and appends `d` to its log |
| `Screen.MediaScreen.StartLoad` | src/component/media/index.js:34-35 | while the requests are pending, `loading` is true and `data` is untouched |
| `Screen.MediaScreen.FinishLoad` | src/component/media/index.js:41-50 | from a loading state, `data` is written once with the full merge when all succeed and never written otherwise, then `loading` is false |
| `Screen.MediaScreen.FetchAllData` | src/component/media/index.js:33-52 | `loading` is written true and then false on every path; `data` is written once with the full merge when all succeed and is never written otherwise; category and query are unchanged |
| `Screen.MediaScreen.SetFilter` | src/component/media/index.js:80 | a category button sets the category to its filter value |
| `Screen.MediaScreen.SetQuery` | src/component/media/index.js:96 | typing sets the query to the typed text |

## Left out

- The HTTP requests and the base URL (lines 30, 37-39) are network I/O. Each source is an input `Response`: `Success(records)` or `Failure`.
- The concurrency of `Promise.all` (line 36) is not modelled. Only its outcome is: every request succeeded, or the run fails.
- Overlapping load runs are not modelled. The effect runs once per mount (line 55).
- A `data` value that is not an array is not modelled. In the code, `map` would throw on it and the run would fail like a rejected request.
- Non-string `name` or `details` values, on which `toLowerCase` would throw at run time, are not modelled. Present fields are strings; a JSON `null` there is modelled as an absent field (`None`), since `?.` stops at `null` too.
- JSON numbers in `rest` are exact reals, not IEEE doubles. They are only carried, never computed with.
- `toLowerCase` is modelled on ASCII letters only. Full Unicode case mapping is not part of this model.
- The React hooks machinery, JSX rendering, `FlatList`, the icon map (lines 16-20) and the style sheet (lines 139-241) are presentation only. `MediaScreen.Filtered` gives the list the screen renders.
- Timestamp formatting with `toLocaleString` (line 124) depends on the locale and the clock. The timestamp is carried in `rest` and is not interpreted.
- `console.log` and `console.error` (lines 48, 59) are logging side effects and are not modelled.
