# Song list of the personal home page, modelled in Dafny

The page loads a JSON file of songs and shows them as cards, one card per
date, each card holding a numbered list of that date's songs. This project
models the logic in `Scripts/songs.js` behind that list:

- **Date grouping** (`renderSongs`): one `forEach` pass fills the
  `songsByDate` dictionary, creating a date's list on its first song and
  pushing every song onto its date's list; `Object.keys` then gives the
  order of the cards. `Grouping.GroupByDate` is that loop.
  `JsObject.OwnKeys` is the key order of a plain JavaScript object. Keys
  that are array indices (such as `"20250801"`) come first, in numeric
  order. All other keys follow in creation order. So dates in `YYYY-MM-DD`
  form appear in the order of their first occurrence, but all-digit dates
  jump ahead of them.
- **Line composition**: each list item's HTML is built by appending:
  1. a title link to the video URL,
  2. `" by "`,
  3. an artist link,
  4. when the lyrics URL is truthy, `" | "` and a "View lyrics" link.

  Missing fields print as `undefined`. Nothing is HTML-escaped.
- **Rendering** (`SongPage.Page.RenderSongs`): if the page has no
  `.song-list` element, nothing happens. Otherwise the list is emptied
  first. Then a card is appended per date group. The result depends only
  on the songs given, not on what the list showed before.
- **Path fallback** (`SongPage.Page.LoadSongs`): the three candidate
  paths are tried in order. The search ends at the first path whose
  fetched and parsed document reaches `renderSongs` without an exception.
  No later path is fetched. Each fetch's outcome is a parameter:
  - the fetch throws,
  - the response is not ok,
  - the body does not parse,
  - or the body parses to a document.

Modules: `Seqs` (distinct sequences), `SongData` (the song record and
JavaScript value conversions), `JsObject` (`Object.keys` order),
`Grouping` (the `songsByDate` dictionary), `SongLine` (one list item),
`SongPage` (cards, `renderSongs`, `loadSongs`).

Three behaviours of the code as written are modelled faithfully:

- If `data.songs` is not an array, `renderSongs` first empties the list
  and then throws when it calls `forEach`. The inner `catch` of
  `loadSongs` swallows the exception, and the next path is tried. So a
  run in which every path fails can still leave the list empty
  (`SongPage.Clears`).
- If the page has no `.song-list` element, `renderSongs` returns without
  throwing, so the search stops at the first parsed document other than `null`.
- If the document is `null`, reading `data.songs` throws before
  `renderSongs` runs, so the list is untouched.

This script has no date normalisation, date filters or lyrics panel.

## Model

| member | source | states |
|---|---|---|
| `Grouping.GroupByDate` | Scripts/songs.js:46-52 | the `forEach` pass yields a dictionary whose keys are exactly the dates that occur, each mapped to the songs of that date in input order, and key order `Object.keys(songsByDate)` |
| `Grouping.DateKeys` | Scripts/songs.js:46-52 | the dictionary's keys in creation order hold no date twice |
| `Grouping.DateKeysMembers` | Scripts/songs.js:48-50 | a date is a key exactly when some song carries it |
| `Grouping.Bucket` | Scripts/songs.js:48-51 | every song in a date's list carries that date |
| `Grouping.BucketNonEmpty` | Scripts/songs.js:48-51 | a date's list is non-empty exactly when the date is a key: no group is empty |
| `Grouping.GroupCount` | Scripts/songs.js:48-51 | the number of groups equals the number of distinct dates |
| `Grouping.SongInItsBucket` | Scripts/songs.js:47-52 | each song is in its own date's list, at the position given by how many earlier songs share its date |
| `Grouping.RankIncreasing` | Scripts/songs.js:47-52 | two songs of one date keep their input order inside the list (`push` in `forEach` order) |
| `Grouping.GatherPermutation` | Scripts/songs.js:47-52 | concatenating the lists of all dates gives a permutation of the input: no song dropped or duplicated, total count equals input length |
| `Grouping.DateKeysFirstAppearance` | Scripts/songs.js:46-55 | dates are created in the order of their first occurrence in the input |
| `JsObject.IndexKeys` | Scripts/songs.js:55 | the array-index keys are listed in ascending numeric order |
| `JsObject.OwnKeysPermutation` | Scripts/songs.js:55 | `Object.keys` lists exactly the created keys, each as often as created |
| `JsObject.OwnKeysSameKeys` | Scripts/songs.js:55 | `Object.keys` lists the created keys and no others, without repetition |
| `JsObject.OwnKeysIndicesFirst` | Scripts/songs.js:55 | array-index keys precede all other keys and are in ascending numeric order |
| `JsObject.OwnKeysNamedOrder` | Scripts/songs.js:55 | keys that are not array indices keep their creation order |
| `JsObject.OwnKeysCreationOrder` | Scripts/songs.js:55 | when no key is an array index, `Object.keys` is the creation order |
| `JsObject.IndexKeyJumpsAhead` | Scripts/songs.js:55 | the date `"20250801"` is listed before `"2025-08-01"` even though it was created after it |
| `SongLine.ComposeLine` | Scripts/songs.js:78-82 | the appended `content` string equals the list-item text `Line` of the song |
| `SongLine.LineShape` | Scripts/songs.js:78-82 | every line starts with the title link, `" by "` and the artist link; it is longer than that exactly when the lyrics URL is truthy, and then the rest is the bar separator followed by the lyrics link |
| `SongLine.TitleVerbatim` | Scripts/songs.js:78 | the title text stands unescaped at a fixed offset after the video URL |
| `SongLine.ArtistVerbatim` | Scripts/songs.js:79 | the artist text stands unescaped right after the artist link's opening tag |
| `SongLine.MissingFieldsRender` | Scripts/songs.js:78-80 | a missing field renders as the text `undefined`; an empty lyrics URL is falsy and adds no link |
| `SongPage.ComposeItems` | Scripts/songs.js:75-85 | a card's items are the lines of its songs, one per song, in list order |
| `SongPage.RenderedCardsCount` | Scripts/songs.js:46-90 | the list gets one card per distinct date, and as many items in all as there are songs |
| `SongPage.RenderedCardsDistinct` | Scripts/songs.js:46-90 | no card is empty and no date has two cards |
| `SongPage.SongRenderedInItsCard` | Scripts/songs.js:75-85 | every song's line is in the card of its own date, at its input-order position |
| `SongPage.RenderedCardsFirstAppearance` | Scripts/songs.js:55 | when no date is an array index, cards appear in the order of each date's first occurrence |
| `SongPage.Page.RenderSongs` | Scripts/songs.js:37-91 | without a song list nothing changes; otherwise the list is emptied first, an argument without `forEach` leaves it empty and throws, and an array leaves exactly the rendered cards, whatever was there before |
| `SongPage.FirstStop` | Scripts/songs.js:14-27 | the first-success search: the attempt it returns ends the search and no earlier one does; none is returned exactly when no attempt ends it |
| `SongPage.Attempts` | Scripts/songs.js:14-27 | the number of paths fetched never exceeds the number of candidates |
| `SongPage.LaterPathsIgnored` | Scripts/songs.js:14-27 | what later paths would return changes neither how many paths are fetched nor what is rendered |
| `SongPage.NoDocumentNothingRendered` | Scripts/songs.js:14-29 | when no path yields a parsed document, all paths are fetched and the list is unchanged |
| `SongPage.Page.LoadSongs` | Scripts/songs.js:2-34 | the paths fetched are the candidates in order, up to the first success; the list then shows that path's cards, or the old content (emptied if some document had no song array) when none succeeded |

## Left out

- `Scripts/audio.js`: the background-music element is browser I/O and event handling.
- `Scripts/stars.js` and `Scripts/snow.js`: random floating-point animations driven by `requestAnimationFrame`.
- DOM construction and inline styles of the cards, the date header's markup (modelled as the date text alone) and the `<ol>`/`<li>` elements (modelled as the items' HTML strings).
- Console logging. Note that "Songs loaded from" is logged before `renderSongs` runs, so it may name a path whose rendering then throws.
- `fetch` and `response.json()` themselves: their results are the `FetchOutcome` parameter. Asynchrony is not modelled, because the paths are awaited one after another.
- The outer `try`/`catch` of `loadSongs`: nothing outside the inner `try` can throw.
- Field values other than strings or a missing field, such as numbers or `null`, are not modelled. A template literal would print them with JavaScript's own string conversion.
- Song entries that are not objects are not modelled. Reading `song.date` on `null` would throw part-way through the `forEach`.
- Dates that name properties every plain object inherits, such as `"constructor"` or `"__proto__"`, are not modelled. For them `songsByDate[song.date]` is already truthy and `push` throws. The model treats every date as an ordinary key.
