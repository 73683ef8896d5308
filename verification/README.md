# Exam-result lookup page: load and name search

A Dafny model of the one component of this React page that holds logic,
`src/components/DataFetching.jsx`. The model covers two parts:

- **The load effect** (`fetchFile`). It runs once when the page mounts. It fetches `/natega.zip`,
  opens the archive, reads the entry `natega.json` and parses it into the
  dataset. It leaves behind a loading flag, an error message and the data.
  The network, the archive library and the JSON parser are outside the model.
  Their outcome is an input (`Loader.Fetched`), and the model states which
  error text and which data each outcome leaves.
- **The name search** (`handleSearch`). It keeps the records whose name (key
  "الاسم") starts with the typed query. Order and duplicates are kept. It
  refuses an empty query, does nothing before data exists, and stores a
  one-element "No results found" sentinel when nothing matches.

Modules:

- `Prefix` (prefix.dfy) models `startsWith` character by character and proves it equal to a slice-based reference.
- `Records` (records.dfy) holds the dataset record, the `Option` for a nullable value and the `Results` state.
- `NameSearch` (search.dfy) holds the filter and the search, a loop version of the search, and the lemmas about them.
- `Loader` (loader.dfy) holds the load effect's outcomes, its state and the error text of each path.
- `ResultsView` (view.dfy) models how the results are stored as an array and how the page chooses what to show from it.
- `SearchPage` (page.dfy) models the page as a whole: mount, then, once data is loaded and the controls are shown, any sequence of typing and searching.

Behaviour of the code a reader might not expect:

- There is no Arabic letter normalisation. Names are compared exactly as stored (`NameSearch.NoLetterNormalisation`).
- Only the empty query is refused. A query of spaces is searched like any other.
- Record fields are not validated. The search reads only the name.
- The missing-entry message is set directly, without the "Error extracting file: " prefix that thrown errors get.
- A failed load does not clear the data. It leaves whatever was there, and that is `null` on the page's only run.

## Model

| member | source | states |
|---|---|---|
| Prefix.StartsWithIsSlicePrefix | src/components/DataFetching.jsx:71 | `startsWith`, compared one character at a time with no normalisation, holds exactly when the first characters of the name, as many as the query has, equal the query |
| Prefix.StartsWithTransitive | src/components/DataFetching.jsx:71 | a name that starts with a query also starts with every leading part of that query |
| NameSearch.Filter | src/components/DataFetching.jsx:70-72 | the filter keeps at most the data's records, every kept record's name starts with the query, and every kept record comes from the data |
| NameSearch.Search | src/components/DataFetching.jsx:63-80 | an empty query or missing data leaves the results unchanged; otherwise the results are never empty, the sentinel appears exactly when no record matches, and a non-empty list of matching records from the data appears otherwise |
| NameSearch.FilterEmptyIff | src/components/DataFetching.jsx:70-78 | the filter keeps nothing if and only if no record's name starts with the query |
| NameSearch.FilterMultiplicity | src/components/DataFetching.jsx:70-72 | duplicates are kept: a matching record occurs in the result as often as in the data, and a non-matching one never occurs |
| NameSearch.FilterIsMatchSelection | src/components/DataFetching.jsx:70-72 | the result is the data read at a strictly increasing list of positions, every listed position holds a matching record, and every matching position is listed |
| NameSearch.MatchSelectionIsFilter | src/components/DataFetching.jsx:70-72 | any in-order selection of exactly the matching positions equals the filter result, so nothing is re-sorted or dropped |
| NameSearch.SearchIsMatchSelection | src/components/DataFetching.jsx:63-80 | for a non-empty query over loaded data, what the search finds is the in-order selection of exactly the matching records, and every non-empty such selection is what it finds |
| NameSearch.FilterNarrows | src/components/DataFetching.jsx:70-72 | filtering with a longer query gives what filtering the shorter query's result would give |
| NameSearch.NoLetterNormalisation | src/components/DataFetching.jsx:71 | a query with a bare alef does not find a name written with a hamza on the alef; only the bare-alef record is found |
| NameSearch.FilterScan | src/components/DataFetching.jsx:70-72 | a single left-to-right pass that appends each matching record computes exactly the filter result |
| NameSearch.SearchScan | src/components/DataFetching.jsx:63-80 | the search with the filter run as that single pass gives the same results as the search |
| Loader.Begin | src/components/DataFetching.jsx:14-15 | the effect starts by switching loading on and clearing the error; the data is untouched |
| Loader.RunTry | src/components/DataFetching.jsx:17-51 | data is stored exactly when the archive has a `natega.json` entry that parses; the only error set without a throw is the missing entry of a non-empty archive, with the text "No JSON file found in the archive." |
| Loader.Finish | src/components/DataFetching.jsx:46-57 | loading always ends off; parsed records become the data; a reported message is shown as is; a thrown message is shown after "Error extracting file: "; the data changes only on success |
| Loader.FetchFile | src/components/DataFetching.jsx:13-58 | loading ends off on every outcome; the error stays empty exactly on the successful parse, which is the only path that replaces the data |
| Loader.FetchFileErrors | src/components/DataFetching.jsx:24-54 | the exact error text of each failing path: a non-OK status, a rejected fetch, an unreadable archive, an empty archive, a missing entry, and an unreadable or unparsable entry |
| Loader.PrefixMarksThrownErrors | src/components/DataFetching.jsx:39-54 | the error starts with "Error extracting file: " exactly when the try block threw; the missing-entry message and success do not carry it |
| Loader.LoadFromInitial | src/components/DataFetching.jsx:6-57 | run from the mounted page, the effect ends with data exactly when it ends without an error message |
| ResultsView.Render | src/components/DataFetching.jsx:113-116 | an empty array shows nothing; a first element with a message shows that message; otherwise every element is shown as a table row |
| ResultsView.Encode | src/components/DataFetching.jsx:74-116 | no results show nothing; the sentinel shows "No results found"; found records are stored one element per record in order, and shown as a table unless the first of them has a non-empty `message`, whose text is then shown instead |
| ResultsView.DecodeEncode | src/components/DataFetching.jsx:74-78 | reading back the stored array gives back the search outcome, for every outcome a search can store whose first found record has no `message` |
| ResultsView.FirstMessageHidesTable | src/components/DataFetching.jsx:113-116 | found records whose first has a non-empty `message` show that text in place of the table and read back as the no-results sentinel |
| SearchPage.Mount | src/components/DataFetching.jsx:6-90 | after mounting, the load state is the effect's result for the fetch outcome from the initial state, loading is over, the search controls are shown exactly when the load left no error, no results are shown, and the page is consistent |
| SearchPage.Step | src/components/DataFetching.jsx:90-110 | an event needs the controls, which exist only with data; typing changes only the query; pressing the button sets the results to the search's outcome for the current query and data; neither touches the loaded state |
| SearchPage.RunConsistent | src/components/DataFetching.jsx:63-80 | across any sequence of typing and searching, results exist only once data exists, and shown records are non-empty and taken from the data |
| SearchPage.FailedLoadShowsNoResults | src/components/DataFetching.jsx:88-90 | when the load fails, the search controls are not on the page and no results are shown; a corollary of `SearchPage.Mount` |
| SearchPage.PressIsIdempotent | src/components/DataFetching.jsx:63-80 | pressing search twice with the same query gives the same page as pressing once |

## Left out

- Network, archive decompression, reading an entry as text and JSON parsing are foreign library and I/O calls. They appear only as the outcome input `Loader.Fetched`. The `Cache-Control` request header is not modelled.
- The JSON value of the dataset is modelled as an array of records. A parse that yields a non-array value, for example `null` or a number, is not modelled. So is a record without a string name, which would make the search handler throw and leave the results unchanged.
- React's `useState`/`useEffect` scheduling, re-rendering, the `alert` prompt, console logging and the loading spinner are UI plumbing and are not modelled. The effect is modelled as one step from its start state to its end state. The intermediate loading state is `Loader.Begin`.
- The results table's cells are not modelled, in this file or in `src/components/Table.jsx`. The score and percentage columns are floating-point division and `toFixed(2)` formatting.
- Strings are sequences of characters. JavaScript compares UTF-16 code units, and a query that ends inside a surrogate pair is not modelled. Names in Arabic script lie in the Basic Multilingual Plane, where the two agree.
- ResultsView.Encode: a record's `message` field counts as truthy when it is a non-empty string, because record fields are modelled as strings. Falsy JSON values such as `0`, `false` or `null` are not modelled.
- ResultsView.DecodeEncode: the round trip is promised only when the first found record has no non-empty `message`. Otherwise the page shows that text instead of the table, and the stored outcome cannot be told apart from the sentinel (`ResultsView.FirstMessageHidesTable`).
- The `if (data)` guard of the search handler never fails on the page, because the controls that call it are rendered only with data. `NameSearch.Search` still models that guard, since it is part of the handler.
