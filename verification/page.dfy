/**
 The page as a whole: the load effect runs once on mount. The name field and
 the search button are rendered only once data is loaded; from then on the
 user types into the field and presses the button, any number of times.
 */
module SearchPage {
  import opened Records
  import opened Loader
  import opened NameSearch

  /** The page's state: what the load effect wrote, the text in the name
      field, and the results of the last search. */
  datatype Page = Page(load: LoadState, query: string, results: Results)

  /** What the user can do once the controls are on the page. */
  datatype Event =
    | Type(text: string)   // the name field's change handler
    | Press                // the search button

  /** The name field and the search button are rendered only while data is
      present, so only then can an event happen. */
  predicate Enabled(p: Page)
  {
    p.load.data.Some?
  }

  /** Results only ever hold what a search over the loaded data can produce:
      nothing before data exists, and matching records taken from the data. */
  ghost predicate Consistent(p: Page)
  {
    && (p.results != Empty ==> p.load.data.Some?)
    && (p.results.Found? ==>
          && |p.results.records| > 0
          && forall k :: 0 <= k < |p.results.records| ==> p.results.records[k] in p.load.data.value)
  }

  /** The page once the load effect has finished, with an empty field and no
      results: the load state is what the effect leaves for the fetch
      outcome `f`, loading is over, the controls are shown exactly when no
      error is, and the page is consistent. */
  function Mount(f: Fetched): (p: Page)
    ensures p.load == FetchFile(Initial, f)
    ensures !p.load.isLoading
    ensures Enabled(p) <==> p.load.error == []
    ensures Consistent(p)
    ensures p.query == [] && p.results == Empty
  {
    LoadFromInitial(f);
    Page(FetchFile(Initial, f), "", Empty)
  }

  /** One user event. */
  function Step(p: Page, e: Event): (q: Page)
    requires Enabled(p)
    ensures q.load == p.load
    ensures e.Type? ==> q.query == e.text && q.results == p.results
    ensures e.Press? ==> q.query == p.query && q.results == Search(p.query, p.load.data, p.results)
  {
    match e
    case Type(text) => p.(query := text)
    case Press => p.(results := Search(p.query, p.load.data, p.results))
  }

  /** A run of user events, in order; events need the controls on the page. */
  function Run(p: Page, events: seq<Event>): (q: Page)
    requires events != [] ==> Enabled(p)
    decreases |events|
  {
    if events == [] then p else Run(Step(p, events[0]), events[1..])
  }

  /** Every run of events keeps the page consistent and leaves the loaded
      state as the effect left it. */
  lemma {:induction false} RunConsistent(p: Page, events: seq<Event>)
    requires Consistent(p) && (events != [] ==> Enabled(p))
    ensures Consistent(Run(p, events))
    ensures Run(p, events).load == p.load
    decreases |events|
  {
    if events != [] {
      RunConsistent(Step(p, events[0]), events[1..]);
    }
  }

  /** After a failed load no control is on the page, so no event can happen
      and the page shows no results: a corollary of `Mount`'s contract. */
  lemma FailedLoadShowsNoResults(f: Fetched)
    requires Mount(f).load.error != []
    ensures !Enabled(Mount(f))
    ensures Mount(f).results == Empty
  {
  }

  /** Searching twice in a row with the same query changes nothing the
      second time. */
  lemma PressIsIdempotent(p: Page)
    requires Enabled(p)
    ensures Step(Step(p, Press), Press) == Step(p, Press)
  {
    var q := Step(p, Press);
    if p.query != [] {
      assert q.results == Search(p.query, p.load.data, q.results);
    }
  }
}
