/**
 The name search behind the page's search button: keep the records whose
 name starts with the typed query, in dataset order, or report that nothing
 matched.
 */
module NameSearch {
  import opened Prefix
  import opened Records

  /** The filter callback: `item["الاسم"].startsWith(query)`. */
  predicate Matches(rec: Record, query: string)
  {
    StartsWith(rec.name, query)
  }

  /** `data.filter(...)`: the matching records, in order, duplicates kept. */
  function Filter(data: seq<Record>, query: string): (found: seq<Record>)
    ensures |found| <= |data|
    ensures forall k :: 0 <= k < |found| ==> Matches(found[k], query)
    ensures forall k :: 0 <= k < |found| ==> found[k] in data
  {
    if data == [] then []
    else if Matches(data[0], query) then [data[0]] + Filter(data[1..], query)
    else Filter(data[1..], query)
  }

  /** `handleSearch`, with the current query, the loaded data (`None` while
      nothing is loaded) and the results shown before the click. */
  function Search(query: string, data: Option<seq<Record>>, previous: Results): (r: Results)
    // An empty query is rejected with a prompt: nothing changes.
    ensures query == [] ==> r == previous
    // Without data there is nothing to filter: nothing changes.
    ensures data.None? ==> r == previous
    // Otherwise the results are never empty, and the sentinel appears
    // exactly when no record matches.
    ensures query != [] && data.Some? ==>
              && r != Empty
              && (r.NoMatch? <==> forall i :: 0 <= i < |data.value| ==> !Matches(data.value[i], query))
              && (r.Found? ==> |r.records| > 0)
    // Soundness: every record shown matches and comes from the data.
    ensures query != [] && data.Some? && r.Found? ==>
              forall k :: 0 <= k < |r.records| ==>
                Matches(r.records[k], query) && r.records[k] in data.value
  {
    if query == [] then previous
    else if data.None? then previous
    else
      FilterEmptyIff(data.value, query);
      var found := Filter(data.value, query);
      if |found| > 0 then Found(found) else NoMatch
  }

  /** The filter keeps nothing exactly when no record matches. */
  lemma {:induction false} FilterEmptyIff(data: seq<Record>, query: string)
    ensures Filter(data, query) == [] <==> forall i :: 0 <= i < |data| ==> !Matches(data[i], query)
  {
    if data != [] {
      FilterEmptyIff(data[1..], query);
      if forall i :: 0 <= i < |data[1..]| ==> !Matches(data[1..][i], query) {
        if !Matches(data[0], query) {
          forall i | 0 <= i < |data|
            ensures !Matches(data[i], query)
          {
            if i > 0 { assert data[i] == data[1..][i - 1]; }
          }
        }
      } else {
        var i :| 0 <= i < |data[1..]| && Matches(data[1..][i], query);
        assert data[i + 1] == data[1..][i];
      }
    }
  }

  /** Filtering distributes over concatenation. */
  lemma {:induction false} FilterConcat(a: seq<Record>, b: seq<Record>, query: string)
    ensures Filter(a + b, query) == Filter(a, query) + Filter(b, query)
  {
    if a == [] {
      assert a + b == b;
    } else {
      assert (a + b)[0] == a[0];
      assert (a + b)[1..] == a[1..] + b;
      FilterConcat(a[1..], b, query);
    }
  }

  /** Duplicates are kept: a matching record occurs in the result as often
      as in the data, a non-matching one not at all. */
  lemma {:induction false} FilterMultiplicity(data: seq<Record>, query: string, rec: Record)
    ensures multiset(Filter(data, query))[rec] ==
              if Matches(rec, query) then multiset(data)[rec] else 0
  {
    if data != [] {
      FilterMultiplicity(data[1..], query, rec);
      assert data == [data[0]] + data[1..];
      assert multiset(data) == multiset([data[0]]) + multiset(data[1..]);
      if Matches(data[0], query) {
        assert multiset([data[0]] + Filter(data[1..], query))
            == multiset([data[0]]) + multiset(Filter(data[1..], query));
      }
    }
  }

  /** `found` is `data` read at the positions `idx`. */
  ghost predicate Picks(data: seq<Record>, found: seq<Record>, idx: seq<int>)
  {
    && |idx| == |found|
    && forall k :: 0 <= k < |idx| ==> 0 <= idx[k] < |data| && found[k] == data[idx[k]]
  }

  /** The positions are listed in strictly increasing order. */
  ghost predicate Increasing(idx: seq<int>)
  {
    forall k, l :: 0 <= k < l < |idx| ==> idx[k] < idx[l]
  }

  /** Every listed position holds a matching record. */
  ghost predicate OnlyMatches(data: seq<Record>, idx: seq<int>, query: string)
  {
    forall k :: 0 <= k < |idx| ==> 0 <= idx[k] < |data| && Matches(data[idx[k]], query)
  }

  /** Every matching position is listed: `rank[i]` says where. */
  ghost predicate AllMatchesListed(data: seq<Record>, idx: seq<int>, rank: seq<int>, query: string)
  {
    && |rank| == |data|
    && forall i :: 0 <= i < |data| && Matches(data[i], query) ==>
         0 <= rank[i] < |idx| && idx[rank[i]] == i
  }

  /** `found` is obtained from `data` by taking, in increasing order, exactly
      the positions whose record matches the query: `idx` lists those
      positions and `rank` places each matching position in that list. */
  ghost predicate IsMatchSelection(data: seq<Record>, found: seq<Record>, idx: seq<int>, rank: seq<int>, query: string)
  {
    && Picks(data, found, idx)
    && Increasing(idx)
    && OnlyMatches(data, idx, query)
    && AllMatchesListed(data, idx, rank, query)
  }

  /** Every entry moved by `d`. */
  function Offset(s: seq<int>, d: int): (r: seq<int>)
    ensures |r| == |s| && forall k :: 0 <= k < |r| ==> r[k] == s[k] + d
  {
    seq(|s|, k requires 0 <= k < |s| => s[k] + d)
  }

  // Building a selection of `data` from one of `data[1..]`.

  lemma PicksCons(data: seq<Record>, found: seq<Record>, idx: seq<int>)
    requires |data| > 0 && Picks(data[1..], found, idx)
    ensures Picks(data, found, Offset(idx, 1))
    ensures Picks(data, [data[0]] + found, [0] + Offset(idx, 1))
  {
  }

  lemma IncreasingCons(idx: seq<int>)
    requires Increasing(idx) && forall k :: 0 <= k < |idx| ==> 0 <= idx[k]
    ensures Increasing(Offset(idx, 1)) && Increasing([0] + Offset(idx, 1))
  {
  }

  lemma OnlyMatchesCons(data: seq<Record>, idx: seq<int>, query: string)
    requires |data| > 0 && OnlyMatches(data[1..], idx, query)
    ensures OnlyMatches(data, Offset(idx, 1), query)
    ensures Matches(data[0], query) ==> OnlyMatches(data, [0] + Offset(idx, 1), query)
  {
  }

  lemma AllListedConsMatching(data: seq<Record>, idx: seq<int>, rank: seq<int>, query: string)
    requires |data| > 0 && AllMatchesListed(data[1..], idx, rank, query)
    ensures AllMatchesListed(data, [0] + Offset(idx, 1), [0] + Offset(rank, 1), query)
  {
  }

  lemma AllListedConsSkipping(data: seq<Record>, idx: seq<int>, rank: seq<int>, query: string)
    requires |data| > 0 && !Matches(data[0], query)
    requires AllMatchesListed(data[1..], idx, rank, query)
    ensures AllMatchesListed(data, Offset(idx, 1), [0] + rank, query)
  {
  }

  /** The positions the filter takes its records from, built alongside it. */
  lemma {:induction false} FilterSelection(data: seq<Record>, query: string) returns (idx: seq<int>, rank: seq<int>)
    ensures IsMatchSelection(data, Filter(data, query), idx, rank, query)
  {
    if data == [] {
      idx, rank := [], [];
    } else {
      var idx0, rank0 := FilterSelection(data[1..], query);
      PicksCons(data, Filter(data[1..], query), idx0);
      IncreasingCons(idx0);
      OnlyMatchesCons(data, idx0, query);
      if Matches(data[0], query) {
        AllListedConsMatching(data, idx0, rank0, query);
        idx, rank := [0] + Offset(idx0, 1), [0] + Offset(rank0, 1);
      } else {
        AllListedConsSkipping(data, idx0, rank0, query);
        idx, rank := Offset(idx0, 1), [0] + rank0;
      }
    }
  }

  /** Completeness and order: the filter result is the in-order selection of
      exactly the matching positions. */
  lemma FilterIsMatchSelection(data: seq<Record>, query: string)
    ensures exists idx, rank :: IsMatchSelection(data, Filter(data, query), idx, rank, query)
  {
    var idx, rank := FilterSelection(data, query);
  }

  // Taking a selection of `data` apart into one of `data[1..]`.

  /** A selection whose data starts with a matching record picks it first. */
  lemma SelectionPicksHead(data: seq<Record>, found: seq<Record>, idx: seq<int>, rank: seq<int>, query: string)
    requires IsMatchSelection(data, found, idx, rank, query)
    requires |data| > 0 && Matches(data[0], query)
    ensures |idx| > 0 && idx[0] == 0 && found[0] == data[0]
    ensures forall k :: 0 < k < |idx| ==> idx[k] > 0
  {
  }

  /** A selection whose data starts with a non-matching record never picks it. */
  lemma SelectionSkipsHead(data: seq<Record>, idx: seq<int>, query: string)
    requires OnlyMatches(data, idx, query)
    requires |data| > 0 && !Matches(data[0], query)
    ensures forall k :: 0 <= k < |idx| ==> idx[k] > 0
  {
  }

  lemma PicksTail(data: seq<Record>, found: seq<Record>, idx: seq<int>)
    requires |data| > 0 && Picks(data, found, idx)
    requires forall k :: 0 <= k < |idx| ==> idx[k] > 0
    ensures Picks(data[1..], found, Offset(idx, -1))
  {
  }

  lemma IncreasingTail(idx: seq<int>)
    requires Increasing(idx)
    ensures Increasing(Offset(idx, -1))
    ensures |idx| > 0 ==> Increasing(idx[1..])
  {
  }

  lemma OnlyMatchesTail(data: seq<Record>, idx: seq<int>, query: string)
    requires |data| > 0 && OnlyMatches(data, idx, query)
    requires forall k :: 0 <= k < |idx| ==> idx[k] > 0
    ensures OnlyMatches(data[1..], Offset(idx, -1), query)
  {
  }

  lemma AllListedTailMatching(data: seq<Record>, idx: seq<int>, rank: seq<int>, query: string)
    requires |data| > 0 && AllMatchesListed(data, idx, rank, query)
    requires |idx| > 0 && idx[0] == 0
    ensures AllMatchesListed(data[1..], Offset(idx[1..], -1), Offset(rank[1..], -1), query)
  {
  }

  lemma AllListedTailSkipping(data: seq<Record>, idx: seq<int>, rank: seq<int>, query: string)
    requires |data| > 0 && AllMatchesListed(data, idx, rank, query)
    ensures AllMatchesListed(data[1..], Offset(idx, -1), rank[1..], query)
  {
  }

  /** After the head is picked, the rest of the selection is one of the tail. */
  lemma SelectionTailMatching(data: seq<Record>, found: seq<Record>, idx: seq<int>, rank: seq<int>, query: string)
    requires IsMatchSelection(data, found, idx, rank, query)
    requires |data| > 0 && Matches(data[0], query)
    ensures |found| > 0 && found[0] == data[0]
    ensures IsMatchSelection(data[1..], found[1..], Offset(idx[1..], -1), Offset(rank[1..], -1), query)
  {
    SelectionPicksHead(data, found, idx, rank, query);
    var rest := idx[1..];
    assert Picks(data, found[1..], rest) && OnlyMatches(data, rest, query) by {
      forall k | 0 <= k < |rest|
        ensures 0 <= rest[k] < |data| && found[1..][k] == data[rest[k]] && Matches(data[rest[k]], query)
      {
        assert rest[k] == idx[k + 1] && found[1..][k] == found[k + 1];
      }
    }
    assert forall k :: 0 <= k < |rest| ==> rest[k] > 0 by {
      forall k | 0 <= k < |rest|
        ensures rest[k] > 0
      {
        assert rest[k] == idx[k + 1];
      }
    }
    PicksTail(data, found[1..], rest);
    IncreasingTail(idx);
    IncreasingTail(rest);
    OnlyMatchesTail(data, rest, query);
    AllListedTailMatching(data, idx, rank, query);
  }

  /** A selection whose data starts with a non-matching record skips it;
      the whole selection is one of the tail. */
  lemma SelectionTailSkipping(data: seq<Record>, found: seq<Record>, idx: seq<int>, rank: seq<int>, query: string)
    requires IsMatchSelection(data, found, idx, rank, query)
    requires |data| > 0 && !Matches(data[0], query)
    ensures IsMatchSelection(data[1..], found, Offset(idx, -1), rank[1..], query)
  {
    SelectionSkipsHead(data, idx, query);
    PicksTail(data, found, idx);
    IncreasingTail(idx);
    OnlyMatchesTail(data, idx, query);
    AllListedTailSkipping(data, idx, rank, query);
  }

  /** The converse: any in-order selection of exactly the matching positions
      is the filter result, so the result is determined by the data alone. */
  lemma {:induction false} MatchSelectionIsFilter(data: seq<Record>, found: seq<Record>, idx: seq<int>, rank: seq<int>, query: string)
    requires IsMatchSelection(data, found, idx, rank, query)
    ensures found == Filter(data, query)
    decreases |data|
  {
    if data == [] {
    } else if Matches(data[0], query) {
      SelectionTailMatching(data, found, idx, rank, query);
      MatchSelectionIsFilter(data[1..], found[1..], Offset(idx[1..], -1), Offset(rank[1..], -1), query);
      assert Filter(data, query) == [data[0]] + Filter(data[1..], query);
      assert found == [found[0]] + found[1..];
    } else {
      SelectionTailSkipping(data, found, idx, rank, query);
      MatchSelectionIsFilter(data[1..], found, Offset(idx, -1), rank[1..], query);
      assert Filter(data, query) == Filter(data[1..], query);
    }
  }

  /** The search shows exactly the in-order selection of the matching
      records: what it finds is such a selection, and any non-empty such
      selection is what it finds. */
  lemma SearchIsMatchSelection(query: string, data: seq<Record>, previous: Results)
    requires query != []
    ensures Search(query, Some(data), previous).Found? ==>
              exists idx, rank :: IsMatchSelection(data, Search(query, Some(data), previous).records, idx, rank, query)
    ensures forall found, idx, rank | IsMatchSelection(data, found, idx, rank, query) && found != [] ::
              Search(query, Some(data), previous) == Found(found)
  {
    FilterIsMatchSelection(data, query);
    forall found, idx, rank | IsMatchSelection(data, found, idx, rank, query) && found != []
      ensures Search(query, Some(data), previous) == Found(found)
    {
      MatchSelectionIsFilter(data, found, idx, rank, query);
    }
  }

  /** Typing more of a name narrows the search: filtering with a longer
      query gives what filtering the shorter query's result would give. */
  lemma {:induction false} FilterNarrows(data: seq<Record>, shorter: string, longer: string)
    requires StartsWith(longer, shorter)
    ensures Filter(Filter(data, shorter), longer) == Filter(data, longer)
  {
    if data != [] {
      FilterNarrows(data[1..], shorter, longer);
      if Matches(data[0], longer) {
        StartsWithTransitive(data[0].name, longer, shorter);
      }
    }
  }

  /** Names are compared exactly as stored: a query spelled with a bare alef
      does not find a name spelled with a hamza on the alef. */
  lemma NoLetterNormalisation()
    ensures var hamza := Record("أحمد علي", map[]);
            var bare := Record("احمد سامي", map[]);
            Search("احمد", Some([hamza, bare]), Empty) == Found([bare])
  {
  }

  /** `data.filter(...)` as the engine runs it: one pass over the data,
      appending each matching record. */
  method FilterScan(data: seq<Record>, query: string) returns (found: seq<Record>)
    ensures found == Filter(data, query)
  {
    found := [];
    var i := 0;
    while i < |data|
      invariant 0 <= i <= |data|
      invariant found == Filter(data[..i], query)
    {
      FilterConcat(data[..i], [data[i]], query);
      assert data[..i + 1] == data[..i] + [data[i]];
      if StartsWith(data[i].name, query) {
        found := found + [data[i]];
      }
      i := i + 1;
    }
    assert data[..i] == data;
  }

  /** `handleSearch` with the filter run as a loop. */
  method SearchScan(query: string, data: Option<seq<Record>>, previous: Results) returns (r: Results)
    ensures r == Search(query, data, previous)
  {
    if query == [] || data.None? {
      return previous;
    }
    var found := FilterScan(data.value, query);
    if |found| > 0 {
      r := Found(found);
    } else {
      r := NoMatch;
    }
  }
}
