/**
 * groupBySeries (frontend/src/utils/groupSeries.ts): search results grouped
 * under each of their series' names, or under "Standalone" when they have
 * none, groups in the order their names first appear, and each group's
 * books ordered by the number of their first series.
 */
module GroupSeries {
  import opened Strings
  import Lists
  import S = UseSearchStore

  datatype SeriesGroup = SeriesGroup(seriesName: string, books: seq<S.SearchResult>)

  /** The reduce's accumulator: the record's keys in insertion order, and
      the record itself. */
  datatype Acc = Acc(order: seq<string>, groups: map<string, seq<S.SearchResult>>)

  const Standalone: string := "Standalone"

  /** The default series number when the first series has none. */
  const NoNumber: string := "999"

  predicate Distinct(s: seq<string>)
  {
    forall i, j :: 0 <= i < j < |s| ==> s[i] != s[j]
  }

  /** The keys in order are exactly the record's keys, each once. */
  predicate Valid(a: Acc)
  {
    Distinct(a.order) && (forall i :: 0 <= i < |a.order| ==> a.order[i] in a.groups) &&
    (forall k :: k in a.groups ==> k in a.order)
  }

  /** `acc[k] || []`. */
  function Get(m: map<string, seq<S.SearchResult>>, k: string): seq<S.SearchResult>
  {
    if k in m then m[k] else []
  }

  /** The number of books over the named groups. */
  function SumSizes(order: seq<string>, groups: map<string, seq<S.SearchResult>>): nat
  {
    if order == [] then 0
    else SumSizes(order[..|order| - 1], groups) + |Get(groups, order[|order| - 1])|
  }

  function Total(a: Acc): nat
  {
    SumSizes(a.order, a.groups)
  }

  /** The names of a result's series. */
  function NamesOf(series: seq<S.SeriesRef>): set<string>
  {
    set i | 0 <= i < |series| :: series[i].name
  }

  /** Where a result belongs: under "Standalone" when it has no series,
      otherwise under each of its series' names. */
  predicate InGroup(k: string, x: S.SearchResult)
  {
    (|x.series| == 0 && k == Standalone) || k in NamesOf(x.series)
  }

  /** The books each result contributes: one per series, at least one. */
  function Books(results: seq<S.SearchResult>): nat
  {
    if results == [] then 0
    else Books(results[..|results| - 1]) + (if |results[|results| - 1].series| == 0 then 1 else |results[|results| - 1].series|)
  }

  /** The copies of r one series list files under k: one per entry named k. */
  function Copies(series: seq<S.SeriesRef>, k: string, r: S.SearchResult): seq<S.SearchResult>
  {
    if series == [] then [] else (if series[0].name == k then [r] else []) + Copies(series[1..], k, r)
  }

  /** What one result files under k. */
  function Filed(r: S.SearchResult, k: string): seq<S.SearchResult>
  {
    if |r.series| == 0 then (if k == Standalone then [r] else []) else Copies(r.series, k, r)
  }

  /** The specification of one group: what the results file under k, in
      the results' order. */
  function Members(results: seq<S.SearchResult>, k: string): seq<S.SearchResult>
  {
    if results == [] then [] else Members(results[..|results| - 1], k) + Filed(results[|results| - 1], k)
  }

  // ---------------------------------------------------------------------------
  // The reduce
  // ---------------------------------------------------------------------------

  /** `acc[name] = [...(acc[name] || []), r]`: a new name goes last. */
  function Append(a: Acc, name: string, r: S.SearchResult): (b: Acc)
    requires Valid(a)
    ensures Valid(b)
  {
    var b := Acc(if name in a.groups then a.order else a.order + [name], a.groups[name := Get(a.groups, name) + [r]]);
    assert name !in a.groups ==> name !in a.order;
    assert forall i :: 0 <= i < |a.order| ==> b.order[i] == a.order[i];
    assert name in b.order;
    b
  }

  /** `r.series.forEach(s => acc[s.name] = [...(acc[s.name] || []), r])`. */
  function AddSeries(a: Acc, series: seq<S.SeriesRef>, r: S.SearchResult): (b: Acc)
    requires Valid(a)
    ensures Valid(b)
    decreases |series|
  {
    if series == [] then a else AddSeries(Append(a, series[0].name, r), series[1..], r)
  }

  /** One step of the reduce. */
  function AddResult(a: Acc, r: S.SearchResult): (b: Acc)
    requires Valid(a)
    ensures Valid(b)
  {
    if |r.series| == 0 then Append(a, Standalone, r) else AddSeries(a, r.series, r)
  }

  /** `results.reduce(..., {})`. */
  function Reduce(results: seq<S.SearchResult>): (a: Acc)
    ensures Valid(a)
  {
    if results == [] then Acc([], map[]) else AddResult(Reduce(results[..|results| - 1]), results[|results| - 1])
  }

  /** The first series' number, or "999" when there is none or it is empty. */
  function FirstNumber(r: S.SearchResult): string
  {
    if |r.series| > 0 && r.series[0].number != [] then r.series[0].number else NoNumber
  }

  /** The sort key, given the reading of a series number as a number. */
  function NumberKey(parse: string -> int): S.SearchResult -> int
  {
    r => parse(FirstNumber(r))
  }

  /** groupBySeries. `parse` stands for parseFloat. */
  function GroupBySeries(results: seq<S.SearchResult>, parse: string -> int): (groups: seq<SeriesGroup>)
    ensures |groups| == |Reduce(results).order|
    ensures forall i :: 0 <= i < |groups| ==>
              groups[i].seriesName == Reduce(results).order[i] &&
              multiset(groups[i].books) == multiset(Get(Reduce(results).groups, groups[i].seriesName))
    ensures forall i :: 0 <= i < |groups| ==> Lists.SortedBy(groups[i].books, NumberKey(parse))
  {
    var a := Reduce(results);
    SortedGroups(a.groups, NumberKey(parse));
    seq(|a.order|, i requires 0 <= i < |a.order| => SeriesGroup(a.order[i], Lists.SortBy(Get(a.groups, a.order[i]), NumberKey(parse))))
  }

  /** Every list of the record, once sorted, is in key order. */
  lemma SortedGroups(groups: map<string, seq<S.SearchResult>>, key: S.SearchResult -> int)
    ensures forall k :: Lists.SortedBy(Lists.SortBy(Get(groups, k), key), key)
  {
    forall k {
      Lists.SortBySorted(Get(groups, k), key);
    }
  }

  // ---------------------------------------------------------------------------
  // The reduce builds the groups the specification describes
  // ---------------------------------------------------------------------------

  lemma {:induction false} AddSeriesGet(a: Acc, series: seq<S.SeriesRef>, r: S.SearchResult, k: string)
    requires Valid(a)
    ensures Get(AddSeries(a, series, r).groups, k) == Get(a.groups, k) + Copies(series, k, r)
    decreases |series|
  {
    if series != [] {
      var a' := Append(a, series[0].name, r);
      AddSeriesGet(a', series[1..], r, k);
    }
  }

  /** Each group the reduce builds is the group the specification describes. */
  lemma {:induction false} ReduceGet(results: seq<S.SearchResult>, k: string)
    ensures Get(Reduce(results).groups, k) == Members(results, k)
  {
    if results != [] {
      var init := results[..|results| - 1];
      var r := results[|results| - 1];
      ReduceGet(init, k);
      if |r.series| != 0 {
        AddSeriesGet(Reduce(init), r.series, r, k);
      }
    }
  }

  lemma {:induction false} CopiesHold(series: seq<S.SeriesRef>, k: string, r: S.SearchResult, x: S.SearchResult)
    ensures x in Copies(series, k, r) <==> x == r && k in NamesOf(series)
  {
    if series != [] {
      CopiesHold(series[1..], k, r, x);
      assert NamesOf(series) == {series[0].name} + NamesOf(series[1..]) by {
        forall n | n in NamesOf(series) ensures n in {series[0].name} + NamesOf(series[1..]) {
          var i :| 0 <= i < |series| && series[i].name == n;
          if i > 0 {
            assert series[1..][i - 1].name == n;
          }
        }
        forall n | n in NamesOf(series[1..]) ensures n in NamesOf(series) {
          var i :| 0 <= i < |series[1..]| && series[1..][i].name == n;
          assert series[i + 1].name == n;
        }
      }
    }
  }

  /** A group holds exactly the results that belong under its name. */
  lemma {:induction false} MembersHold(results: seq<S.SearchResult>, k: string, x: S.SearchResult)
    ensures x in Members(results, k) <==> x in results && InGroup(k, x)
  {
    if results != [] {
      var init := results[..|results| - 1];
      var r := results[|results| - 1];
      MembersHold(init, k, x);
      if |r.series| != 0 {
        CopiesHold(r.series, k, r, x);
      }
      assert x in results <==> x in init || x == r;
    }
  }

  // ---------------------------------------------------------------------------
  // Properties of the grouping
  // ---------------------------------------------------------------------------

  /** A group name is present exactly when something belongs under it. */
  lemma {:induction false} ReduceKeys(results: seq<S.SearchResult>, k: string)
    ensures k in Reduce(results).groups <==> Members(results, k) != []
  {
    if results != [] {
      var init := results[..|results| - 1];
      var r := results[|results| - 1];
      ReduceKeys(init, k);
      ReduceGet(init, k);
      ReduceGet(results, k);
      if |r.series| != 0 {
        AddSeriesKeys(Reduce(init), r.series, r, k);
        CopiesHold(r.series, k, r, r);
      }
    }
  }

  lemma {:induction false} AddSeriesKeys(a: Acc, series: seq<S.SeriesRef>, r: S.SearchResult, k: string)
    requires Valid(a)
    ensures k in AddSeries(a, series, r).groups <==> k in a.groups || Copies(series, k, r) != []
    decreases |series|
  {
    if series != [] {
      AddSeriesKeys(Append(a, series[0].name, r), series[1..], r, k);
    }
  }

  /** Each output group holds exactly the results that belong under its
      name, and every name something belongs under has a group. */
  lemma GroupsAreTheMembers(results: seq<S.SearchResult>, parse: string -> int, x: S.SearchResult)
    ensures forall i :: 0 <= i < |GroupBySeries(results, parse)| ==>
              (x in GroupBySeries(results, parse)[i].books <==>
               x in results && InGroup(GroupBySeries(results, parse)[i].seriesName, x))
    ensures forall k :: x in results && InGroup(k, x) ==>
              exists i :: 0 <= i < |GroupBySeries(results, parse)| && GroupBySeries(results, parse)[i].seriesName == k
  {
    var g := GroupBySeries(results, parse);
    forall i | 0 <= i < |g|
      ensures x in g[i].books <==> x in results && InGroup(g[i].seriesName, x)
    {
      GroupHolds(results, parse, x, i);
    }
    forall k | x in results && InGroup(k, x)
      ensures exists i :: 0 <= i < |g| && g[i].seriesName == k
    {
      GroupExists(results, parse, x, k);
    }
  }

  /** One output group holds exactly the results that belong under its name. */
  lemma GroupHolds(results: seq<S.SearchResult>, parse: string -> int, x: S.SearchResult, i: nat)
    requires i < |GroupBySeries(results, parse)|
    ensures var g := GroupBySeries(results, parse)[i];
            x in g.books <==> x in results && InGroup(g.seriesName, x)
  {
    var g := GroupBySeries(results, parse)[i];
    var a := Reduce(results);
    assert multiset(g.books) == multiset(Get(a.groups, g.seriesName));
    ReduceGet(results, g.seriesName);
    MembersHold(results, g.seriesName, x);
    assert x in g.books <==> x in multiset(g.books);
  }

  /** A name some result belongs under has an output group. */
  lemma GroupExists(results: seq<S.SearchResult>, parse: string -> int, x: S.SearchResult, k: string)
    requires x in results && InGroup(k, x)
    ensures exists i :: 0 <= i < |GroupBySeries(results, parse)| && GroupBySeries(results, parse)[i].seriesName == k
  {
    var a := Reduce(results);
    MembersHold(results, k, x);
    ReduceKeys(results, k);
    var i :| 0 <= i < |a.order| && a.order[i] == k;
    assert GroupBySeries(results, parse)[i].seriesName == k;
  }

  /** The groups hold Σ max(1, |series|) books in all, and their names are
      distinct. */
  lemma GroupTotal(results: seq<S.SearchResult>, parse: string -> int)
    ensures GroupSizes(GroupBySeries(results, parse)) == Books(results)
    ensures forall i, j :: 0 <= i < j < |GroupBySeries(results, parse)| ==>
              GroupBySeries(results, parse)[i].seriesName != GroupBySeries(results, parse)[j].seriesName
  {
    var a := Reduce(results);
    var g := GroupBySeries(results, parse);
    forall i | 0 <= i < |g| ensures |g[i].books| == |Get(a.groups, a.order[i])| {
      assert |multiset(g[i].books)| == |multiset(Get(a.groups, a.order[i]))|;
    }
    GroupSizesAre(g, a.order, a.groups);
    ReduceTotal(results);
  }

  function GroupSizes(groups: seq<SeriesGroup>): nat
  {
    if groups == [] then 0 else GroupSizes(groups[..|groups| - 1]) + |groups[|groups| - 1].books|
  }

  lemma {:induction false} GroupSizesAre(groups: seq<SeriesGroup>, order: seq<string>, m: map<string, seq<S.SearchResult>>)
    requires |groups| == |order|
    requires forall i :: 0 <= i < |groups| ==> |groups[i].books| == |Get(m, order[i])|
    ensures GroupSizes(groups) == SumSizes(order, m)
  {
    if groups != [] {
      GroupSizesAre(groups[..|groups| - 1], order[..|order| - 1], m);
    }
  }

  lemma AppendTotal(a: Acc, name: string, r: S.SearchResult)
    requires Valid(a)
    ensures Total(Append(a, name, r)) == Total(a) + 1
  {
    var b := Append(a, name, r);
    if name in a.groups {
      SumSizesUpdate(a.order, a.groups, name, Get(a.groups, name) + [r]);
    } else {
      SumSizesFrame(a.order, a.groups, b.groups);
      assert b.order[..|b.order| - 1] == a.order;
    }
  }

  lemma {:induction false} AddSeriesTotal(a: Acc, series: seq<S.SeriesRef>, r: S.SearchResult)
    requires Valid(a)
    ensures Total(AddSeries(a, series, r)) == Total(a) + |series|
    decreases |series|
  {
    if series != [] {
      AppendTotal(a, series[0].name, r);
      AddSeriesTotal(Append(a, series[0].name, r), series[1..], r);
    }
  }

  lemma {:induction false} ReduceTotal(results: seq<S.SearchResult>)
    ensures Total(Reduce(results)) == Books(results)
  {
    if results != [] {
      var init := results[..|results| - 1];
      var r := results[|results| - 1];
      ReduceTotal(init);
      if |r.series| == 0 {
        AppendTotal(Reduce(init), Standalone, r);
      } else {
        AddSeriesTotal(Reduce(init), r.series, r);
      }
    }
  }

  // ---------------------------------------------------------------------------
  // Sums over the record
  // ---------------------------------------------------------------------------

  /** Entries the update does not touch keep the sum. */
  lemma {:induction false} SumSizesFrame(order: seq<string>, m: map<string, seq<S.SearchResult>>,
                                         m': map<string, seq<S.SearchResult>>)
    requires forall i :: 0 <= i < |order| ==> Get(m', order[i]) == Get(m, order[i])
    ensures SumSizes(order, m') == SumSizes(order, m)
  {
    if order != [] {
      SumSizesFrame(order[..|order| - 1], m, m');
    }
  }

  /** Replacing one entry's list changes the sum by the change in its length. */
  lemma {:induction false} SumSizesUpdate(order: seq<string>, m: map<string, seq<S.SearchResult>>, k: string,
                                          v: seq<S.SearchResult>)
    requires Distinct(order) && k in order
    ensures SumSizes(order, m[k := v]) == SumSizes(order, m) - |Get(m, k)| + |v|
  {
    var init := order[..|order| - 1];
    var last := order[|order| - 1];
    if last == k {
      assert k !in init by {
        forall i | 0 <= i < |init| ensures init[i] != k {
          assert init[i] == order[i];
        }
      }
      SumSizesFrame(init, m, m[k := v]);
    } else {
      assert k in init by {
        var i :| 0 <= i < |order| && order[i] == k;
        assert i < |init|;
        assert init[i] == k;
      }
      SumSizesUpdate(init, m, k, v);
    }
  }
}
