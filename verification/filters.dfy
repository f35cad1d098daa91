/**
 * The master -> detail filter pipeline of `onPerspectiveClick` and
 * `filterWidget` (phosphor/workspace.js) as pure functions: the candidate
 * columns of the clicked master panel, and the filters one detail panel ends
 * up with.
 */
module Filters {
  import opened Wrappers
  import opened Seqs
  import opened Config

  /** The columns a filter list mentions. */
  function ColumnsIn(s: seq<Filter>): set<string>
  {
    set f | f in s :: f.column
  }

  /**
   * The candidate set of a clicked panel's saved configuration: its row
   * pivots, column pivots and filtered columns, a missing field counting as
   * empty.
   */
  function Candidates(config: Config): (r: set<string>)
    ensures forall c :: c in ColumnsOr(config, "row-pivots") ==> c in r
    ensures forall c :: c in ColumnsOr(config, "column-pivots") ==> c in r
    ensures forall f :: f in FiltersOf(config) ==> f.column in r
    ensures forall c :: c in r ==>
      c in ColumnsOr(config, "row-pivots") || c in ColumnsOr(config, "column-pivots") || c in ColumnsIn(FiltersOf(config))
  {
    var all := ColumnsOr(config, "row-pivots") + ColumnsOr(config, "column-pivots")
               + MapSeq((f: Filter) => f.column, FiltersOf(config));
    set c | c in all
  }

  /** `filter[0] && availableColumns.includes(filter[0])` */
  predicate ColumnAvailable(f: Filter, available: seq<string>)
  {
    f.column != "" && f.column in available
  }

  /** `filters.filter(columnAvailable)` */
  function KeepAvailable(incoming: seq<Filter>, available: seq<string>): (r: seq<Filter>)
    ensures forall f :: f in r <==> f in incoming && ColumnAvailable(f, available)
  {
    if incoming == [] then []
    else if ColumnAvailable(incoming[0], available) then [incoming[0]] + KeepAvailable(incoming[1..], available)
    else KeepAvailable(incoming[1..], available)
  }

  /** `currentFilters.filter(x => !candidates.has(x[0]))` */
  function KeepUnrelated(current: seq<Filter>, candidates: set<string>): (r: seq<Filter>)
    ensures forall f :: f in r <==> f in current && f.column !in candidates
  {
    if current == [] then []
    else if current[0].column !in candidates then [current[0]] + KeepUnrelated(current[1..], candidates)
    else KeepUnrelated(current[1..], candidates)
  }

  /**
   * `KeepAvailable` is `Array.filter` with `ColumnAvailable`: it splits over
   * concatenation, and keeps a single filter exactly when its column is
   * available, so it keeps the passing filters, each as often as given, in
   * their order.
   */
  lemma {:induction false} KeepAvailableIsFilter(a: seq<Filter>, b: seq<Filter>, available: seq<string>)
    ensures KeepAvailable(a + b, available) == KeepAvailable(a, available) + KeepAvailable(b, available)
    ensures forall f :: KeepAvailable([f], available) == if ColumnAvailable(f, available) then [f] else []
  {
    if a != [] {
      assert (a + b)[1..] == a[1..] + b;
      KeepAvailableIsFilter(a[1..], b, available);
    } else {
      assert a + b == b;
    }
    forall f ensures KeepAvailable([f], available) == if ColumnAvailable(f, available) then [f] else [] {
      assert [f][1..] == [];
    }
  }

  /** The same for `KeepUnrelated`, which is `Array.filter` with "column not a candidate". */
  lemma {:induction false} KeepUnrelatedIsFilter(a: seq<Filter>, b: seq<Filter>, candidates: set<string>)
    ensures KeepUnrelated(a + b, candidates) == KeepUnrelated(a, candidates) + KeepUnrelated(b, candidates)
    ensures forall f :: KeepUnrelated([f], candidates) == if f.column !in candidates then [f] else []
  {
    if a != [] {
      assert (a + b)[1..] == a[1..] + b;
      KeepUnrelatedIsFilter(a[1..], b, candidates);
    } else {
      assert a + b == b;
    }
    forall f ensures KeepUnrelated([f], candidates) == if f.column !in candidates then [f] else [] {
      assert [f][1..] == [];
    }
  }

  /** The first filter of `s` on column `c`, if any. */
  function FirstOn(s: seq<Filter>, c: string): Option<Filter>
  {
    if s == [] then None else if s[0].column == c then Some(s[0]) else FirstOn(s[1..], c)
  }

  /** No two filters of `s` are on the same column. */
  predicate UniqueColumns(s: seq<Filter>)
  {
    forall i, j :: 0 <= i < j < |s| ==> s[i].column != s[j].column
  }

  /** `s[i]` is the first filter of `s` on its column. */
  predicate FirstOfColumn(s: seq<Filter>, i: int)
    requires 0 <= i < |s|
  {
    forall j :: 0 <= j < i ==> s[j].column != s[i].column
  }

  /**
   * lodash `uniqBy(s, f => f[0])` continued after the columns in `seen`:
   * keep a filter when its column has not been seen yet.
   */
  function UniqFrom(s: seq<Filter>, seen: set<string>): (r: seq<Filter>)
    ensures forall f :: f in r ==> f in s && f.column !in seen
    ensures UniqueColumns(r)
    ensures forall f :: f in s ==> f.column in seen || f.column in ColumnsIn(r)
  {
    if s == [] then []
    else if s[0].column in seen then UniqFrom(s[1..], seen)
    else
      var rest := UniqFrom(s[1..], seen + {s[0].column});
      assert forall f :: f in rest ==> f.column != s[0].column;
      [s[0]] + rest
  }

  /** `uniqBy(s, f => f[0])` */
  function UniqByColumn(s: seq<Filter>): seq<Filter>
  {
    UniqFrom(s, {})
  }

  /** Reference definition: the filters of `s[i..]` that come first on their column in `s`, in order. */
  function FirstOccurrencesFrom(s: seq<Filter>, i: nat): seq<Filter>
    requires i <= |s|
    decreases |s| - i
  {
    if i == |s| then []
    else (if FirstOfColumn(s, i) then [s[i]] else []) + FirstOccurrencesFrom(s, i + 1)
  }

  function FirstOccurrences(s: seq<Filter>): seq<Filter>
  {
    FirstOccurrencesFrom(s, 0)
  }

  lemma {:induction false} UniqFromIsFirstOccurrences(s: seq<Filter>, i: nat)
    requires i <= |s|
    ensures UniqFrom(s[i..], ColumnsIn(s[..i])) == FirstOccurrencesFrom(s, i)
    decreases |s| - i
  {
    if i < |s| {
      UniqFromIsFirstOccurrences(s, i + 1);
      assert s[..i + 1] == s[..i] + [s[i]];
      assert ColumnsIn(s[..i + 1]) == ColumnsIn(s[..i]) + {s[i].column};
      assert s[i..][1..] == s[i + 1..];
      if FirstOfColumn(s, i) {
        assert s[i].column !in ColumnsIn(s[..i]);
      } else {
        var j :| 0 <= j < i && s[j].column == s[i].column;
        assert s[j] in s[..i];
        assert ColumnsIn(s[..i + 1]) == ColumnsIn(s[..i]);
      }
    }
  }

  /** Deduplicating by column keeps exactly the first filter on each column, in their original order. */
  lemma UniqByColumnIsFirstOccurrences(s: seq<Filter>)
    ensures UniqByColumn(s) == FirstOccurrences(s)
  {
    UniqFromIsFirstOccurrences(s, 0);
    assert s[0..] == s && s[..0] == [];
    assert ColumnsIn(s[..0]) == {};
  }

  lemma {:induction false} FirstOccurrencesFromMember(s: seq<Filter>, i: nat, k: int)
    requires i <= k < |s| && FirstOfColumn(s, k)
    ensures s[k] in FirstOccurrencesFrom(s, i)
    decreases |s| - i
  {
    if i < k { FirstOccurrencesFromMember(s, i + 1, k); }
  }

  /** The first filter on any column always survives deduplication. */
  lemma FirstOccurrenceKept(s: seq<Filter>, k: int)
    requires 0 <= k < |s| && FirstOfColumn(s, k)
    ensures s[k] in UniqByColumn(s)
  {
    UniqByColumnIsFirstOccurrences(s);
    FirstOccurrencesFromMember(s, 0, k);
  }

  /**
   * The filters a detail panel is restored with: the incoming filters its
   * schema can take, then its own filters on non-candidate columns,
   * deduplicated by column with the first occurrence winning.
   */
  function PropagatedFilters(candidates: set<string>, incoming: seq<Filter>, available: seq<string>,
                             current: seq<Filter>): seq<Filter>
  {
    UniqByColumn(KeepAvailable(incoming, available) + KeepUnrelated(current, candidates))
  }

  lemma {:induction false} FirstOccurrencesFromSource(s: seq<Filter>, i: nat, x: Filter) returns (k: int)
    requires i <= |s| && x in FirstOccurrencesFrom(s, i)
    ensures i <= k < |s| && FirstOfColumn(s, k) && s[k] == x
    decreases |s| - i
  {
    if FirstOfColumn(s, i) && x == s[i] {
      k := i;
    } else {
      k := FirstOccurrencesFromSource(s, i + 1, x);
    }
  }

  /** A filter first on its column is what `FirstOn` finds for that column. */
  lemma {:induction false} FirstOnFirstOfColumn(s: seq<Filter>, k: int)
    requires 0 <= k < |s| && FirstOfColumn(s, k)
    ensures FirstOn(s, s[k].column) == Some(s[k])
    decreases k
  {
    if k > 0 {
      assert s[0].column != s[k].column;
      forall j | 0 <= j < k - 1 ensures s[1..][j].column != s[1..][k - 1].column {
        assert s[1..][j] == s[j + 1];
      }
      FirstOnFirstOfColumn(s[1..], k - 1);
    }
  }

  /**
   * What a detail panel keeps: only incoming filters on columns its schema
   * has and its own filters off the candidate columns; one filter per
   * column; every such column represented; and on a column the incoming
   * filters mention, the first available incoming filter wins.
   */
  lemma PropagatedFiltersSpec(candidates: set<string>, incoming: seq<Filter>, available: seq<string>,
                              current: seq<Filter>)
    ensures var r := PropagatedFilters(candidates, incoming, available, current);
      && (forall f :: f in r ==>
            (f in incoming && ColumnAvailable(f, available)) || (f in current && f.column !in candidates))
      && UniqueColumns(r)
      && (forall f :: f in incoming && ColumnAvailable(f, available) ==> f.column in ColumnsIn(r))
      && (forall f :: f in current && f.column !in candidates ==> f.column in ColumnsIn(r))
      && (forall g, f :: g in r && f in incoming && ColumnAvailable(f, available) && g.column == f.column ==>
            FirstOn(KeepAvailable(incoming, available), g.column) == Some(g))
  {
    var a := KeepAvailable(incoming, available);
    var s := a + KeepUnrelated(current, candidates);
    var r := PropagatedFilters(candidates, incoming, available, current);
    UniqByColumnIsFirstOccurrences(s);
    forall g, f | g in r && f in incoming && ColumnAvailable(f, available) && g.column == f.column
      ensures FirstOn(a, g.column) == Some(g)
    {
      var k := FirstOccurrencesFromSource(s, 0, g);
      var j :| 0 <= j < |a| && a[j] == f;
      assert s[j] == f;
      assert k < |a|;
      assert s[k] == a[k];
      forall i | 0 <= i < k ensures a[i].column != a[k].column {
        assert s[i] == a[i];
      }
      FirstOnFirstOfColumn(a, k);
    }
  }

  /**
   * The order a detail panel's filters end in: the first filter on each
   * column of the incoming filters kept followed by its own filters kept,
   * in their order there.
   */
  lemma PropagatedFiltersInOrder(candidates: set<string>, incoming: seq<Filter>, available: seq<string>,
                                 current: seq<Filter>)
    ensures PropagatedFilters(candidates, incoming, available, current)
            == FirstOccurrences(KeepAvailable(incoming, available) + KeepUnrelated(current, candidates))
  {
    UniqByColumnIsFirstOccurrences(KeepAvailable(incoming, available) + KeepUnrelated(current, candidates));
  }

  /**
   * The documented example: a master pivoted and filtered on `region`, a
   * detail panel filtered on `region` and `year`, a click on EMEA.
   */
  lemma PropagationExample()
    ensures var master: Config := map["row-pivots" := Columns(["region"]),
                                      "filters" := FilterList([Filter("region", "==", Str("EMEA"))])];
      PropagatedFilters(Candidates(master), [Filter("region", "==", Str("EMEA"))], ["region", "year"],
                        [Filter("region", "==", Str("APAC")), Filter("year", "==", Str("2020"))])
      == [Filter("region", "==", Str("EMEA")), Filter("year", "==", Str("2020"))]
  {
    var master: Config := map["row-pivots" := Columns(["region"]),
                              "filters" := FilterList([Filter("region", "==", Str("EMEA"))])];
    var c := Candidates(master);
    assert "region" in c;
    assert "year" !in c;
    var emea, apac, y := Filter("region", "==", Str("EMEA")), Filter("region", "==", Str("APAC")),
                         Filter("year", "==", Str("2020"));
    assert KeepAvailable([emea], ["region", "year"]) == [emea];
    assert [apac, y][1..] == [y];
    assert KeepUnrelated([y], c) == [y];
    assert KeepUnrelated([apac, y], c) == [y];
    assert [emea] + [y] == [emea, y];
    assert [emea, y][1..] == [y];
    assert {} + {"region"} == {"region"};
    assert UniqFrom([y], {"region"}) == [y];
    assert UniqFrom([emea, y], {}) == [emea] + [y];
    assert PropagatedFilters(c, [emea], ["region", "year"], [apac, y]) == UniqByColumn([emea, y]);
  }
}
