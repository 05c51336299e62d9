/**
 * The filter engine `filter_features`: a chain of order-preserving
 * filters, each switched on by one of the criteria, applied in a fixed
 * order.
 */
module Filters {
  import opened Wrappers
  import opened Text
  import opened Records

  /** `sys.maxsize`, the open end of a coordinate window. */
  const MaxSize: int := 0x7fff_ffff_ffff_ffff

  /** One filter of the chain. */
  datatype Test =
    | NotRegion                      // drop the `region` (origin) features
    | TypeIn(valid: set<string>)     // the type is one of the listed ones
    | HasGene(gene: string)          // the gene is among the `gene` qualifier's values
    | NameContains(name: string)     // `name in f["name"]` on a string: a substring test
    | Overlap(lo: int, hi: int)      // the feature meets the window [lo, hi]
    | Matches(regexp: Feature -> bool) // `regexp.search(str(f))`, taken as given

  predicate Passes(t: Test, f: Feature)
  {
    match t
    case NotRegion => f.ftype != "region"
    case TypeIn(valid) => f.ftype in valid
    case HasGene(gene) => Lookup(f, "gene").Some? && gene in Lookup(f, "gene").value
    case NameContains(name) => Contains(f.name, name)
    case Overlap(lo, hi) => lo <= f.end && hi >= f.start
    case Matches(regexp) => regexp(f)
  }

  /** `filter(test, items)`. */
  function Narrow(items: seq<Feature>, t: Test): seq<Feature>
  {
    if items == [] then []
    else (if Passes(t, items[0]) then [items[0]] else []) + Narrow(items[1..], t)
  }

  /** One filter keeps exactly the items that pass it. */
  lemma {:induction false} NarrowMembers(items: seq<Feature>, t: Test, f: Feature)
    ensures f in Narrow(items, t) <==> f in items && Passes(t, f)
    decreases |items|
  {
    if items != [] {
      NarrowMembers(items[1..], t, f);
      assert items == [items[0]] + items[1..];
    }
  }

  /** The filters applied one after the other. */
  function NarrowAll(items: seq<Feature>, ts: seq<Test>): seq<Feature>
    decreases |ts|
  {
    if ts == [] then items else NarrowAll(Narrow(items, ts[0]), ts[1..])
  }

  /** An item passes every filter of the chain. */
  predicate PassesAll(ts: seq<Test>, f: Feature)
  {
    forall i :: 0 <= i < |ts| ==> Passes(ts[i], f)
  }

  /** The reference definition: one pass over the items, keeping those that pass every filter. */
  function Sift(items: seq<Feature>, ts: seq<Test>): seq<Feature>
  {
    if items == [] then []
    else (if PassesAll(ts, items[0]) then [items[0]] else []) + Sift(items[1..], ts)
  }

  /**
   * The criteria of `filter_features`. A string criterion is empty when it
   * is not given (None and "" are equally false); `end` and `regexp` are
   * optional.
   */
  datatype Criteria = Criteria(
    start: int,
    end: Option<int>,
    gene: string,
    ftype: string,
    regexp: Option<Feature -> bool>,
    name: string,
    dropOrigin: bool)

  /** The type filter is on when a type list other than "all" is given. */
  predicate TypeActive(c: Criteria)
  {
    c.ftype != "" && c.ftype != "all"
  }

  /** The coordinate filter is on when `start or end` is true. */
  predicate WindowActive(c: Criteria)
  {
    c.start != 0 || IntTruthy(c.end)
  }

  /** The right end of the window: `sys.maxsize` when `end` is None. */
  function WindowEnd(c: Criteria): int
  {
    if c.end.None? then MaxSize else c.end.value
  }

  /** The types listed in `ftype`, split on commas. */
  function TypeSet(ftype: string): set<string>
  {
    set t | t in Split(ftype, ',')
  }

  /** A filter that is on when the condition holds. */
  function When(cond: bool, t: Test): seq<Test>
  {
    if cond then [t] else []
  }

  /** The filters switched on by the criteria, in the order `filter_features` applies them. */
  function Stages(c: Criteria): seq<Test>
  {
    When(c.dropOrigin, NotRegion)
    + When(TypeActive(c), TypeIn(TypeSet(c.ftype)))
    + When(c.gene != "", HasGene(c.gene))
    + When(c.name != "", NameContains(c.name))
    + When(WindowActive(c), Overlap(c.start, WindowEnd(c)))
    + (if c.regexp.Some? then [Matches(c.regexp.value)] else [])
  }

  /** `filter_features(items, start, end, gene, ftype, regexp, name, droporigin)`. */
  function FilterFeatures(items: seq<Feature>, c: Criteria): seq<Feature>
  {
    NarrowAll(items, Stages(c))
  }

  /** A feature survives the criteria: every active filter keeps it. */
  predicate Keep(c: Criteria, f: Feature)
  {
    && (c.dropOrigin ==> f.ftype != "region")
    && (TypeActive(c) ==> f.ftype in Split(c.ftype, ','))
    && (c.gene != "" ==> Lookup(f, "gene").Some? && c.gene in Lookup(f, "gene").value)
    && (c.name != "" ==> Contains(f.name, c.name))
    && (WindowActive(c) ==> c.start <= f.end && WindowEnd(c) >= f.start)
    && (c.regexp.Some? ==> c.regexp.value(f))
  }

  lemma PassesAllAppend(a: seq<Test>, b: seq<Test>, f: Feature)
    ensures PassesAll(a + b, f) <==> PassesAll(a, f) && PassesAll(b, f)
  {
    if PassesAll(a, f) && PassesAll(b, f) {
      forall i | 0 <= i < |a + b|
        ensures Passes((a + b)[i], f)
      {
        if i >= |a| {
          assert (a + b)[i] == b[i - |a|];
        }
      }
    }
    if PassesAll(a + b, f) {
      forall i | 0 <= i < |a|
        ensures Passes(a[i], f)
      {
        assert (a + b)[i] == a[i];
      }
      forall i | 0 <= i < |b|
        ensures Passes(b[i], f)
      {
        assert (a + b)[|a| + i] == b[i];
      }
    }
  }

  lemma WhenPasses(cond: bool, t: Test, f: Feature)
    ensures PassesAll(When(cond, t), f) <==> (cond ==> Passes(t, f))
  {
    if cond {
      assert When(cond, t)[0] == t;
    }
  }

  /** The chain of active filters keeps exactly the features `Keep` describes. */
  lemma StagesKeep(c: Criteria, f: Feature)
    ensures PassesAll(Stages(c), f) <==> Keep(c, f)
  {
    var s1 := When(c.dropOrigin, NotRegion);
    var s2 := When(TypeActive(c), TypeIn(TypeSet(c.ftype)));
    var s3 := When(c.gene != "", HasGene(c.gene));
    var s4 := When(c.name != "", NameContains(c.name));
    var s5 := When(WindowActive(c), Overlap(c.start, WindowEnd(c)));
    var s6 := if c.regexp.Some? then [Matches(c.regexp.value)] else [];
    WhenPasses(c.dropOrigin, NotRegion, f);
    WhenPasses(TypeActive(c), TypeIn(TypeSet(c.ftype)), f);
    WhenPasses(c.gene != "", HasGene(c.gene), f);
    WhenPasses(c.name != "", NameContains(c.name), f);
    WhenPasses(WindowActive(c), Overlap(c.start, WindowEnd(c)), f);
    assert f.ftype in TypeSet(c.ftype) <==> f.ftype in Split(c.ftype, ',');
    if c.regexp.Some? {
      assert s6[0] == Matches(c.regexp.value);
    }
    assert Stages(c) == s1 + s2 + s3 + s4 + s5 + s6;
    PassesAllAppend(s1, s2, f);
    PassesAllAppend(s1 + s2, s3, f);
    PassesAllAppend(s1 + s2 + s3, s4, f);
    PassesAllAppend(s1 + s2 + s3 + s4, s5, f);
    PassesAllAppend(s1 + s2 + s3 + s4 + s5, s6, f);
  }

  /** Filtering distributes over concatenation: the order of the input is kept. */
  lemma {:induction false} SiftAppend(a: seq<Feature>, b: seq<Feature>, ts: seq<Test>)
    ensures Sift(a + b, ts) == Sift(a, ts) + Sift(b, ts)
    decreases |a|
  {
    if a == [] {
      assert a + b == b;
    } else {
      assert (a + b)[0] == a[0] && (a + b)[1..] == a[1..] + b;
      SiftAppend(a[1..], b, ts);
    }
  }

  /** Single pass with one more filter in front equals applying that filter first. */
  lemma {:induction false} SiftNarrow(items: seq<Feature>, t: Test, ts: seq<Test>)
    ensures Sift(Narrow(items, t), ts) == Sift(items, [t] + ts)
    decreases |items|
  {
    if items != [] {
      var x, rest := items[0], items[1..];
      SiftNarrow(rest, t, ts);
      PassesAllAppend([t], ts, x);
      assert PassesAll([t], x) <==> Passes(t, x) by {
        assert [t][0] == t;
      }
      if Passes(t, x) {
        assert Narrow(items, t) == [x] + Narrow(rest, t);
        SiftAppend([x], Narrow(rest, t), ts);
        assert [x][1..] == [];
      } else {
        assert Narrow(items, t) == Narrow(rest, t);
      }
    }
  }

  /** With no filters the single pass keeps everything. */
  lemma {:induction false} SiftNone(items: seq<Feature>)
    ensures Sift(items, []) == items
    decreases |items|
  {
    if items != [] {
      SiftNone(items[1..]);
    }
  }

  /** The chain of filters equals the single pass with all of them. */
  lemma {:induction false} NarrowAllSift(items: seq<Feature>, ts: seq<Test>)
    ensures NarrowAll(items, ts) == Sift(items, ts)
    decreases |ts|
  {
    if ts == [] {
      SiftNone(items);
    } else {
      NarrowAllSift(Narrow(items, ts[0]), ts[1..]);
      SiftNarrow(items, ts[0], ts[1..]);
      assert [ts[0]] + ts[1..] == ts;
    }
  }

  /** The reference definition of `filter_features`: one pass, keeping the features that meet every active criterion. */
  function Select(items: seq<Feature>, c: Criteria): (r: seq<Feature>)
  {
    if items == [] then []
    else (if Keep(c, items[0]) then [items[0]] else []) + Select(items[1..], c)
  }

  lemma {:induction false} SiftSelect(items: seq<Feature>, c: Criteria)
    ensures Sift(items, Stages(c)) == Select(items, c)
    decreases |items|
  {
    if items != [] {
      StagesKeep(c, items[0]);
      SiftSelect(items[1..], c);
    }
  }

  /** `filter_features` is the single pass `Select`. */
  lemma FilterIsSelect(items: seq<Feature>, c: Criteria)
    ensures FilterFeatures(items, c) == Select(items, c)
  {
    NarrowAllSift(items, Stages(c));
    SiftSelect(items, c);
  }

  /** A feature is in the result exactly when it is in the input and meets every active criterion. */
  lemma {:induction false} SelectMembers(items: seq<Feature>, c: Criteria, f: Feature)
    ensures f in Select(items, c) <==> f in items && Keep(c, f)
    decreases |items|
  {
    if items != [] {
      SelectMembers(items[1..], c, f);
      assert items == [items[0]] + items[1..];
    }
  }

  /** The result keeps the input's order: filtering a concatenation filters each part. */
  lemma {:induction false} SelectAppend(a: seq<Feature>, b: seq<Feature>, c: Criteria)
    ensures Select(a + b, c) == Select(a, c) + Select(b, c)
    decreases |a|
  {
    if a == [] {
      assert a + b == b;
    } else {
      assert (a + b)[0] == a[0] && (a + b)[1..] == a[1..] + b;
      SelectAppend(a[1..], b, c);
    }
  }

  /** The result is never longer than the input, and keeps everything when every feature meets the criteria. */
  lemma {:induction false} SelectAll(items: seq<Feature>, c: Criteria)
    ensures |Select(items, c)| <= |items|
    ensures (forall i :: 0 <= i < |items| ==> Keep(c, items[i])) ==> Select(items, c) == items
    decreases |items|
  {
    if items != [] {
      SelectAll(items[1..], c);
      assert forall i :: 0 <= i < |items| - 1 ==> items[1..][i] == items[i + 1];
    }
  }

  /** Criteria that switch every filter off. */
  predicate NoCriteria(c: Criteria)
  {
    && !c.dropOrigin && (c.ftype == "" || c.ftype == "all") && c.gene == "" && c.name == ""
    && c.start == 0 && !IntTruthy(c.end) && c.regexp.None?
  }

  /** With no criteria, or with the type "all" and nothing else, the input comes back unchanged. */
  lemma Unfiltered(items: seq<Feature>, c: Criteria)
    requires NoCriteria(c)
    ensures FilterFeatures(items, c) == items
  {
    assert Stages(c) == [];
  }

  /** The coordinate filter on its own keeps a feature iff it meets the window; an absent `end` is unbounded. */
  lemma WindowKeeps(c: Criteria, f: Feature)
    requires c.start != 0 || IntTruthy(c.end)
    requires !c.dropOrigin && (c.ftype == "" || c.ftype == "all") && c.gene == "" && c.name == ""
    requires c.regexp.None?
    ensures c.end.Some? ==> (Keep(c, f) <==> c.start <= f.end && c.end.value >= f.start)
    ensures c.end.None? && f.start <= MaxSize ==> (Keep(c, f) <==> c.start <= f.end)
  {
  }
}
