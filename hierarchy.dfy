/**
 * The hierarchy builder `get_json_features`: every feature is expanded
 * into one record per location segment, and an mRNA or CDS feature is
 * preceded by a parent record. The children of a hierarchical feature get
 * fresh ids `"{type}-{n}"` from a counter local to one call.
 */
module Hierarchy {
  import opened Wrappers
  import opened Text
  import opened Records

  /** mRNA and CDS features produce a parent and typed children. */
  predicate Hierarchical(f: Feature)
  {
    f.ftype == "mRNA" || f.ftype == "CDS"
  }

  /** The type of the parent record: an mRNA becomes a transcript, a CDS gets an mRNA parent. */
  function ParentType(ftype: string): string
  {
    if ftype == "mRNA" then "transcript" else if ftype == "CDS" then "mRNA" else ftype
  }

  /** The type of each segment record: exons for an mRNA, CDS pieces for a CDS, otherwise the type itself. */
  function LocationType(ftype: string): string
  {
    if ftype == "mRNA" then "exon" else if ftype == "CDS" then "CDS" else ftype
  }

  /** `feat.get("locus_tag", ["missing"])`. */
  function GeneId(f: Feature): Values
  {
    match Lookup(f, "locus_tag")
    case Some(v) => v
    case None => ["missing"]
  }

  /** `if parent_id:` holds: the segment records are renumbered and linked to the parent. */
  predicate Numbered(f: Feature)
  {
    Hierarchical(f) && IdTruthy(f.id)
  }

  /** How many values the feature takes from the local counter. */
  function Used(f: Feature): nat
  {
    if Numbered(f) then |f.location| else 0
  }

  /** The child id `"{location_type}-{n}"`. */
  function ChildId(ftype: string, n: nat): Id
  {
    StrId(LocationType(ftype) + "-" + Dec(n))
  }

  /** The record of one location segment, numbered `k` when the feature is numbered. */
  function SegmentRecord(f: Feature, seg: Segment, k: nat): Feature
  {
    var linked :=
      if Numbered(f) then f.(id := ChildId(f.ftype, k), parentId := Some(f.id), geneId := Some(GeneId(f)))
      else f;
    linked.(ftype := LocationType(f.ftype), start := seg.start, end := seg.end, strand := seg.strand)
  }

  /** The records of one feature when the local counter stands at `n`. */
  function ExpandOne(f: Feature, n: nat): seq<Feature>
  {
    (if Hierarchical(f) then [f.(ftype := ParentType(f.ftype))] else [])
    + seq(|f.location|, j requires 0 <= j < |f.location| => SegmentRecord(f, f.location[j], n + j))
  }

  /** The records of a sequence of features, and the local counter afterwards. */
  function ExpandAll(fs: seq<Feature>, n: nat): (r: (seq<Feature>, nat))
    ensures r.1 >= n
  {
    if fs == [] then ([], n)
    else
      var init := ExpandAll(fs[..|fs| - 1], n);
      var f := fs[|fs| - 1];
      (init.0 + ExpandOne(f, init.1), init.1 + Used(f))
  }

  /** How many records precede the segment records of a feature: its parent, if it has one. */
  function Head(f: Feature): nat
  {
    if Hierarchical(f) then 1 else 0
  }

  /**
   * The shape of one feature's records: a parent first when the feature is
   * hierarchical, then one record per segment, in segment order.
   */
  lemma ExpandOneAt(f: Feature, n: nat, k: nat)
    requires k < |f.location|
    ensures |ExpandOne(f, n)| == Head(f) + |f.location|
    ensures ExpandOne(f, n)[Head(f) + k] == SegmentRecord(f, f.location[k], n + k)
  {
  }

  /** The parent record of a hierarchical feature keeps every key but the type. */
  lemma ParentRecord(f: Feature, n: nat)
    requires Hierarchical(f)
    ensures |ExpandOne(f, n)| == 1 + |f.location|
    ensures ExpandOne(f, n)[0] == f.(ftype := ParentType(f.ftype))
    ensures f.ftype == "mRNA" ==> ExpandOne(f, n)[0].ftype == "transcript"
    ensures f.ftype == "CDS" ==> ExpandOne(f, n)[0].ftype == "mRNA"
  {
  }

  /** A feature that is neither mRNA nor CDS yields exactly one record per segment. */
  lemma PlainRecords(f: Feature, n: nat)
    requires !Hierarchical(f)
    ensures |ExpandOne(f, n)| == |f.location|
    ensures Used(f) == 0
  {
  }

  /**
   * A segment record: coordinates and strand from the segment, the child
   * type, and every other key copied; a numbered child gets the id
   * `"{type}-{k}"`, the parent's id and the gene id, an unnumbered one keeps
   * the feature's own.
   */
  lemma SegmentFields(f: Feature, seg: Segment, k: nat)
    ensures var c := SegmentRecord(f, seg, k);
      && c.start == seg.start && c.end == seg.end && c.strand == seg.strand
      && c.ftype == LocationType(f.ftype)
      && (f.ftype == "mRNA" ==> c.ftype == "exon")
      && (f.ftype == "CDS" ==> c.ftype == "CDS")
      && (!Hierarchical(f) ==> c.ftype == f.ftype)
      && c.name == f.name && c.operator == f.operator && c.quals == f.quals && c.location == f.location
      && (Numbered(f) ==> c.id == ChildId(f.ftype, k) && c.parentId == Some(f.id) && c.geneId == Some(GeneId(f)))
      && (!Numbered(f) ==> c.id == f.id && c.parentId == f.parentId && c.geneId == f.geneId)
  {
  }

  /** The gene id falls back to `["missing"]` exactly when there is no locus tag. */
  lemma GeneIdFallback(f: Feature)
    ensures Lookup(f, "locus_tag").None? ==> GeneId(f) == ["missing"]
    ensures Lookup(f, "locus_tag").Some? ==> GeneId(f) == Lookup(f, "locus_tag").value
  {
  }

  /** Records are emitted feature by feature: the records of a prefix come first, then those of the next feature. */
  lemma {:induction false} ExpandAllPrefix(fs: seq<Feature>, n: nat, i: nat)
    requires i < |fs|
    ensures var before := ExpandAll(fs[..i], n);
      var out := ExpandAll(fs, n).0;
      var one := ExpandOne(fs[i], before.1);
      |before.0| + |one| <= |out| && out[..|before.0| + |one|] == before.0 + one
    decreases |fs|
  {
    var L := |fs|;
    var init := fs[..L - 1];
    assert fs[..L] == fs;
    if i < L - 1 {
      ExpandAllPrefix(init, n, i);
      assert init[..i] == fs[..i];
      var before := ExpandAll(fs[..i], n);
      var one := ExpandOne(fs[i], before.1);
      var m := |before.0| + |one|;
      var out := ExpandAll(fs, n).0;
      assert out[..m] == ExpandAll(init, n).0[..m];
    } else {
      assert fs[..i] == init;
    }
  }

  /** The records that are children, that is, carry a `parent_id`. */
  function Children(s: seq<Feature>): nat
  {
    if s == [] then 0 else Children(s[..|s| - 1]) + (if s[|s| - 1].parentId.Some? then 1 else 0)
  }

  lemma {:induction false} ChildrenAppend(a: seq<Feature>, b: seq<Feature>)
    ensures Children(a + b) == Children(a) + Children(b)
    decreases |b|
  {
    if b != [] {
      var b' := b[..|b| - 1];
      assert (a + b)[..|a + b| - 1] == a + b';
      assert (a + b)[|a + b| - 1] == b[|b| - 1];
      ChildrenAppend(a, b');
    } else {
      assert a + b == a;
    }
  }

  lemma ChildrenAtLeastOne(s: seq<Feature>, i: nat)
    requires i < |s| && s[i].parentId.Some?
    ensures Children(s) >= 1
  {
    assert s == s[..i] + [s[i]] + s[i + 1..];
    ChildrenAppend(s[..i] + [s[i]], s[i + 1..]);
    ChildrenAppend(s[..i], [s[i]]);
  }

  /** No feature of the input carries a `parent_id` yet, as after conversion. */
  predicate Orphans(fs: seq<Feature>)
  {
    forall i :: 0 <= i < |fs| ==> fs[i].parentId.None?
  }

  /** Among the first q records of a feature, the children are the numbered segment records. */
  lemma {:induction false} ChildrenOfOne(f: Feature, n: nat, q: nat)
    requires f.parentId.None?
    requires q <= |ExpandOne(f, n)|
    ensures Children(ExpandOne(f, n)[..q]) == if Numbered(f) && q > 0 then q - 1 else 0
    decreases q
  {
    var e := ExpandOne(f, n);
    if q > 0 {
      assert e[..q][..q - 1] == e[..q - 1];
      ChildrenOfOne(f, n, q - 1);
      if q - 1 >= Head(f) {
        ExpandOneAt(f, n, q - 1 - Head(f));
      }
    }
  }

  /** The children among one feature's records are its numbered segment records. */
  lemma ChildOfOne(f: Feature, n: nat, q: nat)
    requires f.parentId.None?
    requires q < |ExpandOne(f, n)| && ExpandOne(f, n)[q].parentId.Some?
    ensures Numbered(f) && q >= 1 && Children(ExpandOne(f, n)[..q]) == q - 1
    ensures ExpandOne(f, n)[q].id == ChildId(f.ftype, n + q - 1)
    ensures ExpandOne(f, n)[q].ftype == LocationType(f.ftype)
  {
    var e := ExpandOne(f, n);
    if q < Head(f) {
      ParentRecord(f, n);
      assert false;
    }
    var k := q - Head(f);
    ExpandOneAt(f, n, k);
    SegmentFields(f, f.location[k], n + k);
    if !Numbered(f) {
      assert false;
    }
    ChildrenOfOne(f, n, q);
  }

  /** The local counter advances by exactly the number of children emitted. */
  lemma {:induction false} ExpandAllCounter(fs: seq<Feature>, n: nat)
    requires Orphans(fs)
    ensures ExpandAll(fs, n).1 == n + Children(ExpandAll(fs, n).0)
    decreases |fs|
  {
    if fs != [] {
      var f := fs[|fs| - 1];
      var init := ExpandAll(fs[..|fs| - 1], n);
      assert Orphans(fs[..|fs| - 1]);
      ExpandAllCounter(fs[..|fs| - 1], n);
      ChildrenAppend(init.0, ExpandOne(f, init.1));
      ChildrenOfOne(f, init.1, |ExpandOne(f, init.1)|);
      assert ExpandOne(f, init.1)[..|ExpandOne(f, init.1)|] == ExpandOne(f, init.1);
    }
  }

  /** A child among the records of the last feature: its number continues from the children before it. */
  lemma ChildIdsLast(fs: seq<Feature>, n: nat, p: nat)
    requires fs != [] && Orphans(fs)
    requires p < |ExpandAll(fs, n).0| && ExpandAll(fs, n).0[p].parentId.Some?
    requires |ExpandAll(fs[..|fs| - 1], n).0| <= p
    ensures var out := ExpandAll(fs, n).0;
      && out[p].id == StrId(out[p].ftype + "-" + Dec(n + Children(out[..p])))
      && (out[p].ftype == "exon" || out[p].ftype == "CDS")
  {
    var out := ExpandAll(fs, n).0;
    var f := fs[|fs| - 1];
    var init := ExpandAll(fs[..|fs| - 1], n);
    var e := ExpandOne(f, init.1);
    var q := p - |init.0|;
    assert out[p] == e[q] && out[..p] == init.0 + e[..q];
    assert Orphans(fs[..|fs| - 1]);
    ChildrenAppend(init.0, e[..q]);
    ExpandAllCounter(fs[..|fs| - 1], n);
    ChildOfOne(f, init.1, q);
  }

  /**
   * Every child is an exon or a CDS piece with id `"{type}-{m}"`, where m is
   * `n` plus the number of children emitted before it: children are numbered
   * consecutively from `n` across the whole call.
   */
  lemma {:induction false} ChildIds(fs: seq<Feature>, n: nat, p: nat)
    requires Orphans(fs)
    requires p < |ExpandAll(fs, n).0| && ExpandAll(fs, n).0[p].parentId.Some?
    ensures var out := ExpandAll(fs, n).0;
      && out[p].id == StrId(out[p].ftype + "-" + Dec(n + Children(out[..p])))
      && (out[p].ftype == "exon" || out[p].ftype == "CDS")
    decreases |fs|
  {
    var out := ExpandAll(fs, n).0;
    var init := ExpandAll(fs[..|fs| - 1], n).0;
    if p < |init| {
      assert out[p] == init[p] && out[..p] == init[..p];
      assert Orphans(fs[..|fs| - 1]);
      ChildIds(fs[..|fs| - 1], n, p);
    } else {
      ChildIdsLast(fs, n, p);
    }
  }

  /** Child ids determine the child's type and number. */
  lemma ChildIdInjective(t1: string, a: nat, t2: string, b: nat)
    requires t1 == "exon" || t1 == "CDS"
    requires t2 == "exon" || t2 == "CDS"
    requires t1 + "-" + Dec(a) == t2 + "-" + Dec(b)
    ensures t1 == t2 && a == b
  {
    var s1, s2 := t1 + "-" + Dec(a), t2 + "-" + Dec(b);
    assert s1[0] == t1[0] && s2[0] == t2[0];
    assert t1 == t2;
    assert s1[|t1| + 1..] == Dec(a) && s2[|t2| + 1..] == Dec(b);
    DecInjective(a, b);
  }

  /** Children's numbers strictly increase in emission order, so their ids are pairwise distinct. */
  lemma ChildIdsDistinct(fs: seq<Feature>, n: nat, p: nat, q: nat)
    requires Orphans(fs)
    requires p < q < |ExpandAll(fs, n).0|
    requires ExpandAll(fs, n).0[p].parentId.Some? && ExpandAll(fs, n).0[q].parentId.Some?
    ensures var out := ExpandAll(fs, n).0;
      Children(out[..p]) < Children(out[..q]) && out[p].id != out[q].id
  {
    var out := ExpandAll(fs, n).0;
    assert out[..q] == out[..p] + out[p..q];
    ChildrenAppend(out[..p], out[p..q]);
    ChildrenAtLeastOne(out[p..q], 0);
    var a, b := n + Children(out[..p]), n + Children(out[..q]);
    var t1, t2 := out[p].ftype, out[q].ftype;
    ChildIds(fs, n, p);
    ChildIds(fs, n, q);
    if t1 + "-" + Dec(a) == t2 + "-" + Dec(b) {
      ChildIdInjective(t1, a, t2, b);
    }
  }

  /** The body of the loop of `get_json_features` for one feature, with the local counter at `start`. */
  method ExpandFeature(feat: Feature, start: nat) returns (recs: seq<Feature>, counter: nat)
    ensures recs == ExpandOne(feat, start)
    ensures counter == start + Used(feat)
  {
    var ftype := feat.ftype;
    var featureId := feat.id;
    var locationType := ftype;
    var parentId: Option<Id> := None;
    recs := [];
    if ftype == "mRNA" || ftype == "CDS" {
      parentId := Some(featureId);
      var parentType;
      if ftype == "mRNA" {
        parentType, locationType := "transcript", "exon";
      } else {
        parentType, locationType := "mRNA", "CDS";
      }
      recs := recs + [feat.(ftype := parentType)];
    }
    ghost var head := Head(feat);
    ghost var all := ExpandOne(feat, start);
    counter := start;
    var k := 0;
    while k < |feat.location|
      invariant 0 <= k <= |feat.location|
      invariant recs == all[..head + k]
      invariant counter == start + (if Numbered(feat) then k else 0)
      invariant locationType == LocationType(ftype)
      invariant OptIdTruthy(parentId) <==> Numbered(feat)
      invariant OptIdTruthy(parentId) ==> parentId == Some(feat.id)
    {
      var seg := feat.location[k];
      var locFeat := feat;
      if OptIdTruthy(parentId) {
        var n := counter;
        counter := counter + 1;
        locFeat := locFeat.(id := StrId(locationType + "-" + Dec(n)), parentId := parentId,
                            geneId := Some(GeneId(feat)));
      }
      locFeat := locFeat.(ftype := locationType, start := seg.start, end := seg.end, strand := seg.strand);
      ExpandOneAt(feat, start, k);
      assert all[..head + k + 1] == all[..head + k] + [locFeat];
      recs := recs + [locFeat];
      k := k + 1;
    }
    assert all[..head + k] == all;
  }

  /** `get_json_features(data)`: the records of every feature of the record, counting children from 1. */
  method GetJsonFeatures(data: Record) returns (out: seq<Feature>)
    ensures out == ExpandAll(data.features, 1).0
  {
    var feats := data.features;
    out := [];
    var counter: nat := 1;
    var i := 0;
    while i < |feats|
      invariant 0 <= i <= |feats|
      invariant (out, counter) == ExpandAll(feats[..i], 1)
    {
      assert feats[..i + 1][..i] == feats[..i];
      var recs;
      recs, counter := ExpandFeature(feats[i], counter);
      out := out + recs;
      i := i + 1;
    }
    assert feats[..i] == feats;
  }
}
