/**
 * The identity resolver: the resettable process-wide counter and
 * `fill_name`, which gives a feature its id and display name.
 */
module Identity {
  import opened Text
  import opened Records
  import opened Accum

  /** The global `COUNTER = count(1)`, passed explicitly instead of living in a module global. */
  class Counter {
    /** The value the next draw returns. */
    var next: nat

    ghost predicate Valid()
      reads this
    {
      next >= 1
    }

    constructor ()
      ensures Valid() && next == 1
    {
      next := 1;
    }

    /** `reset_counter`: start again from 1. */
    method Reset()
      modifies this
      ensures Valid() && next == 1
    {
      next := 1;
    }

    /** `next(COUNTER)`: return the current value and advance by one. */
    method Take() returns (n: nat)
      requires Valid()
      modifies this
      ensures Valid() && n == old(next) && next == old(next) + 1
    {
      n := next;
      next := next + 1;
    }
  }

  /** The name `fill_name` picks by type, before an empty one falls back to the type. */
  function TypeName(f: Feature): string
  {
    if f.ftype == "gene" then First(f, "gene", "")
    else if f.ftype == "CDS" then First(f, "protein_id", "")
    else if f.ftype == "mRNA" then First(f, "transcript_id", "")
    else if f.ftype == "exon" then First(f, "gene", "")
    else Or(Or(Or(First(f, "organism", ""), First(f, "protein_id", "")), First(f, "transcript_id", "")), f.ftype)
  }

  /** The uid `fill_name` picks by type; empty means the counter supplies it. */
  function TypeUid(f: Feature): string
  {
    if f.ftype == "gene" then First(f, "locus_tag", "")
    else if f.ftype == "CDS" then First(f, "protein_id", "")
    else if f.ftype == "mRNA" then First(f, "transcript_id", "")
    else ""
  }

  /** `fill_name` on a feature when the counter stands at `next`: the new feature and the new counter value. */
  function Resolve(f: Feature, next: nat): (r: (Feature, nat))
    ensures r.1 == next || r.1 == next + 1
    ensures r.0 == f.(id := r.0.id, name := r.0.name)
  {
    var uid := TypeUid(f);
    var name := Or(TypeName(f), f.ftype);
    if uid != "" then (f.(id := StrId(uid), name := name), next)
    else (f.(id := NumId(next), name := name), next + 1)
  }

  /** `fill_name(f)`: sets `id` and `name`, drawing from the counter when the uid is empty. */
  method FillName(f: Feature, counter: Counter) returns (r: Feature)
    requires counter.Valid()
    modifies counter
    ensures counter.Valid()
    ensures (r, counter.next) == Resolve(f, old(counter.next))
  {
    var ftype := f.ftype;
    var name, uid := "", "";
    if ftype == "gene" {
      name := First(f, "gene", "");
      uid := First(f, "locus_tag", "");
    } else if ftype == "CDS" {
      name := First(f, "protein_id", "");
      uid := name;
    } else if ftype == "mRNA" {
      name := First(f, "transcript_id", "");
      uid := name;
    } else if ftype == "exon" {
      name := First(f, "gene", "");
    } else {
      name := Or(Or(Or(First(f, "organism", ""), First(f, "protein_id", "")), First(f, "transcript_id", "")), ftype);
    }
    // `uid or next(COUNTER)`
    var id: Id;
    if uid != "" {
      id := StrId(uid);
    } else {
      var n := counter.Take();
      id := NumId(n);
    }
    // `uid or f"{ftype}-{next(COUNTER)}"`: the counter never yields 0, so the id is always truthy here.
    if !IdTruthy(id) {
      assert false;
    }
    r := f.(id := id, name := Or(name, ftype));
  }

  /**
   * The precedence table of `fill_name`, one row per type, and what it
   * leaves alone: the counter moves exactly when the uid is empty, and the id
   * is then the counter's value; an empty name becomes the type; every key
   * other than `id` and `name` is unchanged.
   */
  lemma ResolveTable(f: Feature, next: nat)
    ensures var (r, n) := Resolve(f, next);
      && (f.ftype == "gene" ==>
            r.name == Or(First(f, "gene", ""), "gene")
            && r.id == (if First(f, "locus_tag", "") != "" then StrId(First(f, "locus_tag", "")) else NumId(next)))
      && (f.ftype == "CDS" ==>
            r.name == Or(First(f, "protein_id", ""), "CDS")
            && r.id == (if First(f, "protein_id", "") != "" then StrId(First(f, "protein_id", "")) else NumId(next)))
      && (f.ftype == "mRNA" ==>
            r.name == Or(First(f, "transcript_id", ""), "mRNA")
            && r.id == (if First(f, "transcript_id", "") != "" then StrId(First(f, "transcript_id", "")) else NumId(next)))
      && (f.ftype == "exon" ==> r.name == Or(First(f, "gene", ""), "exon") && r.id == NumId(next))
      && (f.ftype !in {"gene", "CDS", "mRNA", "exon"} ==>
            r.name == Or(Or(Or(First(f, "organism", ""), First(f, "protein_id", "")), First(f, "transcript_id", "")), f.ftype)
            && r.id == NumId(next))
      && (n == next + 1 <==> TypeUid(f) == "") && (n == next || n == next + 1)
      && (f.ftype != "" ==> r.name != "")
      && (next >= 1 ==> IdTruthy(r.id))
      && r == f.(id := r.id, name := r.name)
  {
  }

  /** How many features of a sequence have an empty uid, that is, draw from the counter. */
  function Draws(fs: seq<Feature>): nat
  {
    if fs == [] then 0 else Draws(fs[..|fs| - 1]) + (if TypeUid(fs[|fs| - 1]) == "" then 1 else 0)
  }

  /** `fill_name` applied to each feature in turn, the counter shared: one feature out per feature in. */
  function ResolveAll(fs: seq<Feature>, next: nat): (r: (seq<Feature>, nat))
    ensures |r.0| == |fs|
  {
    MapAccum(fs, Resolve, next)
  }

  /** Resolving a sequence moves the counter once per feature that draws from it. */
  lemma {:induction false} ResolveAllDraws(fs: seq<Feature>, next: nat)
    ensures ResolveAll(fs, next).1 == next + Draws(fs)
    decreases |fs|
  {
    if fs != [] {
      ResolveAllDraws(fs[..|fs| - 1], next);
    }
  }

  /**
   * Resolving a sequence from counter value `next`: feature j is resolved
   * with the counter at `next` plus the draws of the features before it. So
   * after `reset_counter` (next = 1) the ids depend on the features alone.
   */
  lemma ResolveAllIds(fs: seq<Feature>, next: nat, j: nat)
    requires j < |fs|
    ensures ResolveAll(fs, next).0[j] == Resolve(fs[j], next + Draws(fs[..j])).0
  {
    MapAccumAt(fs, Resolve, next, j);
    ResolveAllDraws(fs[..j], next);
  }

  /** Two features that both draw from the counter get different ids. */
  lemma CounterIdsDistinct(fs: seq<Feature>, next: nat, i: nat, j: nat)
    requires i < j < |fs|
    requires TypeUid(fs[i]) == "" && TypeUid(fs[j]) == ""
    ensures ResolveAll(fs, next).0[i].id != ResolveAll(fs, next).0[j].id
  {
    ResolveAllIds(fs, next, i);
    ResolveAllIds(fs, next, j);
    DrawsGrow(fs, i, j);
  }

  /** One more feature adds one draw exactly when its uid is empty. */
  lemma DrawsStep(fs: seq<Feature>, k: nat)
    requires k < |fs|
    ensures Draws(fs[..k + 1]) == Draws(fs[..k]) + (if TypeUid(fs[k]) == "" then 1 else 0)
  {
    assert fs[..k + 1][..k] == fs[..k];
  }

  lemma {:induction false} DrawsGrow(fs: seq<Feature>, i: nat, j: nat)
    requires i < j <= |fs|
    requires TypeUid(fs[i]) == ""
    ensures Draws(fs[..j]) >= Draws(fs[..i]) + 1
    decreases j
  {
    DrawsStep(fs, j - 1);
    if j - 1 > i {
      DrawsGrow(fs, i, j - 1);
    }
  }
}
