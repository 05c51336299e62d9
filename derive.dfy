/**
 * Deriving sequence records from JSON data: `get_feature_records` (stitch,
 * window, transformation chain, description, translation check),
 * `get_translation_records`, `get_origin` and `find_taxid`.
 */
module Derive {
  import opened Wrappers
  import opened Text
  import opened Records
  import opened Filters
  import opened Attributes
  import opened Sequences
  import opened Accum

  /** The command-line parameters the derivations read. */
  datatype Params = Params(
    start: int,
    end: Option<int>,
    gene: string,
    ftype: string,
    regexp: Option<Feature -> bool>,
    name: string,
    seqid: Option<string>,
    revcomp: bool,
    reverse: bool,
    complement: bool,
    translate: bool,
    transcribe: bool)

  /** The window descriptor `[start+1:end]`, present only when `start or end` is true; an open end is the length. */
  function WindowTag(p: Params, n: nat): seq<string>
  {
    if p.start != 0 || IntTruthy(p.end) then
      ["[" + IntText(p.start + 1) + ":" + IntText(if p.end.None? then n else p.end.value) + "]"]
    else []
  }

  const RevCompToken: string := "reverse complemented"
  const ReverseToken: string := "reversed"
  const ComplementToken: string := "complemented"
  const TranslateToken: string := "translated"
  const TranscribeToken: string := "transcribed DNA"
  /** The description tokens of the requested transformations, in the order they are applied. */
  function Tokens(p: Params): seq<string>
  {
    PrepTokens(p)
    + (if p.translate then [TranslateToken] else [])
    + (if p.transcribe then [TranscribeToken] else [])
  }

  /** The tokens of the steps before translation. */
  function PrepTokens(p: Params): seq<string>
  {
    (if p.revcomp then [RevCompToken] else [])
    + (if p.reverse then [ReverseToken] else [])
    + (if p.complement then [ComplementToken] else [])
  }

  /** The sequence after the steps before translation: reverse complement, reverse, complement. */
  function Prepared(s: string, p: Params, ops: BioOps): string
  {
    var s1 := if p.revcomp then RevComp(s, ops.complement) else s;
    var s2 := if p.reverse then Reverse(s1) else s1;
    if p.complement then Complement(s2, ops.complement) else s2
  }

  /**
   * The transformation chain: reverse complement, reverse, complement,
   * translate, transcribe, each when requested; None when translation raises.
   */
  function Transformed(s: string, p: Params, ops: BioOps): Option<string>
  {
    var s3 := Prepared(s, p, ops);
    var s4 := if p.translate then ops.translate(s3) else Some(s3);
    match s4
    case None => None
    case Some(t) => Some(if p.transcribe then ops.transcribe(t) else t)
  }

  /** The description: the joined tokens, or the attribute string when there are none. */
  function Description(f: Feature, desc: seq<string>, skip: set<string>): string
  {
    if desc != [] then Join(desc, ", ") else AttrString(f, skip, None)
  }

  /** The record `get_feature_records` yields for one feature; None when the chain raises and the run stops. */
  function Derived(f: Feature, origin: string, p: Params, ops: BioOps, skip: set<string>): (r: Option<SeqRecord>)
    ensures r.None? ==> p.translate
    ensures r.Some? ==> r.value.id == f.name && r.value.name.None?
  {
    var dna := Stitch(origin, f.location, ops.complement);
    match Transformed(Slice(dna, p.start, p.end), p, ops)
    case None => None
    case Some(s) => Some(SeqRecord(f.name, None, Description(f, WindowTag(p, |dna|) + Tokens(p), skip), s))
  }

  /** The translation check: the expected translation is given and is not the observed one without its stop codon. */
  predicate Mismatch(f: Feature, p: Params, rec: SeqRecord)
  {
    var expected := First(f, "translation", "");
    p.translate && expected != "" && expected != Slice(rec.sequence, 0, Some(-1))
  }

  /**
   * The `try` block of `get_feature_records`: the requested transformations
   * in their fixed order, each appending its token to the description list;
   * None when translation raises.
   */
  method ApplyChain(s0: string, desc0: seq<string>, p: Params, ops: BioOps) returns (s: Option<string>, desc: seq<string>)
    ensures s == Transformed(s0, p, ops)
    ensures s.Some? ==> desc == desc0 + Tokens(p)
  {
    var t;
    t, desc := PrepareChain(s0, desc0, p, ops);
    if p.translate {
      var translated := ops.translate(t);
      if translated.None? {
        return None, desc;
      }
      t := translated.value;
      desc := desc + [TranslateToken];
    }
    if p.transcribe {
      t := ops.transcribe(t);
      desc := desc + [TranscribeToken];
    }
    s := Some(t);
  }

  /** The steps of the `try` block before translation, each appending its token. */
  method PrepareChain(s0: string, desc0: seq<string>, p: Params, ops: BioOps) returns (t: string, desc: seq<string>)
    ensures t == Prepared(s0, p, ops)
    ensures desc == desc0 + PrepTokens(p)
  {
    t := s0;
    desc := desc0;
    if p.revcomp {
      t := RevComp(t, ops.complement);
      desc := desc + [RevCompToken];
    }
    if p.reverse {
      t := Reverse(t);
      desc := desc + [ReverseToken];
    }
    if p.complement {
      t := Complement(t, ops.complement);
      desc := desc + [ComplementToken];
    }
  }

  /** The body of the loop of `get_feature_records` for one feature: the record, and whether a mismatch is logged. */
  method DeriveOne(f: Feature, origin: string, p: Params, ops: BioOps, skip: set<string>)
    returns (rec: Option<SeqRecord>, mismatch: bool)
    ensures rec == Derived(f, origin, p, ops, skip)
    ensures mismatch <==> rec.Some? && Mismatch(f, p, rec.value)
  {
    var name := f.name;
    var dna := StitchLocations(origin, f.location, ops.complement);
    var desc: seq<string> := [];
    if p.start != 0 || IntTruthy(p.end) {
      var end := if p.end.None? then |dna| else p.end.value;
      desc := ["[" + IntText(p.start + 1) + ":" + IntText(end) + "]"];
    }
    assert desc == WindowTag(p, |dna|);
    var s := Slice(dna, p.start, p.end);
    var chained;
    chained, desc := ApplyChain(s, desc, p, ops);
    if chained.None? {
      return None, false;
    }
    var description;
    if desc != [] {
      description := Join(desc, ", ");
    } else {
      description := MakeAttr(f, skip, None);
    }
    var r := SeqRecord(name, None, description, chained.value);
    mismatch := false;
    if p.translate {
      var expected := First(f, "translation", "");
      var observed := r.sequence;
      if expected != "" && expected != Slice(observed, 0, Some(-1)) {
        mismatch := true;
      }
    }
    rec := Some(r);
  }

  /** The filters `get_feature_records` applies: type, gene, name and pattern, with origin features dropped. */
  function FeatureCriteria(p: Params): Criteria
  {
    Criteria(0, None, p.gene, p.ftype, p.regexp, p.name, true)
  }

  /** The derivation of one feature, as a step of the run. */
  function DeriveStep(origin: string, p: Params, ops: BioOps, skip: set<string>): Feature -> Option<SeqRecord>
  {
    f => Derived(f, origin, p, ops, skip)
  }

  /** What a yielded record logs: its id on a translation mismatch. */
  function MismatchNote(p: Params): (Feature, SeqRecord) -> seq<string>
  {
    (f, r) => if Mismatch(f, p, r) then [r.id] else []
  }

  /**
   * Running the derivation over features in order: the records yielded,
   * whether the run stopped on a failing feature, and the ids logged for a
   * translation mismatch.
   */
  function Collect(fs: seq<Feature>, origin: string, p: Params, ops: BioOps, skip: set<string>)
    : (seq<SeqRecord>, bool, seq<string>)
  {
    RunUntil(fs, DeriveStep(origin, p, ops, skip), MismatchNote(p))
  }

  /** `get_feature_records(data, param)`: the records of the filtered features, stopping at a failing one. */
  method GetFeatureRecords(data: Record, p: Params, ops: BioOps, skip: set<string>)
    returns (out: seq<SeqRecord>, aborted: bool, logged: seq<string>)
    ensures (out, aborted, logged) == Collect(FilterFeatures(data.features, FeatureCriteria(p)), data.origin, p, ops, skip)
  {
    var feats := FilterFeatures(data.features, FeatureCriteria(p));
    var origin := data.origin;
    ghost var step, note := DeriveStep(origin, p, ops, skip), MismatchNote(p);
    out, aborted, logged := [], false, [];
    var i := 0;
    while i < |feats| && !aborted
      invariant 0 <= i <= |feats|
      invariant (out, aborted, logged) == RunUntil(feats[..i], step, note)
    {
      RunUntilSnoc(feats, step, note, i);
      var rec, mismatch := DeriveOne(feats[i], origin, p, ops, skip);
      assert step(feats[i]) == rec;
      if rec.None? {
        aborted := true;
      } else {
        var r := rec.value;
        var logs := if mismatch then [r.id] else [];
        assert note(feats[i], r) == logs;
        out := out + [r];
        logged := logged + logs;
      }
      assert RunUntil(feats[..i + 1], step, note) == (out, aborted, logged);
      i := i + 1;
    }
    if aborted {
      RunUntilStopped(feats, step, note, i);
    } else {
      assert feats[..i] == feats;
    }
  }

  /**
   * The run yields the records of a prefix of the features, in order; it
   * stops exactly when a feature's chain raises, right at the first such
   * feature.
   */
  lemma CollectPrefix(fs: seq<Feature>, origin: string, p: Params, ops: BioOps, skip: set<string>)
    ensures var (out, aborted, _) := Collect(fs, origin, p, ops, skip);
      && |out| <= |fs|
      && (forall i :: 0 <= i < |out| ==> Derived(fs[i], origin, p, ops, skip) == Some(out[i]))
      && (aborted <==> |out| < |fs|)
      && (aborted ==> Derived(fs[|out|], origin, p, ops, skip).None?)
  {
    var step := DeriveStep(origin, p, ops, skip);
    RunUntilPrefix(fs, step, MismatchNote(p));
    assert forall f :: step(f) == Derived(f, origin, p, ops, skip);
  }

  /** Without translation nothing can raise: every filtered feature yields a record and nothing is logged. */
  lemma CollectWithoutTranslation(fs: seq<Feature>, origin: string, p: Params, ops: BioOps, skip: set<string>)
    requires !p.translate
    ensures var (out, aborted, logged) := Collect(fs, origin, p, ops, skip);
      !aborted && |out| == |fs| && logged == []
  {
    var step, note := DeriveStep(origin, p, ops, skip), MismatchNote(p);
    assert forall f :: step(f).Some?;
    assert forall f, r :: note(f, r) == [];
    RunUntilTotal(fs, step, note);
  }

  /**
   * Only translation can stop the run; a translation mismatch is only logged
   * and plays no part in whether the record is yielded.
   */
  lemma DerivedFails(f: Feature, origin: string, p: Params, ops: BioOps, skip: set<string>)
    ensures Derived(f, origin, p, ops, skip).None?
      <==> p.translate && ops.translate(Prepared(Slice(Stitch(origin, f.location, ops.complement), p.start, p.end), p, ops)).None?
  {
  }

  /** Each token appears exactly when its transformation is requested, in the fixed order. */
  lemma TokensOrder(p: Params)
    ensures RevCompToken in Tokens(p) <==> p.revcomp
    ensures ReverseToken in Tokens(p) <==> p.reverse
    ensures ComplementToken in Tokens(p) <==> p.complement
    ensures TranslateToken in Tokens(p) <==> p.translate
    ensures TranscribeToken in Tokens(p) <==> p.transcribe
    ensures p.revcomp ==> Tokens(p)[0] == RevCompToken
    ensures p.transcribe ==> Tokens(p)[|Tokens(p)| - 1] == TranscribeToken
  {
  }

  /** Reverse complement, then reverse, then complement gives the window back when the complement map undoes itself. */
  lemma ChainIdentity(s: string, p: Params, ops: BioOps)
    requires p.revcomp && p.reverse && p.complement && !p.translate && !p.transcribe
    requires Involution(ops.complement)
    ensures Transformed(s, p, ops) == Some(s)
  {
    var c := Complement(s, ops.complement);
    ReverseInvolution(c);
    ComplementInvolution(s, ops.complement);
  }

  /** With no window and no transformation the record is the stitched sequence described by its attribute string. */
  lemma PlainRecord(f: Feature, origin: string, p: Params, ops: BioOps, skip: set<string>)
    requires p.start == 0 && p.end.None?
    requires !p.revcomp && !p.reverse && !p.complement && !p.translate && !p.transcribe
    ensures Derived(f, origin, p, ops, skip)
      == Some(SeqRecord(f.name, None, AttrString(f, skip, None), Stitch(origin, f.location, ops.complement)))
  {
    var dna := Stitch(origin, f.location, ops.complement);
    SliceWithin(dna, 0, None);
  }

  /** A window gives a record whose sequence is the Python slice of the stitched sequence, and the window descriptor first. */
  lemma WindowRecord(f: Feature, origin: string, p: Params, ops: BioOps, skip: set<string>)
    requires p.start != 0 || IntTruthy(p.end)
    requires !p.revcomp && !p.reverse && !p.complement && !p.translate && !p.transcribe
    ensures var dna := Stitch(origin, f.location, ops.complement);
      var end := if p.end.None? then |dna| else p.end.value;
      Derived(f, origin, p, ops, skip)
      == Some(SeqRecord(f.name, None, "[" + IntText(p.start + 1) + ":" + IntText(end) + "]", Slice(dna, p.start, p.end)))
  {
  }

  /** `has_translation`: the feature carries a non-empty translation. */
  predicate HasTranslation(f: Feature)
  {
    First(f, "translation", "") != ""
  }

  /** The filters `get_translation_records` applies after keeping the features with a translation. */
  function TranslationCriteria(p: Params): Criteria
  {
    Criteria(0, None, p.gene, p.ftype, p.regexp, p.name, false)
  }

  /** The features `get_translation_records` turns into records. */
  function TranslationFeatures(fs: seq<Feature>, p: Params): seq<Feature>
  {
    FilterFeatures(Narrow(fs, Matches(HasTranslation)), TranslationCriteria(p))
  }

  /** The record of one feature: the sliced translation, named by `seqid` or the feature name. */
  function TranslationRecord(f: Feature, p: Params, skip: set<string>): SeqRecord
  {
    SeqRecord(OptOr(p.seqid, f.name), None, AttrString(f, skip, None), Slice(First(f, "translation", ""), p.start, p.end))
  }

  /** `get_translation_records(item, param)`. */
  function TranslationRecords(data: Record, p: Params, skip: set<string>): (r: seq<SeqRecord>)
    ensures |r| == |TranslationFeatures(data.features, p)|
  {
    var fs := TranslationFeatures(data.features, p);
    seq(|fs|, i requires 0 <= i < |fs| => TranslationRecord(fs[i], p, skip))
  }

  /** The features turned into translation records are the input features with a translation that meet the criteria. */
  lemma TranslationFeaturesMembers(fs: seq<Feature>, p: Params, f: Feature)
    ensures f in TranslationFeatures(fs, p) <==> f in fs && HasTranslation(f) && Keep(TranslationCriteria(p), f)
  {
    var narrowed := Narrow(fs, Matches(HasTranslation));
    FilterIsSelect(narrowed, TranslationCriteria(p));
    SelectMembers(narrowed, TranslationCriteria(p), f);
    NarrowMembers(fs, Matches(HasTranslation), f);
  }

  /**
   * Every translation record comes from a feature of the input that has a
   * translation and meets the criteria; its sequence is the slice of that
   * translation and its id is `seqid` or the feature name.
   */
  lemma TranslationRecordSource(data: Record, p: Params, skip: set<string>, i: nat)
    requires i < |TranslationRecords(data, p, skip)|
    ensures var f := TranslationFeatures(data.features, p)[i];
      && f in data.features && HasTranslation(f) && Keep(TranslationCriteria(p), f)
      && TranslationRecords(data, p, skip)[i].sequence == Slice(First(f, "translation", ""), p.start, p.end)
      && TranslationRecords(data, p, skip)[i].id == OptOr(p.seqid, f.name)
  {
    var fs := TranslationFeatures(data.features, p);
    TranslationFeaturesMembers(data.features, p, fs[i]);
  }

  /** `get_origin(item, param)`: the sliced origin, translated when requested; None when translation raises. */
  function Origin(data: Record, p: Params, ops: BioOps): (r: Option<SeqRecord>)
    ensures r.None? ==> p.translate
    ensures r.Some? ==> r.value.id == OptOr(p.seqid, data.seqid)
    ensures r.Some? ==> r.value.name == Some(data.locus) && r.value.description == data.definition
  {
    var text := Slice(data.origin, p.start, p.end);
    var s := if p.translate then ops.translate(text) else Some(text);
    match s
    case None => None
    case Some(t) => Some(SeqRecord(OptOr(p.seqid, data.seqid), Some(data.locus), data.definition, t))
  }

  /** Without translation the origin record always exists and holds the in-bounds slice of the origin. */
  lemma OriginSlice(data: Record, p: Params, ops: BioOps)
    requires !p.translate
    requires 0 <= p.start && (p.end.Some? ==> p.start <= p.end.value <= |data.origin|) && p.start <= |data.origin|
    ensures Origin(data, p, ops).Some?
    ensures Origin(data, p, ops).value.sequence
      == if p.end.None? then data.origin[p.start..] else data.origin[p.start..p.end.value]
    ensures Origin(data, p, ops).value.id == OptOr(p.seqid, data.seqid)
  {
    SliceWithin(data.origin, p.start, p.end);
  }

  /** The cross-references of the form `taxon:...`, in order. */
  function TaxonEntries(xs: seq<string>): (r: seq<string>)
    ensures forall i :: 0 <= i < |r| ==> StartsWith(r[i], "taxon:")
    ensures |r| <= |xs|
  {
    if xs == [] then []
    else (if StartsWith(xs[0], "taxon:") then [xs[0]] else []) + TaxonEntries(xs[1..])
  }

  /** Splitting `taxon:rest` on ':' gives "taxon" and then the pieces of `rest`. */
  lemma TaxonSplit(x: string)
    requires StartsWith(x, "taxon:")
    ensures |Split(x, ':')| >= 2 && Split(x, ':')[1] == Split(x[6..], ':')[0]
  {
    assert x == "taxon" + [':'] + x[6..];
    SplitAfterPiece("taxon", x[6..], ':');
  }

  /** `x.split(":")[1]`. */
  function TaxidOf(x: string): string
    requires StartsWith(x, "taxon:")
  {
    TaxonSplit(x);
    Split(x, ':')[1]
  }

  /** The taxon id written into `taxon:<id>` is read back. */
  lemma TaxidRoundTrip(t: string)
    requires ':' !in t
    ensures TaxidOf("taxon:" + t) == t
  {
    var x := "taxon:" + t;
    TaxonSplit(x);
    assert x[6..] == t;
    SplitWithoutSeparator(t, ':');
  }

  /** The `db_xref` values of the first feature, or none. */
  function FirstXrefs(data: Record): seq<string>
  {
    if data.features == [] then []
    else match Lookup(data.features[0], "db_xref")
      case Some(v) => v
      case None => []
  }

  /** The ids `x.split(":")[1]` of the `taxon:` entries of a cross-reference list, in order. */
  function Taxids(xs: seq<string>): (r: seq<string>)
    ensures |r| == |TaxonEntries(xs)|
  {
    var vals := TaxonEntries(xs);
    seq(|vals|, i requires 0 <= i < |vals| => TaxidOf(vals[i]))
  }

  /** `find_taxid(rec)`: the ids of the first feature's `taxon:` cross-references. */
  function FindTaxid(data: Record): (r: seq<string>)
    ensures |r| == |TaxonEntries(FirstXrefs(data))|
  {
    Taxids(FirstXrefs(data))
  }

  /** An entry is kept exactly when it is in the list and starts with `taxon:`. */
  lemma {:induction false} TaxonEntriesMembers(xs: seq<string>, x: string)
    ensures x in TaxonEntries(xs) <==> x in xs && StartsWith(x, "taxon:")
    decreases |xs|
  {
    if xs != [] {
      TaxonEntriesMembers(xs[1..], x);
      assert xs == [xs[0]] + xs[1..];
    }
  }

  /** The entries of a concatenation are those of each part, in order. */
  lemma {:induction false} TaxonEntriesAppend(a: seq<string>, b: seq<string>)
    ensures TaxonEntries(a + b) == TaxonEntries(a) + TaxonEntries(b)
    decreases |a|
  {
    if a != [] {
      assert (a + b)[1..] == a[1..] + b;
      TaxonEntriesAppend(a[1..], b);
    } else {
      assert a + b == b;
    }
  }

  /** The ids of a concatenation are the ids of each part, in order. */
  lemma TaxidsAppend(a: seq<string>, b: seq<string>)
    ensures Taxids(a + b) == Taxids(a) + Taxids(b)
  {
    TaxonEntriesAppend(a, b);
  }

  /** One cross-reference yields its id when it is a `taxon:` entry, and nothing otherwise. */
  lemma TaxidsSingle(x: string)
    ensures StartsWith(x, "taxon:") ==> Taxids([x]) == [TaxidOf(x)]
    ensures !StartsWith(x, "taxon:") ==> Taxids([x]) == []
  {
    assert [x][1..] == [];
  }

  /** An id is found exactly when some `taxon:` cross-reference of the first feature carries it. */
  lemma FindTaxidMembers(data: Record, t: string)
    ensures t in FindTaxid(data) <==>
      exists x :: x in FirstXrefs(data) && StartsWith(x, "taxon:") && TaxidOf(x) == t
  {
    var xs := FirstXrefs(data);
    var vals := TaxonEntries(xs);
    if t in FindTaxid(data) {
      var i :| 0 <= i < |vals| && FindTaxid(data)[i] == t;
      TaxonEntriesMembers(xs, vals[i]);
    }
    if exists x :: x in xs && StartsWith(x, "taxon:") && TaxidOf(x) == t {
      var x :| x in xs && StartsWith(x, "taxon:") && TaxidOf(x) == t;
      TaxonEntriesMembers(xs, x);
      var i :| 0 <= i < |vals| && vals[i] == x;
      assert FindTaxid(data)[i] == t;
    }
  }

  /** A record whose first feature lists `taxon:<t>` cross-references yields exactly those ids, in order. */
  lemma FindTaxidReads(data: Record, ts: seq<string>)
    requires data.features != [] && Lookup(data.features[0], "db_xref").Some?
    requires forall i :: 0 <= i < |ts| ==> ':' !in ts[i]
    requires Lookup(data.features[0], "db_xref").value == seq(|ts|, i requires 0 <= i < |ts| => "taxon:" + ts[i])
    ensures FindTaxid(data) == ts
  {
    var xs := Lookup(data.features[0], "db_xref").value;
    TaxonEntriesAll(xs);
    forall i | 0 <= i < |ts|
      ensures FindTaxid(data)[i] == ts[i]
    {
      assert xs[i] == "taxon:" + ts[i];
      TaxidRoundTrip(ts[i]);
    }
  }

  /** A list of `taxon:` entries is kept whole. */
  lemma {:induction false} TaxonEntriesAll(xs: seq<string>)
    requires forall i :: 0 <= i < |xs| ==> StartsWith(xs[i], "taxon:")
    ensures TaxonEntries(xs) == xs
    decreases |xs|
  {
    if xs != [] {
      TaxonEntriesAll(xs[1..]);
      assert xs == [xs[0]] + xs[1..];
    }
  }
}
