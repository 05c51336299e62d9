/**
 * The record converter: `convert_genbank`, `convert_fasta` and
 * `make_jsonrec`, over an abstract stand-in for the parser's records.
 */
module Convert {
  import opened Wrappers
  import opened Text
  import opened JsonValues
  import opened Records
  import opened Identity
  import opened Accum

  /** A part of a parsed location, 0-based and half-open as the parser gives it. */
  datatype RawPart = RawPart(start: int, end: int, strand: Option<int>)

  /** A parsed feature: its raw type, strand, overall span, parts, location operator and qualifiers. */
  datatype SourceFeature = SourceFeature(
    ftype: string,
    strand: Option<int>,
    start: int,
    end: int,
    parts: seq<RawPart>,
    operator: Option<string>,
    quals: seq<(string, Values)>)

  /** A parsed record: `id`, `name`, `description`, `dbxrefs`, `annotations`, `features` and `seq`. */
  datatype SourceRecord = SourceRecord(
    id: string,
    name: string,
    description: string,
    dbxrefs: seq<string>,
    annotations: seq<(string, Value)>,
    features: seq<SourceFeature>,
    sequence: string)

  /** `SEQUENCE_ONTOLOGY.get(ftype, ftype)`: the table's term, or the raw type when it has none. */
  function Term(so: map<string, string>, ftype: string): string
  {
    if ftype in so then so[ftype] else ftype
  }

  /** The per-part location, shifted to 1-based inclusive coordinates. */
  function Location(parts: seq<RawPart>): seq<Segment>
  {
    seq(|parts|, i requires 0 <= i < |parts| => Segment(parts[i].start + 1, parts[i].end, parts[i].strand))
  }

  function OperatorValue(o: Option<string>): Value
  {
    if o.None? then Null else Str(o.value)
  }

  /** The feature dictionary `convert_genbank` builds before `fill_name`. */
  function Attrs(sf: SourceFeature, so: map<string, string>): Feature
  {
    Feature(StrId(""), "", sf.start + 1, sf.end, Term(so, sf.ftype), sf.strand, Location(sf.parts),
            OperatorValue(sf.operator), sf.quals, None, None)
  }

  function AttrsAll(sfs: seq<SourceFeature>, so: map<string, string>): seq<Feature>
  {
    seq(|sfs|, i requires 0 <= i < |sfs| => Attrs(sfs[i], so))
  }

  /** The annotations, each value run through `json_ready`. */
  function Annotations(anns: seq<(string, Value)>): seq<(string, Value)>
  {
    seq(|anns|, i requires 0 <= i < |anns| => (anns[i].0, JsonReady(anns[i].1)))
  }

  /** The JSON record of one parsed GenBank record, given its resolved features. */
  function GenBankRecord(rec: SourceRecord, seqid: Option<string>, feats: seq<Feature>): Record
  {
    Record(OptOr(seqid, rec.id), rec.name, rec.description, rec.sequence, feats,
           Some(GenBankInfo(rec.dbxrefs, |rec.features|, |rec.sequence|, Annotations(rec.annotations))))
  }

  /** One parsed record converted when the counter stands at `next`: the record, and the counter afterwards. */
  function ConvertRecord(rec: SourceRecord, seqid: Option<string>, so: map<string, string>, next: nat): (Record, nat)
  {
    var fs := ResolveAll(AttrsAll(rec.features, so), next);
    (GenBankRecord(rec, seqid, fs.0), fs.1)
  }

  function ConvertStep(seqid: Option<string>, so: map<string, string>): (SourceRecord, nat) -> (Record, nat)
  {
    (rec, next) => ConvertRecord(rec, seqid, so, next)
  }

  /** `convert_genbank` on records when the counter stands at `next`: one record per parsed record, and the counter afterwards. */
  function ConvertAll(recs: seq<SourceRecord>, seqid: Option<string>, so: map<string, string>, next: nat): (r: (seq<Record>, nat))
    ensures |r.0| == |recs|
  {
    MapAccum(recs, ConvertStep(seqid, so), next)
  }

  /** The annotation loop of `convert_genbank`: each annotation value run through `json_ready`, in order. */
  method SerializeAnnotations(annotations: seq<(string, Value)>) returns (anns: seq<(string, Value)>)
    ensures anns == Annotations(annotations)
  {
    anns := [];
    var a := 0;
    while a < |annotations|
      invariant 0 <= a <= |annotations|
      invariant anns == Annotations(annotations[..a])
    {
      var (key, value) := annotations[a];
      anns := anns + [(key, JsonReady(value))];
      a := a + 1;
    }
    assert annotations[..a] == annotations;
  }

  /** The feature loop of `convert_genbank`: build each feature's dictionary and resolve it with the shared counter. */
  method ConvertFeatures(sfs: seq<SourceFeature>, so: map<string, string>, counter: Counter) returns (feats: seq<Feature>)
    requires counter.Valid()
    modifies counter
    ensures counter.Valid()
    ensures (feats, counter.next) == ResolveAll(AttrsAll(sfs, so), old(counter.next))
  {
    feats := [];
    var j := 0;
    while j < |sfs|
      invariant 0 <= j <= |sfs|
      invariant counter.Valid()
      invariant (feats, counter.next) == ResolveAll(AttrsAll(sfs[..j], so), old(counter.next))
    {
      var feat := sfs[j];
      var ftype := Term(so, feat.ftype);
      var start := feat.start + 1;
      var end := feat.end;
      var location := Location(feat.parts);
      var attrs := Feature(StrId(""), "", start, end, ftype, feat.strand, location,
                           OperatorValue(feat.operator), feat.quals, None, None);
      ghost var all := AttrsAll(sfs[..j + 1], so);
      assert all[..j] == AttrsAll(sfs[..j], so) && all[j] == attrs;
      MapAccumSnoc(all, Resolve, old(counter.next), j);
      assert all[..j + 1] == all;
      attrs := FillName(attrs, counter);
      feats := feats + [attrs];
      j := j + 1;
    }
    assert sfs[..j] == sfs;
  }

  /** `convert_genbank(recs, seqid)`: one JSON record per parsed record, every feature resolved with the shared counter. */
  method ConvertGenBank(recs: seq<SourceRecord>, seqid: Option<string>, so: map<string, string>, counter: Counter)
    returns (data: seq<Record>)
    requires counter.Valid()
    modifies counter
    ensures counter.Valid()
    ensures (data, counter.next) == ConvertAll(recs, seqid, so, old(counter.next))
  {
    data := [];
    var i := 0;
    while i < |recs|
      invariant 0 <= i <= |recs|
      invariant counter.Valid()
      invariant (data, counter.next) == ConvertAll(recs[..i], seqid, so, old(counter.next))
    {
      var rec := recs[i];
      MapAccumSnoc(recs, ConvertStep(seqid, so), old(counter.next), i);
      var anns := SerializeAnnotations(rec.annotations);
      var feats := ConvertFeatures(rec.features, so, counter);
      var item := Record(OptOr(seqid, rec.id), rec.name, rec.description, rec.sequence, feats,
                         Some(GenBankInfo(rec.dbxrefs, |rec.features|, |rec.sequence|, anns)));
      data := data + [item];
      i := i + 1;
    }
    assert recs[..i] == recs;
  }

  /**
   * Record i of a conversion is the i-th parsed record converted from where
   * the records before it left the counter: the order is kept and nothing is
   * dropped.
   */
  lemma ConvertAllAt(recs: seq<SourceRecord>, seqid: Option<string>, so: map<string, string>, next: nat, i: nat)
    requires i < |recs|
    ensures ConvertAll(recs, seqid, so, next).0[i] == ConvertRecord(recs[i], seqid, so, ConvertAll(recs[..i], seqid, so, next).1).0
  {
    MapAccumAt(recs, ConvertStep(seqid, so), next, i);
  }

  /**
   * The fixed keys of converted feature j: coordinates shifted from 0-based
   * half-open to 1-based inclusive, the type remapped, each part becoming
   * `(s + 1, e, strand)`, qualifiers copied, no `parent_id`; and its id is
   * its uid or a counter value (never empty or 0 from a valid counter).
   */
  lemma FeatureMapping(sfs: seq<SourceFeature>, so: map<string, string>, next: nat, j: nat)
    requires j < |sfs|
    ensures var f := ResolveAll(AttrsAll(sfs, so), next).0[j];
      && |ResolveAll(AttrsAll(sfs, so), next).0| == |sfs|
      && f.start == sfs[j].start + 1 && f.end == sfs[j].end
      && f.ftype == Term(so, sfs[j].ftype) && f.strand == sfs[j].strand
      && |f.location| == |sfs[j].parts|
      && (forall p :: 0 <= p < |sfs[j].parts| ==>
            f.location[p] == Segment(sfs[j].parts[p].start + 1, sfs[j].parts[p].end, sfs[j].parts[p].strand))
      && f.quals == sfs[j].quals && f.parentId == None && f.geneId == None
      && (next >= 1 ==> IdTruthy(f.id))
  {
    var fs := AttrsAll(sfs, so);
    ResolveAllIds(fs, next, j);
    ResolvedAttrs(sfs[j], so, next + Draws(fs[..j]));
  }

  /** `fill_name` changes only the id and the name of a converted feature. */
  lemma ResolvedAttrs(sf: SourceFeature, so: map<string, string>, next: nat)
    ensures var f := Resolve(Attrs(sf, so), next).0;
      && f.start == sf.start + 1 && f.end == sf.end
      && f.ftype == Term(so, sf.ftype) && f.strand == sf.strand
      && f.location == Location(sf.parts)
      && f.quals == sf.quals && f.parentId == None && f.geneId == None
      && (next >= 1 ==> IdTruthy(f.id))
  {
    ResolveTable(Attrs(sf, so), next);
  }

  /** `feature_count` counts the parsed features and `origin_size` the sequence, both before any expansion. */
  lemma RecordCounts(recs: seq<SourceRecord>, seqid: Option<string>, so: map<string, string>, next: nat, i: nat)
    requires i < |recs|
    ensures var d := ConvertAll(recs, seqid, so, next).0[i];
      && d.info.Some?
      && d.info.value.featureCount == |recs[i].features| == |d.features|
      && d.info.value.originSize == |recs[i].sequence| == |d.origin|
      && d.seqid == OptOr(seqid, recs[i].id)
  {
    ConvertAllAt(recs, seqid, so, next, i);
  }

  /** `convert_fasta(recs, seqid)`: one featureless record per parsed record, in order. */
  method ConvertFasta(recs: seq<SourceRecord>, seqid: Option<string>) returns (data: seq<Record>)
    ensures |data| == |recs|
    ensures forall i :: 0 <= i < |recs| ==>
      data[i] == Record(OptOr(seqid, recs[i].id), recs[i].name, recs[i].description, recs[i].sequence, [], None)
  {
    data := [];
    for i := 0 to |recs|
      invariant |data| == i
      invariant forall k :: 0 <= k < i ==>
        data[k] == Record(OptOr(seqid, recs[k].id), recs[k].name, recs[k].description, recs[k].sequence, [], None)
    {
      var rec := recs[i];
      var item := Record(OptOr(seqid, rec.id), rec.name, rec.description, rec.sequence, [], None);
      data := data + [item];
    }
  }

  /**
   * `make_jsonrec(seq, seqid)`: one record with one `sequence` feature
   * spanning the whole sequence on strand +1, named `S<n>` after the next
   * counter value. Its operator is the tuple `(None,)`, as the trailing
   * comma at line 531 makes it.
   */
  method MakeJsonRec(sequence: string, seqid: Option<string>, counter: Counter) returns (data: seq<Record>)
    requires counter.Valid()
    modifies counter
    ensures counter.Valid() && counter.next == old(counter.next) + 1
    ensures var name := "S" + Dec(old(counter.next));
      data == [Record(OptOr(seqid, name), "", "", sequence,
                      [Feature(StrId(name), name, 1, |sequence|, "sequence", Some(1), [Segment(1, |sequence|, Some(1))],
                               Tuple([Null]), [("locus_tag", [name])], None, None)],
                      None)]
  {
    var count := counter.Take();
    var name := "S" + Dec(count);
    var start, end, strand := 1, |sequence|, 1;
    var oper := Tuple([Null]);
    var location := [Segment(start, end, Some(strand))];
    var ftype := "sequence";
    var attrs := Feature(StrId(name), name, start, end, ftype, Some(strand), location, oper, [("locus_tag", [name])], None, None);
    var item := Record(OptOr(seqid, name), "", "", sequence, [attrs], None);
    data := [item];
  }
}
