/**
 * The JSON record schema: features with their fixed keys and their
 * qualifiers, records, and the sequence records derived from them.
 */
module Records {
  import opened Wrappers
  import opened Text
  import opened JsonValues

  /** A qualifier's values. The parser makes every qualifier a non-empty list of strings. */
  type Values = vs: seq<string> | |vs| > 0 witness [""]

  /** A feature id: a string, or the integer that `fill_name` drew from the counter. */
  datatype Id = StrId(s: string) | NumId(n: nat)

  /** Python truthiness of an id: the empty string and 0 are false. */
  predicate IdTruthy(id: Id)
  {
    match id
    case StrId(s) => s != ""
    case NumId(n) => n != 0
  }

  /** Truthiness of an optional id (`feat.get("parent_id")`). */
  predicate OptIdTruthy(o: Option<Id>)
  {
    o.Some? && IdTruthy(o.value)
  }

  /** How an f-string renders an id. */
  function IdText(id: Id): string
  {
    match id
    case StrId(s) => s
    case NumId(n) => Dec(n)
  }

  /** One location segment `(start, end, strand)`, 1-based and inclusive. */
  datatype Segment = Segment(start: int, end: int, strand: Option<int>)

  /**
   * A JSON feature: the fixed keys (`id`, `name`, `start`, `end`, `type`,
   * `strand`, `location`, `operator`), the qualifiers in dictionary order,
   * and the two keys the hierarchy builder adds to a child (`parent_id`,
   * `gene_id`), which come after the qualifiers in dictionary order.
   */
  datatype Feature = Feature(
    id: Id,
    name: string,
    start: int,
    end: int,
    ftype: string,
    strand: Option<int>,
    location: seq<Segment>,
    operator: Value,
    quals: seq<(string, Values)>,
    parentId: Option<Id>,
    geneId: Option<Values>)

  /** The list-valued keys of a feature, in dictionary order. */
  function Items(f: Feature): seq<(string, Values)>
  {
    f.quals + (if f.geneId.Some? then [("gene_id", f.geneId.value)] else [])
  }

  function LookupIn(items: seq<(string, Values)>, key: string): Option<Values>
  {
    if items == [] then None
    else if items[0].0 == key then Some(items[0].1)
    else LookupIn(items[1..], key)
  }

  /** The lookup finds the first pair with the key, and fails exactly when no pair has it. */
  lemma {:induction false} LookupInFirst(items: seq<(string, Values)>, key: string)
    ensures LookupIn(items, key).None? <==> forall i :: 0 <= i < |items| ==> items[i].0 != key
    ensures LookupIn(items, key).Some? ==>
      exists i :: 0 <= i < |items| && items[i].0 == key && LookupIn(items, key).value == items[i].1
        && forall j :: 0 <= j < i ==> items[j].0 != key
    decreases |items|
  {
    if items != [] && items[0].0 != key {
      LookupInFirst(items[1..], key);
      assert forall i :: 0 < i < |items| ==> items[i] == items[1..][i - 1];
      if LookupIn(items[1..], key).Some? {
        var i :| 0 <= i < |items| - 1 && items[1..][i].0 == key && LookupIn(items[1..], key).value == items[1..][i].1
          && forall j :: 0 <= j < i ==> items[1..][j].0 != key;
        assert items[i + 1].0 == key;
      }
    }
  }

  /** `f.get(key)` for a list-valued key. */
  function Lookup(f: Feature, key: string): Option<Values>
  {
    LookupIn(Items(f), key)
  }

  /** `first(f, key, default)`: the first value of the key, or the default when the key is absent. */
  function First(f: Feature, key: string, default: string): (r: string)
    ensures Lookup(f, key).None? ==> r == default
    ensures Lookup(f, key).Some? ==> r == Lookup(f, key).value[0]
  {
    match Lookup(f, key)
    case None => default
    case Some(vs) => vs[0]
  }

  /** `has_feature(f, key)`: the first value of the key, empty (false) when the key is absent. */
  function HasFeature(f: Feature, key: string): (r: string)
    ensures Lookup(f, key).None? ==> r == ""
    ensures Lookup(f, key).Some? ==> r == Lookup(f, key).value[0]
  {
    First(f, key, "")
  }

  /** The keys a GenBank record has and a FASTA record does not. */
  datatype GenBankInfo = GenBankInfo(
    dblink: seq<string>,
    featureCount: nat,
    originSize: nat,
    annotations: seq<(string, Value)>)

  /** A JSON record: `seqid`, `locus`, `definition`, `origin`, `features`, and the GenBank-only keys. */
  datatype Record = Record(
    seqid: string,
    locus: string,
    definition: string,
    origin: string,
    features: seq<Feature>,
    info: Option<GenBankInfo>)

  /** A Biopython `SeqRecord` as the readers build it: id, optional name, description, sequence. */
  datatype SeqRecord = SeqRecord(id: string, name: Option<string>, description: string, sequence: string)
}
