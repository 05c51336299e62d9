# A verified model of the biorun JSON record pipeline

biorun keeps sequence data as JSON instead of GenBank or FASTA files. The
module `biorun/models/jsonrec.py` does three things:

- it converts parsed records into JSON records;
- it gives every feature an id and a name;
- it derives sequence records from the JSON: feature sequences, translations, the origin and taxonomy ids.

This project models that module in Dafny and proves properties of the model.
It is laid out one module per part of the pipeline:

| file | module | models |
|---|---|---|
| `wrappers.dfy` | `Wrappers` | an `Option` type |
| `text.dfy` | `Text` | Python string helpers: `or` on strings, f-string rendering of integers, `split` and `join`, substring tests, and the clamping slice `s[lo:hi]` with negative indices |
| `values.dfy` | `JsonValues` | the values annotations carry, and `json_ready` |
| `records.dfy` | `Records` | the JSON feature and record schema, `first` and `has_feature` |
| `accum.dfy` | `Accum` | two list-building loop shapes as functions: a counter threaded through a list (`MapAccum`), and a generator that stops at the first failing element (`RunUntil`) |
| `identity.dfy` | `Identity` | the global counter (a class with a `next` field), `reset_counter` and `fill_name` |
| `convert.dfy` | `Convert` | `convert_genbank`, `convert_fasta` and `make_jsonrec`, over an abstract stand-in for the parser's records |
| `hierarchy.dfy` | `Hierarchy` | `get_json_features`: the parent/child fan-out of mRNA and CDS features |
| `filters.dfy` | `Filters` | `filter_features` as a chain of order-preserving filters, with a one-pass reference definition |
| `attributes.dfy` | `Attributes` | `make_attr`, the GFF-style attribute string |
| `sequences.dfy` | `Sequences` | reverse, complement, reverse complement and strand-aware stitching of location segments |
| `derive.dfy` | `Derive` | `get_feature_records`, `get_translation_records`, `get_origin` and `find_taxid` |

## How the code is modelled

- **Loops are methods.** Where the source builds a list in a loop or mutates state, the model uses a method, with a loop where the source has one. Each such method is proved equal to a Dafny function, or its `ensures` gives its whole result:
  - `fill_name` and the counter;
  - the feature and record loops of `convert_genbank`;
  - `convert_fasta` and `make_jsonrec`;
  - the generator of `get_json_features`;
  - the `dna += chunk` loop and the transformation chain of `get_feature_records`;
  - the field loop of `make_attr`.
- **Pure code is functions.** The comprehensions and `filter` chains are functions: `filter_features`, `first`, `find_taxid`, `json_ready` and `get_origin`.
- **Integer ids.** `fill_name` stores the integer `next(COUNTER)` as the id when a feature has no uid, so an id is either a string or a number (`Records.Id`).
- **Dead fallback.** The counter starts at 1 and never yields 0. So the fallback `f"{ftype}-{next(COUNTER)}"` of line 417 is unreachable, and the model proves it so.
- **A substring name filter.** The `name` filter tests `name in f["name"]` on a string, so it is a substring test (`Filters.NameContains`).
- **A tuple operator.** In `make_jsonrec`, `oper = None,` makes the operator the one-element tuple `(None,)`.
- **Truthiness.** Python truthiness is explicit:
  - `start or end` is false for `start == 0` and for an `end` of `None` or 0;
  - `if pid:` is false for an empty or zero id.
- **Slicing.** `s[lo:hi]` follows Python: a negative index counts from the end, and out-of-range bounds are clamped (`Text.Slice`).
- **Stopping on an error.** In `get_feature_records`, an exception in the transformation chain goes to `utils.error`, which ends the process. The model yields the records made so far and an `aborted` flag. A translation mismatch only adds the record id to the returned log and never stops the run.

## Model

| member | source | states |
|---|---|---|
| Text.Dec | biorun/models/jsonrec.py:243 | the f-string rendering of a natural number is non-empty and made of decimal digits |
| Text.DecRoundTrip | biorun/models/jsonrec.py:243 | reading the rendered digits back gives the number |
| Text.DecInjective | biorun/models/jsonrec.py:243 | different numbers render differently |
| Text.Split | biorun/models/jsonrec.py:94 | `str.split(c)` always yields at least one piece |
| Text.JoinSplit | biorun/models/jsonrec.py:94 | joining the pieces of a split with the separator gives the string back |
| Text.SplitJoin | biorun/models/jsonrec.py:144 | splitting a join of separator-free pieces gives the pieces back |
| Text.SplitWithoutSeparator | biorun/models/jsonrec.py:94 | a string without the separator splits into itself alone |
| Text.SplitAfterPiece | biorun/models/jsonrec.py:94 | a separator-free piece and a separator in front of the rest split off as the first piece |
| Text.SplitFirstPiece | biorun/models/jsonrec.py:94 | the first piece is a separator-free prefix, and it is the only piece exactly when the string has no separator |
| Text.SliceBound | biorun/models/jsonrec.py:298 | a Python slice index, normalised and clamped, lies within the sequence |
| Text.Slice | biorun/models/jsonrec.py:298 | a Python slice is never longer than the sequence |
| Text.SliceWithin | biorun/models/jsonrec.py:177 | with in-range non-negative bounds, the slice is the ordinary subsequence |
| Text.SliceDropLast | biorun/models/jsonrec.py:336 | `s[:-1]` drops the last element, and is empty for an empty sequence |
| JsonValues.JsonReady | biorun/models/jsonrec.py:363-383 | `json_ready`: a reference becomes a dictionary of its four fields, and lists and ordered dictionaries are converted element by element, so the result is never a reference or ordered dictionary; its meaning is given by `JsonReadyFixedPoints`, `JsonReadyIsReady` and `JsonReadyIdempotent` |
| JsonValues.JsonReadyFixedPoints | biorun/models/jsonrec.py:363-383 | `json_ready` leaves a value unchanged exactly when it holds no reference or ordered dictionary, at the top or down a chain of lists |
| JsonValues.JsonReadyIsReady | biorun/models/jsonrec.py:363-383 | the result of `json_ready` is always ready |
| JsonValues.JsonReadyIdempotent | biorun/models/jsonrec.py:363-383 | applying `json_ready` twice is the same as once |
| JsonValues.StringListUnchanged | biorun/models/jsonrec.py:480-481 | a qualifier's list of strings passes through `json_ready` unchanged |
| Records.LookupInFirst | biorun/models/jsonrec.py:102 | a key lookup fails exactly when no pair has the key; otherwise it returns the values of the first pair with the key |
| Records.First | biorun/models/jsonrec.py:98-102 | `first` is the default when the key is absent, and the key's first value otherwise |
| Records.HasFeature | biorun/models/jsonrec.py:38-42 | `has_feature` is `''` when the key is absent, and the key's first value otherwise |
| Accum.MapAccum | biorun/models/jsonrec.py:454-487 | a counter threaded through a list yields one output per input |
| Accum.MapAccumAt | biorun/models/jsonrec.py:454-487 | output j is the step applied to input j, with the counter left by the inputs before it |
| Accum.MapAccumSnoc | biorun/models/jsonrec.py:454-487 | one more input appends one output and moves the counter by that step |
| Accum.RunUntilSnoc | biorun/models/jsonrec.py:274-339 | a generator run over one more element extends the earlier run, unless that run has already stopped |
| Accum.RunUntilStopped | biorun/models/jsonrec.py:322-323 | once a step has failed, later elements change nothing |
| Accum.RunUntilPrefix | biorun/models/jsonrec.py:274-339 | the run yields the results of a prefix of the input in order; it stops exactly when a step fails, at the first failing element |
| Accum.RunUntilTotal | biorun/models/jsonrec.py:274-339 | when no step fails and none logs, every element yields a result and nothing is logged |
| Identity.Counter.constructor | biorun/models/jsonrec.py:29 | the counter starts at 1 |
| Identity.Counter.Reset | biorun/models/jsonrec.py:33-35 | `reset_counter` sets the counter back to 1 |
| Identity.Counter.Take | biorun/models/jsonrec.py:415 | `next(COUNTER)` returns the current value and advances it by one |
| Identity.Resolve | biorun/models/jsonrec.py:395-420 | the value `fill_name` computes: the new feature and the new counter, which moves by at most one, with only the id and name changed; its meaning is given by `ResolveTable` |
| Identity.FillName | biorun/models/jsonrec.py:389-422 | `fill_name` sets the id and name that the per-type table selects, and moves the counter as that table says; the line-417 fallback is unreachable |
| Identity.ResolveTable | biorun/models/jsonrec.py:395-420 | the precedence table: per type, which qualifiers give the name and the uid. The counter moves exactly when the uid is empty, and the id is then the counter value. An empty name becomes the type, the id is truthy, and no other key changes |
| Identity.ResolveAll | biorun/models/jsonrec.py:454-487 | resolving a feature list yields one feature per feature |
| Identity.ResolveAllDraws | biorun/models/jsonrec.py:415 | the counter ends up advanced by the number of features whose uid is empty |
| Identity.ResolveAllIds | biorun/models/jsonrec.py:454-487 | feature j is resolved with the counter at the start value plus the draws of the features before it, so after `reset_counter` the ids depend on the features alone |
| Identity.CounterIdsDistinct | biorun/models/jsonrec.py:415 | two features that both draw from the counter get different ids |
| Identity.DrawsStep | biorun/models/jsonrec.py:415 | one more feature adds a draw exactly when its uid is empty |
| Identity.DrawsGrow | biorun/models/jsonrec.py:415 | a feature that draws makes every later draw count larger |
| Convert.ConvertAll | biorun/models/jsonrec.py:435-496 | one JSON record per parsed record |
| Convert.SerializeAnnotations | biorun/models/jsonrec.py:449-450 | each annotation value goes through `json_ready`, keys and order kept |
| Convert.ConvertFeatures | biorun/models/jsonrec.py:453-487 | the feature loop builds each feature and resolves it with the shared counter: it equals `Identity.ResolveAll(AttrsAll(..))` from the old counter value |
| Convert.ConvertGenBank | biorun/models/jsonrec.py:425-499 | `convert_genbank` equals the conversion function, with the counter threaded through all records |
| Convert.ConvertAllAt | biorun/models/jsonrec.py:435-496 | record i is parsed record i converted with the counter the records before it left: the order is kept and nothing is dropped |
| Convert.FeatureMapping | biorun/models/jsonrec.py:454-487 | one feature per source feature. Each has start + 1, the same end, the ontology type and the same strand. Every part (s, e, strand) becomes the segment (s + 1, e, strand). The qualifiers are kept, there is no parent, and the id is truthy once the counter has started |
| Convert.ResolvedAttrs | biorun/models/jsonrec.py:466-484 | `fill_name` changes only the id and name of a converted feature; the coordinates, type, strand, location and qualifiers are those of the source |
| Convert.RecordCounts | biorun/models/jsonrec.py:441-446 | `feature_count` is the number of parsed features and of JSON features; `origin_size` is the sequence length; the seqid is the given one or the record id |
| Convert.ConvertFasta | biorun/models/jsonrec.py:502-515 | one featureless record per parsed record, in order, with the seqid, name, description and sequence of that record |
| Convert.MakeJsonRec | biorun/models/jsonrec.py:518-540 | one record named `S<n>` after the next counter value. It has one `sequence` feature spanning the whole sequence on strand +1 with operator `(None,)`. The counter moves by one |
| Hierarchy.ExpandOne | biorun/models/jsonrec.py:207-253 | the records one feature yields: an optional parent, then one record per segment; its meaning is given by `ExpandOneAt`, `ParentRecord`, `PlainRecords` and `SegmentFields` |
| Hierarchy.ExpandAll | biorun/models/jsonrec.py:204-253 | the per-call child counter never goes down |
| Hierarchy.ExpandOneAt | biorun/models/jsonrec.py:239-253 | a feature yields its optional parent and then one record per location segment, in segment order |
| Hierarchy.ParentRecord | biorun/models/jsonrec.py:219-236 | an mRNA or CDS yields first a copy of itself as the parent, typed `transcript` for an mRNA and `mRNA` for a CDS, then one child per segment |
| Hierarchy.PlainRecords | biorun/models/jsonrec.py:213-216 | any other type yields exactly one record per segment and draws no child numbers |
| Hierarchy.SegmentFields | biorun/models/jsonrec.py:239-253 | a segment record takes start, end and strand from its segment. Its type is `exon` under an mRNA, `CDS` under a CDS, and unchanged otherwise. The name, operator, qualifiers and location are copied. Under a truthy parent id it gets a child id, the parent id and the gene id; otherwise the id and parent are unchanged |
| Hierarchy.GeneIdFallback | biorun/models/jsonrec.py:249 | `gene_id` is the `locus_tag` values, or `["missing"]` when there is none |
| Hierarchy.ExpandAllPrefix | biorun/models/jsonrec.py:204-253 | the output holds, in order, the records of each feature, with the counter the features before it left |
| Hierarchy.ChildrenAppend | biorun/models/jsonrec.py:246 | child counts add up over concatenation |
| Hierarchy.ChildrenAtLeastOne | biorun/models/jsonrec.py:246 | a list holding a child counts at least one child |
| Hierarchy.ChildrenOfOne | biorun/models/jsonrec.py:239-246 | within one feature's records, only the segment records under a truthy parent are children |
| Hierarchy.ChildOfOne | biorun/models/jsonrec.py:239-246 | a child among one feature's records is the segment after its parent, with the id `<child type>-<n>` for its number |
| Hierarchy.ExpandAllCounter | biorun/models/jsonrec.py:202-243 | the per-call counter advances once per child emitted |
| Hierarchy.ChildIdsLast | biorun/models/jsonrec.py:243 | a child of the last input feature has the id `<type>-<n>`, where n is the start value plus the children before it, and the type is exon or CDS |
| Hierarchy.ChildIds | biorun/models/jsonrec.py:202-246 | every child has the id `<type>-<n>`, where n counts up from the start value across the whole call, and its type is exon or CDS |
| Hierarchy.ChildIdInjective | biorun/models/jsonrec.py:243 | child ids of different types or numbers differ |
| Hierarchy.ChildIdsDistinct | biorun/models/jsonrec.py:202-246 | children are numbered in increasing order of emission, and their ids are pairwise distinct |
| Hierarchy.ExpandFeature | biorun/models/jsonrec.py:207-253 | the loop body for one feature yields exactly that feature's records and advances the counter by its number of children |
| Hierarchy.GetJsonFeatures | biorun/models/jsonrec.py:194-253 | `get_json_features` equals the expansion of all features with the counter starting at 1 |
| Filters.FilterFeatures | biorun/models/jsonrec.py:45-77 | `filter_features`: the filters the criteria switch on, applied in source order; its meaning is given by `FilterIsSelect` and `SelectMembers` |
| Filters.NarrowMembers | biorun/models/jsonrec.py:52-75 | a single `filter` keeps exactly the items that pass its test |
| Filters.PassesAllAppend | biorun/models/jsonrec.py:45-77 | passing a chain of two filter lists is passing both |
| Filters.WhenPasses | biorun/models/jsonrec.py:45-77 | a filter switched off by its criterion passes everything |
| Filters.StagesKeep | biorun/models/jsonrec.py:45-77 | the switched-on filters pass a feature exactly when it meets every active criterion: origin dropping, type list, gene, name substring, coordinate window and pattern |
| Filters.SiftAppend | biorun/models/jsonrec.py:45-77 | the one-pass filter distributes over concatenation |
| Filters.SiftNarrow | biorun/models/jsonrec.py:45-77 | one `filter` before a chain is the chain with that test in front |
| Filters.SiftNone | biorun/models/jsonrec.py:77 | no filters keep everything |
| Filters.NarrowAllSift | biorun/models/jsonrec.py:45-77 | filters applied one after the other equal the one-pass filter that checks them all |
| Filters.SiftSelect | biorun/models/jsonrec.py:45-77 | the one-pass filter over the active stages keeps the features that meet the criteria |
| Filters.FilterIsSelect | biorun/models/jsonrec.py:45-77 | `filter_features` keeps, in their order, the features that meet every active criterion |
| Filters.SelectMembers | biorun/models/jsonrec.py:45-77 | a feature is in the output exactly when it is in the input and meets the criteria |
| Filters.SelectAppend | biorun/models/jsonrec.py:45-77 | filtering distributes over concatenation (order is preserved) |
| Filters.SelectAll | biorun/models/jsonrec.py:45-77 | the output is no longer than the input, and is the input itself when every feature meets the criteria |
| Filters.Unfiltered | biorun/models/jsonrec.py:51-77 | with no criteria, or with the type `all` and nothing else, the input comes back unchanged |
| Filters.WindowKeeps | biorun/models/jsonrec.py:69-71 | the coordinate filter keeps a feature exactly when `start <= f.end` and `end >= f.start`; a missing `end` is `sys.maxsize` |
| Attributes.Kept | biorun/models/jsonrec.py:134 | the kept pairs are no more than the feature's list-valued keys |
| Attributes.Fields | biorun/models/jsonrec.py:137-138 | one `key=value[0]` field per kept pair |
| Attributes.KeptMembers | biorun/models/jsonrec.py:134 | a pair is kept exactly when the feature has it and its key is not skipped |
| Attributes.AttrString | biorun/models/jsonrec.py:124-144 | the attribute string `make_attr` returns, the `;`-join of the fields; its layout is given by `AttrLayout`, `AttrStartsWithId` and `AttrFieldsRecovered` |
| Attributes.MakeAttr | biorun/models/jsonrec.py:114-144 | `make_attr` is the `;`-join of the attribute fields |
| Attributes.AttrLayout | biorun/models/jsonrec.py:124-142 | the fields, in order: `ID=`; `Parent=` exactly when the parent id is truthy; `Name=`; one `key=value[0]` per kept key in dictionary order; `color=` last exactly when a non-empty color is given |
| Attributes.AttrStartsWithId | biorun/models/jsonrec.py:124 | the attribute string starts with `ID=<id>` |
| Attributes.AttrFieldsRecovered | biorun/models/jsonrec.py:144 | when no field holds `;`, splitting the string on `;` gives the fields back |
| Sequences.Reverse | biorun/models/jsonrec.py:307 | `s[::-1]` keeps the length |
| Sequences.Complement | biorun/models/jsonrec.py:311 | the complement keeps the length |
| Sequences.RevComp | biorun/models/jsonrec.py:287 | the reverse complement keeps the length |
| Sequences.ReverseInvolution | biorun/models/jsonrec.py:307 | reversing twice gives the sequence back |
| Sequences.ComplementReverse | biorun/models/jsonrec.py:303-311 | complementing and reversing commute |
| Sequences.ComplementInvolution | biorun/models/jsonrec.py:311 | with a self-inverse base map, complementing twice gives the sequence back |
| Sequences.RevCompInvolution | biorun/models/jsonrec.py:287 | with a self-inverse base map, the reverse complement of the reverse complement is the sequence |
| Sequences.Stitch | biorun/models/jsonrec.py:283-288 | the stitched sequence: the chunks `origin[x-1:y]` in segment order, reverse-complemented on strand -1; its meaning is given by `StitchSingle`, `StitchLength` and `ChunkWithin` |
| Sequences.StitchLocations | biorun/models/jsonrec.py:283-288 | the `dna += chunk` loop gives the concatenation, in segment order, of `origin[x-1:y]`, reverse-complemented on strand -1 |
| Sequences.ChunkWithin | biorun/models/jsonrec.py:285-287 | a segment inside the origin gives its `end - start + 1` bases, reverse-complemented exactly on strand -1 |
| Sequences.StitchSingle | biorun/models/jsonrec.py:283-288 | a single +1 segment stitches to `origin[start-1:end]` |
| Sequences.StitchLength | biorun/models/jsonrec.py:283-288 | the stitched sequence is as long as its chunks together |
| Sequences.ChunkLengthsWithin | biorun/models/jsonrec.py:285 | inside the origin, the chunk lengths add up to the segments' total span |
| Derive.ApplyChain | biorun/models/jsonrec.py:300-320 | the `try` block applies reverse complement, reverse, complement, translate and transcribe in that order, each when requested, and appends each one's token; it fails only when translation raises |
| Derive.PrepareChain | biorun/models/jsonrec.py:302-312 | reverse complement, reverse and complement, each when requested and in that order, each appending its token |
| Derive.Derived | biorun/models/jsonrec.py:276-329 | the record `get_feature_records` yields for one feature, or none when the chain raises, which needs translation to be requested; the record is named after the feature; its meaning is given by `DerivedFails`, `PlainRecord` and `WindowRecord` |
| Derive.DeriveOne | biorun/models/jsonrec.py:276-337 | the loop body for one feature makes the record `Derive.Derived` gives, and logs exactly on a translation mismatch |
| Derive.GetFeatureRecords | biorun/models/jsonrec.py:256-339 | `get_feature_records` filters the features (origin dropped, no coordinate filter), derives one record each, stops at the first failing one, and logs the mismatched ids |
| Derive.CollectPrefix | biorun/models/jsonrec.py:274-339 | the records are the derivations of a prefix of the filtered features, in order; the run stops exactly at the first feature whose chain raises |
| Derive.CollectWithoutTranslation | biorun/models/jsonrec.py:314-337 | without translation the run never stops early and logs nothing, so there is one record per feature |
| Derive.DerivedFails | biorun/models/jsonrec.py:300-323 | deriving a feature fails exactly when translation is requested and raises on the prepared sequence |
| Derive.TokensOrder | biorun/models/jsonrec.py:300-320 | each token is in the description exactly when its transformation is requested; the reverse-complement token comes first and the transcription token last |
| Derive.ChainIdentity | biorun/models/jsonrec.py:302-312 | with a self-inverse base map, reverse complement then reverse then complement gives the sequence back |
| Derive.PlainRecord | biorun/models/jsonrec.py:277-329 | with no window and no transformation, the record is named after the feature, holds the stitched sequence, and is described by `make_attr` |
| Derive.WindowRecord | biorun/models/jsonrec.py:291-298 | with a window and no transformation, the record holds `dna[start:end]` and the description `[start+1:end]`, where a missing end is the stitched length |
| Derive.TranslationRecords | biorun/models/jsonrec.py:174-191 | one translation record per selected feature |
| Derive.TranslationFeaturesMembers | biorun/models/jsonrec.py:160-169 | the selected features are exactly the input features that have a translation and meet the criteria |
| Derive.TranslationRecordSource | biorun/models/jsonrec.py:154-191 | record i comes from a selected feature; its sequence is the Python slice of that feature's translation, and its id is `seqid` or the feature name |
| Derive.Origin | biorun/models/jsonrec.py:342-360 | `get_origin`: the sliced origin, translated when requested, named by `seqid` or the record seqid, with the locus as name and the definition as description; it fails only when translation is requested; its meaning is given by `OriginSlice` |
| Derive.OriginSlice | biorun/models/jsonrec.py:342-360 | without translation the origin record exists, holds the in-range slice of the origin, and is named by `seqid` or the record's seqid |
| Derive.TaxonEntries | biorun/models/jsonrec.py:93 | only `taxon:` entries are kept, no more than there were |
| Derive.TaxonSplit | biorun/models/jsonrec.py:94 | splitting `taxon:<rest>` on `:` gives at least two pieces, the second being the first piece of the rest |
| Derive.TaxidRoundTrip | biorun/models/jsonrec.py:94 | the id written into `taxon:<id>` is read back |
| Derive.Taxids | biorun/models/jsonrec.py:93-94 | one id per `taxon:` entry of a cross-reference list |
| Derive.FindTaxid | biorun/models/jsonrec.py:80-95 | one taxid per `taxon:` cross-reference of the first feature |
| Derive.TaxonEntriesMembers | biorun/models/jsonrec.py:93 | an entry is kept exactly when it is in the list and starts with `taxon:` |
| Derive.TaxonEntriesAppend | biorun/models/jsonrec.py:93 | the kept entries of a concatenation are those of each part, in input order |
| Derive.TaxidsAppend | biorun/models/jsonrec.py:93-94 | the ids of a concatenation are the ids of each part, in order |
| Derive.TaxidsSingle | biorun/models/jsonrec.py:93-94 | one cross-reference yields its id when it starts with `taxon:`, and nothing otherwise; with `TaxidsAppend` this fixes the result for any list |
| Derive.FindTaxidMembers | biorun/models/jsonrec.py:80-95 | an id is found exactly when some `taxon:` cross-reference of the first feature carries it, whatever else the list holds |
| Derive.FindTaxidReads | biorun/models/jsonrec.py:80-95 | a first feature listing `taxon:<t>` cross-references yields exactly those ids, in order |
| Derive.TaxonEntriesAll | biorun/models/jsonrec.py:93 | a list made only of `taxon:` entries is kept whole |

## Left out

- `json_view` and `parse_file` are not modelled. They read gzip and plain files, print JSON and end the process through `utils.error`.
- `test/generate.py` is not part of this model. It is a test-harness driver with no domain logic.
- Biopython parsing (`SeqIO.parse`) is not modelled. Its output is the abstract `Convert.SourceRecord`.
- The Biopython sequence operations are parameters (`Sequences.BioOps`):
  - the complement of one base is a total character map;
  - translation may fail, and its failure stands for the exception;
  - transcription is a total function;
  - the codon tables are not modelled.
- `regexp.search(str(f))` is an abstract predicate on features. The regex engine and Python's `repr` of a dict are not modelled.
- The contents of `const` are parameters:
  - the ontology table `SEQUENCE_ONTOLOGY` is a map;
  - `SKIP_GFF_ATTR` is a set, assumed to contain every fixed key and also `parent_id`. The attribute pairs of `make_attr` are drawn from the qualifiers and `gene_id` only (`Records.Items`). Without `parent_id` in the set, the source would emit an extra `parent_id=<first character>` field on every child, or raise for an integer parent id; the model does not capture that;
  - the dictionary key names are record fields.
- Qualifier values are non-empty lists (`Records.Values`), as the parser always makes them. So the `IndexError` that `value[0]` in `has_feature`, `first` and `make_attr` would raise on an empty list is not modelled.
- Logging is left out, except that the ids of translation mismatches are returned as a list.
- The unused global `UNIQUE` is left out.
- Python dictionaries are values here, not shared mutable objects:
  - `fill_name` returns the updated feature instead of writing into the caller's dictionary;
  - `get_json_features` returns copies.

  Aliasing between the yielded dictionaries is not modelled.
- Qualifier keys that collide with a fixed key (`id`, `name`, `type` and so on) are not modelled. Fixed keys and qualifiers are separate fields of `Records.Feature`.
- The generators `get_json_features`, `get_feature_records` and `get_translation_records` are modelled on whole lists. Their laziness is not modelled. An abort mid-way is a prefix of the records plus an `aborted` flag.
- Filters.Criteria: an absent string criterion (`None`) and an empty one are both written `""`. Python treats both as false, so the behaviour is the same.
- `get_translation_records` and `get_feature_records` pass no `start`/`end` to `filter_features`. The model passes none either, so the coordinate filter is off there.
- Sequences.Reverse: its contract states only the length. The contents are used by the involution lemmas.
- Sequences.Complement: its contract states only the length. The contents are used by the involution lemmas.
- Filters.WindowKeeps: with `end` absent, it states the window only for features that start at or below `sys.maxsize`.
- `rec_name(f)` is `f["name"]`. The record id in `get_feature_records` is therefore the feature name and does not take the `seqid` parameter, as the code does.
- `get_origin` has no `try`, so a failed translation ends the call. The model returns `None` for that case.
