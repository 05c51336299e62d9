/**
 * Sequence operations of the derivation step: reversal, complement and
 * reverse complement over a complement map, and the strand-aware stitching
 * of a feature's location segments out of the origin sequence.
 */
module Sequences {
  import opened Wrappers
  import opened Text
  import opened Records

  /**
   * The Biopython sequence operations the pipeline calls: the complement of
   * one base, translation (None when Biopython raises) and transcription.
   */
  datatype BioOps = BioOps(
    complement: char -> char,
    translate: string -> Option<string>,
    transcribe: string -> string)

  /** `s[::-1]`. */
  function Reverse(s: string): (r: string)
    ensures |r| == |s|
  {
    seq(|s|, i requires 0 <= i < |s| => s[|s| - 1 - i])
  }

  /** `s.complement()`, base by base. */
  function Complement(s: string, comp: char -> char): (r: string)
    ensures |r| == |s|
  {
    seq(|s|, i requires 0 <= i < |s| => comp(s[i]))
  }

  /** `s.reverse_complement()`. */
  function RevComp(s: string, comp: char -> char): (r: string)
    ensures |r| == |s|
  {
    Reverse(Complement(s, comp))
  }

  lemma ReverseInvolution(s: string)
    ensures Reverse(Reverse(s)) == s
  {
  }

  /** Reversing and complementing commute. */
  lemma ComplementReverse(s: string, comp: char -> char)
    ensures Complement(Reverse(s), comp) == Reverse(Complement(s, comp))
  {
  }

  /** A complement map that undoes itself. */
  predicate Involution(comp: char -> char)
  {
    forall c :: comp(comp(c)) == c
  }

  lemma ComplementInvolution(s: string, comp: char -> char)
    requires Involution(comp)
    ensures Complement(Complement(s, comp), comp) == s
  {
  }

  lemma RevCompInvolution(s: string, comp: char -> char)
    requires Involution(comp)
    ensures RevComp(RevComp(s, comp), comp) == s
  {
    ComplementReverse(Complement(s, comp), comp);
    ReverseInvolution(Complement(Complement(s, comp), comp));
    ComplementInvolution(s, comp);
  }

  /** `origin[x - 1:y]` for a segment, reverse-complemented on the minus strand. */
  function Chunk(origin: string, seg: Segment, comp: char -> char): string
  {
    var piece := Slice(origin, seg.start - 1, Some(seg.end));
    if seg.strand == Some(-1) then RevComp(piece, comp) else piece
  }

  /** The segment chunks concatenated in segment order. */
  function Stitch(origin: string, locs: seq<Segment>, comp: char -> char): string
  {
    if locs == [] then "" else Stitch(origin, locs[..|locs| - 1], comp) + Chunk(origin, locs[|locs| - 1], comp)
  }

  /** The `dna += chunk` loop of `get_feature_records`. */
  method StitchLocations(origin: string, locs: seq<Segment>, comp: char -> char) returns (dna: string)
    ensures dna == Stitch(origin, locs, comp)
  {
    dna := "";
    var k := 0;
    while k < |locs|
      invariant 0 <= k <= |locs|
      invariant dna == Stitch(origin, locs[..k], comp)
    {
      var seg := locs[k];
      var chunk := Slice(origin, seg.start - 1, Some(seg.end));
      if seg.strand == Some(-1) {
        chunk := RevComp(chunk, comp);
      }
      assert locs[..k + 1][..k] == locs[..k];
      dna := dna + chunk;
      k := k + 1;
    }
    assert locs[..k] == locs;
  }

  /** A chunk inside the origin: the segment's bases, reverse-complemented on the minus strand. */
  lemma ChunkWithin(origin: string, seg: Segment, comp: char -> char)
    requires 1 <= seg.start && seg.start - 1 <= seg.end <= |origin|
    ensures |Chunk(origin, seg, comp)| == seg.end - seg.start + 1
    ensures seg.strand != Some(-1) ==> Chunk(origin, seg, comp) == origin[seg.start - 1..seg.end]
    ensures seg.strand == Some(-1) ==> Chunk(origin, seg, comp) == RevComp(origin[seg.start - 1..seg.end], comp)
  {
    SliceWithin(origin, seg.start - 1, Some(seg.end));
  }

  /** A single plus-strand segment stitches to `origin[start-1:end]`. */
  lemma StitchSingle(origin: string, seg: Segment, comp: char -> char)
    ensures Stitch(origin, [seg], comp) == Chunk(origin, seg, comp)
    ensures seg.strand == Some(1) ==> Stitch(origin, [seg], comp) == Slice(origin, seg.start - 1, Some(seg.end))
  {
    assert [seg][..0] == [];
  }

  /** The sum of the lengths of the slices `origin[x-1:y]`. */
  function ChunkLengths(origin: string, locs: seq<Segment>): nat
  {
    if locs == [] then 0
    else ChunkLengths(origin, locs[..|locs| - 1]) + |Slice(origin, locs[|locs| - 1].start - 1, Some(locs[|locs| - 1].end))|
  }

  /** The stitched sequence is as long as its chunks together; the strand does not change a chunk's length. */
  lemma {:induction false} StitchLength(origin: string, locs: seq<Segment>, comp: char -> char)
    ensures |Stitch(origin, locs, comp)| == ChunkLengths(origin, locs)
    decreases |locs|
  {
    if locs != [] {
      StitchLength(origin, locs[..|locs| - 1], comp);
    }
  }

  /** All segments inside the origin. */
  predicate WithinOrigin(origin: string, locs: seq<Segment>)
  {
    forall i :: 0 <= i < |locs| ==> 1 <= locs[i].start && locs[i].start - 1 <= locs[i].end <= |origin|
  }

  /** The total span `sum(end - start + 1)` of the segments. */
  function Span(locs: seq<Segment>): int
  {
    if locs == [] then 0 else Span(locs[..|locs| - 1]) + (locs[|locs| - 1].end - locs[|locs| - 1].start + 1)
  }

  /** Inside the origin, the chunk lengths add up to the segments' total span. */
  lemma {:induction false} ChunkLengthsWithin(origin: string, locs: seq<Segment>)
    requires WithinOrigin(origin, locs)
    ensures ChunkLengths(origin, locs) == Span(locs)
    decreases |locs|
  {
    if locs != [] {
      var last := locs[|locs| - 1];
      assert WithinOrigin(origin, locs[..|locs| - 1]);
      ChunkLengthsWithin(origin, locs[..|locs| - 1]);
      SliceWithin(origin, last.start - 1, Some(last.end));
    }
  }
}
