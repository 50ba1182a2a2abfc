/**
 * The parts of a decoded BAM alignment record that `breakdancer::Read`
 * looks at, and the two decodings it performs on them: the 4-bit packed
 * base sequence and the raw base qualities (section 4.2 of the SAM/BAM
 * format specification, SAMv1). The FLAG bits are those of section 1.4.
 */
module Bam {
  import opened Wrappers

  type uint8 = x: int | 0 <= x < 256

  /** The 16-bit FLAG field of an alignment. */
  type Flag = bv16

  const FPAIRED: Flag := 0x1
  const FPROPER_PAIR: Flag := 0x2
  const FUNMAP: Flag := 0x4
  const FMUNMAP: Flag := 0x8
  const FREVERSE: Flag := 0x10
  const FMREVERSE: Flag := 0x20
  const FREAD1: Flag := 0x40
  const FREAD2: Flag := 0x80
  const FDUP: Flag := 0x400

  predicate Has(flag: Flag, bit: Flag) {
    flag & bit != 0
  }

  /**
   * One decoded alignment. `packedSeq` and `qual` are the bytes the record's
   * sequence and quality pointers address; the RG and AM aux tags are given
   * already extracted.
   */
  datatype Record = Record(
    name: string,           // read name (bam1_qname)
    tid: int,               // reference id
    pos: int,               // 0-based leftmost position
    mtid: int,              // mate reference id
    mpos: int,              // mate position
    isize: int,             // insert size
    flag: Flag,
    mapq: uint8,            // core mapping quality
    lQseq: int,             // number of bases
    packedSeq: seq<uint8>,  // two 4-bit base codes per byte
    qual: seq<uint8>,       // one raw Phred quality per base, then any bytes after the block
    rg: Option<string>,     // RG:Z aux tag
    am: Option<int>)        // AM:i aux tag (alternative mapping quality)

  /** The base count is not negative and the byte ranges that the decoding loops walk over exist. */
  predicate WellFormed(r: Record) {
    0 <= r.lQseq && r.lQseq <= 2 * |r.packedSeq| && r.lQseq <= |r.qual|
  }

  // ---------------------------------------------------------------------
  // Base sequence

  /** The 16-symbol nucleotide code table indexed by 4-bit base code. */
  const NT16: string := "=ACMGRSVTWYHKDBN"

  /** The 4-bit code of base `i`: the high nibble of a byte comes first. */
  function Code(packed: seq<uint8>, i: nat): (c: nat)
    requires i < 2 * |packed|
    ensures c < 16
  {
    if i % 2 == 0 then packed[i / 2] / 16 else packed[i / 2] % 16
  }

  /** Reference decoding: every byte yields its high-nibble base, then its low-nibble base. */
  function PairBases(packed: seq<uint8>): (s: string)
    ensures |s| == 2 * |packed|
  {
    if packed == [] then []
    else [NT16[packed[0] / 16], NT16[packed[0] % 16]] + PairBases(packed[1..])
  }

  lemma {:induction false} PairBasesAt(packed: seq<uint8>, i: nat)
    requires i < 2 * |packed|
    ensures PairBases(packed)[i] == NT16[Code(packed, i)]
  {
    if i >= 2 {
      PairBasesAt(packed[1..], i - 2);
      assert packed[1..][(i - 2) / 2] == packed[i / 2];
    }
  }

  /** What `query_sequence` returns for `n` bases: "*" when there are none. */
  function SeqText(packed: seq<uint8>, n: int): (s: string)
    requires 0 <= n <= 2 * |packed|
    ensures n == 0 ==> s == "*"
    ensures n > 0 ==> |s| == n
  {
    if n == 0 then "*" else PairBases(packed)[..n]
  }

  /** The "*" sentinel appears exactly for an empty sequence; otherwise base i decodes code i. */
  lemma SeqTextSpec(packed: seq<uint8>, n: int)
    requires 0 <= n <= 2 * |packed|
    ensures SeqText(packed, n) == "*" <==> n == 0
    ensures n > 0 ==> |SeqText(packed, n)| == n
    ensures n > 0 ==> forall i :: 0 <= i < n ==> SeqText(packed, n)[i] == NT16[Code(packed, i)]
  {
    if n > 0 {
      forall i | 0 <= i < n ensures SeqText(packed, n)[i] == NT16[Code(packed, i)] {
        PairBasesAt(packed, i);
      }
      PairBasesAt(packed, 0);
      assert SeqText(packed, n)[0] != '*';
    }
  }

  /** Decodes the packed sequence one base at a time, appending to a string. */
  method QuerySequence(packed: seq<uint8>, n: int) returns (s: string)
    requires 0 <= n <= 2 * |packed|
    ensures s == SeqText(packed, n)
  {
    if n != 0 {
      s := "";
      var i := 0;
      while i < n
        invariant 0 <= i <= n
        invariant s == PairBases(packed)[..i]
      {
        PairBasesAt(packed, i);
        s := s + [NT16[Code(packed, i)]];
        i := i + 1;
      }
    } else {
      s := "*";
    }
  }

  // ---------------------------------------------------------------------
  // Base qualities

  const NO_QUALITY: uint8 := 0xFF

  /** `char(q + 33)`: Phred+33, wrapping modulo 256 as the narrowing to `char` does. */
  function QualChar(q: uint8): (c: char)
    ensures q < 223 ==> c as int == q + 33
    ensures q >= 223 ==> c as int == q - 223
  {
    ((q + 33) % 256) as char
  }

  function Phred33(q: seq<uint8>): (s: string)
    ensures |s| == |q|
  {
    if q == [] then [] else [QualChar(q[0])] + Phred33(q[1..])
  }

  lemma {:induction false} Phred33At(q: seq<uint8>, i: nat)
    requires i < |q|
    ensures Phred33(q)[i] == QualChar(q[i])
  {
    if i > 0 {
      Phred33At(q[1..], i - 1);
    }
  }

  lemma {:induction false} Phred33Snoc(q: seq<uint8>, b: uint8)
    ensures Phred33(q + [b]) == Phred33(q) + [QualChar(b)]
  {
    if q != [] {
      assert (q + [b])[1..] == q[1..] + [b];
      Phred33Snoc(q[1..], b);
    }
  }

  /** Inverse of Phred+33 for printable qualities. */
  function PhredDecode(s: string): seq<int> {
    if s == [] then [] else [s[0] as int - 33] + PhredDecode(s[1..])
  }

  /** Qualities up to 222 survive encoding: no wrap-around happens below that. */
  lemma {:induction false} Phred33RoundTrip(q: seq<uint8>)
    requires forall i :: 0 <= i < |q| ==> q[i] <= 222
    ensures PhredDecode(Phred33(q)) == q
  {
    if q != [] {
      Phred33RoundTrip(q[1..]);
    }
  }

  /**
   * What `quality_string` returns: "*" when the byte at the quality pointer is
   * 0xFF, else one Phred+33 character per base. `qual` holds the bytes from
   * that pointer on: the quality block, possibly followed by the bytes after
   * it. With no bases the byte tested is the first one after the empty block
   * when `qual` supplies one; a missing byte is taken to be no sentinel.
   */
  function QualText(qual: seq<uint8>, n: int): (s: string)
    requires 0 <= n <= |qual|
    ensures |qual| > 0 && qual[0] == NO_QUALITY ==> s == "*"
    ensures !(|qual| > 0 && qual[0] == NO_QUALITY) ==> |s| == n
  {
    if |qual| > 0 && qual[0] == NO_QUALITY then "*"
    else Phred33(qual[..n])
  }

  lemma QualTextSpec(qual: seq<uint8>, n: int)
    requires 0 < n <= |qual|
    ensures qual[0] == NO_QUALITY ==> QualText(qual, n) == "*"
    ensures qual[0] != NO_QUALITY ==> |QualText(qual, n)| == n
    ensures qual[0] != NO_QUALITY ==>
      forall i :: 0 <= i < n ==> QualText(qual, n)[i] == QualChar(qual[i])
  {
    if qual[0] != NO_QUALITY {
      forall i | 0 <= i < n ensures QualText(qual, n)[i] == QualChar(qual[i]) {
        Phred33At(qual[..n], i);
      }
    }
  }

  /**
   * With bases present the text is "*" exactly when the first byte is the
   * 0xFF sentinel, or when there is a single base of quality 9, whose
   * Phred+33 character is '*' itself.
   */
  lemma QualSentinelExactly(qual: seq<uint8>, n: int)
    requires 0 < n <= |qual|
    ensures QualText(qual, n) == "*" <==> qual[0] == NO_QUALITY || (n == 1 && qual[0] == 9)
  {
  }

  /** Encodes the qualities one base at a time, appending to a string. */
  method QualityString(qual: seq<uint8>, n: int) returns (s: string)
    requires 0 <= n <= |qual|
    ensures s == QualText(qual, n)
  {
    if |qual| == 0 || qual[0] != NO_QUALITY {
      s := "";
      var i := 0;
      while i < n
        invariant 0 <= i <= n
        invariant s == Phred33(qual[..i])
      {
        assert qual[..i + 1] == qual[..i] + [qual[i]];
        Phred33Snoc(qual[..i], qual[i]);
        s := s + [QualChar(qual[i])];
        i := i + 1;
      }
    } else {
      s := "*";
    }
  }
}
