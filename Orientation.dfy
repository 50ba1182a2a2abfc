/**
 * breakdancer's read-pair orientation classifier: the decision table that
 * turns a read's FLAG bits, the reference ids and positions of the read and
 * its mate, and the sequencing platform into a `pair_orientation_flag`.
 */
module Orientation {
  import opened Bam

  datatype Category =
    | NA
    | NORMAL_FR
    | NORMAL_RF
    | ARP_FF
    | ARP_RR
    | ARP_FR_big_insert
    | ARP_RF
    | ARP_CTX
    | UNMAPPED
    | MATE_UNMAPPED

  const SOLID := "solid"

  /** Every FLAG bit the classifier tests. */
  const TESTED_BITS: Flag :=
    FPAIRED | FPROPER_PAIR | FUNMAP | FMUNMAP | FREVERSE | FMREVERSE | FREAD1 | FDUP

  /** `_determine_bdflag`, with the platform passed in. */
  function Classify(flag: Flag, tid: int, mtid: int, pos: int, mpos: int, platform: string): (c: Category)
    ensures !SameReferencePair(flag, tid, mtid) ==> c in {NA, UNMAPPED, MATE_UNMAPPED, ARP_CTX}
    ensures SameReferencePair(flag, tid, mtid) && Has(flag, FPROPER_PAIR) ==> c in {NORMAL_FR, NORMAL_RF}
    ensures SameReferencePair(flag, tid, mtid) && !Has(flag, FPROPER_PAIR)
            ==> c in {ARP_FF, ARP_RR, ARP_FR_big_insert, ARP_RF}
  {
    var readReversed := Has(flag, FREVERSE);
    var mateReversed := Has(flag, FMREVERSE);
    if Has(flag, FDUP) then NA
    else if !Has(flag, FPAIRED) then NA
    else if Has(flag, FUNMAP) then UNMAPPED
    else if Has(flag, FMUNMAP) then MATE_UNMAPPED
    else if tid != mtid then ARP_CTX
    else if Has(flag, FPROPER_PAIR) then
      if platform == SOLID then NORMAL_FR
      else if pos < mpos then (if readReversed then NORMAL_RF else NORMAL_FR)
      else (if readReversed then NORMAL_FR else NORMAL_RF)
    else if platform == SOLID then
      if readReversed != mateReversed then (if readReversed then ARP_RR else ARP_FF)
      else if !readReversed then
        if Has(flag, FREAD1) then (if pos < mpos then ARP_FR_big_insert else ARP_RF)
        else (if pos > mpos then ARP_FR_big_insert else ARP_RF)
      else
        if Has(flag, FREAD1) then (if pos > mpos then ARP_FR_big_insert else ARP_RF)
        else (if pos < mpos then ARP_FR_big_insert else ARP_RF)
    else
      if readReversed == mateReversed then (if mateReversed then ARP_RR else ARP_FF)
      else if (mpos > pos && readReversed) || (pos > mpos && !readReversed) then ARP_RF
      else ARP_FR_big_insert
  }

  /** Both reads mapped, paired, not a duplicate, on the same reference: the cases that reach the orientation tables. */
  predicate SameReferencePair(flag: Flag, tid: int, mtid: int) {
    !Has(flag, FDUP) && Has(flag, FPAIRED) && !Has(flag, FUNMAP)
    && !Has(flag, FMUNMAP) && tid == mtid
  }

  // ---------------------------------------------------------------------
  // Precedence of the early exits

  /** NA is exactly the duplicate-or-unpaired outcome, whatever else the record says. */
  lemma NAExactly(flag: Flag, tid: int, mtid: int, pos: int, mpos: int, platform: string)
    ensures Classify(flag, tid, mtid, pos, mpos, platform) == NA
        <==> Has(flag, FDUP) || !Has(flag, FPAIRED)
  {
  }

  lemma UnmappedExactly(flag: Flag, tid: int, mtid: int, pos: int, mpos: int, platform: string)
    ensures Classify(flag, tid, mtid, pos, mpos, platform) == UNMAPPED
        <==> !Has(flag, FDUP) && Has(flag, FPAIRED) && Has(flag, FUNMAP)
  {
  }

  lemma MateUnmappedExactly(flag: Flag, tid: int, mtid: int, pos: int, mpos: int, platform: string)
    ensures Classify(flag, tid, mtid, pos, mpos, platform) == MATE_UNMAPPED
        <==> !Has(flag, FDUP) && Has(flag, FPAIRED) && !Has(flag, FUNMAP)
             && Has(flag, FMUNMAP)
  {
  }

  lemma CrossReferenceExactly(flag: Flag, tid: int, mtid: int, pos: int, mpos: int, platform: string)
    ensures Classify(flag, tid, mtid, pos, mpos, platform) == ARP_CTX
        <==> !Has(flag, FDUP) && Has(flag, FPAIRED) && !Has(flag, FUNMAP)
             && !Has(flag, FMUNMAP) && tid != mtid
  {
  }

  /** A NORMAL_* category is given exactly to proper pairs that reach the orientation tables. */
  lemma NormalExactly(flag: Flag, tid: int, mtid: int, pos: int, mpos: int, platform: string)
    ensures Classify(flag, tid, mtid, pos, mpos, platform) in {NORMAL_FR, NORMAL_RF}
        <==> SameReferencePair(flag, tid, mtid) && Has(flag, FPROPER_PAIR)
  {
  }

  /** Only the eight tested bits matter: the rest of the FLAG field never changes the category. */
  lemma OnlyTestedBitsMatter(flag: Flag, other: Flag, tid: int, mtid: int, pos: int, mpos: int, platform: string)
    requires flag & TESTED_BITS == other & TESTED_BITS
    ensures Classify(flag, tid, mtid, pos, mpos, platform) == Classify(other, tid, mtid, pos, mpos, platform)
  {
  }

  // ---------------------------------------------------------------------
  // Proper pairs

  lemma SolidProperPairIsNormalFR(flag: Flag, tid: int, mtid: int, pos: int, mpos: int)
    requires SameReferencePair(flag, tid, mtid) && Has(flag, FPROPER_PAIR)
    ensures Classify(flag, tid, mtid, pos, mpos, SOLID) == NORMAL_FR
  {
  }

  /** Non-SOLID proper pairs: RF when the read is reversed and upstream of its mate, or forward and not upstream. */
  lemma ProperPairOrientation(flag: Flag, tid: int, mtid: int, pos: int, mpos: int, platform: string)
    requires SameReferencePair(flag, tid, mtid) && Has(flag, FPROPER_PAIR) && platform != SOLID
    ensures Classify(flag, tid, mtid, pos, mpos, platform) == NORMAL_RF
        <==> (Has(flag, FREVERSE) <==> pos < mpos)
    ensures Classify(flag, tid, mtid, pos, mpos, platform) == NORMAL_FR
        <==> (Has(flag, FREVERSE) <==> pos >= mpos)
  {
  }

  function SwapNormal(c: Category): Category {
    match c
    case NORMAL_FR => NORMAL_RF
    case NORMAL_RF => NORMAL_FR
    case _ => c
  }

  /** Flipping the read's strand bit swaps NORMAL_FR and NORMAL_RF. */
  lemma StrandFlipSwapsNormal(flag: Flag, tid: int, mtid: int, pos: int, mpos: int, platform: string)
    requires SameReferencePair(flag, tid, mtid) && Has(flag, FPROPER_PAIR) && platform != SOLID
    ensures Classify(flag ^ FREVERSE, tid, mtid, pos, mpos, platform)
         == SwapNormal(Classify(flag, tid, mtid, pos, mpos, platform))
  {
  }

  /** Exchanging distinct read and mate positions swaps NORMAL_FR and NORMAL_RF. */
  lemma PositionSwapSwapsNormal(flag: Flag, tid: int, mtid: int, pos: int, mpos: int, platform: string)
    requires SameReferencePair(flag, tid, mtid) && Has(flag, FPROPER_PAIR) && platform != SOLID
    requires pos != mpos
    ensures Classify(flag, tid, mtid, mpos, pos, platform)
         == SwapNormal(Classify(flag, tid, mtid, pos, mpos, platform))
  {
  }

  // ---------------------------------------------------------------------
  // Anomalous read pairs

  lemma ArpSameStrand(flag: Flag, tid: int, mtid: int, pos: int, mpos: int, platform: string)
    requires SameReferencePair(flag, tid, mtid) && !Has(flag, FPROPER_PAIR) && platform != SOLID
    requires Has(flag, FREVERSE) == Has(flag, FMREVERSE)
    ensures Classify(flag, tid, mtid, pos, mpos, platform)
         == if Has(flag, FREVERSE) then ARP_RR else ARP_FF
  {
  }

  /** Opposite strands: ARP_RF iff the reverse-strand member lies upstream of the forward one; equal positions give big insert. */
  lemma ArpOppositeStrands(flag: Flag, tid: int, mtid: int, pos: int, mpos: int, platform: string)
    requires SameReferencePair(flag, tid, mtid) && !Has(flag, FPROPER_PAIR) && platform != SOLID
    requires Has(flag, FREVERSE) != Has(flag, FMREVERSE)
    ensures Classify(flag, tid, mtid, pos, mpos, platform) == ARP_RF
        <==> (Has(flag, FREVERSE) && pos < mpos) || (!Has(flag, FREVERSE) && pos > mpos)
    ensures Classify(flag, tid, mtid, pos, mpos, platform) in {ARP_RF, ARP_FR_big_insert}
    ensures pos == mpos ==> Classify(flag, tid, mtid, pos, mpos, platform) == ARP_FR_big_insert
  {
  }

  lemma SolidArpOppositeStrands(flag: Flag, tid: int, mtid: int, pos: int, mpos: int)
    requires SameReferencePair(flag, tid, mtid) && !Has(flag, FPROPER_PAIR)
    requires Has(flag, FREVERSE) != Has(flag, FMREVERSE)
    ensures Classify(flag, tid, mtid, pos, mpos, SOLID)
         == if Has(flag, FREVERSE) then ARP_RR else ARP_FF
  {
  }

  /** The SOLID same-strand table over (read reversed?, first of pair?). */
  lemma SolidArpSameStrand(flag: Flag, tid: int, mtid: int, pos: int, mpos: int)
    requires SameReferencePair(flag, tid, mtid) && !Has(flag, FPROPER_PAIR)
    requires Has(flag, FREVERSE) == Has(flag, FMREVERSE)
    ensures Classify(flag, tid, mtid, pos, mpos, SOLID)
         == if (if Has(flag, FREVERSE) == Has(flag, FREAD1) then pos > mpos else pos < mpos)
            then ARP_FR_big_insert else ARP_RF
  {
  }

  // ---------------------------------------------------------------------
  // The platform and the mate's point of view

  /** The platform string matters only through the test for "solid". */
  lemma OnlySolidPlatformMatters(flag: Flag, tid: int, mtid: int, pos: int, mpos: int, p: string, q: string)
    requires p != SOLID && q != SOLID
    ensures Classify(flag, tid, mtid, pos, mpos, p) == Classify(flag, tid, mtid, pos, mpos, q)
  {
  }

  /** The FLAG field as the mate's own record states it: read and mate bits exchanged. */
  function MateFlag(flag: Flag): (m: Flag)
    ensures Has(m, FREVERSE) == Has(flag, FMREVERSE) && Has(m, FMREVERSE) == Has(flag, FREVERSE)
    ensures Has(m, FUNMAP) == Has(flag, FMUNMAP)
    ensures Has(m, FMUNMAP) == Has(flag, FUNMAP)
    ensures Has(m, FREAD1) == Has(flag, FREAD2) && Has(m, FREAD2) == Has(flag, FREAD1)
    ensures m & 0xFF03 == flag & 0xFF03
  {
    // 0x54 holds the unmapped, reverse and first-of-pair bits; 0xA8 their mate counterparts.
    (flag & 0xFF03) | ((flag & 0x54) << 1) | ((flag & 0xA8) >> 1)
  }

  /** For non-SOLID anomalous pairs, the read and its mate always agree on the category. */
  lemma ArpMateAgrees(flag: Flag, tid: int, pos: int, mpos: int, platform: string)
    requires SameReferencePair(flag, tid, tid) && !Has(flag, FPROPER_PAIR) && platform != SOLID
    ensures Classify(MateFlag(flag), tid, tid, mpos, pos, platform) == Classify(flag, tid, tid, pos, mpos, platform)
  {
  }

  /** Non-SOLID proper pairs on opposite strands and at distinct positions: read and mate agree. */
  lemma ProperPairMateAgrees(flag: Flag, tid: int, pos: int, mpos: int, platform: string)
    requires SameReferencePair(flag, tid, tid) && Has(flag, FPROPER_PAIR) && platform != SOLID
    requires Has(flag, FREVERSE) != Has(flag, FMREVERSE) && pos != mpos
    ensures Classify(MateFlag(flag), tid, tid, mpos, pos, platform) == Classify(flag, tid, tid, pos, mpos, platform)
  {
  }

  /** At equal positions a non-SOLID proper FR pair is NORMAL_RF from the forward read and NORMAL_FR from the reverse mate. */
  lemma ProperPairMateDisagreesAtEqualPositions(flag: Flag, tid: int, p: int, platform: string)
    requires SameReferencePair(flag, tid, tid) && Has(flag, FPROPER_PAIR) && platform != SOLID
    requires !Has(flag, FREVERSE) && Has(flag, FMREVERSE)
    ensures Classify(flag, tid, tid, p, p, platform) == NORMAL_RF
    ensures Classify(MateFlag(flag), tid, tid, p, p, platform) == NORMAL_FR
  {
  }

  /** SOLID anomalous pairs on opposite strands: the forward read is ARP_FF and its reverse mate ARP_RR, at any positions. */
  lemma SolidOppositeStrandMatesDisagree(flag: Flag, tid: int, pos: int, mpos: int)
    requires SameReferencePair(flag, tid, tid) && !Has(flag, FPROPER_PAIR)
    requires !Has(flag, FREVERSE) && Has(flag, FMREVERSE)
    ensures Classify(flag, tid, tid, pos, mpos, SOLID) == ARP_FF
    ensures Classify(MateFlag(flag), tid, tid, mpos, pos, SOLID) == ARP_RR
  {
  }
}
