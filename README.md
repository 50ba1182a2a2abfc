# breakdancer `Read`: alignment record, pair-orientation classifier, field vector

This project models `breakdancer::Read`, the object breakdancer builds around
one decoded BAM alignment. A `Read`:

- resolves the read's readgroup from the RG tag, then the sequencing platform
  and library from two readgroup-keyed tables;
- takes the effective mapping quality (`bdqual`) from the AM tag when present;
- classifies the read pair into a `pair_orientation_flag` category (`bdflag`)
  from the FLAG bits of section 1.4 of the SAM/BAM format specification
  (SAMv1), the read and mate reference ids and positions, and the platform;
- decodes the 4-bit packed bases and the raw base qualities (section 4.2 of
  SAMv1);
- flattens all of this into a vector of 9 to 11 string fields that the rest of
  breakdancer reads by index, and lets the category be corrected afterwards.

Modules:

- `Wrappers` (Wrappers.dfy): `Option` for missing aux tags and parses, `Result` for
  the exception `operator[]` throws.
- `Decimal` (Decimal.dfy): base-10 rendering of the numeric fields (what
  `boost::lexical_cast<std::string>` produces) and the parser that inverts it.
- `Bam` (Bam.dfy): the record datatype, the FLAG bits as `bv16`, and the two decoding
  loops `QuerySequence` and `QualityString`. Each loop is proved equal to a
  reference definition (`SeqText` decodes byte by byte, high nibble then low;
  `QualText` maps Phred+33 over the bytes). Lemmas give the per-character
  meaning and the round trip.
- `Orientation` (Orientation.dfy): the `Category` datatype and `Classify`, the decision
  table of `_determine_bdflag`, with lemmas for every branch. The lemmas cover
  precedence, the FR/RF tables, irrelevance of untested bits and the platform,
  and when a read and its mate agree.
- `BreakdancerRead` (Read.dfy): the metadata lookups, the field-vector layout
  `FieldVector`, and the class `Read`. Its `Valid()` invariant ties the `fields`
  sequence to the record and the current category, and `SetBdflag` preserves it.
  The module ends with the unit-test fixture.

Behaviour of the code that the model keeps on purpose:

- The constructor classifies the pair (Read.cpp:14) before it assigns the
  platform (Read.cpp:19). So at construction the classifier sees the empty
  platform string and never takes the "solid" branches. `Classify` takes the
  platform as a parameter, and the constructor passes `""`.
- A one-base read of quality 9 renders as `"*"`, the same text as "no
  qualities". The constructor then leaves its quality slot out
  (`Bam.QualSentinelExactly`).
- At equal positions a proper pair gets NORMAL_RF from its forward read and
  NORMAL_FR from its reverse read. In SOLID anomalous pairs on opposite
  strands, one read gets ARP_FF and its mate ARP_RR. Lemmas record both.
- TestRead.cpp expects index 0 to give "junk" and slot 6 to be "0". Read.cpp
  refuses index 0, and the fixture's AM tag (0x25) fills slot 6 with "37";
  the model follows Read.cpp.

## Model

| member | source | states |
|---|---|---|
| `Decimal.Digits` | src/lib/breakdancer/Read.cpp:23-29 | the rendering of a natural number is a non-empty string of decimal digits with no leading zero |
| `Decimal.Render` | src/lib/breakdancer/Read.cpp:23-29 | the rendering is non-empty and starts with '-' exactly for negative numbers |
| `Decimal.DigitsValueOfDigits` | src/lib/breakdancer/Read.cpp:23-29 | reading the digits back gives the number |
| `Decimal.RenderRoundTrip` | src/lib/breakdancer/Read.cpp:23-29 | parsing a rendered integer gives the integer back |
| `Decimal.RenderInjective` | src/lib/breakdancer/Read.cpp:23-29 | two integers render to the same text iff they are equal |
| `Bam.Code` | src/lib/breakdancer/Read.cpp:116 | the code of base i is a 4-bit value, taken from the high nibble of byte i/2 for even i and the low nibble for odd i |
| `Bam.PairBases` | src/lib/breakdancer/Read.cpp:115-117 | decoding every nibble of the packed bytes yields two bases per byte |
| `Bam.PairBasesAt` | src/lib/breakdancer/Read.cpp:116 | base i of the byte-by-byte decoding is the table entry for the code of base i |
| `Bam.SeqText` | src/lib/breakdancer/Read.cpp:110-123 | the sequence text is "*" when l_qseq is 0 and has exactly l_qseq characters otherwise |
| `Bam.SeqTextSpec` | src/lib/breakdancer/Read.cpp:110-123 | the sequence text is "*" iff l_qseq is 0; for l_qseq > 0 it has exactly l_qseq characters, character i being the table entry for code i |
| `Bam.QuerySequence` | src/lib/breakdancer/Read.cpp:110-123 | the loop appending one decoded base per iteration returns exactly the reference decoding |
| `Bam.QualChar` | src/lib/breakdancer/Read.cpp:131 | a quality below 223 becomes the character with code quality + 33; from 223 on the narrowing wraps to quality - 223 |
| `Bam.Phred33` | src/lib/breakdancer/Read.cpp:130-132 | the Phred+33 text has one character per quality byte |
| `Bam.Phred33At` | src/lib/breakdancer/Read.cpp:131 | character i of the quality text is quality byte i plus 33, modulo 256 |
| `Bam.Phred33Snoc` | src/lib/breakdancer/Read.cpp:130-132 | encoding one more byte appends exactly its character |
| `Bam.Phred33RoundTrip` | src/lib/breakdancer/Read.cpp:131 | for qualities up to 222 subtracting 33 from each character gives the qualities back |
| `Bam.QualText` | src/lib/breakdancer/Read.cpp:125-138 | the quality text is "*" when the byte at the quality pointer is 0xFF, and has exactly l_qseq characters otherwise |
| `Bam.QualTextSpec` | src/lib/breakdancer/Read.cpp:125-138 | with bases present, the quality text is "*" when the first quality byte is 0xFF, else has l_qseq characters, character i being qual[i] + 33 |
| `Bam.QualSentinelExactly` | src/lib/breakdancer/Read.cpp:125-138 | with bases present the quality text is "*" iff the first byte is 0xFF or there is a single base of quality 9 |
| `Bam.QualityString` | src/lib/breakdancer/Read.cpp:125-138 | the loop appending one character per base returns exactly the reference quality text |
| `Orientation.Classify` | src/lib/breakdancer/Read.cpp:179-247 | a pair that fails an early exit gets NA, UNMAPPED, MATE_UNMAPPED or ARP_CTX; a same-reference proper pair gets NORMAL_FR or NORMAL_RF; any other same-reference pair gets one of the four ARP orientation categories |
| `Orientation.NAExactly` | src/lib/breakdancer/Read.cpp:180-184 | the category is NA iff the read is a duplicate or not paired, whatever the other bits, ids, positions and platform |
| `Orientation.UnmappedExactly` | src/lib/breakdancer/Read.cpp:183-187 | the category is UNMAPPED iff the read is a non-duplicate paired read that is itself unmapped |
| `Orientation.MateUnmappedExactly` | src/lib/breakdancer/Read.cpp:183-190 | the category is MATE_UNMAPPED iff the read is a mapped non-duplicate paired read whose mate is unmapped |
| `Orientation.CrossReferenceExactly` | src/lib/breakdancer/Read.cpp:183-193 | the category is ARP_CTX iff both reads are mapped and paired, not duplicates, and on different references |
| `Orientation.NormalExactly` | src/lib/breakdancer/Read.cpp:194-206 | a NORMAL category is given iff the pair passes the early exits and carries the proper-pair bit |
| `Orientation.OnlyTestedBitsMatter` | src/lib/breakdancer/Read.cpp:179-247 | two FLAG values that agree on the eight tested bits get the same category |
| `Orientation.SolidProperPairIsNormalFR` | src/lib/breakdancer/Read.cpp:194-197 | with platform "solid" every same-reference proper pair is NORMAL_FR |
| `Orientation.ProperPairOrientation` | src/lib/breakdancer/Read.cpp:198-205 | off SOLID, a proper pair is NORMAL_RF iff (reversed iff pos < mpos), and NORMAL_FR iff (reversed iff pos >= mpos) |
| `Orientation.StrandFlipSwapsNormal` | src/lib/breakdancer/Read.cpp:198-205 | off SOLID, flipping the read's strand bit swaps NORMAL_FR and NORMAL_RF |
| `Orientation.PositionSwapSwapsNormal` | src/lib/breakdancer/Read.cpp:198-205 | off SOLID, exchanging distinct read and mate positions swaps NORMAL_FR and NORMAL_RF |
| `Orientation.ArpSameStrand` | src/lib/breakdancer/Read.cpp:230-235 | off SOLID, an anomalous pair on one strand is ARP_RR when reversed, else ARP_FF |
| `Orientation.ArpOppositeStrands` | src/lib/breakdancer/Read.cpp:236-241 | off SOLID, an anomalous pair on opposite strands is ARP_RF iff the reverse-strand read lies upstream of the forward one, else ARP_FR_big_insert, including at equal positions |
| `Orientation.SolidArpOppositeStrands` | src/lib/breakdancer/Read.cpp:208-212 | on SOLID, an anomalous pair on opposite strands is ARP_RR when the read is reversed, else ARP_FF |
| `Orientation.SolidArpSameStrand` | src/lib/breakdancer/Read.cpp:213-228 | on SOLID, a same-strand anomalous pair follows the four-way table over (reversed, first of pair) with strict position comparisons |
| `Orientation.OnlySolidPlatformMatters` | src/lib/breakdancer/Read.cpp:195 | any two platform names other than "solid" give the same category |
| `Orientation.MateFlag` | src/lib/breakdancer/Read.cpp:181-188 | the mate's FLAG exchanges the strand, unmapped and first/second-of-pair bits with their mate counterparts and keeps the others |
| `Orientation.ArpMateAgrees` | src/lib/breakdancer/Read.cpp:230-241 | off SOLID, an anomalous pair gets the same category from the read and from its mate |
| `Orientation.ProperPairMateAgrees` | src/lib/breakdancer/Read.cpp:198-205 | off SOLID, a proper pair on opposite strands at distinct positions gets the same category from both reads |
| `Orientation.ProperPairMateDisagreesAtEqualPositions` | src/lib/breakdancer/Read.cpp:199-204 | off SOLID, for every proper pair at equal positions with a forward read and reverse mate, the read is NORMAL_RF and the mate NORMAL_FR |
| `Orientation.SolidOppositeStrandMatesDisagree` | src/lib/breakdancer/Read.cpp:209-212 | on SOLID, for every anomalous pair with a forward read and reverse mate, at any positions, the read is ARP_FF and the mate ARP_RR |
| `BreakdancerRead.Readgroup` | src/lib/breakdancer/Read.cpp:94-101 | the readgroup is the RG tag's value when present, else the empty string |
| `BreakdancerRead.Platform` | src/lib/breakdancer/Read.cpp:144-152 | the platform is the table's entry for the readgroup, "illumina" when it has none; it is always a table value or "illumina" |
| `BreakdancerRead.Library` | src/lib/breakdancer/Read.cpp:154-163 | the library is the table's entry for the readgroup, "" when it has none; it is always a table value or "" |
| `BreakdancerRead.Bdqual` | src/lib/breakdancer/Read.cpp:165-174 | the AM tag's value wins whenever present; otherwise the core mapping quality, a byte |
| `BreakdancerRead.Ori` | src/lib/breakdancer/Read.cpp:140-142 | the strand is "-" iff the reverse bit is set, else "+" |
| `BreakdancerRead.CategoryText` | src/lib/breakdancer/Read.cpp:27 | the category slot's text parses back to the category's code |
| `BreakdancerRead.CategoryTextInjective` | src/lib/breakdancer/Read.cpp:27 | distinct categories are written as distinct text in the category slot |
| `BreakdancerRead.FieldVector` | src/lib/breakdancer/Read.cpp:22-37 | the vector has 9 to 11 slots, with the read name in slot 0, the category text in slot 5 and the library in slot 8 |
| `BreakdancerRead.FieldVectorLayout` | src/lib/breakdancer/Read.cpp:22-37 | the vector has 9 fixed slots plus a sequence slot iff l_qseq != 0 and a quality slot iff the quality text is not "*" (9 to 11); slot 3 is "-" iff reversed; slot 5 is the category |
| `BreakdancerRead.FieldVectorSetCategory` | src/lib/breakdancer/Read.cpp:253-256 | rewriting slot 5 yields the vector of the record with the new category |
| `BreakdancerRead.Read.constructor` | src/lib/breakdancer/Read.cpp:8-38 | the new Read is valid; its category is the classification with the empty platform; bdqual, readgroup, platform and library are resolved from the record and the tables |
| `BreakdancerRead.Read.QueryName` | src/lib/breakdancer/Read.cpp:103-108 | the name cache is filled from the record unless marked filled, and the name returned is the cache |
| `BreakdancerRead.Read.At` | src/lib/breakdancer/Read.cpp:64-69 | index 0 fails with the query-name error; every other index returns that slot's meaning: reference id, position, strand, insert size, category, bdqual, l_qseq, library, sequence, quality |
| `BreakdancerRead.Read.Size` | src/lib/breakdancer/Read.cpp:249-251 | the size is 9 plus one for bases present plus one for qualities present |
| `BreakdancerRead.Read.SetBdflag` | src/lib/breakdancer/Read.cpp:253-256 | the category becomes the new one, slot 5 is rewritten, the size and every other slot are unchanged, and the invariant holds |
| `BreakdancerRead.FixtureMetadata` | test/lib/breakdancer/TestRead.cpp:9-47 | the test record resolves to readgroup "rg3", platform "helicos", library "some_lib", bdqual 37 and category NORMAL_FR |
| `BreakdancerRead.FixtureDecodings` | test/lib/breakdancer/TestRead.cpp:53-59 | the test record's sequence is "C" and its quality text "H" |
| `BreakdancerRead.FixtureNumbers` | test/lib/breakdancer/TestRead.cpp:67-73 | the test record's numbers render as "22", "29184911", "478", "37" and "1" |
| `BreakdancerRead.FixtureFields` | test/lib/breakdancer/TestRead.cpp:65-76 | the test record's field vector has 11 slots with the values the indexing test expects, except slot 6 which holds the AM value "37" |
| `BreakdancerRead.FixtureIndexing` | test/lib/breakdancer/TestRead.cpp:65-76 | through the constructed object, index 0 fails and indices 1 to 10 give the expected fields |
| `BreakdancerRead.FixtureSetBdflag` | src/lib/breakdancer/Read.cpp:253-256 | on the test object, correcting the category to ARP_CTX changes slot 5 alone |

## Left out

- Record memory management (Read.cpp:9-10, 40-92) is left out. `bam_init1`, `bam_copy1`, `bam_destroy1`, the copy constructor, assignment and destructor only manage the raw record's memory. The model treats a record as a value, so a copy equals the original field for field.
- Aux-tag and name extraction are samtools calls whose code is not part of this model. `bam_aux_get`, `bam_aux2Z`, `bam_aux2i` and `bam1_qname` become the record fields `rg`, `am` and `name`.
- Integer codes of `pair_orientation_flag` are declared in Read.hpp, which is not part of this model. `CategoryCode` numbers the categories 0 to 9 in declaration order as a stand-in. The real codes are assumed to be pairwise distinct, and that is the only property the model relies on; `CategoryTextInjective` is proved for the stand-in numbering.
- Category list: the model has the ten categories that Read.cpp assigns. Any other enumerator that Read.hpp declares is not modelled.
- BreakdancerRead.Read.constructor: the `format` argument is accepted and not used, as in Read.cpp. The record's sequence and quality blocks must be at least as long as `l_qseq` says (`Bam.WellFormed`). A decoded BAM record guarantees this.
- BreakdancerRead.Read.constructor: the fields are collected in a local sequence and stored in `fields` once, not pushed one at a time. Nothing can observe the object during construction.
- Bam.QualText: when `l_qseq` is 0, the source tests a byte beyond the (empty) quality block: the first aux byte, or memory past the record. The model tests the first byte after the empty block when `qual` supplies one ("*" if it is 0xFF). When no byte follows, it treats the missing byte as no sentinel and returns the empty string.
- Bam.QuerySequence: `l_qseq` must not be negative. In the source `if(l_qseq)` lets a negative count through, and `reserve` then throws `std::length_error`. Decoded BAM records never carry a negative base count, so the model leaves that exception out.
- Bam.QualityString: `l_qseq` must not be negative, for the same reason. Unless the first quality byte is 0xFF, the source's `reserve` would throw `std::length_error`.
- BreakdancerRead.Read.constructor: `WellFormed` requires a non-negative `l_qseq`. With a negative count the source's constructor propagates `std::length_error` from `query_sequence`, and the model has no such failure path.
- BreakdancerRead.Read.At: an index at or beyond `size()` is an unchecked vector access in the source. The model requires `idx < |fields|`.
- Number widths: `tid`, `pos`, `mpos`, `isize`, `l_qseq` and the AM value are int32 in BAM. The model uses unbounded integers because the core only compares and renders them. The uint8 wrap in `char(qual + 33)` is modelled explicitly.
- Several TestRead.cpp lines do not match Read.cpp: the five-argument constructor (line 33), `queryname()` (line 50), `[0] == "junk"` (line 66) and slots 5 and 6 being "0" (lines 71-72). The model follows Read.cpp for these.
- SOLID classification at construction: the constructor never classifies with the resolved platform, because Read.cpp computes the category before it assigns the platform. The SOLID branches of `Classify` are modelled and proved, but only a caller that passes "solid" explicitly reaches them.
