/**
 * `breakdancer::Read`: one alignment record together with the values
 * breakdancer derives from it (readgroup, platform, library, effective
 * mapping quality, pair-orientation category) and the flattened string
 * fields handed to the rest of the program.
 */
module BreakdancerRead {
  import opened Wrappers
  import opened Bam
  import Decimal
  import opened Orientation

  // ---------------------------------------------------------------------
  // Metadata resolution

  /** `_readgroup`: the RG tag's value, or the empty string when the tag is absent. */
  function Readgroup(r: Record): (g: string)
    ensures r.rg.Some? ==> g == r.rg.value
    ensures r.rg.None? ==> g == ""
  {
    match r.rg
    case Some(v) => v
    case None => ""
  }

  const DEFAULT_PLATFORM := "illumina"

  /** `_platform`: the readgroup's entry in the platform table, "illumina" for an unknown readgroup. */
  function Platform(table: map<string, string>, readgroup: string): (p: string)
    ensures readgroup in table ==> p == table[readgroup]
    ensures readgroup !in table ==> p == DEFAULT_PLATFORM
    ensures p in table.Values || p == DEFAULT_PLATFORM
  {
    if readgroup in table then table[readgroup] else DEFAULT_PLATFORM
  }

  /** `_library`: the readgroup's entry in the library table, the empty string for an unknown readgroup. */
  function Library(table: map<string, string>, readgroup: string): (l: string)
    ensures readgroup in table ==> l == table[readgroup]
    ensures readgroup !in table ==> l == ""
    ensures l in table.Values || l == ""
  {
    if readgroup in table then table[readgroup] else ""
  }

  /** `_determine_bdqual`: the AM tag always wins over the core mapping quality. */
  function Bdqual(r: Record): (q: int)
    ensures r.am.Some? ==> q == r.am.value
    ensures r.am.None? ==> q == r.mapq && 0 <= q < 256
  {
    match r.am
    case Some(v) => v
    case None => r.mapq
  }

  /** `ori`: the read's strand. */
  function Ori(flag: Flag): (s: string)
    ensures s == "-" <==> Has(flag, FREVERSE)
    ensures s == "+" <==> !Has(flag, FREVERSE)
  {
    if Has(flag, FREVERSE) then "-" else "+"
  }

  // ---------------------------------------------------------------------
  // The flattened field vector

  /**
   * Integer code of a category. The actual values of `pair_orientation_flag`
   * are declared in Read.hpp, which is not part of this model; this
   * numbering stands in for them, and only its injectivity is relied on.
   */
  function CategoryCode(c: Category): int {
    match c
    case NA => 0
    case NORMAL_FR => 1
    case NORMAL_RF => 2
    case ARP_FF => 3
    case ARP_RR => 4
    case ARP_FR_big_insert => 5
    case ARP_RF => 6
    case ARP_CTX => 7
    case UNMAPPED => 8
    case MATE_UNMAPPED => 9
  }

  /** `lexical_cast` of a category: the decimal text of its code, which reads back as that code. */
  function CategoryText(c: Category): (s: string)
    ensures Decimal.Parse(s) == Some(CategoryCode(c))
  {
    Decimal.RenderRoundTrip(CategoryCode(c));
    Decimal.Render(CategoryCode(c))
  }

  /** Distinct categories are written as distinct field text. */
  lemma CategoryTextInjective(a: Category, b: Category)
    ensures CategoryText(a) == CategoryText(b) <==> a == b
  {
  }

  const NAME_SLOT := 0
  const CATEGORY_SLOT := 5

  /**
   * The field vector the constructor builds: name, reference id, position,
   * strand, insert size, category, effective mapping quality, base count,
   * library, then the sequence and the quality text when each is not "*".
   */
  function FieldVector(r: Record, bdflag: Category, bdqual: int, library: string): (fv: seq<string>)
    requires WellFormed(r)
    ensures 9 <= |fv| <= 11
    ensures fv[NAME_SLOT] == r.name && fv[CATEGORY_SLOT] == CategoryText(bdflag) && fv[8] == library
  {
    [r.name, Decimal.Render(r.tid), Decimal.Render(r.pos), Ori(r.flag), Decimal.Render(r.isize),
     CategoryText(bdflag), Decimal.Render(bdqual), Decimal.Render(r.lQseq), library]
    + (if SeqText(r.packedSeq, r.lQseq) != "*" then [SeqText(r.packedSeq, r.lQseq)] else [])
    + (if QualText(r.qual, r.lQseq) != "*" then [QualText(r.qual, r.lQseq)] else [])
  }

  /** Nine fixed slots, then a sequence slot iff there are bases and a quality slot iff the qualities are present. */
  lemma FieldVectorLayout(r: Record, bdflag: Category, bdqual: int, library: string)
    requires WellFormed(r)
    ensures var fv := FieldVector(r, bdflag, bdqual, library);
      && |fv| == 9 + (if r.lQseq != 0 then 1 else 0) + (if QualText(r.qual, r.lQseq) != "*" then 1 else 0)
      && 9 <= |fv| <= 11
      && (fv[3] == "-" <==> Has(r.flag, FREVERSE))
      && fv[CATEGORY_SLOT] == CategoryText(bdflag)
      && (r.lQseq != 0 ==> fv[9] == SeqText(r.packedSeq, r.lQseq))
      && (r.lQseq == 0 && |fv| == 10 ==> fv[9] == QualText(r.qual, r.lQseq))
      && (|fv| == 11 ==> fv[10] == QualText(r.qual, r.lQseq))
  {
    SeqTextSpec(r.packedSeq, r.lQseq);
  }

  /** Re-rendering the category slot is the same as rebuilding the vector with the new category. */
  lemma FieldVectorSetCategory(r: Record, old_: Category, new_: Category, bdqual: int, library: string)
    requires WellFormed(r)
    ensures |FieldVector(r, old_, bdqual, library)| > CATEGORY_SLOT
    ensures FieldVector(r, old_, bdqual, library)[CATEGORY_SLOT := CategoryText(new_)]
         == FieldVector(r, new_, bdqual, library)
  {
  }

  /** A vector made of the nine fixed slots followed by the present optional ones is the field vector. */
  lemma FieldVectorFrom(r: Record, bdflag: Category, bdqual: int, library: string,
                        fixed: seq<string>, fields: seq<string>)
    requires WellFormed(r)
    requires fixed == [r.name, Decimal.Render(r.tid), Decimal.Render(r.pos), Ori(r.flag),
                       Decimal.Render(r.isize), CategoryText(bdflag), Decimal.Render(bdqual),
                       Decimal.Render(r.lQseq), library]
    requires var s := SeqText(r.packedSeq, r.lQseq);
             var q := QualText(r.qual, r.lQseq);
             fields == fixed + (if s != "*" then [s] else []) + (if q != "*" then [q] else [])
    ensures fields == FieldVector(r, bdflag, bdqual, library)
  {
  }

  // ---------------------------------------------------------------------
  // The object

  datatype IndexError = QueryNameByIndex

  class Read {
    const record: Record
    var bdflag: Category
    const bdqual: int
    const readgroup: string
    const platform: string
    const library: string
    var queryName: string
    var queryNameCached: bool
    var fields: seq<string>

    /** The field vector always matches the record and the current category; the name cache is never marked filled. */
    ghost predicate Valid()
      reads this
    {
      && WellFormed(record)
      && !queryNameCached
      && fields == FieldVector(record, bdflag, bdqual, library)
    }

    /**
     * Read.cpp classifies the pair before it resolves the platform, so the
     * classifier sees the still-empty platform string.
     */
    constructor (rec: Record, format: string, platformTable: map<string, string>, libraryTable: map<string, string>)
      requires WellFormed(rec)
      ensures Valid()
      ensures record == rec
      ensures bdflag == Classify(rec.flag, rec.tid, rec.mtid, rec.pos, rec.mpos, "")
      ensures bdqual == Bdqual(rec)
      ensures readgroup == Readgroup(rec)
      ensures platform == Platform(platformTable, readgroup)
      ensures library == Library(libraryTable, readgroup)
    {
      record := rec;
      queryNameCached := false;
      queryName := "";
      bdflag := Classify(rec.flag, rec.tid, rec.mtid, rec.pos, rec.mpos, "");
      bdqual := Bdqual(rec);
      var rg := Readgroup(rec);
      readgroup := rg;
      platform := Platform(platformTable, rg);
      library := Library(libraryTable, rg);
      fields := [];
      new;
      // The vector is assembled in a local and stored once; no caller can
      // see the object before construction ends, so the order of slots is
      // all that matters.
      var name := QueryName();
      assert name == rec.name;
      var v: seq<string> := [];
      v := v + [name];
      v := v + [Decimal.Render(rec.tid)];
      v := v + [Decimal.Render(rec.pos)];
      v := v + [Ori(rec.flag)];
      v := v + [Decimal.Render(rec.isize)];
      v := v + [CategoryText(bdflag)];
      v := v + [Decimal.Render(bdqual)];
      v := v + [Decimal.Render(rec.lQseq)];
      v := v + [library];
      ghost var fixed := v;
      assert fixed == [rec.name, Decimal.Render(rec.tid), Decimal.Render(rec.pos), Ori(rec.flag), Decimal.Render(rec.isize), CategoryText(bdflag), Decimal.Render(bdqual), Decimal.Render(rec.lQseq), library];
      var sequence := QuerySequence(rec.packedSeq, rec.lQseq);
      if sequence != "*" {
        v := v + [sequence];
      }
      var quality := QualityString(rec.qual, rec.lQseq);
      if quality != "*" {
        v := v + [quality];
      }
      FieldVectorFrom(rec, bdflag, bdqual, library, fixed, v);
      fields := v;
    }

    /** `query_name`: fills the cache from the record unless it is marked filled, which never happens. */
    method QueryName() returns (name: string)
      modifies this`queryName
      ensures queryName == (if queryNameCached then old(queryName) else record.name)
      ensures name == queryName
    {
      if !queryNameCached {
        queryName := record.name;
      }
      name := queryName;
    }

    /** `operator[]`: slot 0, the read name, is refused; every other slot gives its field. */
    function At(idx: nat): (r: Result<string, IndexError>)
      reads this
      requires Valid() && idx < |fields|
      ensures idx == NAME_SLOT ==> r == Failure(QueryNameByIndex)
      ensures idx == 1 ==> r == Success(Decimal.Render(record.tid))
      ensures idx == 2 ==> r == Success(Decimal.Render(record.pos))
      ensures idx == 3 ==> r == Success(Ori(record.flag))
      ensures idx == 4 ==> r == Success(Decimal.Render(record.isize))
      ensures idx == CATEGORY_SLOT ==> r == Success(CategoryText(bdflag))
      ensures idx == 6 ==> r == Success(Decimal.Render(bdqual))
      ensures idx == 7 ==> r == Success(Decimal.Render(record.lQseq))
      ensures idx == 8 ==> r == Success(library)
      ensures idx == 9 && record.lQseq != 0 ==> r == Success(SeqText(record.packedSeq, record.lQseq))
      ensures idx == |fields| - 1 && QualText(record.qual, record.lQseq) != "*"
              ==> r == Success(QualText(record.qual, record.lQseq))
    {
      FieldVectorLayout(record, bdflag, bdqual, library);
      if idx == NAME_SLOT then Failure(QueryNameByIndex) else Success(fields[idx])
    }

    /** `size`: between nine and eleven fields, depending on whether bases and qualities are present. */
    function Size(): (n: nat)
      reads this
      requires Valid()
      ensures 9 <= n <= 11
      ensures n == 9 + (if record.lQseq != 0 then 1 else 0)
                     + (if QualText(record.qual, record.lQseq) != "*" then 1 else 0)
    {
      FieldVectorLayout(record, bdflag, bdqual, library);
      |fields|
    }

    /** `set_bdflag`: overwrites the category and its slot; nothing else changes. */
    method SetBdflag(newFlag: Category)
      requires Valid()
      modifies this`bdflag, this`fields
      ensures Valid()
      ensures bdflag == newFlag
      ensures |fields| == |old(fields)|
      ensures fields == old(fields)[CATEGORY_SLOT := CategoryText(newFlag)]
      ensures forall i :: 0 <= i < |fields| && i != CATEGORY_SLOT ==> fields[i] == old(fields)[i]
    {
      FieldVectorSetCategory(record, bdflag, newFlag, bdqual, library);
      bdflag := newFlag;
      fields := fields[CATEGORY_SLOT := CategoryText(newFlag)];
    }
  }

  // ---------------------------------------------------------------------
  // The unit-test fixture

  /** The record of TestRead.cpp: "junk", one base 0x20, quality 0x27, RG:Z:rg3, AM:i:0x25, FLAG 163. */
  const FIXTURE := Record(
    "junk", 22, 29184911, 22, 29185299, 478, 163, 60, 1, [0x20], [0x27], Some("rg3"), Some(0x25))

  lemma FixtureMetadata()
    ensures Readgroup(FIXTURE) == "rg3"
    ensures Platform(map["rg3" := "helicos"], Readgroup(FIXTURE)) == "helicos"
    ensures Library(map["rg3" := "some_lib"], Readgroup(FIXTURE)) == "some_lib"
    ensures Bdqual(FIXTURE) == 37
    ensures Classify(FIXTURE.flag, FIXTURE.tid, FIXTURE.mtid, FIXTURE.pos, FIXTURE.mpos, "") == NORMAL_FR
  {
  }

  lemma FixtureDecodings()
    ensures SeqText(FIXTURE.packedSeq, FIXTURE.lQseq) == "C"
    ensures QualText(FIXTURE.qual, FIXTURE.lQseq) == "H"
  {
  }

  lemma FixtureNumbers()
    ensures Decimal.Render(22) == "22"
    ensures Decimal.Render(29184911) == "29184911"
    ensures Decimal.Render(478) == "478"
    ensures Decimal.Render(37) == "37"
    ensures Decimal.Render(1) == "1"
  {
    assert Decimal.Digits(2) == "2";
    assert Decimal.Digits(22) == "22";
    assert Decimal.Digits(29) == "29";
    assert Decimal.Digits(291) == "291";
    assert Decimal.Digits(2918) == "2918";
    assert Decimal.Digits(29184) == "29184";
    assert Decimal.Digits(291849) == "291849";
    assert Decimal.Digits(2918491) == "2918491";
    assert Decimal.Digits(29184911) == "29184911";
    assert Decimal.Digits(4) == "4";
    assert Decimal.Digits(47) == "47";
    assert Decimal.Digits(478) == "478";
    assert Decimal.Digits(3) == "3";
    assert Decimal.Digits(37) == "37";
  }

  /** The fixture's field vector slot by slot; slot 6 is the AM tag's 37. */
  lemma FixtureFields()
    ensures var fv := FieldVector(FIXTURE, NORMAL_FR, 37, "some_lib");
      && |fv| == 11 && fv[1] == "22" && fv[2] == "29184911" && fv[3] == "+" && fv[4] == "478"
      && fv[6] == "37" && fv[7] == "1" && fv[8] == "some_lib" && fv[9] == "C" && fv[10] == "H"
  {
    FixtureDecodings();
    FixtureNumbers();
  }

  /** TestRead.cpp's indexing test against the constructed object: slot 0 is refused, slot 6 is the AM value. */
  method FixtureIndexing() returns (name: Result<string, IndexError>, rest: seq<string>)
    ensures name == Failure(QueryNameByIndex)
    ensures rest == ["22", "29184911", "+", "478", CategoryText(NORMAL_FR), "37", "1", "some_lib", "C", "H"]
  {
    var read := new Read(FIXTURE, "sam", map["rg3" := "helicos"], map["rg3" := "some_lib"]);
    FixtureMetadata();
    FixtureFields();
    assert read.Size() == 11;
    name := read.At(0);
    rest := [];
    for i := 1 to 11
      invariant |rest| == i - 1
      invariant forall k :: 0 <= k < i - 1 ==> rest[k] == read.fields[k + 1]
    {
      rest := rest + [read.At(i).value];
    }
  }

  /** Correcting the category after construction changes slot 5 alone. */
  method FixtureSetBdflag() returns (before: seq<string>, after: seq<string>)
    ensures |before| == |after| == 11
    ensures before[CATEGORY_SLOT] == CategoryText(NORMAL_FR) && after[CATEGORY_SLOT] == CategoryText(ARP_CTX)
    ensures before[..CATEGORY_SLOT] == after[..CATEGORY_SLOT]
    ensures before[CATEGORY_SLOT + 1..] == after[CATEGORY_SLOT + 1..]
  {
    var read := new Read(FIXTURE, "sam", map["rg3" := "helicos"], map["rg3" := "some_lib"]);
    FixtureMetadata();
    FixtureFields();
    before := read.fields;
    read.SetBdflag(ARP_CTX);
    after := read.fields;
  }
}
