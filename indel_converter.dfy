/**
 Conversion of one variant record between the dash notation, where an empty
 allele is written `-`, and the anchored notation used by VCF, where an
 insertion or a deletion keeps the reference base just before it.

 Turning a dash record into an anchored one needs that base, which is read
 from the reference through `Faidx.GetNucleotide`; the opposite direction
 only slices strings and shifts coordinates.
 */
module IndelConverter {
  import opened Wrappers
  import opened Faidx

  /** Columns 1-5 of an input line: chromosome, 1-based start and end, ref and alt alleles. */
  datatype Record = Record(chromosome: string, start: int, end: int, ref: string, alt: string)

  /** A region as sent to the reference: normalised chromosome, start, end. */
  datatype Region = Region(chromosome: string, start: int, end: int)

  /** Python's `s[1:]`: everything after the first character, empty for an empty string. */
  function Tail(s: string): (r: string)
    ensures |s| >= 1 ==> s == [s[0]] + r
    ensures |s| == 0 ==> r == []
  {
    if s == [] then [] else s[1..]
  }

  /** The legacy placeholder `*` means the same as `-`. */
  function NormAllele(allele: string): (r: string)
    ensures |r| == |allele|
    ensures r != "*"
    ensures r == "-" <==> allele == "-" || allele == "*"
    ensures r != "-" ==> r == allele
  {
    if allele == "*" then "-" else allele
  }

  function NormalizeAlleles(rec: Record): (r: Record)
    ensures r.chromosome == rec.chromosome && r.start == rec.start && r.end == rec.end
    ensures r.ref == NormAllele(rec.ref) && r.alt == NormAllele(rec.alt)
  {
    rec.(ref := NormAllele(rec.ref), alt := NormAllele(rec.alt))
  }

  /** The end coordinate of a VCF line, which has no end column: the last reference base. */
  function VcfEnd(start: int, ref: string): (end: int)
    ensures |ref| >= 1 ==> end >= start
    ensures end - start + 1 == |ref|
  {
    start + |ref| - 1
  }

  /**
   `dash_to_noDash_INS`: `chr1 13417 13417 - GAGA` becomes `chr1 13417 13417 C CGAGA`
   when the reference has `C` at 13417. Without an answer the record is kept.
   */
  function ExpandIns(fetch: Fetch, rec: Record): (r: Record)
    ensures r.chromosome == rec.chromosome && r.start == rec.start && r.end == rec.end
    ensures match GetNucleotide(fetch, rec.chromosome, rec.start, rec.start)
            case Some(nt) => r.ref == nt && r.alt == nt + rec.alt
            case None => r == rec
  {
    match GetNucleotide(fetch, rec.chromosome, rec.start, rec.start)
    case Some(nt) => rec.(ref := nt, alt := nt + rec.alt)
    case None => rec
  }

  /**
   `dash_to_noDash_DEL`: `chr1 10145 10145 A -` becomes `chr1 10144 10145 TA T`
   when the reference has `T` at 10144, the base before the deletion.
   Without an answer the record is kept.
   */
  function ExpandDel(fetch: Fetch, rec: Record): (r: Record)
    ensures r.chromosome == rec.chromosome && r.end == rec.end
    ensures match GetNucleotide(fetch, rec.chromosome, rec.start - 1, rec.start - 1)
            case Some(nt) => r.start == rec.start - 1 && r.ref == nt + rec.ref && r.alt == nt
            case None => r == rec
  {
    match GetNucleotide(fetch, rec.chromosome, rec.start - 1, rec.start - 1)
    case Some(nt) => rec.(start := rec.start - 1, ref := nt + rec.ref, alt := nt)
    case None => rec
  }

  /** `noDash_to_dash_INS`: `chr1 13417 13417 C CGAGA` becomes `chr1 13417 13417 - GAGA`. */
  function CollapseIns(rec: Record): (r: Record)
    ensures r.chromosome == rec.chromosome && r.start == rec.start && r.end == rec.end
    ensures r.ref == "-"
    ensures |rec.alt| >= 1 ==> rec.alt == [rec.alt[0]] + r.alt
    ensures |rec.alt| == 0 ==> r.alt == []
  {
    rec.(ref := "-", alt := Tail(rec.alt))
  }

  /** `noDash_to_dash_DEL`: `chr1 10144 10145 TA T` becomes `chr1 10145 10145 A -`. */
  function CollapseDel(rec: Record): (r: Record)
    ensures r.chromosome == rec.chromosome && r.start == rec.start + 1 && r.end == rec.end
    ensures r.alt == "-"
    ensures |rec.ref| >= 1 ==> rec.ref == [rec.ref[0]] + r.ref
    ensures |rec.ref| == 0 ==> r.ref == []
    ensures |rec.ref| >= 1 && rec.end - rec.start + 1 == |rec.ref| ==> r.end - r.start + 1 == |r.ref|
  {
    rec.(start := rec.start + 1, ref := Tail(rec.ref), alt := "-")
  }

  /**
   `variantIndelConverter`: into the anchored notation when `toDash` is false,
   into the dash notation when it is true. None when the allele shapes match
   no case.
   */
  function Convert(fetch: Fetch, rec: Record, toDash: bool): (r: Option<Record>)
    ensures r.None? <==> |rec.ref| == |rec.alt| && |rec.ref| != 1
    ensures r.Some? ==> r.value.chromosome == rec.chromosome && r.value.end == rec.end
    ensures r.Some? ==> rec.start - 1 <= r.value.start <= rec.start + 1
    ensures r.Some? && toDash ==> r.value.start >= rec.start
    ensures r.Some? && !toDash ==> r.value.start <= rec.start
  {
    var n := NormalizeAlleles(rec);
    if !toDash then
      if |n.ref| != |n.alt| && n.ref != "-" && n.alt != "-" then
        Some(n)
      else if n.ref != "-" && n.alt != "-" && |n.ref| == 1 && |n.alt| == 1 then
        Some(n)
      else if n.ref == "-" then
        Some(ExpandIns(fetch, n))
      else if n.alt == "-" then
        Some(ExpandDel(fetch, n))
      else
        None
    else
      if |n.ref| == 1 && |n.alt| == 1 then
        Some(n)
      else if |n.ref| < |n.alt| then
        Some(CollapseIns(n))
      else if |n.ref| > |n.alt| then
        Some(CollapseDel(n))
      else
        None
  }

  /** A `*` allele gives in every case what a `-` allele gives. */
  lemma StarIsDash(fetch: Fetch, rec: Record, toDash: bool)
    ensures Convert(fetch, rec.(ref := "*"), toDash) == Convert(fetch, rec.(ref := "-"), toDash)
    ensures Convert(fetch, rec.(alt := "*"), toDash) == Convert(fetch, rec.(alt := "-"), toDash)
    ensures Convert(fetch, rec, toDash) == Convert(fetch, NormalizeAlleles(rec), toDash)
  {
  }

  /**
   Records returned as they are (after `*` normalisation) and without a lookup:
   a single-base substitution in either direction, and a multi-base
   substitution of unequal lengths when converting out of dash notation.
   */
  lemma ConvertUnchanged(f: Fetch, g: Fetch, rec: Record, toDash: bool)
    requires
      || (!toDash && NormAllele(rec.ref) != "-" && NormAllele(rec.alt) != "-" && |rec.ref| == 1 && |rec.alt| == 1)
      || (toDash && |rec.ref| == 1 && |rec.alt| == 1)
      || (!toDash && NormAllele(rec.ref) != "-" && NormAllele(rec.alt) != "-" && |rec.ref| != |rec.alt|)
    ensures Convert(f, rec, toDash) == Some(NormalizeAlleles(rec))
    ensures Convert(f, rec, toDash) == Convert(g, rec, toDash)
  {
  }

  /** Out of dash notation, an empty ref allele is an insertion. */
  lemma ConvertInsertionToNoDash(fetch: Fetch, rec: Record)
    requires NormAllele(rec.ref) == "-"
    ensures Convert(fetch, rec, false) == Some(ExpandIns(fetch, NormalizeAlleles(rec)))
  {
  }

  /** Out of dash notation, an empty alt allele with a non-empty ref is a deletion. */
  lemma ConvertDeletionToNoDash(fetch: Fetch, rec: Record)
    requires NormAllele(rec.ref) != "-" && NormAllele(rec.alt) == "-"
    ensures Convert(fetch, rec, false) == Some(ExpandDel(fetch, NormalizeAlleles(rec)))
  {
  }

  /** Into dash notation, a ref shorter than alt is an insertion. */
  lemma ConvertInsertionToDash(fetch: Fetch, rec: Record)
    requires |rec.ref| < |rec.alt|
    ensures Convert(fetch, rec, true) == Some(CollapseIns(NormalizeAlleles(rec)))
  {
  }

  /** Into dash notation, a ref longer than alt is a deletion. */
  lemma ConvertDeletionToDash(fetch: Fetch, rec: Record)
    requires |rec.ref| > |rec.alt|
    ensures Convert(fetch, rec, true) == Some(CollapseDel(NormalizeAlleles(rec)))
  {
  }

  /** The one region, if any, whose reference base the conversion reads. */
  function Query(rec: Record, toDash: bool): (q: Option<Region>)
    ensures q.Some? ==> !toDash
    ensures q.Some? ==> q.value.chromosome == NormChrom(rec.chromosome) && StartsWith(q.value.chromosome, "chr")
    ensures q.Some? ==> q.value.start == q.value.end
    ensures q.Some? ==> q.value.start == (if NormAllele(rec.ref) == "-" then rec.start else rec.start - 1)
    ensures q.None? <==> toDash || (NormAllele(rec.ref) != "-" && NormAllele(rec.alt) != "-")
  {
    var n := NormalizeAlleles(rec);
    if toDash || (n.ref != "-" && n.alt != "-") then None
    else if n.ref == "-" then Some(Region(NormChrom(rec.chromosome), rec.start, rec.start))
    else Some(Region(NormChrom(rec.chromosome), rec.start - 1, rec.start - 1))
  }

  /**
   Two references that agree on the region of `Query` (or any two, when it
   names none) give the same conversion: at most one base is ever read.
   */
  lemma ConvertReadsOnlyQuery(f: Fetch, g: Fetch, rec: Record, toDash: bool)
    requires Query(rec, toDash).Some? ==>
      var q := Query(rec, toDash).value;
      f(q.chromosome, q.start, q.end) == g(q.chromosome, q.start, q.end)
    ensures Convert(f, rec, toDash) == Convert(g, rec, toDash)
  {
  }

  /** An unanswered lookup leaves an insertion or deletion as it came in. */
  lemma ConvertLookupFails(fetch: Fetch, rec: Record)
    requires Query(rec, false).Some?
    requires var q := Query(rec, false).value; GetNucleotide(fetch, rec.chromosome, q.start, q.end).None?
    ensures Convert(fetch, rec, false) == Some(NormalizeAlleles(rec))
  {
  }

  /**
   An anchored insertion `R -> R X` collapses to `- -> X`, and expanding that
   with the reference answering `R` at the same position restores it.
   */
  lemma InsertionRoundTrip(fetch: Fetch, c: string, s: int, e: int, anchor: string, inserted: string)
    requires |anchor| == 1 && |inserted| >= 1 && inserted != "*"
    requires GetNucleotide(fetch, c, s, s) == Some(anchor)
    ensures Convert(fetch, Record(c, s, e, anchor, anchor + inserted), true) == Some(Record(c, s, e, "-", inserted))
    ensures Convert(fetch, Record(c, s, e, "-", inserted), false) == Some(Record(c, s, e, anchor, anchor + inserted))
  {
  }

  /**
   An anchored deletion `B Y -> B` at `s` collapses to `Y -> -` at `s + 1`,
   and expanding that with the reference answering `B` at `s` restores it.
   */
  lemma DeletionRoundTrip(fetch: Fetch, c: string, s: int, e: int, anchor: string, deleted: string)
    requires |anchor| == 1 && |deleted| >= 1 && deleted != "-" && deleted != "*"
    requires GetNucleotide(fetch, c, s, s) == Some(anchor)
    ensures Convert(fetch, Record(c, s, e, anchor + deleted, anchor), true) == Some(Record(c, s + 1, e, deleted, "-"))
    ensures Convert(fetch, Record(c, s + 1, e, deleted, "-"), false) == Some(Record(c, s, e, anchor + deleted, anchor))
  {
  }

  /** A dash insertion expanded with a one-base answer collapses back to itself. */
  lemma DashInsertionRoundTrip(fetch: Fetch, rec: Record, nt: string)
    requires NormAllele(rec.ref) == "-" && |rec.alt| >= 1
    requires GetNucleotide(fetch, rec.chromosome, rec.start, rec.start) == Some(nt) && |nt| == 1
    ensures Convert(fetch, rec, false).Some?
    ensures Convert(fetch, Convert(fetch, rec, false).value, true) == Some(NormalizeAlleles(rec))
  {
  }

  /** A dash deletion expanded with a one-base answer collapses back to itself. */
  lemma DashDeletionRoundTrip(fetch: Fetch, rec: Record, nt: string)
    requires NormAllele(rec.ref) != "-" && NormAllele(rec.alt) == "-" && |rec.ref| >= 1
    requires GetNucleotide(fetch, rec.chromosome, rec.start - 1, rec.start - 1) == Some(nt) && |nt| == 1
    ensures Convert(fetch, rec, false).Some?
    ensures Convert(fetch, Convert(fetch, rec, false).value, true) == Some(NormalizeAlleles(rec))
  {
  }

  /**
   Read from a VCF line, an anchored deletion collapses to a dash record that
   spans exactly the deleted bases, and an anchored insertion to one whose
   start and end coincide.
   */
  lemma VcfCollapseSpans(fetch: Fetch, c: string, s: int, anchor: string, bases: string)
    requires |anchor| == 1 && |bases| >= 1
    ensures var r := Convert(fetch, Record(c, s, VcfEnd(s, anchor + bases), anchor + bases, anchor), true);
      r.Some? && r.value.end - r.value.start + 1 == |r.value.ref| == |bases|
    ensures var r := Convert(fetch, Record(c, s, VcfEnd(s, anchor), anchor, anchor + bases), true);
      r.Some? && r.value.start == r.value.end
  {
  }
}
