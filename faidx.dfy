/**
 The reference-genome lookup of `Faidx_processor.getNucleotide`.

 The `samtools faidx` subprocess is not modelled: it is the oracle `Fetch`,
 which receives the region exactly as the converter asks for it (chromosome
 already normalised, 1-based start and end) and answers with the
 whitespace-separated tokens of the tool's standard output, or `None` when
 waiting for the tool (`communicate`) or decoding its output raised. A tool
 that cannot be launched at all raises out of the converter instead, which
 this oracle does not represent.
 */
module Faidx {
  import opened Wrappers

  /** Tokens printed by `samtools faidx <reference> chrom:start-end`, or None when `communicate` or the decode raised. */
  type Fetch = (string, int, int) -> Option<seq<string>>

  predicate StartsWith(s: string, prefix: string)
  {
    |prefix| <= |s| && s[..|prefix|] == prefix
  }

  /** The names that denote the mitochondrial contig. */
  predicate IsMitochondrial(chromosome: string)
  {
    chromosome == "M" || chromosome == "MT" || chromosome == "chrM" || chromosome == "chrMT"
  }

  /**
   The chromosome name presented to the reference: `chr` is prefixed when
   absent and `chrMT` is renamed `chrM`.
   */
  function NormChrom(chromosome: string): (r: string)
    ensures StartsWith(r, "chr")
    ensures r != "chrMT"
    ensures StartsWith(chromosome, "chr") && chromosome != "chrMT" ==> r == chromosome
    ensures !StartsWith(chromosome, "chr") && chromosome != "MT" ==> r == "chr" + chromosome
  {
    var prefixed := if StartsWith(chromosome, "chr") then chromosome else "chr" + chromosome;
    assert !StartsWith(chromosome, "chr") ==> chromosome == prefixed[3..];
    if prefixed == "chrMT" then "chrM" else prefixed
  }

  /** Prefixing `chr` by hand does not change the name the reference sees: `1` and `chr1` agree. */
  lemma NormChromPrefixed(chromosome: string)
    requires !StartsWith(chromosome, "chr")
    ensures NormChrom("chr" + chromosome) == NormChrom(chromosome)
  {
  }

  /** Exactly the four mitochondrial spellings reach the reference as `chrM`. */
  lemma NormChromMitochondrial(chromosome: string)
    ensures NormChrom(chromosome) == "chrM" <==> IsMitochondrial(chromosome)
  {
  }

  /** Normalising twice is normalising once. */
  lemma NormChromIdempotent(chromosome: string)
    ensures NormChrom(NormChrom(chromosome)) == NormChrom(chromosome)
  {
  }

  /** The names the converter's examples and documentation use. */
  lemma NormChromExamples()
    ensures NormChrom("1") == "chr1" && NormChrom("chr1") == "chr1"
    ensures NormChrom("X") == "chrX" && NormChrom("chrX") == "chrX"
    ensures NormChrom("MT") == "chrM" && NormChrom("chrMT") == "chrM" && NormChrom("M") == "chrM"
  {
  }

  predicate IsLowerAscii(ch: char)
  {
    'a' <= ch <= 'z'
  }

  /** Python's `str.upper` on one character, restricted to ASCII letters. */
  function UpperChar(ch: char): (r: char)
    ensures !IsLowerAscii(r)
    ensures IsLowerAscii(ch) ==> r as int == ch as int - 32
    ensures !IsLowerAscii(ch) ==> r == ch
  {
    if IsLowerAscii(ch) then (ch as int - 32) as char else ch
  }

  /** Python's `str.upper`, character by character. */
  function Upper(s: string): (r: string)
    ensures |r| == |s|
    ensures forall i :: 0 <= i < |s| ==> r[i] == UpperChar(s[i])
  {
    if s == [] then [] else [UpperChar(s[0])] + Upper(s[1..])
  }

  predicate NoLowerAscii(s: string)
  {
    forall i :: 0 <= i < |s| ==> !IsLowerAscii(s[i])
  }

  /** Upper-casing leaves no lower-case letter, and changes nothing in a string without one. */
  lemma UpperSpec(s: string)
    ensures NoLowerAscii(Upper(s))
    ensures Upper(s) == s <==> NoLowerAscii(s)
  {
  }

  /**
   `getNucleotide(chromosome, start, end)`: the reference sequence of the region,
   upper-cased, when the tool answers with exactly two tokens (header and
   sequence); None otherwise.
   */
  function GetNucleotide(fetch: Fetch, chromosome: string, start: int, end: int): (r: Option<string>)
    ensures r.Some? <==> fetch(NormChrom(chromosome), start, end).Some? && |fetch(NormChrom(chromosome), start, end).value| == 2
    ensures r.Some? ==> NoLowerAscii(r.value) && |r.value| == |fetch(NormChrom(chromosome), start, end).value[1]|
    ensures r.Some? ==> forall i :: 0 <= i < |r.value| ==> r.value[i] == UpperChar(fetch(NormChrom(chromosome), start, end).value[1][i])
  {
    match fetch(NormChrom(chromosome), start, end)
    case None => None
    case Some(tokens) =>
      if |tokens| == 2 then
        Some(Upper(tokens[1]))
      else
        None
  }

  /** The answer depends on the tool's reply for the normalised region and on nothing else. */
  lemma GetNucleotideLocal(f: Fetch, g: Fetch, chromosome: string, start: int, end: int)
    requires f(NormChrom(chromosome), start, end) == g(NormChrom(chromosome), start, end)
    ensures GetNucleotide(f, chromosome, start, end) == GetNucleotide(g, chromosome, start, end)
  {
  }
}
