# indelConverter in Dafny

A model of `indelConverter.py`, which rewrites a genomic variant record
`(chromosome, start, end, ref, alt)` between two notations:

- the dash notation, where the missing allele of an insertion or deletion is
  written `-` (legacy input may write `*`);
- the anchored notation of VCF, where an insertion or deletion keeps the one
  reference base just before the event.

Going from dash to anchored notation needs that base, read from the reference
genome with `samtools faidx`; the other direction is pure slicing and
coordinate arithmetic.

Files:

- `wrappers.dfy` — module `Wrappers`: the `Option` type standing for Python's `None` returns.
- `faidx.dfy` — module `Faidx`: `Faidx_processor.getNucleotide`. The chromosome
  normalisation is `NormChrom`; the samtools process is the oracle `Fetch`,
  a function from region to the tokens the tool prints (or `None` when
  `communicate` or the UTF-8 decode raised); `GetNucleotide` keeps the source's check for exactly
  two tokens and its upper-casing.
- `indel_converter.dfy` — module `IndelConverter`: `variantIndelConverter`
  (`Convert`), the two expand rules that consult the reference, the two
  collapse rules that do not, and the VCF end coordinate.

Behaviour worth knowing, all taken from the code:

- `*` is rewritten to `-` before the direction is tested, so it acts as `-`
  in both directions, and a record returned "unchanged" carries `-` where the
  input had `*`.
- `Convert` returns `None` exactly when `|ref| == |alt|` and that length is not
  1, in either direction (this includes two empty alleles).
- The collapse rules trust the anchor: an insertion drops the first character
  of `alt` whatever `ref` is, a deletion drops the first character of `ref` and
  ignores `alt` beyond its length. The round-trip lemmas therefore assume a
  one-base anchor.
- A round trip through dash notation needs the deleted allele not to be `-`
  or `*`: the collapsed record `(-, -)` or `(*, -)` would be read back as an
  insertion. An inserted `-` round-trips; an inserted `*` comes back as `-`
  through the `*` normalisation, so that round trip excludes only `*`.

## Model

| member | source | states |
|---|---|---|
| `Faidx.NormChrom` | indelConverter.py:14-17 | the name sent to the reference starts with `chr` and is never `chrMT`; a name already starting with `chr` is kept, any other name other than `MT` gets `chr` prefixed |
| `Faidx.NormChromPrefixed` | indelConverter.py:14-15 | a name without `chr` and the same name with `chr` prefixed reach the reference identically (`1` and `chr1`) |
| `Faidx.NormChromMitochondrial` | indelConverter.py:14-17 | the reference sees `chrM` if and only if the name is one of `M`, `MT`, `chrM`, `chrMT` |
| `Faidx.NormChromIdempotent` | indelConverter.py:14-17 | normalising an already normalised name changes nothing |
| `Faidx.NormChromExamples` | indelConverter.py:14-17 | `1` and `chr1` give `chr1`; `X` and `chrX` give `chrX`; `MT`, `chrMT` and `M` give `chrM` |
| `Faidx.UpperChar` | indelConverter.py:26 | an upper-cased character is never a lower-case ASCII letter; lower-case letters move down by 32 code points, every other character is kept |
| `Faidx.Upper` | indelConverter.py:26 | upper-casing keeps the length and maps every position through `UpperChar` |
| `Faidx.UpperSpec` | indelConverter.py:26 | an upper-cased string holds no lower-case letter, and upper-casing is the identity exactly on strings without one |
| `Faidx.GetNucleotide` | indelConverter.py:13-29 | a base sequence comes back exactly when the tool's reply for the normalised region has two tokens; it is the second token upper-cased character by character, so it is as long as that token and holds no lower-case letter |
| `Faidx.GetNucleotideLocal` | indelConverter.py:18-22 | the answer depends only on the tool's reply for the normalised chromosome and the requested start and end |
| `IndelConverter.Tail` | indelConverter.py:72 | Python's `s[1:]`: the input is its first character followed by the result; empty input gives empty output |
| `IndelConverter.NormAllele` | indelConverter.py:34-37 | the result is `-` exactly when the allele is `-` or `*`, is never `*`, keeps the length and leaves every other allele alone |
| `IndelConverter.NormalizeAlleles` | indelConverter.py:34-37 | both alleles are normalised and chromosome and coordinates are kept |
| `IndelConverter.VcfEnd` | indelConverter.py:132 | the end of a VCF record makes `end - start + 1` the length of ref, so it is at least start for a non-empty ref |
| `IndelConverter.ExpandIns` | indelConverter.py:56-61 | the reference is asked for `(chromosome, start, start)`; with answer `nt` ref becomes `nt` and alt becomes `nt` followed by the old alt, coordinates kept; with no answer the record is returned as it is |
| `IndelConverter.ExpandDel` | indelConverter.py:63-68 | the reference is asked for `(chromosome, start-1, start-1)`; with answer `nt` the start moves left by one, ref becomes `nt` followed by the old ref and alt becomes `nt`, end kept; with no answer the record is returned as it is |
| `IndelConverter.CollapseIns` | indelConverter.py:70-72 | ref becomes `-`, alt loses its first (anchor) character, coordinates are kept |
| `IndelConverter.CollapseDel` | indelConverter.py:74-76 | start moves right by one, end is kept, ref loses its first (anchor) character, alt becomes `-`; a record whose span was the length of ref keeps that property |
| `IndelConverter.Convert` | indelConverter.py:33-54 | `None` exactly when both alleles have the same length other than 1; otherwise the chromosome and end are the input's and start moves by at most one, never right when leaving dash notation and never left when entering it |
| `IndelConverter.StarIsDash` | indelConverter.py:34-37 | a `*` allele converts exactly as a `-` allele, in both directions |
| `IndelConverter.ConvertUnchanged` | indelConverter.py:38-49 | single-base substitutions in either direction, and unequal-length substitutions with no `-` out of dash notation, come back normalised but otherwise unchanged, whatever the reference says |
| `IndelConverter.ConvertInsertionToNoDash` | indelConverter.py:43-44 | out of dash notation a `-` (or `*`) ref is handled by the insertion expand rule |
| `IndelConverter.ConvertDeletionToNoDash` | indelConverter.py:45-46 | out of dash notation a `-` (or `*`) alt with another ref is handled by the deletion expand rule |
| `IndelConverter.ConvertInsertionToDash` | indelConverter.py:50-51 | into dash notation a ref shorter than alt is handled by the insertion collapse rule |
| `IndelConverter.ConvertDeletionToDash` | indelConverter.py:52-53 | into dash notation a ref longer than alt is handled by the deletion collapse rule |
| `IndelConverter.Query` | indelConverter.py:56-68 | a lookup happens only out of dash notation and only for a `-` allele; it asks for one position, at start for an insertion and at start-1 for a deletion, under the normalised `chr` name |
| `IndelConverter.ConvertReadsOnlyQuery` | indelConverter.py:56-68 | two references that agree on the region named by `Query`, or any two when it names none, give the same conversion |
| `IndelConverter.ConvertLookupFails` | indelConverter.py:56-68 | when the reference does not answer, an insertion or deletion comes back unchanged rather than as an error |
| `IndelConverter.InsertionRoundTrip` | indelConverter.py:56-72 | `(c,s,e,R,R+X)` collapses to `(c,s,e,-,X)`, which expands back to `(c,s,e,R,R+X)` when the reference answers `R` at `(c,s,s)` |
| `IndelConverter.DeletionRoundTrip` | indelConverter.py:63-76 | `(c,s,e,B+Y,B)` collapses to `(c,s+1,e,Y,-)`, which expands back to `(c,s,e,B+Y,B)` when the reference answers `B` at `(c,s,s)` |
| `IndelConverter.DashInsertionRoundTrip` | indelConverter.py:56-72 | a dash insertion expanded with a one-base answer collapses back to the (normalised) input |
| `IndelConverter.DashDeletionRoundTrip` | indelConverter.py:63-76 | a dash deletion expanded with a one-base answer collapses back to the (normalised) input |
| `IndelConverter.VcfCollapseSpans` | indelConverter.py:70-76 | a VCF deletion collapses to a dash record spanning exactly its deleted bases; a VCF insertion collapses to one with start equal to end |

## Left out

- The `samtools faidx` subprocess (`Popen`, `communicate`, the region string `chrom:start-end`): it is the `Fetch` oracle, a parameter of every lookup.
- A samtools executable that cannot be launched: `Popen` raises before the `try`, so the exception leaves the converter and the driver writes the raw line; the oracle can only answer with tokens or `None` and does not represent this.
- Splitting the tool's output on whitespace: the oracle already answers with the tokens.
- The diagnostic `print` when the reply does not have two tokens: output only.
- `Faidx_processor`'s constructor: it only stores the samtools path and the reference path, which select the oracle.
- `Faidx.Upper`: models `str.upper` on ASCII letters only; other Unicode case mappings (some of which change the length) are not modelled.
- `str2bool`: argument-parsing glue that the program never uses.
- The command-line driver: argument parsing, plain and gzip file reading, header lines copied verbatim, tab splitting, trailing columns, the exception handler that writes a failing line unchanged (which is where a `None` from `Convert` ends up), and the record counter. Only its VCF end coordinate is modelled (`VcfEnd`).
- `to_dash` is a boolean here, as `--to_dash` is a `store_true` flag; the source's tests `is False` / `is True` cannot both fail.
