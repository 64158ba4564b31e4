# bonsai-prp result normalisation, modelled in Dafny

bonsai-prp is a post-processor for a bacterial genomics pipeline. It reads the
raw outputs of the tools the pipeline ran, converts them into one canonical
data model and assembles the pipeline result of a sample. The tools covered
here are:

- Mykrobe and TB-Profiler: resistance predictions for *M. tuberculosis*;
- ResFinder, AMRFinderPlus, VirulenceFinder and SerotypeFinder;
- the SNV and SV VCF files.

This project models that core and proves what it promises:

- `Common`: shared values and text operations.
  - Options, and results that stand in for Python's exceptions.
  - ASCII case mapping, `str.split` and substring search.
  - Decimal digit runs, and a traversal that stops at the first failure.
- `Phenotype` (`prp/models/phenotype.py`): the canonical data model.
  - The closed enumerations with their serialised values.
  - The records, and keyword constructors that check required fields and fill in defaults as the record classes declare them.
- `ParseUtils` (`prp/parse/utils.py`):
  - the empty-result test;
  - codon comparison (`get_nt_change`) and nucleotide-change formatting (`format_nt_change`);
  - the database version (`get_db_version`);
  - the per-species input file set (`create_sample_array`).
- `Mykrobe` (`prp/parse/phenotype/mykrobe.py`):
  - the susceptible/resistant drug profile;
  - the mutation notation decoder (`get_mutation_type`);
  - one variant per reported resistant row;
  - the result that is dropped when it is empty.
- `TbProfiler` (`prp/parse/phenotype/tbprofiler.py`):
  - the fixed-drug-list profile;
  - the variant caller taken from the pipeline steps;
  - the three result partitions with their QC flags and sequential ids;
  - the stable sort by (gene, position);
  - the drug information mapping.
- `VcfVariants` (`prp/parse/variant.py`):
  - the variant-type tag mapping;
  - the rule that derives the passed-QC flag from the FILTER column (section 1.6.1 of the VCF v4.3 specification);
  - the caller taken from the `##source=` header line;
  - loading records, with "no records gives no list".
- `Cli` (`prp/cli.py`):
  - `create_bonsai_input`: what lands in which result list, in which order, under which emptiness condition, and when the run aborts;
  - the contig decision of `annotate_delly`.

The code works by loops and accumulation in `get_nt_change`, the two
profiles, the two variant decoders, `parse_drug_resistance_info`,
`load_variants`, `create_sample_array` and `create_bonsai_input`. There the
model is a `method` with the same loop, proved against a specification
function. The specification function's properties are proved as lemmas.

The shown files come from revisions that do not quite agree. The model
reconciles them as follows:

- `VariantType` in `prp/models/phenotype.py:27-32` has only substitution, insertion and deletion. `prp/parse/variant.py:17-19` and `prp/parse/phenotype/tbprofiler.py:76` use `SNV` and `MNV`, so the model has five members. Their values are "SNV" and "MNV", which is why the upper-cased VCF tag can only name one of those two.
- `VariantSubType` (`prp/parse/phenotype/tbprofiler.py:78-82`) is not in the record model. It is modelled with the three members the decoder uses.
- `ElementTypeResult` names its list `mutations` (`prp/models/phenotype.py:195`). The callers disagree: the Mykrobe decoder passes `mutations=` (`prp/parse/phenotype/mykrobe.py:106`), while the TB-Profiler decoder passes `variants=` (`prp/parse/phenotype/tbprofiler.py:160`) and `prp/parse/utils.py:31` and `prp/cli.py:189` read `.variants`. The model names the list `variants`.
- The Mykrobe, TB-Profiler and VCF variant records carry the fields their decoders pass, since the record model lacks several of them. None of the three is checked against `VariantBase`: a Mykrobe change with no digit gives a variant with no type and no position, and a TB-Profiler pipeline with no variant-calling step gives a variant with no method (`prp/parse/phenotype/tbprofiler.py:105`), where `VariantBase` would require them.

## Model

| member | source | states |
|---|---|---|
| Common.UpperOfNoLower | prp/parse/utils.py:53 | upper-casing text that has no lower-case letter leaves it unchanged |
| Common.UpperHasNoLower | prp/parse/utils.py:53 | an upper-cased text has no lower-case letter |
| Common.NatToString | prp/parse/phenotype/mykrobe.py:53 | the decimal text of a number is a non-empty run of digits |
| Common.ParseNatToString | prp/parse/phenotype/mykrobe.py:53 | `int` of the decimal text of `n` is `n` |
| Common.Split | prp/parse/phenotype/mykrobe.py:76 | a split always yields at least one piece |
| Common.SplitHead | prp/parse/phenotype/mykrobe.py:86 | the first piece of a split is the longest separator-free prefix |
| Common.SplitOne | prp/parse/phenotype/mykrobe.py:80 | a text splits into one piece exactly when it lacks the separator, and that piece is the text itself |
| Common.SplitLast | prp/parse/phenotype/mykrobe.py:76 | the last piece (`[-1]`) is the longest separator-free suffix |
| Common.Contains | prp/cli.py:243 | `sub in s` holds exactly when `sub` occurs at some position of `s` |
| Common.LexIrreflexive | prp/parse/phenotype/tbprofiler.py:111-113 | the string order used to sort by gene is irreflexive |
| Common.LexTransitive | prp/parse/phenotype/tbprofiler.py:111-113 | the string order is transitive |
| Common.LexTotal | prp/parse/phenotype/tbprofiler.py:111-113 | any two distinct strings are ordered one way or the other |
| Common.LexAsymmetric | prp/parse/phenotype/tbprofiler.py:111-113 | the string order is asymmetric |
| Common.ListOfSet | prp/parse/phenotype/mykrobe.py:28 | `list(set)` holds every element of the set exactly once |
| Common.MapResultSucceeds | prp/parse/variant.py:84-85 | a traversal succeeds exactly when every element decodes |
| Common.MapResultValues | prp/parse/variant.py:84-85 | a successful traversal holds one decoded value per element, in order |
| Common.MapResultAppend | prp/parse/variant.py:85 | one more element either appends its value or ends the traversal with its failure |
| Common.MapResultPrefixFailure | prp/parse/variant.py:84-85 | a failure in a prefix is the failure of the whole traversal |
| Phenotype.StrandFromValue | prp/models/phenotype.py:10-14 | a strand value is valid exactly when it is "+" or "-", and "+" is FORWARD |
| Phenotype.StrandValue | prp/models/phenotype.py:10-14 | looking a strand up by its value gives the strand back |
| Phenotype.VariantTypeFromValue | prp/models/phenotype.py:27-32 | a variant type is found exactly for the five values |
| Phenotype.VariantTypeValue | prp/models/phenotype.py:27-32 | every member's value is one of the five and looks the member up again |
| Phenotype.VariantTypeValueInverse | prp/models/phenotype.py:27-32 | lookup by value and `.value` are inverse in both directions |
| Phenotype.ElementTypeFromValue | prp/models/phenotype.py:35-40 | an element type is found exactly for AMR, STRESS and VIRULENCE |
| Phenotype.ElementTypeValue | prp/models/phenotype.py:35-40 | every element type's value is one of the three and looks the member up again |
| Phenotype.ElementSubtypeFromValue | prp/models/phenotype.py:43-63 | a subtype is found exactly for the eight subtype values, and its value is the input |
| Phenotype.ElementSubtypeValuesUnambiguous | prp/models/phenotype.py:43-63 | subtype values are pairwise distinct and round-trip; VIR shares "VIRULENCE" with the element type VIR |
| Phenotype.NewPhenotypeInfo | prp/models/phenotype.py:66-75 | validation succeeds exactly when `name` and a valid `type` are given and `reference` is not `None`; each failing field is named |
| Phenotype.PhenotypeInfoDefaults | prp/models/phenotype.py:70-75 | with only `name` and `type`, `group` and `note` are `None` and `reference` is empty |
| Phenotype.PhenotypeInfoRoundTrip | prp/models/phenotype.py:66-75 | rebuilding a record from its own fields gives it back |
| Phenotype.NewGeneBase | prp/models/phenotype.py:85-112 | a gene needs only a valid element type and subtype; the length is read from `target_length` |
| Phenotype.GeneSubtypeUntied | prp/models/phenotype.py:94-99 | every element type accepts every subtype of the three enumerations |
| Phenotype.RefGeneLengthAlias | prp/models/phenotype.py:103-107 | a length passed as `ref_gene_length` is ignored, and one passed as `target_length` is kept |
| Phenotype.NewAmrFinderGene | prp/models/phenotype.py:130-142 | validation needs a valid gene, a `contig_id` and a strand of "+" or "-"; explicit `None` query positions are rejected |
| Phenotype.NewVariantBase | prp/models/phenotype.py:145-165 | type, gene symbol, position, both alleles, method and `passed_qc` are required; `passed_qc` cannot be `None` |
| ParseUtils.IsPredictionResultEmpty | prp/parse/utils.py:23-32 | a result is empty exactly when it has no genes and no variants |
| ParseUtils.GetNtChange | prp/parse/utils.py:35-53 | the loop over the zipped codons computes the specified nucleotide change |
| ParseUtils.MismatchesShape | prp/parse/utils.py:49-52 | after `n` zipped positions both accumulated strings have equal length at most `n`, differ at every position, and keep upper case |
| ParseUtils.MismatchesOfIdentical | prp/parse/utils.py:49-52 | identical codons accumulate nothing |
| ParseUtils.NtChangeShape | prp/parse/utils.py:49-53 | both outputs have equal length, at most the shorter codon's length, and are upper case |
| ParseUtils.NtChangeOfIdentical | prp/parse/utils.py:49-53 | identical codons give ("", "") |
| ParseUtils.NtChangeDiffers | prp/parse/utils.py:49-53 | for upper-case codons the outputs differ at every position |
| ParseUtils.NtChangeExample | prp/parse/utils.py:38-53 | ("TCG", "TTG") gives ("C", "T") |
| ParseUtils.LeadingDigits | prp/parse/utils.py:79 | the leading digit run of a text is maximal |
| ParseUtils.LeadingDigitsOfConcat | prp/parse/utils.py:79 | the digit run of a position followed by a non-digit is exactly that position |
| ParseUtils.FirstPieceBeforeSeparator | prp/parse/utils.py:79 | splitting "ref>alt" at '>' gives back `ref` when `ref` has no '>' |
| ParseUtils.SubstitutionChangeRoundTrip | prp/parse/utils.py:78-79 | the corrected substitution text g.{pos}{ref}>{alt} reads back as its position and alleles |
| ParseUtils.FormatNtChangeDiscards | prp/parse/utils.py:76-84 | the function as written returns "" for a substitution, while the corrected one does not |
| ParseUtils.GetDbVersion | prp/parse/utils.py:100-103 | `commit` when present, otherwise name + "_" + the reformatted date; a missing name or Date fails, even with a commit |
| ParseUtils.DbVersionNeedsDate | prp/parse/utils.py:102 | a commit does not rescue a record without a Date |
| ParseUtils.CreateSampleArray | prp/parse/utils.py:127-202 | nothing for an unsupported species; the per-species file set, with the tools of the other species unset and the three metadata files in order |
| Mykrobe.DrugSetsMembers | prp/parse/phenotype/mykrobe.py:23-27 | a drug is resistant exactly when some row with that drug reads "R", and susceptible exactly when some row with that drug does not |
| Mykrobe.DrugSetsCoverRows | prp/parse/phenotype/mykrobe.py:23-27 | the two sets together are the drugs of all rows |
| Mykrobe.GetMykrobeAmrSrProfile | prp/parse/phenotype/mykrobe.py:15-28 | no rows give the empty profile; otherwise the lists hold the resistant and susceptible drug sets |
| Mykrobe.FirstDigitIndex | prp/parse/phenotype/mykrobe.py:46 | the index of the first digit, with no digit before it |
| Mykrobe.EndOfLastDigit | prp/parse/phenotype/mykrobe.py:47 | the index after the last digit, with no digit after it |
| Mykrobe.NoDigitsWhenNoneFound | prp/parse/phenotype/mykrobe.py:46-49 | when no first digit is found the text has no digit |
| Mykrobe.DigitBoundsOrdered | prp/parse/phenotype/mykrobe.py:46-47 | when a digit exists, the first digit comes before the end of the last |
| Mykrobe.KindOfChange | prp/parse/phenotype/mykrobe.py:54-59 | a longer ref is a deletion, a shorter ref an insertion, equal lengths a substitution |
| Mykrobe.GetMutationType | prp/parse/phenotype/mykrobe.py:31-60 | no result exactly when there is no digit; a `ValueError` exactly when a non-digit lies between two digits; otherwise prefix + digit span + suffix rebuild the input, the position is the span's value and the kind follows the lengths |
| Mykrobe.FirstDigitIndexOfConcat | prp/parse/phenotype/mykrobe.py:46 | the first digit of prefix + digits is at the prefix length |
| Mykrobe.EndOfLastDigitOfConcat | prp/parse/phenotype/mykrobe.py:47 | the last digit of digits + suffix ends at the digits' length |
| Mykrobe.MutationRoundTrip | prp/parse/phenotype/mykrobe.py:46-60 | decoding ref + position + alt gives back the codons, the position and the kind |
| Mykrobe.MutationExample | prp/parse/phenotype/mykrobe.py:34-60 | "GCG7569GTG" decodes to (SUBSTITUTION, "GCG", "GTG", 7569) |
| Mykrobe.ReportedRowsConcat | prp/parse/phenotype/mykrobe.py:67-73 | the reported rows of a concatenation are the concatenated reported rows |
| Mykrobe.ReportedRowsSingle | prp/parse/phenotype/mykrobe.py:69-73 | a single row is reported exactly when it is resistant and has variants |
| Mykrobe.ReportedRowsMembers | prp/parse/phenotype/mykrobe.py:67-73 | a row is reported exactly when it occurs in the input, is resistant and has variants |
| Mykrobe.DecodeVariant | prp/parse/phenotype/mykrobe.py:75-93 | decodes exactly when the depth converts and the variants cell is text whose two pieces and both mutation texts decode, with the source's failures for a bad depth, a non-text cell and a missing '-'; the result is the row's variant: the lower-cased drug, the gene symbol before the first '_', the depth, the change and its kind, and the position and alleles of the text after the first '-' |
| Mykrobe.DigitSpanHasNoGap | prp/parse/phenotype/mykrobe.py:45-50 | the span from the first digit to the end of the last is all digits exactly when no non-digit lies between two digits |
| Mykrobe.GapInsideDigitSpan | prp/parse/phenotype/mykrobe.py:45-50 | digits around a non-digit lie inside the span, which is then not all digits |
| Mykrobe.DigitSpanGap | prp/parse/phenotype/mykrobe.py:45-50 | a non-digit in the span lies between the span's first and last digits |
| Mykrobe.DecodedVariantsPerRow | prp/parse/phenotype/mykrobe.py:67-94 | one variant per reported row, in order, each the variant of its row: drug, gene symbol, depth, change, kind, position and alleles |
| Mykrobe.DecodeFailureStays | prp/parse/phenotype/mykrobe.py:67-94 | a failure on a prefix of the rows is the failure of the whole table |
| Mykrobe.ParseMykrobeAmrVariants | prp/parse/phenotype/mykrobe.py:63-95 | the loop with its skips computes the decoding of the reported rows |
| Mykrobe.MykrobeCalls | prp/parse/phenotype/mykrobe.py:106 | each decoded variant becomes one Mykrobe call, in order |
| Mykrobe.ParseMykrobeAmrPred | prp/parse/phenotype/mykrobe.py:98-116 | no result exactly when no row is reported; otherwise a MYKROBE result with the drug profile, no genes and the decoded variants |
| TbProfiler.AssociatedDrugsMembers | prp/parse/phenotype/tbprofiler.py:44-46 | a drug is resistant exactly when some resistance hit is associated with it |
| TbProfiler.DrugsNotInMembers | prp/parse/phenotype/tbprofiler.py:47 | a drug is susceptible exactly when it is a listed drug that is not resistant |
| TbProfiler.DrugsNotInDistinct | prp/parse/phenotype/tbprofiler.py:47 | filtering a list of distinct drugs keeps them distinct |
| TbProfiler.TbDrugsDistinct | prp/parse/phenotype/tbprofiler.py:23-39 | the fifteen listed drugs are distinct |
| TbProfiler.TbSrProfileDisjoint | prp/parse/phenotype/tbprofiler.py:44-48 | no drug is both susceptible and resistant, and every listed drug is one or the other |
| TbProfiler.GetTbProfilerAmrSrProfile | prp/parse/phenotype/tbprofiler.py:19-48 | an empty report gives the empty profile; a missing `dr_variants` fails; otherwise the nested loops give the specified profile |
| TbProfiler.VariantCallerIsLast | prp/parse/phenotype/tbprofiler.py:53-56 | the caller is the program of the last variant-calling step, or none when there is no such step |
| TbProfiler.GetVariantCaller | prp/parse/phenotype/tbprofiler.py:53-56 | the loop computes the specified caller |
| TbProfiler.DrugPhenotypes | prp/parse/phenotype/tbprofiler.py:125-149 | one AMR phenotype per drug, in order; the reference is [] or [literature], and the note is the WHO confidence |
| TbProfiler.ParseDrugResistanceInfo | prp/parse/phenotype/tbprofiler.py:117-149 | the loop computes the specified phenotypes |
| TbProfiler.SubtypeOf | prp/parse/phenotype/tbprofiler.py:77-82 | equal lengths are a substitution, a longer ref a deletion, otherwise an insertion |
| TbProfiler.ToVariant | prp/parse/phenotype/tbprofiler.py:84-107 | the id, QC flag and caller are passed through; the type is SNV; start is the genome position and end = start + len(alt) |
| TbProfiler.Tag | prp/parse/phenotype/tbprofiler.py:67-73 | every hit of a partition carries that partition's QC flag |
| TbProfiler.Numbered | prp/parse/phenotype/tbprofiler.py:64-108 | the i-th collected variant has id i + 1 |
| TbProfiler.TaggedPartitions | prp/parse/phenotype/tbprofiler.py:65-73 | the partitions come in the order dr, other, qc_fail, and only qc_fail is flagged as failed |
| TbProfiler.CollectedIdsAndQc | prp/parse/phenotype/tbprofiler.py:64-109 | ids run 1, 2, 3, ... over all hits, and a variant passed QC exactly when it comes from dr or other |
| TbProfiler.LocationLessTransitive | prp/parse/phenotype/tbprofiler.py:111-113 | the (gene, start) order is transitive |
| TbProfiler.LocationTrichotomy | prp/parse/phenotype/tbprofiler.py:111-113 | any two variants are ordered or share a location, never both ways |
| TbProfiler.InsertByLocationPermutes | prp/parse/phenotype/tbprofiler.py:111-113 | insertion adds exactly the inserted variant |
| TbProfiler.SortByLocationPermutes | prp/parse/phenotype/tbprofiler.py:111-113 | the sort is a permutation of its input |
| TbProfiler.StablySortedSnoc | prp/parse/phenotype/tbprofiler.py:111-113 | appending a variant that follows all others keeps the list stably sorted |
| TbProfiler.BeforeTransitive | prp/parse/phenotype/tbprofiler.py:111-113 | the order "by location, then by id" is transitive |
| TbProfiler.AppendAfterLast | prp/parse/phenotype/tbprofiler.py:111-113 | a later variant not below the last one follows every element |
| TbProfiler.InsertByLocationStable | prp/parse/phenotype/tbprofiler.py:111-113 | inserting a variant with a larger id keeps the list stably sorted |
| TbProfiler.SortByLocationElements | prp/parse/phenotype/tbprofiler.py:111-113 | the sort holds exactly the input's variants |
| TbProfiler.SortByLocationStable | prp/parse/phenotype/tbprofiler.py:111-113 | sorting variants with ascending ids orders them by location, ties kept in input order |
| TbProfiler.StablySortedIsSorted | prp/parse/phenotype/tbprofiler.py:111-113 | a stably sorted list is sorted by location |
| TbProfiler.SortedCollectionProperties | prp/parse/phenotype/tbprofiler.py:64-114 | the result is a stable sort of the collected variants by (gene, start), and a permutation of them |
| TbProfiler.NumberedAppend | prp/parse/phenotype/tbprofiler.py:108-109 | numbering one more hit appends it with the next id |
| TbProfiler.DecodePartition | prp/parse/phenotype/tbprofiler.py:73-109 | the loop over one partition appends each hit as the next numbered variant with the partition's QC flag, and the id counter follows |
| TbProfiler.ParseTbProfilerAmrVariants | prp/parse/phenotype/tbprofiler.py:51-114 | a missing `pipeline` fails; otherwise the loops give the sorted collection with the caller of the pipeline |
| TbProfiler.TbProfilerCalls | prp/parse/phenotype/tbprofiler.py:160 | each variant becomes one TB-Profiler call, in order |
| TbProfiler.ParseTbProfilerAmrPred | prp/parse/phenotype/tbprofiler.py:152-164 | a TBPROFILER result with the profile, no genes and the sorted variants; it fails exactly on a missing `pipeline` or `dr_variants` |
| VcfVariants.GetVariantType | prp/parse/variant.py:13-22 | "snp" is SNV and "mnp" is MNV; any other tag is the member valued by its upper-case form, or fails with that value |
| VcfVariants.VcfVariantTypes | prp/parse/variant.py:13-22 | every tag that decodes gives SNV or MNV |
| VcfVariants.IndelTagFails | prp/parse/variant.py:20-21 | "indel" fails rather than defaulting |
| VcfVariants.PassedQc | prp/parse/variant.py:34-39 | none when no filter is recorded, true exactly when "PASS" is among them, false otherwise |
| VcfVariants.LineLength | prp/parse/variant.py:10 | the caller runs to the next newline |
| VcfVariants.FindSource | prp/parse/variant.py:64 | the search finds the leftmost "##source=" line |
| VcfVariants.GetVariantCaller | prp/parse/variant.py:62-66 | none exactly when no line matches; otherwise the text after the first "##source=" up to the newline |
| VcfVariants.CallerIsOneLine | prp/parse/variant.py:62-66 | a found caller is non-empty, contains no newline and occurs as "##source=" + caller + newline |
| VcfVariants.CallerExample | prp/parse/variant.py:62-66 | "##source=delly" followed by a newline gives "delly" |
| VcfVariants.ParseVariant | prp/parse/variant.py:25-59 | fails exactly on an unknown type tag or a record without ALT; otherwise CHROM, the first ALT, the QC rule, and SVMETHOD or else the header caller |
| VcfVariants.LoadVariants | prp/parse/variant.py:69-87 | no records give no list; otherwise the loop decodes every record with the header's caller |
| VcfVariants.LoadedVariantsPerRecord | prp/parse/variant.py:84-85 | one variant per record, in order, with its chromosome, first ALT, QC flag and an SNV/MNV type |
| Cli.ResfinderContribution | prp/cli.py:179-190 | ResFinder contributes AMR then STRESS, each only with both genes and variants |
| Cli.AmrfinderContribution | prp/cli.py:193-203 | AMRFinderPlus contributes AMR then STRESS, unfiltered |
| Cli.ResfinderResultsOf | prp/cli.py:179-190 | the loop over the two categories keeps the non-empty ResFinder results |
| Cli.AmrfinderResultsOf | prp/cli.py:193-203 | the loop appends AMR, STRESS and then the virulence result |
| Cli.CollectBasicResults | prp/cli.py:149-230 | quast before quality; MLST, cgMLST, the Shiga-toxin typing, then the serotypes; ResFinder, AMRFinderPlus, then VirulenceFinder; the species prediction, or [] |
| Cli.AddMykrobe | prp/cli.py:234-266 | no rows fails; a sample id absent from the first row's sample aborts; otherwise the version, the AMR result (only when present) and the lineage are appended |
| Cli.TbReport | prp/cli.py:271-285 | the decoders see the whole parsed file, so a file with `db_version` is never empty |
| Cli.AddTbProfiler | prp/cli.py:269-286 | a missing `db_version` or name fails; once the version decodes, a missing `dr_variants` and then a missing pipeline fail; otherwise the database version, the lineage and the AMR result, with the `dr_variants` profile and the sorted variants, are appended |
| Cli.LoadVcf | prp/cli.py:289-293 | a given VCF file is loaded, and one not given has no variants |
| Cli.GenomeAnnotations | prp/cli.py:316-319 | annotations are named annotation_1 .. annotation_n, in order, by file name |
| Cli.VcfAnnotationsLabelled | prp/cli.py:320-323 | the corrected entries: the SV file labelled "SV", then the SNV file labelled "SNV", each only when given |
| Cli.VcfAnnotationLabelsSwapped | prp/cli.py:320-323 | as written the SV file is labelled "SNV" and the SNV file "SV"; the corrected labels are the reverse |
| Cli.ReferenceEntries | prp/cli.py:296-325 | mismatched accessions raise a usage error naming both; otherwise the reference genome, the read mapping and the annotations, with `None` when there are none |
| Cli.CompleteResult | prp/cli.py:288-334 | a VCF file that fails to load stops the run; mismatched accessions raise a usage error; otherwise the collected sections, the loaded variants and the reference block go into the result, which must pass validation |
| Cli.CreateBonsaiInput | prp/cli.py:149-334 | the checks abort in source order; each list holds what every step contributes, in order; the Mykrobe and TB-Profiler results carry their profiles and decoded variants; the reference block exists only when bam, fasta and gff are all given; the output passed validation |
| Cli.AnnotateDelly | prp/cli.py:420-439 | no BED file is a usage error and an empty VCF stops; the first chromosome is kept when it is a contig, renamed when the file has one contig, and rejected when the file has several |

## Left out

- File opening, JSON/CSV/VCF/BAM/GenBank reading and output writing: decoded inputs are given as records, and the output as a value.
- The command-line option wiring is left out.
- The decoders outside the core are opaque input values. These are the run info, the database list, and the QC, typing, lineage, ResFinder, AMRFinderPlus, VirulenceFinder, SerotypeFinder and Kraken parsers.
- Pydantic validation of the whole pipeline result is a predicate parameter.
- `reformat_date_str` is a parameter: it is date parsing by a foreign library. A date it cannot parse is reported as a `ValueError`.
- `os.path.abspath(os.path.join(...))` is a `resolve` parameter.
- `Path(...).name` is modelled as the text after the last '/'.
- `Path.is_file()` on the FASTA index is an input flag.
- `parse_input_dir` and `_get_path` are left out: they are directory listing.
- Float conversions are left out.
  - Depths, frequencies and qualities are opaque numbers.
  - The Mykrobe depth conversion is a parameter that may fail.
  - The TB-Profiler frequency is carried as given.
- Case mapping covers ASCII letters only.
- `int()` is modelled for ASCII digits only. It also accepts signs, underscores and other Unicode digits; those are left out.
- In `get_mutation_type`, a digit span that is not all digits (for example "A12B3C") is a `ValueError`, as `int()` raises.
- The stray third argument of `re.search` (`prp/parse/phenotype/mykrobe.py:46`) is the regular-expression flags parameter. It is not modelled, since it does not change which digit is found.
- The `pdb.set_trace()` fallback in `parse_variant` is not behaviour.
- VcfVariants.ParseVariant: the VCF variant is built without record validation. A `None` `passed_qc` (no filters) or a `None` method (no SVMETHOD and no caller) is carried as `None`. The source's `VariantBase` rejects it and then enters the debugger fallback.
- `annotate_delly_variants`, the VCF `Writer` and the header additions in `annotate_delly` are foreign-library work. `AnnotateDelly` models the decision up to `annot_chrom`.
- The `annotation_type` and `annotation_author` arguments passed to `PhenotypeInfo` are extra keywords the record ignores. They are not modelled.
- Logging and the `secho` messages are left out.
- Cli.ReferenceEntries: the annotation entries of the VCF files carry the intended labels ("SV" for the SV file, "SNV" for the SNV file), as `Cli.VcfAnnotations` defines them. The source swaps the two (`prp/cli.py:322`); that behaviour is `Cli.VcfAnnotationsAsWritten`, listed under Findings, and is not what the output is built from.
- Cli.CompleteResult: its `genome_annotation` is `Cli.AnnotationEntries`, built with the intended VCF labels rather than the swapped labels of `prp/cli.py:322`, as for `Cli.ReferenceEntries`.
- Cli.CreateBonsaiInput: its `genome_annotation` uses the intended VCF labels rather than the swapped labels of `prp/cli.py:322`, as for `Cli.ReferenceEntries`.
- Mykrobe.ParseMykrobeAmrPred: the profile's list order is not fixed, since the source builds it with `list(set)`. `CreateBonsaiInput` therefore returns the Mykrobe and TB-Profiler results as ghost outputs beside the assembled lists.
- Mykrobe: a susceptibility cell that is not text (pandas NaN) is left out. Such a cell raises in the source.
- The pandas positional renaming of columns 3 and 4 is left out: it is table plumbing.
- A path given as the empty string counts as given. In Python it is falsy and skipped.
- A key absent from the pipeline result and a key set to `None` are the same value, `None`.
- `create_qc_result`, `create_cdm_input`, `validate` and the schema printing are thin wrappers over parsers not modelled here.

## Findings

| source | as written | input that shows it | evidently intended | confidence | as-written member | corrected member |
|---|---|---|---|---|---|---|
| prp/parse/utils.py:76-84 | the HGVS f-strings are evaluated and discarded, so the function returns "" | any substitution, e.g. ref "C", alt "T", position 5 | return "g.5C>T" (and the del/ins forms) | not executed | ParseUtils.FormatNtChangeAsWritten (shown by ParseUtils.FormatNtChangeDiscards) | ParseUtils.FormatNtChange (proved by ParseUtils.SubstitutionChangeRoundTrip) |
| prp/cli.py:320-323 | an entry is labelled "SNV" when its file is the SV file and "SV" otherwise, so the two labels are swapped | sv_vcf "a/sv.vcf", snv_vcf "a/snv.vcf" give [("SNV", "sv.vcf"), ("SV", "snv.vcf")] | [("SV", "sv.vcf"), ("SNV", "snv.vcf")] | not executed | Cli.VcfAnnotationsAsWritten (shown by Cli.VcfAnnotationLabelsSwapped) | Cli.VcfAnnotations (proved by Cli.VcfAnnotationsLabelled) |
