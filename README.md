# satmut_utils reference lookup and workflow routing, in Dafny

This project models two parts of satmut_utils, the saturation-mutagenesis toolkit:

- **The Ensembl reference lookup** (`satmut_utils/analysis/references.py`). It turns an Ensembl transcript or gene ID into a transcript FASTA and GFF, using the curated APPRIS files of a reference directory. The steps are:
  - classifying the ID by prefix;
  - testing membership, with a fallback to another version of the same base ID;
  - mapping a gene to its first transcript;
  - selecting the contig line;
  - the GFF record filter that stops once the gene block ends;
  - the error precedence of `get_ensembl_references`.
- **The sim and call workflows** (`satmut_utils/satmut_utils.py`). This covers:
  - the configuration checks;
  - the choice between an Ensembl ID and a given reference;
  - which FASTQ and BAM each external stage receives;
  - the aligner thread count;
  - the qname sort command handed to primer masking.

File contents are inputs. An ID or contig file is the sequence of raw lines the file iterator yields, newline included. The transcript GFF is the sequence of records pybedtools parses. What would be written to the output FASTA and GFF is returned instead.

External stages are not modelled beyond their interface:
- Each external stage (UMI extraction, trimming, bowtie2 alignment, read grouping, consensus deduplication, primer masking, variant calling, read editing, read-name verification) is a `Stage` descriptor appended to the run.
- A stage's outputs are symbolic paths `Produced(product)`.
- The run records every stage in order and how the workflow ended. Python exceptions are `Err` values.

Modules:
- `Wrappers`: Option and Result.
- `Strings`: Python `str.split` for one character, `str.rstrip`, literal `re.search` and `posixpath.join`.
- `Paths`: symbolic paths.
- `References`: `references.py`.
- `Workflow`: `satmut_utils.py`.

Where the source works step by step, so does the model:
- `ensembl_id_exists`, `get_trx_id_from_gene_id` and the GFF filter loop are methods with loops. Each is proved against a specification function or predicate: `HasOtherVersion`, `TrxLookup` and `GffExtraction`.
- `call_workflow` is a method. It reassigns its FASTQ, BAM and sort-command locals step by step, as the source does. Its completed run is proved equal to a plan function.
- The plan is proved well formed:
  - every stage reads only outputs of earlier stages;
  - no file is produced twice.
- The plan is also proved to route each file as the source promises.

Constants that live in modules not part of this model are parameters. These are the Ensembl prefixes, `FILE_NEWLINE`, the saved feature types, the GFF attribute keys, `VALID_MUT_SIGS`, `QNAME_SORTS`, `INT_FORMAT_INDEX` and `GRCH38_FASTA`. The index parameters are natural numbers; see the Left out section below.

## Model

| member | source | states |
|---|---|---|
| Strings.Split | satmut_utils/analysis/references.py:77 | `str.split` on one character: at least one piece, no piece contains the separator, exactly one piece iff the separator is absent, and the first piece is the prefix up to the first separator |
| Strings.JoinSplit | satmut_utils/analysis/references.py:77-81 | joining the pieces of a split with the separator gives the original line back |
| Strings.SplitJoin | satmut_utils/analysis/references.py:77-81 | splitting a join of separator-free pieces gives the pieces back |
| Strings.RStrip | satmut_utils/analysis/references.py:45 | `rstrip(chars)` returns a prefix of the line that does not end in a character of `chars`, and every character it removes is one of `chars` |
| Strings.PathJoin | satmut_utils/satmut_utils.py:246 | `os.path.join(a, b)` ends in `b`; it is `b` itself when `b` is absolute, and otherwise `a` followed by `b`, with one `/` between them unless `a` is empty or already ends in `/` |
| References.BaseId | satmut_utils/analysis/references.py:55-58 | `id.split(".")[0]` is the prefix of the ID before its first `.`, and contains no `.` |
| References.EnsemblIdExists | satmut_utils/analysis/references.py:43-64 | an error (InvalidEnsemblId) iff neither prefix occurs, with the transcript prefix tried first (ClassifyId, over the literal substring test Strings.Contains); the listed IDs are the ID file's lines with FILE_NEWLINE stripped (IdSet, KnownIds); then `(True, None)` iff the ID is listed; otherwise `(False, alt)` where `alt` is a listed ID of the same base that differs from the ID, when one exists; otherwise `(False, None)` |
| References.TrxLookupNone | satmut_utils/analysis/references.py:75-83 | the gene search yields None exactly when every line has a field 1 and none of them is the gene ID |
| References.TrxLookupStop | satmut_utils/analysis/references.py:75-83 | after passing over lines 0..k-1, line k decides: IndexError if it has no field 1, else its field 0 when field 1 matches |
| References.GetTrxIdFromGeneId | satmut_utils/analysis/references.py:75-83 | the early-return loop over the contig lines computes the first-match search TrxLookup |
| References.ContigIdsEmpty | satmut_utils/analysis/references.py:101-102 | the list comprehension is empty iff no line names the ID in its first two fields |
| References.ContigIdsHead | satmut_utils/analysis/references.py:101-102 | the head of the list comprehension is the first naming line, newline stripped |
| References.SelectContig | satmut_utils/analysis/references.py:100-102 | IndexError iff no contig line names the ID in its first two fields; otherwise the first such line, newline stripped |
| References.KeptMembers | satmut_utils/analysis/references.py:144-148 | a record is written iff it is an input record and passes (saved feature type AND gene_id match) OR transcript_id match |
| References.ExtractGffRecords | satmut_utils/analysis/references.py:132-150 | the filter loop writes the passing records in input order, up to the end or up to the first record whose gene_id differs from the previous one after something was written; KeyError at the first record without a gene_id reached |
| References.GffExtractionUnique | satmut_utils/analysis/references.py:136-150 | at most one outcome fits the filter's description for a given record stream and ID; with ExtractGffRecords, which computes one, there is exactly one |
| References.GetEnsemblReferences | satmut_utils/analysis/references.py:185-212 | InvalidEnsemblId for a malformed ID; EnsemblIdNotFound when the ID is not listed, carrying an alternative iff one of the same base is listed; the IndexError of a malformed contig line; EnsemblIdNotFound when a gene maps to no transcript; the contig IndexError; the GFF KeyError; otherwise the FASTA selected with the original ID and the GFF filtered with the transcript ID (a gene's first transcript) and named after its base. It succeeds iff every step does, and every failure is the one FailsWith lists for the first step that fails |
| Workflow.Extend | satmut_utils/satmut_utils.py:370-421 | appending a stage whose inputs exist and whose outputs are new keeps a run well formed; it adds exactly the stage's outputs |
| Workflow.StageRunsAfter | satmut_utils/satmut_utils.py:370-421 | in a well-formed run, every stage reads only outputs of the stages before it and writes only new files |
| Workflow.OneProducer | satmut_utils/satmut_utils.py:370-421 | in a well-formed run, each file is written by one stage only |
| Workflow.GetSimReference | satmut_utils/satmut_utils.py:211-219 | RuntimeError when both an Ensembl ID and a reference are given; without an ID the given reference unchanged; with an ID alone, success iff the lookup succeeds, and then the extracted FASTA; a failure is the lookup's error (the exception get_ensembl_references raises at that step: InvalidEnsemblId, EnsemblIdNotFound, or the IndexError or KeyError of the lookup) |
| Workflow.GetCallReferences | satmut_utils/satmut_utils.py:240-256 | without an ID the given reference, GFF and GFF reference unchanged; with an ID, success iff the lookup succeeds, a failure being the lookup's error (the exception get_ensembl_references raises at that step: InvalidEnsemblId, EnsemblIdNotFound, or the IndexError or KeyError of the lookup); then the lookup's FASTA and GFF and `reference_dir` joined with GRCH38_FASTA as GFF reference, whatever `ref` was |
| Workflow.RunCallStages | satmut_utils/satmut_utils.py:370-423 | the step-by-step reassignment of the FASTQ, BAM and sort-command locals builds exactly the plan CallPlan; IndexError only when masking after consensus deduplication needs QNAME_SORTS[INT_FORMAT_INDEX] out of range |
| Workflow.CallWorkflow | satmut_utils/satmut_utils.py:353-423 | NotImplementedError with no stage run for an invalid mutagenesis signature, then for a MNP window outside {1, 2, 3}; with primers, read names are verified first and an unrecognised format or an out-of-range QNAME_SORTS index stops the run; a failed Ensembl lookup ends it with the lookup's error (the exception get_ensembl_references raises at that step: InvalidEnsemblId, EnsemblIdNotFound, or the IndexError or KeyError of the lookup) and no stage run beyond the read-name check (when primers are given); it completes iff all checks and the lookup pass, and a completed run is the plan over the resolved references and sort command |
| Workflow.PlanIgnoresSort | satmut_utils/satmut_utils.py:361-363 | without primers the sort command is never used |
| Workflow.PrepPlanWellFormed | satmut_utils/satmut_utils.py:370-400 | the stages up to deduplication read only earlier outputs, and they produce the UMI, trimmed, aligned, grouped, prepared and consensus files under consensus deduplication, and only the trimmed and aligned files otherwise |
| Workflow.CallPlanWellFormed | satmut_utils/satmut_utils.py:370-421 | a completed call run, masking and calling included, is well formed |
| Workflow.CallPlanRouted | satmut_utils/satmut_utils.py:370-421 | every completed plan routes its files as CallRouted says (see CallWorkflowRouted) |
| Workflow.CallWorkflowRouted | satmut_utils/satmut_utils.py:361-421 | every completed call run is well formed and: UMI extraction and consensus deduplication run iff consensus deduplication is set; trimming reads the UMI-extracted FASTQs then, the raw FASTQs otherwise; bowtie2 gets 1 thread when `nthreads` is 0 and `nthreads` otherwise, and the resolved reference; masking runs iff primers are given, reads the consensus BAM (else the aligned BAM), and sorts with QNAME_SORTS[INT_FORMAT_INDEX] under consensus deduplication, else with QNAME_SORTS at the detected format; the last stage is the variant caller, reading the masked BAM when primers are given, else the consensus BAM, else the aligned BAM, with the resolved references, targets and primers |
| Workflow.EditWithReference | satmut_utils/satmut_utils.py:289-300 | the reference is resolved before editing: RuntimeError for both an ID and a reference, a lookup failure stops the run with the lookup's error (the exception get_ensembl_references raises at that step: InvalidEnsemblId, EnsemblIdNotFound, or the IndexError or KeyError of the lookup), and otherwise the reads are edited with the extracted or given FASTA |
| Workflow.SimWorkflow | satmut_utils/satmut_utils.py:283-300 | read names are verified first when primers are given, and an unrecognised format stops the run; any other failure leaves no stage run beyond that check; past that check, a failed lookup ends the run with the lookup's error (the exception get_ensembl_references raises at that step: InvalidEnsemblId, EnsemblIdNotFound, or the IndexError or KeyError of the lookup); the run is well formed (neither stage reads another's output, so this is the dataflow invariant only); it completes iff read names are recognised (when checked) and the reference resolves, and then edits the BAM with the VCF, the resolved reference and the primers |

## Left out

- File system work is not modelled: `open`, `os.mkdir`, `os.path.exists`, writing the FASTA and GFF, `pysam.faidx`, `pybedtools.BedTool` parsing, and `index_reference` with its bowtie2 index build (references.py:155-172, and its calls at references.py:210 and satmut_utils.py:218, 249-254). These are I/O and foreign tools; file contents are inputs and outputs are returned values.
- The external stages are interfaces only: `UMIExtractor`, `FastqPreprocessor`, the bowtie2 workflow, `ReadGrouper`, `ConsensusDeduplicatorPreprocessor`, `ConsensusDeduplicator`, `ReadMasker`, `VariantCaller`, `ReadEditor` and `QnameVerification`. Their source (`analysis.read_preprocessor`, `analysis.variant_caller`, `analysis.read_editor`, `scripts.run_bowtie2_aligner`) is not part of this model. Each stage is a descriptor with the arguments it receives. An external stage that fails is not modelled; only the read-name verification outcome is an input (`qnameFormat`: the detected format index, or None when it raises).
- The `outdir` and `output_prefix` arguments the workflows pass to the external stages are not recorded in the descriptors. Their outputs are named by content (`Produced(...)`), not by path.
- `add_extension` (core_utils, not part of this model) is symbolic: `Extracted(dir, stem, FastaExt | GffExt)`.
- `satmut_utils/scripts/run_ec_data_generator.py`, argparse setup, logging handlers and `main` are command-line plumbing and are not modelled. This includes the Namespace subscript in `main` at satmut_utils.py:446,455.
- Error message text is not modelled. This includes the copied mutagenesis-signature message for the MNP-window error at satmut_utils.py:357 and the unformatted `%s` at references.py:194.
- References.ClassifyId: `re.search(prefix, id)` is modelled as a literal substring search, so the prefixes are taken to contain no regular-expression metacharacters.
- References.EnsemblIdExists: which alternative is returned when several listed IDs share the base depends on Python's set iteration order, so only "some qualifying member" is stated.
- References.GetEnsemblReferences: the `index_reference(fa)` call in `get_ensembl_references` is not modelled (I/O, as above).
- Workflow.CallWorkflow: the `sort_cmd` local is unbound in Python when primers are not given. It is never read then, so the model starts it as the empty string, and PlanIgnoresSort shows the choice does not matter.
- Workflow.CallWorkflow: `qnameFormat` and `Definitions.intFormatIndex` are natural numbers, so Python's negative indexing of `QNAME_SORTS` (satmut_utils.py:363, 408) is not modelled. A negative index counts from the end in Python; `QnameVerification` and `INT_FORMAT_INDEX` are not part of this model.
- Workflow.CallReferences falls back to the ID itself for the GFF name when the lookup gives no transcript. That case never reaches the stages, because a lookup failure ends the run first.
- Both workflows' `tempfile` and logging side effects are not modelled.

Notes on behaviour that the model keeps as written:
- `get_call_references` ignores a given `ref` when an Ensembl ID is also given. Unlike `get_sim_reference`, it raises no error (satmut_utils.py:244-246).
- An ID containing both prefixes is looked up as a transcript by `ensembl_id_exists` (the transcript test comes first). However, `get_ensembl_references` then treats it as a gene, because it tests for the gene prefix alone (references.py:199). The model follows both tests as written.
