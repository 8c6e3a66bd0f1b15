/**
 * The sim and call workflows of satmut_utils/satmut_utils.py: configuration
 * checks, the choice between an Ensembl ID and a given reference, and which
 * file each external stage receives. External stages (UMI extraction,
 * trimming, alignment, grouping, consensus deduplication, primer masking,
 * variant calling, read editing) are not modelled beyond their interface:
 * running one appends a stage descriptor to the run, and its outputs are the
 * symbolic paths `Produced(...)`.
 */
module Workflow {
  import opened Wrappers
  import opened Strings
  import opened Paths
  import opened References

  /**
   * Constants of the `definitions` module, which this model does not include:
   * VALID_MUT_SIGS, QNAME_SORTS, INT_FORMAT_INDEX and GRCH38_FASTA, plus the
   * lookup's own conventions.
   */
  datatype Definitions = Definitions(
    refs: Conventions,
    validMutSigs: set<string>,
    qnameSorts: seq<string>,
    intFormatIndex: nat,
    grch38Fasta: string)

  /** The setting a NotImplementedError is raised for. */
  datatype Setting = MutationSignature | MaxMnpWindow

  datatype WorkflowError =
    | NotImplemented(setting: Setting)
    | BothReferencesGiven          // RuntimeError in get_sim_reference
    | QnameFormatUnrecognised      // raised by QnameVerification
    | SortIndexError(index: nat)   // QNAME_SORTS[index] out of range
    | Reference(cause: RefError)   // raised by the Ensembl lookup

  /** One run of an external stage, with the arguments the workflow passes it. */
  datatype Stage =
    | VerifyQnames(input: Path)
    | ExtractUmis(r1: Path, r2: Path, umiRegex: string, primerFasta: Option<Path>, primerNmAllowance: int)
    | Preprocess(f1: Path, f2: Path, fivePrimeAdapters: string, threePrimeAdapters: string,
                 ncores: int, trimBq: int, ntrimmed: int, overlapLen: int, noTrim: bool)
    | Align(f1: Path, f2: Path, ref: Option<Path>, threads: int)
    | GroupReads(inBam: Path)
    | PrepareConsensus(groupBam: Path, nthreads: int)
    | DeduplicateConsensus(inBam: Path, ref: Option<Path>, nthreads: int, contigDelThresh: int)
    | MaskPrimers(inBam: Path, featureFile: Path, raceLike: bool, sortCmd: string)
    | CallVariants(am: Path, targets: Option<Path>, ref: Option<Path>, gff: Option<Path>, gffRef: Option<Path>,
                   primers: Option<Path>, nthreads: int, mutSig: string,
                   minBq: int, maxNm: int, minSupporting: int, maxMnpWindow: int)
    | EditReads(bam: Path, vcf: Path, ref: Option<Path>, raceLike: bool, primers: Option<Path>,
                randomSeed: int, forceEdit: bool, nthreads: int)

  /** The stage output a path names, if it names one. */
  function ProductOf(p: Path): set<Product>
  {
    if p.Produced? then {p.product} else {}
  }

  /** The stage outputs a stage reads. */
  function Needs(s: Stage): set<Product>
  {
    match s
    case VerifyQnames(input) => ProductOf(input)
    case ExtractUmis(r1, r2, _, _, _) => ProductOf(r1) + ProductOf(r2)
    case Preprocess(f1, f2, _, _, _, _, _, _, _) => ProductOf(f1) + ProductOf(f2)
    case Align(f1, f2, _, _) => ProductOf(f1) + ProductOf(f2)
    case GroupReads(inBam) => ProductOf(inBam)
    case PrepareConsensus(groupBam, _) => ProductOf(groupBam)
    case DeduplicateConsensus(inBam, _, _, _) => ProductOf(inBam)
    case MaskPrimers(inBam, featureFile, _, _) => ProductOf(inBam) + ProductOf(featureFile)
    case CallVariants(am, _, _, _, _, _, _, _, _, _, _, _) => ProductOf(am)
    case EditReads(bam, vcf, _, _, _, _, _, _) => ProductOf(bam) + ProductOf(vcf)
  }

  /** The outputs a stage returns. */
  function Outputs(s: Stage): set<Product>
  {
    match s
    case VerifyQnames(_) => {}
    case ExtractUmis(_, _, _, _, _) => {UmiR1Fastq, UmiR2Fastq}
    case Preprocess(_, _, _, _, _, _, _, _, _) => {TrimmedR1Fastq, TrimmedR2Fastq}
    case Align(_, _, _, _) => {AlignedBam}
    case GroupReads(_) => {GroupedBam}
    case PrepareConsensus(_, _) => {PreparedBam}
    case DeduplicateConsensus(_, _, _, _) => {ConsensusBam}
    case MaskPrimers(_, _, _, _) => {MaskedBam}
    case CallVariants(_, _, _, _, _, _, _, _, _, _, _, _) => {CalledVcf, CalledBed}
    case EditReads(_, _, _, _, _, _, _, _) => {EditedBam, EditedR1Fastq, EditedR2Fastq}
  }

  /** Everything the stages of a run have produced. */
  function Produces(stages: seq<Stage>): set<Product>
    decreases |stages|
  {
    if stages == [] then {} else Produces(stages[..|stages| - 1]) + Outputs(stages[|stages| - 1])
  }

  /** Stage `s` can run after `before`: what it reads exists, and what it writes is new. */
  predicate RunsAfter(before: seq<Stage>, s: Stage)
  {
    Needs(s) <= Produces(before) && Outputs(s) !! Produces(before)
  }

  /**
   * Every stage reads only outputs of stages that ran before it, and no
   * output is produced twice, so each file has exactly one producer.
   */
  predicate WellFormed(stages: seq<Stage>)
    decreases |stages|
  {
    stages == [] ||
    (WellFormed(stages[..|stages| - 1]) && RunsAfter(stages[..|stages| - 1], stages[|stages| - 1]))
  }

  /** Appending a stage that can run keeps the run well formed. */
  lemma Extend(stages: seq<Stage>, s: Stage)
    requires WellFormed(stages) && RunsAfter(stages, s)
    ensures WellFormed(stages + [s])
    ensures Produces(stages + [s]) == Produces(stages) + Outputs(s)
  {
    assert (stages + [s])[..|stages|] == stages;
  }

  /** In a well-formed run, each stage can run after the stages before it. */
  lemma {:induction false} StageRunsAfter(stages: seq<Stage>, j: nat)
    requires WellFormed(stages) && j < |stages|
    ensures RunsAfter(stages[..j], stages[j])
    decreases |stages|
  {
    var init := stages[..|stages| - 1];
    if j < |stages| - 1 {
      StageRunsAfter(init, j);
      assert init[..j] == stages[..j] && init[j] == stages[j];
    }
  }

  /** A stage's outputs are among what the run has produced from that stage on. */
  lemma OutputsProduced(stages: seq<Stage>, i: nat, j: nat)
    requires i < j <= |stages|
    ensures Outputs(stages[i]) <= Produces(stages[..j])
    decreases j
  {
    var pre := stages[..j];
    assert pre[..j - 1] == stages[..j - 1];
    if i < j - 1 {
      OutputsProduced(stages, i, j - 1);
    }
  }

  /** In a fresh run, two stages that share an output are the same run of a stage. */
  lemma {:induction false} OneProducer(stages: seq<Stage>, i: nat, j: nat, p: Product)
    requires WellFormed(stages) && i < |stages| && j < |stages|
    requires p in Outputs(stages[i]) && p in Outputs(stages[j])
    ensures i == j
  {
    if i < j {
      OutputsProduced(stages, i, j);
      StageRunsAfter(stages, j);
    } else if j < i {
      OutputsProduced(stages, j, i);
      StageRunsAfter(stages, i);
    }
  }

  /** The stages that ran and how the workflow ended. */
  datatype Run<T> = Run(stages: seq<Stage>, outcome: Result<T, WorkflowError>)

  /**
   * get_sim_reference: an Ensembl ID and a reference FASTA are mutually
   * exclusive; with an ID the FASTA comes from the lookup, without one the
   * given reference is used as is.
   */
  method GetSimReference(d: Definitions, files: ReferenceFiles, ensemblId: Option<string>, ref: Option<string>,
                         outdir: string)
    returns (r: Result<Option<Path>, WorkflowError>)
    ensures ensemblId.Some? && ref.Some? ==> r == Err(BothReferencesGiven)
    ensures ensemblId.None? ==> r == Ok(AsPath(ref))
    ensures ensemblId.Some? && ref.None? ==>
      && (r.Ok? <==> LookupSucceeds(d.refs, files, ensemblId.value))
      && (r.Ok? ==> r.value == Some(Extracted(outdir, ensemblId.value, FastaExt)))
      && (r.Err? ==> r.error.Reference? && FailsWith(d.refs, files, ensemblId.value, r.error.cause))
      && (ClassifyId(d.refs, ensemblId.value).Err? ==> r == Err(Reference(InvalidEnsemblId(ensemblId.value))))
  {
    if ensemblId.Some? {
      if ref.Some? {
        return Err(BothReferencesGiven);
      }
      var refs := GetEnsemblReferences(d.refs, files, ensemblId.value, outdir);
      if refs.Err? {
        return Err(Reference(refs.error));
      }
      return Ok(Some(refs.value.fasta));
    }
    return Ok(AsPath(ref));
  }

  /** The alignment reference, transcript GFF and GFF reference of a call run. */
  datatype CallRefs = CallRefs(refFa: Option<Path>, gff: Option<Path>, gffRef: Option<Path>)

  /**
   * get_call_references: with an Ensembl ID the FASTA and GFF come from the
   * lookup and the GFF reference is GRCH38_FASTA in the reference directory
   * (a given reference is then ignored); without one, the given paths are
   * returned unchanged.
   */
  method GetCallReferences(d: Definitions, files: ReferenceFiles, referenceDir: string, ensemblId: Option<string>,
                           ref: Option<string>, transcriptGff: Option<string>, gffReference: Option<string>,
                           outdir: string)
    returns (r: Result<CallRefs, WorkflowError>)
    ensures ensemblId.None? ==> r == Ok(CallRefs(AsPath(ref), AsPath(transcriptGff), AsPath(gffReference)))
    ensures ensemblId.Some? ==>
      && (r.Ok? <==> LookupSucceeds(d.refs, files, ensemblId.value))
      && (r.Err? ==> r.error.Reference? && FailsWith(d.refs, files, ensemblId.value, r.error.cause))
      && (ClassifyId(d.refs, ensemblId.value).Err? ==> r == Err(Reference(InvalidEnsemblId(ensemblId.value))))
      && (r.Ok? ==>
            r.value == CallRefs(Some(Extracted(outdir, ensemblId.value, FastaExt)),
                                Some(Extracted(outdir, BaseId(GffId(d.refs, files, ensemblId.value).value.value),
                                               GffExt)),
                                Some(File(PathJoin(referenceDir, d.grch38Fasta)))))
  {
    if ensemblId.Some? {
      var refs := GetEnsemblReferences(d.refs, files, ensemblId.value, outdir);
      if refs.Err? {
        return Err(Reference(refs.error));
      }
      return Ok(CallRefs(Some(refs.value.fasta), Some(refs.value.gff),
                         Some(File(PathJoin(referenceDir, d.grch38Fasta)))));
    }
    return Ok(CallRefs(AsPath(ref), AsPath(transcriptGff), AsPath(gffReference)));
  }

  /** The arguments of call_workflow. */
  datatype CallConfig = CallConfig(
    fastq1: string, fastq2: string,
    r1FiveprimeAdapters: string, r1ThreeprimeAdapters: string,
    raceLike: bool,
    ensemblId: Option<string>, referenceDir: string, ref: Option<string>,
    transcriptGff: Option<string>, gffReference: Option<string>, targets: Option<string>,
    outdir: string, primers: Option<string>, primerFasta: Option<string>, primerNmAllowance: int,
    consensusDedup: bool, umiRegex: string, contigDelThresh: int,
    minBq: int, maxNm: int, minSupportingQnames: int, maxMnpWindow: int,
    nthreads: int, ntrimmed: int, overlapLen: int, trimBq: int, omitTrim: bool,
    mutSig: string)

  /** The two configuration checks call_workflow makes before anything runs. */
  predicate ValidCallConfig(d: Definitions, cfg: CallConfig)
  {
    cfg.mutSig in d.validMutSigs && cfg.maxMnpWindow in {1, 2, 3}
  }

  /** The FASTQs the preprocessor trims: UMI-extracted under consensus deduplication, raw otherwise. */
  function PreprocessInputs(cfg: CallConfig): (Path, Path)
  {
    if cfg.consensusDedup then (Produced(UmiR1Fastq), Produced(UmiR2Fastq)) else (File(cfg.fastq1), File(cfg.fastq2))
  }

  /** The BAM after deduplication: the consensus output, or the alignment when there is none. */
  function DedupOutput(cfg: CallConfig): Path
  {
    if cfg.consensusDedup then Produced(ConsensusBam) else Produced(AlignedBam)
  }

  /** The BAM the variant caller reads: the masked BAM when primers are given. */
  function CallerInput(cfg: CallConfig): Path
  {
    if cfg.primers.Some? then Produced(MaskedBam) else DedupOutput(cfg)
  }

  /**
   * Everything call_workflow needs to finish: a valid configuration, a
   * recognised read-name format and in-range sort indices when primers are
   * given, and a successful lookup when an Ensembl ID is given.
   */
  ghost predicate CallCompletes(d: Definitions, files: ReferenceFiles, qnameFormat: Option<nat>, cfg: CallConfig)
  {
    && ValidCallConfig(d, cfg)
    && (cfg.primers.Some? ==>
          && qnameFormat.Some? && qnameFormat.value < |d.qnameSorts|
          && (cfg.consensusDedup ==> d.intFormatIndex < |d.qnameSorts|))
    && (cfg.ensemblId.Some? ==> LookupSucceeds(d.refs, files, cfg.ensemblId.value))
  }

  /** The stages that precede the lookup in call_workflow: read-name verification when primers are given. */
  function CallPrelude(cfg: CallConfig): seq<Stage>
  {
    if cfg.primers.Some? then [VerifyQnames(File(cfg.fastq1))] else []
  }

  /** Read-name verification reads no stage output and produces none. */
  lemma VerifyQnamesAlone(input: string)
    ensures WellFormed([VerifyQnames(File(input))]) && Produces([VerifyQnames(File(input))]) == {}
  {
    Extend([], VerifyQnames(File(input)));
    assert [] + [VerifyQnames(File(input))] == [VerifyQnames(File(input))];
  }

  /** The thread count handed to bowtie2: zero threads means one. */
  function AlignThreads(cfg: CallConfig): int
  {
    if cfg.nthreads == 0 then 1 else cfg.nthreads
  }

  /**
   * The stages call_workflow runs after `prelude` up to deduplication: UMI
   * extraction (under consensus deduplication), trimming, alignment, then
   * grouping, consensus preparation and consensus deduplication (under
   * consensus deduplication).
   */
  function PrepPlan(cfg: CallConfig, refs: CallRefs, prelude: seq<Stage>): seq<Stage>
  {
    var umi := if cfg.consensusDedup
               then prelude + [ExtractUmis(File(cfg.fastq1), File(cfg.fastq2), cfg.umiRegex,
                                           AsPath(cfg.primerFasta), cfg.primerNmAllowance)]
               else prelude;
    var aligned := umi
      + [Preprocess(PreprocessInputs(cfg).0, PreprocessInputs(cfg).1, cfg.r1FiveprimeAdapters,
                    cfg.r1ThreeprimeAdapters, cfg.nthreads, cfg.trimBq, cfg.ntrimmed, cfg.overlapLen, cfg.omitTrim)]
      + [Align(Produced(TrimmedR1Fastq), Produced(TrimmedR2Fastq), refs.refFa, AlignThreads(cfg))];
    if cfg.consensusDedup
    then aligned + [GroupReads(Produced(AlignedBam))] + [PrepareConsensus(Produced(GroupedBam), cfg.nthreads)]
         + [DeduplicateConsensus(Produced(PreparedBam), refs.refFa, cfg.nthreads, cfg.contigDelThresh)]
    else aligned
  }

  /** The stages of a completed call run: PrepPlan, masking when primers are given, then variant calling. */
  function CallPlan(cfg: CallConfig, refs: CallRefs, sortCmd: string, prelude: seq<Stage>): seq<Stage>
  {
    var prep := PrepPlan(cfg, refs, prelude);
    var masked := if cfg.primers.Some?
                  then prep + [MaskPrimers(DedupOutput(cfg), File(cfg.primers.value), cfg.raceLike, sortCmd)]
                  else prep;
    masked + [CallVariants(CallerInput(cfg), AsPath(cfg.targets), refs.refFa, refs.gff, refs.gffRef,
                           AsPath(cfg.primers), cfg.nthreads, cfg.mutSig, cfg.minBq, cfg.maxNm,
                           cfg.minSupportingQnames, cfg.maxMnpWindow)]
  }

  /**
   * The stages up to deduplication form a well-formed run after the prelude;
   * they produce the deduplicated BAM and nothing masking or calling writes.
   */
  lemma PrepPlanWellFormed(cfg: CallConfig, refs: CallRefs)
    ensures WellFormed(PrepPlan(cfg, refs, CallPrelude(cfg)))
    ensures Produces(PrepPlan(cfg, refs, CallPrelude(cfg))) == PrepProducts(cfg)
  {
    var pre := CallPrelude(cfg);
    if pre != [] {
      VerifyQnamesAlone(cfg.fastq1);
    }
    var trim := Preprocess(PreprocessInputs(cfg).0, PreprocessInputs(cfg).1, cfg.r1FiveprimeAdapters,
                           cfg.r1ThreeprimeAdapters, cfg.nthreads, cfg.trimBq, cfg.ntrimmed, cfg.overlapLen,
                           cfg.omitTrim);
    var align := Align(Produced(TrimmedR1Fastq), Produced(TrimmedR2Fastq), refs.refFa, AlignThreads(cfg));
    if cfg.consensusDedup {
      var umis := ExtractUmis(File(cfg.fastq1), File(cfg.fastq2), cfg.umiRegex, AsPath(cfg.primerFasta),
                              cfg.primerNmAllowance);
      var group := GroupReads(Produced(AlignedBam));
      var prepare := PrepareConsensus(Produced(GroupedBam), cfg.nthreads);
      var dedup := DeduplicateConsensus(Produced(PreparedBam), refs.refFa, cfg.nthreads, cfg.contigDelThresh);
      UmiChain(pre, umis, trim, align);
      DedupChain(pre + [umis] + [trim] + [align], group, prepare, dedup);
    } else {
      DirectChain(pre, trim, align);
    }
  }

  /** What the stages up to deduplication produce. */
  function PrepProducts(cfg: CallConfig): set<Product>
  {
    if cfg.consensusDedup
    then {UmiR1Fastq, UmiR2Fastq, TrimmedR1Fastq, TrimmedR2Fastq, AlignedBam, GroupedBam, PreparedBam, ConsensusBam}
    else {TrimmedR1Fastq, TrimmedR2Fastq, AlignedBam}
  }

  /** Trimming raw reads, then aligning them, is a well-formed continuation of a run that produced nothing. */
  lemma DirectChain(pre: seq<Stage>, trim: Stage, align: Stage)
    requires WellFormed(pre) && Produces(pre) == {}
    requires trim.Preprocess? && align.Align?
    requires Needs(trim) == {} && Outputs(trim) == {TrimmedR1Fastq, TrimmedR2Fastq}
    requires Needs(align) == {TrimmedR1Fastq, TrimmedR2Fastq} && Outputs(align) == {AlignedBam}
    ensures WellFormed(pre + [trim] + [align])
    ensures Produces(pre + [trim] + [align]) == {TrimmedR1Fastq, TrimmedR2Fastq, AlignedBam}
  {
    Extend(pre, trim);
    Extend(pre + [trim], align);
  }

  /**
   * UMI extraction, trimming the extracted reads, then aligning them, is a
   * well-formed continuation of a run that produced nothing.
   */
  lemma UmiChain(pre: seq<Stage>, umis: Stage, trim: Stage, align: Stage)
    requires WellFormed(pre) && Produces(pre) == {}
    requires umis.ExtractUmis? && trim.Preprocess? && align.Align?
    requires Needs(umis) == {} && Outputs(umis) == {UmiR1Fastq, UmiR2Fastq}
    requires Needs(trim) == {UmiR1Fastq, UmiR2Fastq} && Outputs(trim) == {TrimmedR1Fastq, TrimmedR2Fastq}
    requires Needs(align) == {TrimmedR1Fastq, TrimmedR2Fastq} && Outputs(align) == {AlignedBam}
    ensures WellFormed(pre + [umis] + [trim] + [align])
    ensures Produces(pre + [umis] + [trim] + [align]) ==
      {UmiR1Fastq, UmiR2Fastq, TrimmedR1Fastq, TrimmedR2Fastq, AlignedBam}
  {
    Extend(pre, umis);
    Extend(pre + [umis], trim);
    Extend(pre + [umis] + [trim], align);
  }

  /**
   * Grouping the aligned reads, preparing them and deduplicating the
   * consensus, each reading the previous one's output, is a well-formed
   * continuation of a run that extracted UMIs, trimmed and aligned.
   */
  lemma DedupChain(aligned: seq<Stage>, group: Stage, prepare: Stage, dedup: Stage)
    requires WellFormed(aligned)
    requires group.GroupReads? && prepare.PrepareConsensus? && dedup.DeduplicateConsensus?
    requires Produces(aligned) == {UmiR1Fastq, UmiR2Fastq, TrimmedR1Fastq, TrimmedR2Fastq, AlignedBam}
    requires Needs(group) == {AlignedBam} && Outputs(group) == {GroupedBam}
    requires Needs(prepare) == {GroupedBam} && Outputs(prepare) == {PreparedBam}
    requires Needs(dedup) == {PreparedBam} && Outputs(dedup) == {ConsensusBam}
    ensures WellFormed(aligned + [group] + [prepare] + [dedup])
    ensures Produces(aligned + [group] + [prepare] + [dedup]) ==
      {UmiR1Fastq, UmiR2Fastq, TrimmedR1Fastq, TrimmedR2Fastq, AlignedBam, GroupedBam, PreparedBam, ConsensusBam}
  {
    Extend(aligned, group);
    Extend(aligned + [group], prepare);
    Extend(aligned + [group] + [prepare], dedup);
  }

  /** A completed call run, masking and calling included, is well formed. */
  lemma CallPlanWellFormed(cfg: CallConfig, refs: CallRefs, sortCmd: string)
    ensures WellFormed(CallPlan(cfg, refs, sortCmd, CallPrelude(cfg)))
  {
    var prep := PrepPlan(cfg, refs, CallPrelude(cfg));
    PrepPlanWellFormed(cfg, refs);
    var call := CallVariants(CallerInput(cfg), AsPath(cfg.targets), refs.refFa, refs.gff, refs.gffRef,
                             AsPath(cfg.primers), cfg.nthreads, cfg.mutSig, cfg.minBq, cfg.maxNm,
                             cfg.minSupportingQnames, cfg.maxMnpWindow);
    if cfg.primers.Some? {
      var mask := MaskPrimers(DedupOutput(cfg), File(cfg.primers.value), cfg.raceLike, sortCmd);
      if cfg.consensusDedup {
        MaskThenCall(prep, ConsensusBam, mask, call);
      } else {
        MaskThenCall(prep, AlignedBam, mask, call);
      }
    } else {
      Extend(prep, call);
    }
  }

  /** Masking a BAM the run produced, then calling on the masked BAM, keeps the run well formed. */
  lemma MaskThenCall(prep: seq<Stage>, bam: Product, mask: Stage, call: Stage)
    requires WellFormed(prep) && bam in Produces(prep) && mask.MaskPrimers? && call.CallVariants?
    requires MaskedBam !in Produces(prep) && CalledVcf !in Produces(prep) && CalledBed !in Produces(prep)
    requires Needs(mask) == {bam} && Outputs(mask) == {MaskedBam}
    requires Needs(call) == {MaskedBam} && Outputs(call) == {CalledVcf, CalledBed}
    ensures WellFormed(prep + [mask] + [call])
  {
    Extend(prep, mask);
    Extend(prep + [mask], call);
  }

  /** The sort command masking uses: the integer-format sort after consensus deduplication, else the detected one. */
  ghost predicate MaskSortsBy(d: Definitions, cfg: CallConfig, qnameFormat: Option<nat>, sortCmd: string)
  {
    if cfg.consensusDedup then d.intFormatIndex < |d.qnameSorts| && sortCmd == d.qnameSorts[d.intFormatIndex]
    else qnameFormat.Some? && qnameFormat.value < |d.qnameSorts| && sortCmd == d.qnameSorts[qnameFormat.value]
  }

  /**
   * What each stage of a completed call run must look like: UMI extraction
   * and consensus deduplication only under consensus deduplication; trimming
   * reads the UMI-extracted FASTQs then and the raw FASTQs otherwise;
   * alignment uses the resolved reference and one thread when `nthreads` is
   * 0, `nthreads` otherwise; masking only with primers, on the consensus BAM
   * or else the aligned BAM, sorting as MaskSortsBy says; and the caller
   * reads the masked BAM when primers are given, else the consensus BAM or
   * else the aligned BAM, with the resolved references, the targets and the
   * primers.
   */
  ghost predicate StageRouted(d: Definitions, cfg: CallConfig, qnameFormat: Option<nat>, refs: CallRefs, s: Stage)
  {
    var deduped := if cfg.consensusDedup then Produced(ConsensusBam) else Produced(AlignedBam);
    match s
    case ExtractUmis(_, _, _, _, _) => cfg.consensusDedup
    case DeduplicateConsensus(_, ref, _, _) => cfg.consensusDedup && ref == refs.refFa
    case Preprocess(f1, f2, _, _, _, _, _, _, _) =>
      if cfg.consensusDedup then f1 == Produced(UmiR1Fastq) && f2 == Produced(UmiR2Fastq)
      else f1 == File(cfg.fastq1) && f2 == File(cfg.fastq2)
    case Align(_, _, ref, threads) =>
      && ref == refs.refFa
      && (cfg.nthreads == 0 ==> threads == 1)
      && (cfg.nthreads != 0 ==> threads == cfg.nthreads)
    case MaskPrimers(inBam, _, _, sortCmd) =>
      cfg.primers.Some? && inBam == deduped && MaskSortsBy(d, cfg, qnameFormat, sortCmd)
    case CallVariants(am, targets, ref, gff, gffRef, primers, _, _, _, _, _, _) =>
      && am == (if cfg.primers.Some? then Produced(MaskedBam) else deduped)
      && ref == refs.refFa && gff == refs.gff && gffRef == refs.gffRef
      && targets == AsPath(cfg.targets) && primers == AsPath(cfg.primers)
    case _ => true
  }

  /**
   * How a completed call run routes its files: it ends in the variant
   * caller's outputs, every stage is routed as StageRouted says, trimming and
   * alignment run, UMI extraction and consensus deduplication run under
   * consensus deduplication, and masking runs when primers are given.
   */
  ghost predicate CallRouted(d: Definitions, cfg: CallConfig, qnameFormat: Option<nat>, refs: CallRefs,
                             run: Run<(Path, Path)>)
  {
    && run.outcome == Ok((Produced(CalledVcf), Produced(CalledBed)))
    && |run.stages| > 0 && run.stages[|run.stages| - 1].CallVariants?
    && (forall s :: s in run.stages ==> StageRouted(d, cfg, qnameFormat, refs, s))
    && (exists s :: s in run.stages && s.Preprocess?)
    && (exists s :: s in run.stages && s.Align?)
    && (cfg.consensusDedup ==> exists s :: s in run.stages && s.ExtractUmis?)
    && (cfg.consensusDedup ==> exists s :: s in run.stages && s.DeduplicateConsensus?)
    && (cfg.primers.Some? ==> exists s :: s in run.stages && s.MaskPrimers?)
  }

  /** Every stage of `stages` is routed as StageRouted says. */
  ghost predicate AllRouted(d: Definitions, cfg: CallConfig, qnameFormat: Option<nat>, refs: CallRefs,
                            stages: seq<Stage>)
  {
    forall s :: s in stages ==> StageRouted(d, cfg, qnameFormat, refs, s)
  }

  /**
   * The stages up to deduplication are routed: trim and align, and extract
   * and deduplicate under consensus deduplication.
   */
  ghost predicate PrepRouted(d: Definitions, cfg: CallConfig, qnameFormat: Option<nat>, refs: CallRefs,
                             stages: seq<Stage>)
  {
    && AllRouted(d, cfg, qnameFormat, refs, stages)
    && (exists s :: s in stages && s.Preprocess?)
    && (exists s :: s in stages && s.Align?)
    && (cfg.consensusDedup ==> exists s :: s in stages && s.ExtractUmis?)
    && (cfg.consensusDedup ==> exists s :: s in stages && s.DeduplicateConsensus?)
  }

  /** Routed trimming and alignment after a routed prelude, without consensus deduplication. */
  lemma DirectRouted(d: Definitions, cfg: CallConfig, qnameFormat: Option<nat>, refs: CallRefs,
                     pre: seq<Stage>, trim: Stage, align: Stage)
    requires !cfg.consensusDedup && AllRouted(d, cfg, qnameFormat, refs, pre)
    requires trim.Preprocess? && StageRouted(d, cfg, qnameFormat, refs, trim)
    requires align.Align? && StageRouted(d, cfg, qnameFormat, refs, align)
    ensures PrepRouted(d, cfg, qnameFormat, refs, pre + [trim] + [align])
  {
    assert trim in pre + [trim] + [align];
  }

  /** Routed UMI extraction, trimming, alignment and consensus deduplication after a routed prelude. */
  lemma ConsensusRouted(d: Definitions, cfg: CallConfig, qnameFormat: Option<nat>, refs: CallRefs,
                        pre: seq<Stage>, umis: Stage, trim: Stage, align: Stage, group: Stage, prepare: Stage,
                        dedup: Stage)
    requires AllRouted(d, cfg, qnameFormat, refs, pre)
    requires umis.ExtractUmis? && StageRouted(d, cfg, qnameFormat, refs, umis)
    requires trim.Preprocess? && StageRouted(d, cfg, qnameFormat, refs, trim)
    requires align.Align? && StageRouted(d, cfg, qnameFormat, refs, align)
    requires group.GroupReads? && prepare.PrepareConsensus?
    requires dedup.DeduplicateConsensus? && StageRouted(d, cfg, qnameFormat, refs, dedup)
    ensures PrepRouted(d, cfg, qnameFormat, refs, pre + [umis] + [trim] + [align] + [group] + [prepare] + [dedup])
  {
    var all := pre + [umis] + [trim] + [align] + [group] + [prepare] + [dedup];
    assert umis in all && trim in all && align in all && dedup in all;
  }

  /** The stages PrepPlan lays out after the call prelude are routed as PrepRouted says. */
  lemma PrepPlanRouted(d: Definitions, cfg: CallConfig, qnameFormat: Option<nat>, refs: CallRefs)
    ensures PrepRouted(d, cfg, qnameFormat, refs, PrepPlan(cfg, refs, CallPrelude(cfg)))
  {
    var pre := CallPrelude(cfg);
    assert AllRouted(d, cfg, qnameFormat, refs, pre);
    var trim := Preprocess(PreprocessInputs(cfg).0, PreprocessInputs(cfg).1, cfg.r1FiveprimeAdapters,
                           cfg.r1ThreeprimeAdapters, cfg.nthreads, cfg.trimBq, cfg.ntrimmed, cfg.overlapLen,
                           cfg.omitTrim);
    var align := Align(Produced(TrimmedR1Fastq), Produced(TrimmedR2Fastq), refs.refFa, AlignThreads(cfg));
    assert StageRouted(d, cfg, qnameFormat, refs, trim) && StageRouted(d, cfg, qnameFormat, refs, align);
    if cfg.consensusDedup {
      var umis := ExtractUmis(File(cfg.fastq1), File(cfg.fastq2), cfg.umiRegex, AsPath(cfg.primerFasta),
                              cfg.primerNmAllowance);
      var dedup := DeduplicateConsensus(Produced(PreparedBam), refs.refFa, cfg.nthreads, cfg.contigDelThresh);
      ConsensusRouted(d, cfg, qnameFormat, refs, pre, umis, trim, align, GroupReads(Produced(AlignedBam)),
                      PrepareConsensus(Produced(GroupedBam), cfg.nthreads), dedup);
    } else {
      DirectRouted(d, cfg, qnameFormat, refs, pre, trim, align);
    }
  }

  /** Appending the variant caller to routed stages without primers completes a routed call run. */
  lemma RoutedThenCall(d: Definitions, cfg: CallConfig, qnameFormat: Option<nat>, refs: CallRefs,
                        prep: seq<Stage>, call: Stage)
    requires PrepRouted(d, cfg, qnameFormat, refs, prep) && cfg.primers.None?
    requires call.CallVariants? && StageRouted(d, cfg, qnameFormat, refs, call)
    ensures CallRouted(d, cfg, qnameFormat, refs, Run(prep + [call], Ok((Produced(CalledVcf), Produced(CalledBed)))))
  {
    var t :| t in prep && t.Preprocess?;
    var a :| a in prep && a.Align?;
    assert t in prep + [call] && a in prep + [call];
    if cfg.consensusDedup {
      var u :| u in prep && u.ExtractUmis?;
      var c :| c in prep && c.DeduplicateConsensus?;
      assert u in prep + [call] && c in prep + [call];
    }
  }

  /** Appending masking and then the variant caller to routed stages completes a routed call run. */
  lemma RoutedMaskThenCall(d: Definitions, cfg: CallConfig, qnameFormat: Option<nat>,
                            refs: CallRefs, prep: seq<Stage>, mask: Stage, call: Stage)
    requires PrepRouted(d, cfg, qnameFormat, refs, prep)
    requires mask.MaskPrimers? && StageRouted(d, cfg, qnameFormat, refs, mask)
    requires call.CallVariants? && StageRouted(d, cfg, qnameFormat, refs, call)
    ensures CallRouted(d, cfg, qnameFormat, refs,
                       Run(prep + [mask] + [call], Ok((Produced(CalledVcf), Produced(CalledBed)))))
  {
    var all := prep + [mask] + [call];
    var t :| t in prep && t.Preprocess?;
    var a :| a in prep && a.Align?;
    assert t in all && a in all && mask in all;
    if cfg.consensusDedup {
      var u :| u in prep && u.ExtractUmis?;
      var c :| c in prep && c.DeduplicateConsensus?;
      assert u in all && c in all;
    }
  }

  /** The planned stages of a completed call run route its files as CallRouted says. */
  lemma CallPlanRouted(d: Definitions, cfg: CallConfig, qnameFormat: Option<nat>, refs: CallRefs, sortCmd: string)
    requires cfg.primers.Some? ==> MaskSortsBy(d, cfg, qnameFormat, sortCmd)
    ensures CallRouted(d, cfg, qnameFormat, refs, Run(CallPlan(cfg, refs, sortCmd, CallPrelude(cfg)),
                                                      Ok((Produced(CalledVcf), Produced(CalledBed)))))
  {
    var prep := PrepPlan(cfg, refs, CallPrelude(cfg));
    PrepPlanRouted(d, cfg, qnameFormat, refs);
    var call := CallVariants(CallerInput(cfg), AsPath(cfg.targets), refs.refFa, refs.gff, refs.gffRef,
                             AsPath(cfg.primers), cfg.nthreads, cfg.mutSig, cfg.minBq, cfg.maxNm,
                             cfg.minSupportingQnames, cfg.maxMnpWindow);
    assert StageRouted(d, cfg, qnameFormat, refs, call);
    if cfg.primers.Some? {
      var mask := MaskPrimers(DedupOutput(cfg), File(cfg.primers.value), cfg.raceLike, sortCmd);
      assert StageRouted(d, cfg, qnameFormat, refs, mask);
      RoutedMaskThenCall(d, cfg, qnameFormat, refs, prep, mask, call);
    } else {
      RoutedThenCall(d, cfg, qnameFormat, refs, prep, call);
    }
  }

  /**
   * The sort command masking uses: QNAME_SORTS[INT_FORMAT_INDEX] after
   * consensus deduplication, else the entry for the detected read-name format
   * (empty when neither is in range).
   */
  function CallSort(d: Definitions, cfg: CallConfig, qnameFormat: Option<nat>): string
  {
    if cfg.consensusDedup && d.intFormatIndex < |d.qnameSorts| then d.qnameSorts[d.intFormatIndex]
    else if !cfg.consensusDedup && qnameFormat.Some? && qnameFormat.value < |d.qnameSorts|
    then d.qnameSorts[qnameFormat.value]
    else ""
  }

  /**
   * The references a call run uses, as get_call_references resolves them;
   * with an Ensembl ID the GFF is named after the transcript the lookup maps
   * the ID to (the ID itself when there is none, a case in which the run
   * does not get this far).
   */
  function CallReferences(d: Definitions, files: ReferenceFiles, cfg: CallConfig): CallRefs
  {
    match cfg.ensemblId
    case None => CallRefs(AsPath(cfg.ref), AsPath(cfg.transcriptGff), AsPath(cfg.gffReference))
    case Some(id) =>
      var refDir := PathJoin(cfg.outdir, "references");
      var trx := match GffId(d.refs, files, id) case Ok(Some(t)) => t case _ => id;
      CallRefs(Some(Extracted(refDir, id, FastaExt)), Some(Extracted(refDir, BaseId(trx), GffExt)),
               Some(File(PathJoin(cfg.referenceDir, d.grch38Fasta))))
  }

  /**
   * The part of call_workflow after the references are resolved: optional
   * UMI extraction, trimming, alignment, optional consensus deduplication,
   * optional primer masking and variant calling, appended to the prelude.
   * `sortCmd` is the sort command already chosen for the read-name format;
   * the run stops with an IndexError when consensus deduplication needs
   * QNAME_SORTS[INT_FORMAT_INDEX] and it is out of range.
   */
  method RunCallStages(d: Definitions, cfg: CallConfig, refs: CallRefs, prelude: seq<Stage>, sortCmd: string)
    returns (run: Run<(Path, Path)>)
    ensures run.outcome.Ok? <==> (cfg.primers.Some? && cfg.consensusDedup ==> d.intFormatIndex < |d.qnameSorts|)
    ensures run.outcome.Err? ==>
      run == Run(PrepPlan(cfg, refs, prelude), Err(SortIndexError(d.intFormatIndex)))
    ensures run.outcome.Ok? ==>
      var maskSort :=
        if cfg.consensusDedup && d.intFormatIndex < |d.qnameSorts|
        then d.qnameSorts[d.intFormatIndex]
        else sortCmd;
      run == Run(CallPlan(cfg, refs, maskSort, prelude), Ok((Produced(CalledVcf), Produced(CalledBed))))
  {
    var stages := prelude;

    var fqpR1, fqpR2 := File(cfg.fastq1), File(cfg.fastq2);
    if cfg.consensusDedup {
      stages := stages + [ExtractUmis(File(cfg.fastq1), File(cfg.fastq2), cfg.umiRegex, AsPath(cfg.primerFasta),
                                      cfg.primerNmAllowance)];
      fqpR1, fqpR2 := Produced(UmiR1Fastq), Produced(UmiR2Fastq);
    }

    stages := stages + [Preprocess(fqpR1, fqpR2, cfg.r1FiveprimeAdapters, cfg.r1ThreeprimeAdapters, cfg.nthreads,
                                   cfg.trimBq, cfg.ntrimmed, cfg.overlapLen, cfg.omitTrim)];

    var bowtie2Threads := if cfg.nthreads == 0 then 1 else cfg.nthreads;
    stages := stages + [Align(Produced(TrimmedR1Fastq), Produced(TrimmedR2Fastq), refs.refFa, bowtie2Threads)];

    var preprocInBam := Produced(AlignedBam);
    if cfg.consensusDedup {
      stages := stages + [GroupReads(Produced(AlignedBam))];
      stages := stages + [PrepareConsensus(Produced(GroupedBam), cfg.nthreads)];
      stages := stages + [DeduplicateConsensus(Produced(PreparedBam), refs.refFa, cfg.nthreads,
                                               cfg.contigDelThresh)];
      preprocInBam := Produced(ConsensusBam);
    }

    var vcInBam := preprocInBam;
    var maskSort := sortCmd;
    if cfg.primers.Some? {
      if cfg.consensusDedup {
        if d.intFormatIndex >= |d.qnameSorts| {
          return Run(stages, Err(SortIndexError(d.intFormatIndex)));
        }
        maskSort := d.qnameSorts[d.intFormatIndex];
      }
      stages := stages + [MaskPrimers(preprocInBam, File(cfg.primers.value), cfg.raceLike, maskSort)];
      vcInBam := Produced(MaskedBam);
    }

    stages := stages + [CallVariants(vcInBam, AsPath(cfg.targets), refs.refFa, refs.gff, refs.gffRef,
                                     AsPath(cfg.primers), cfg.nthreads, cfg.mutSig, cfg.minBq, cfg.maxNm,
                                     cfg.minSupportingQnames, cfg.maxMnpWindow)];
    run := Run(stages, Ok((Produced(CalledVcf), Produced(CalledBed))));
  }

  /**
   * call_workflow. `qnameFormat` is what QnameVerification reports for the
   * R1 FASTQ (None when it raises); `files` are the curated reference files.
   * A completed run is the plan CallPlan over the references and sort
   * command resolved for it.
   */
  method CallWorkflow(d: Definitions, files: ReferenceFiles, qnameFormat: Option<nat>, cfg: CallConfig)
    returns (run: Run<(Path, Path)>)
    ensures cfg.mutSig !in d.validMutSigs ==> run == Run([], Err(NotImplemented(MutationSignature)))
    ensures cfg.mutSig in d.validMutSigs && cfg.maxMnpWindow !in {1, 2, 3} ==>
      run == Run([], Err(NotImplemented(MaxMnpWindow)))
    ensures ValidCallConfig(d, cfg) && cfg.primers.Some? && qnameFormat.None? ==>
      run == Run([VerifyQnames(File(cfg.fastq1))], Err(QnameFormatUnrecognised))
    ensures ValidCallConfig(d, cfg) && cfg.primers.Some? && qnameFormat.Some?
            && qnameFormat.value >= |d.qnameSorts| ==>
      run == Run([VerifyQnames(File(cfg.fastq1))], Err(SortIndexError(qnameFormat.value)))
    ensures run.outcome.Ok? <==> CallCompletes(d, files, qnameFormat, cfg)
    ensures run.outcome.Err? && run.outcome.error.Reference? ==> run.stages == CallPrelude(cfg)
    ensures run.outcome.Err? && run.outcome.error.Reference? ==>
      cfg.ensemblId.Some? && FailsWith(d.refs, files, cfg.ensemblId.value, run.outcome.error.cause)
    ensures ValidCallConfig(d, cfg)
            && (cfg.primers.Some? ==> qnameFormat.Some? && qnameFormat.value < |d.qnameSorts|)
            && cfg.ensemblId.Some? && !LookupSucceeds(d.refs, files, cfg.ensemblId.value) ==>
      run.stages == CallPrelude(cfg) && run.outcome.Err? && run.outcome.error.Reference?
    ensures ValidCallConfig(d, cfg)
            && (cfg.primers.Some? ==> qnameFormat.Some? && qnameFormat.value < |d.qnameSorts|)
            && cfg.ensemblId.Some? && ClassifyId(d.refs, cfg.ensemblId.value).Err? ==>
      run == Run(CallPrelude(cfg), Err(Reference(InvalidEnsemblId(cfg.ensemblId.value))))
    ensures ValidCallConfig(d, cfg) && cfg.primers.Some? && qnameFormat.Some?
            && qnameFormat.value < |d.qnameSorts|
            && (cfg.ensemblId.Some? ==> LookupSucceeds(d.refs, files, cfg.ensemblId.value))
            && cfg.consensusDedup && d.intFormatIndex >= |d.qnameSorts| ==>
      run == Run(PrepPlan(cfg, CallReferences(d, files, cfg), CallPrelude(cfg)),
                 Err(SortIndexError(d.intFormatIndex)))
    ensures run.outcome.Ok? ==>
      run == Run(CallPlan(cfg, CallReferences(d, files, cfg), CallSort(d, cfg, qnameFormat), CallPrelude(cfg)),
                 Ok((Produced(CalledVcf), Produced(CalledBed))))
  {
    if cfg.mutSig !in d.validMutSigs {
      return Run([], Err(NotImplemented(MutationSignature)));
    }
    if cfg.maxMnpWindow !in {1, 2, 3} {
      return Run([], Err(NotImplemented(MaxMnpWindow)));
    }

    var stages: seq<Stage> := [];
    // Unbound in the source until primers are given; only read when they are.
    var sortCmd: string := "";
    if cfg.primers.Some? {
      stages := stages + [VerifyQnames(File(cfg.fastq1))];
      if qnameFormat.None? {
        return Run(stages, Err(QnameFormatUnrecognised));
      }
      if qnameFormat.value >= |d.qnameSorts| {
        return Run(stages, Err(SortIndexError(qnameFormat.value)));
      }
      sortCmd := d.qnameSorts[qnameFormat.value];
    }
    assert stages == CallPrelude(cfg);

    var refs := GetCallReferences(d, files, cfg.referenceDir, cfg.ensemblId, cfg.ref, cfg.transcriptGff,
                                  cfg.gffReference, PathJoin(cfg.outdir, "references"));
    if refs.Err? {
      return Run(stages, Err(refs.error));
    }
    assert refs.value == CallReferences(d, files, cfg);
    run := RunCallStages(d, cfg, refs.value, stages, sortCmd);
    if run.outcome.Ok? {
      assert cfg.primers.Some? ==> (if cfg.consensusDedup && d.intFormatIndex < |d.qnameSorts|
                                    then d.qnameSorts[d.intFormatIndex] else sortCmd) == CallSort(d, cfg, qnameFormat);
      if cfg.primers.None? {
        PlanIgnoresSort(cfg, refs.value, sortCmd, CallSort(d, cfg, qnameFormat), stages);
      }
    }
  }

  /** Without primers, nothing is masked, so the plan does not depend on the sort command. */
  lemma PlanIgnoresSort(cfg: CallConfig, refs: CallRefs, sortA: string, sortB: string, prelude: seq<Stage>)
    requires cfg.primers.None?
    ensures CallPlan(cfg, refs, sortA, prelude) == CallPlan(cfg, refs, sortB, prelude)
  {
  }

  /**
   * The dataflow and routing of every completed call run: its stages read
   * only earlier outputs, and it routes files as CallRouted says.
   */
  lemma CallWorkflowRouted(d: Definitions, files: ReferenceFiles, qnameFormat: Option<nat>, cfg: CallConfig)
    requires CallCompletes(d, files, qnameFormat, cfg)
    ensures var refs := CallReferences(d, files, cfg);
      var plan := CallPlan(cfg, refs, CallSort(d, cfg, qnameFormat), CallPrelude(cfg));
      && WellFormed(plan)
      && CallRouted(d, cfg, qnameFormat, refs, Run(plan, Ok((Produced(CalledVcf), Produced(CalledBed)))))
  {
    var refs := CallReferences(d, files, cfg);
    var sortCmd := CallSort(d, cfg, qnameFormat);
    CallPlanWellFormed(cfg, refs, sortCmd);
    CallPlanRouted(d, cfg, qnameFormat, refs, sortCmd);
  }

  /** The arguments of sim_workflow. */
  datatype SimConfig = SimConfig(
    bam: string, vcf: string, raceLike: bool,
    ensemblId: Option<string>, referenceDir: string, ref: Option<string>,
    primers: Option<string>, outdir: string, randomSeed: int, forceEdit: bool, nthreads: int)

  /** The stages sim_workflow runs before the reference is resolved: read-name verification when primers are given. */
  function SimPrelude(cfg: SimConfig): seq<Stage>
  {
    if cfg.primers.Some? then [VerifyQnames(File(cfg.bam))] else []
  }

  /** The reference FASTA read editing uses: the extracted FASTA with an Ensembl ID, the given one otherwise. */
  function SimReference(cfg: SimConfig): Option<Path>
  {
    if cfg.ensemblId.Some? then Some(Extracted(PathJoin(cfg.outdir, "references"), cfg.ensemblId.value, FastaExt))
    else AsPath(cfg.ref)
  }

  /** The read-editing stage of sim_workflow. */
  function SimEdit(cfg: SimConfig): Stage
  {
    EditReads(File(cfg.bam), File(cfg.vcf), SimReference(cfg), cfg.raceLike, AsPath(cfg.primers),
              cfg.randomSeed, cfg.forceEdit, cfg.nthreads)
  }

  /** The part of sim_workflow after read-name verification: resolve the reference, then edit the reads. */
  method EditWithReference(d: Definitions, files: ReferenceFiles, cfg: SimConfig, prelude: seq<Stage>)
    returns (run: Run<(Path, Path, Path)>)
    ensures cfg.ensemblId.Some? && cfg.ref.Some? ==> run == Run(prelude, Err(BothReferencesGiven))
    ensures run.outcome.Ok? <==>
      (cfg.ensemblId.Some? ==> cfg.ref.None? && LookupSucceeds(d.refs, files, cfg.ensemblId.value))
    ensures cfg.ensemblId.Some? && cfg.ref.None? && !LookupSucceeds(d.refs, files, cfg.ensemblId.value) ==>
      run.outcome.Err? && run.outcome.error.Reference?
    ensures cfg.ensemblId.Some? && cfg.ref.None? && ClassifyId(d.refs, cfg.ensemblId.value).Err? ==>
      run.outcome == Err(Reference(InvalidEnsemblId(cfg.ensemblId.value)))
    ensures run.outcome.Err? ==> run.stages == prelude
    ensures run.outcome.Err? && run.outcome.error.Reference? ==>
      cfg.ensemblId.Some? && FailsWith(d.refs, files, cfg.ensemblId.value, run.outcome.error.cause)
    ensures run.outcome.Ok? ==>
      run == Run(prelude + [SimEdit(cfg)],
                 Ok((Produced(EditedBam), Produced(EditedR1Fastq), Produced(EditedR2Fastq))))
  {
    var refFa := GetSimReference(d, files, cfg.ensemblId, cfg.ref, PathJoin(cfg.outdir, "references"));
    if refFa.Err? {
      return Run(prelude, Err(refFa.error));
    }
    var edit := EditReads(File(cfg.bam), File(cfg.vcf), refFa.value, cfg.raceLike, AsPath(cfg.primers),
                          cfg.randomSeed, cfg.forceEdit, cfg.nthreads);
    return Run(prelude + [edit], Ok((Produced(EditedBam), Produced(EditedR1Fastq), Produced(EditedR2Fastq))));
  }

  /**
   * sim_workflow: read names are checked when primers are given, then the
   * reference is resolved, then the reads are edited.
   */
  method SimWorkflow(d: Definitions, files: ReferenceFiles, qnameFormat: Option<nat>, cfg: SimConfig)
    returns (run: Run<(Path, Path, Path)>)
    // Neither stage reads another's output, so this is the dataflow invariant only, not routing.
    ensures WellFormed(run.stages)
    ensures cfg.primers.Some? ==> run.stages != [] && run.stages[0] == VerifyQnames(File(cfg.bam))
    ensures cfg.primers.Some? && qnameFormat.None? ==>
      run == Run([VerifyQnames(File(cfg.bam))], Err(QnameFormatUnrecognised))
    ensures (cfg.primers.None? || qnameFormat.Some?) && cfg.ensemblId.Some? && cfg.ref.Some? ==>
      run.outcome == Err(BothReferencesGiven)
    ensures (cfg.primers.Some? ==> qnameFormat.Some?) && run.outcome.Err? ==> run.stages == SimPrelude(cfg)
    ensures run.outcome.Err? && run.outcome.error.Reference? ==>
      cfg.ensemblId.Some? && FailsWith(d.refs, files, cfg.ensemblId.value, run.outcome.error.cause)
    ensures (cfg.primers.Some? ==> qnameFormat.Some?)
            && cfg.ensemblId.Some? && cfg.ref.None? && !LookupSucceeds(d.refs, files, cfg.ensemblId.value) ==>
      run.outcome.Err? && run.outcome.error.Reference?
    ensures (cfg.primers.Some? ==> qnameFormat.Some?)
            && cfg.ensemblId.Some? && cfg.ref.None? && ClassifyId(d.refs, cfg.ensemblId.value).Err? ==>
      run.outcome == Err(Reference(InvalidEnsemblId(cfg.ensemblId.value)))
    ensures run.outcome.Ok? ==>
      run == Run(SimPrelude(cfg) + [SimEdit(cfg)],
                 Ok((Produced(EditedBam), Produced(EditedR1Fastq), Produced(EditedR2Fastq))))
    ensures run.outcome.Ok? <==>
      && (cfg.primers.Some? ==> qnameFormat.Some?)
      && (cfg.ensemblId.Some? ==> cfg.ref.None? && LookupSucceeds(d.refs, files, cfg.ensemblId.value))
  {
    var stages: seq<Stage> := [];
    if cfg.primers.Some? {
      stages := stages + [VerifyQnames(File(cfg.bam))];
      VerifyQnamesAlone(cfg.bam);
      if qnameFormat.None? {
        return Run(stages, Err(QnameFormatUnrecognised));
      }
    }
    assert stages == SimPrelude(cfg);
    run := EditWithReference(d, files, cfg, stages);
    if run.outcome.Ok? {
      Extend(stages, SimEdit(cfg));
    }
  }
}
