/**
 * Paths as the workflow passes them around. The model does not touch a file
 * system: a path is either text the caller supplied, a reference file the
 * Ensembl lookup writes, or the output of an external stage, named by what
 * it holds.
 */
module Paths {
  import opened Wrappers

  /** The extension `add_extension` appends when the lookup names its outputs. */
  datatype Extension = FastaExt | GffExt

  /** Files produced by the external stages of the sim and call workflows. */
  datatype Product =
    | UmiR1Fastq | UmiR2Fastq          // UMIExtractor
    | TrimmedR1Fastq | TrimmedR2Fastq  // FastqPreprocessor
    | AlignedBam                       // bowtie2 workflow
    | GroupedBam                       // ReadGrouper
    | PreparedBam                      // ConsensusDeduplicatorPreprocessor
    | ConsensusBam                     // ConsensusDeduplicator
    | MaskedBam                        // ReadMasker
    | CalledVcf | CalledBed            // VariantCaller
    | EditedBam | EditedR1Fastq | EditedR2Fastq  // ReadEditor

  datatype Path =
    | File(name: string)
      /** `os.path.join(dir, add_extension(stem, ext))` */
    | Extracted(dir: string, stem: string, ext: Extension)
    | Produced(product: Product)

  /** A path argument that may be `None`. */
  function AsPath(name: Option<string>): (p: Option<Path>)
    ensures p.Some? <==> name.Some?
    ensures p.Some? ==> p.value == File(name.value)
  {
    match name
    case None => None
    case Some(n) => Some(File(n))
  }
}
