/**
 * Selecting a transcript reference from curated APPRIS files by Ensembl ID
 * (satmut_utils/analysis/references.py). File contents are inputs: the ID
 * files and the contig file are the raw lines the file iterator yields
 * (newline included), the transcript GFF is the record stream pybedtools
 * parses. What would be written to the output FASTA and GFF is returned.
 */
module References {
  import opened Wrappers
  import opened Strings
  import opened Paths

  /** APPRIS_CONTIG_DELIM; the transcript is field 0, the gene field 1. */
  const ContigDelim: char := '|'
  /** The version suffix of an Ensembl ID follows the first '.'. */
  const VersionDelim: char := '.'

  /**
   * Constants the lookup uses whose values live in modules this model does
   * not include: MapperBase.ENSEMBL_TRX_PREFIX and ENSEMBL_GENE_PREFIX,
   * file_utils.FILE_NEWLINE, the saved GFF feature types, and the GFF
   * attribute keys for the gene and transcript IDs.
   */
  datatype Conventions = Conventions(
    trxPrefix: string,
    genePrefix: string,
    newline: string,
    saveFeatures: set<string>,
    geneIdAttr: string,
    transcriptIdAttr: string)

  /** One GFF interval: its raw fields, its feature type and its attributes. */
  datatype GffRecord = GffRecord(fields: seq<string>, feature: string, attrs: map<string, string>)

  /** The curated files of the reference directory. */
  datatype ReferenceFiles = ReferenceFiles(
    trxIds: seq<string>,     // APPRIS_TRX_IDS
    geneIds: seq<string>,    // APPRIS_GENE_IDS
    contigIds: seq<string>,  // APPRIS_CONTIG_IDS
    trxGff: seq<GffRecord>)  // GENCODE_TRX_GFF

  datatype NotFoundReason =
    | NotInReferences(alternative: Option<string>)
    | NoTranscriptForGene

  /** Where Python raises IndexError in the lookup. */
  datatype IndexSite =
    | GeneFieldOf(line: string)   // line.split("|")[1] on a line without '|'
    | FirstContigFor(id: string)  // [...][0] on an empty list of contig lines

  datatype RefError =
    | InvalidEnsemblId(id: string)
    | EnsemblIdNotFound(id: string, reason: NotFoundReason)
    | IndexError(site: IndexSite)
    | KeyError(key: string)

  datatype IdKind = TranscriptId | GeneId

  /** The format test of ensembl_id_exists: the transcript prefix is tried first. */
  function ClassifyId(c: Conventions, id: string): Result<IdKind, RefError>
  {
    if Contains(id, c.trxPrefix) then Ok(TranscriptId)
    else if Contains(id, c.genePrefix) then Ok(GeneId)
    else Err(InvalidEnsemblId(id))
  }

  /** `{line.rstrip(FILE_NEWLINE) for line in id_file}` */
  function IdSet(lines: seq<string>, newline: string): set<string>
  {
    set line | line in lines :: RStrip(line, newline)
  }

  /** The IDs of the file that matches the ID's kind. */
  function KnownIds(c: Conventions, files: ReferenceFiles, kind: IdKind): set<string>
  {
    IdSet(if kind == TranscriptId then files.trxIds else files.geneIds, c.newline)
  }

  /** The ID without its version: `id.split(".")[0]`. */
  function BaseId(id: string): (base: string)
    ensures base <= id && VersionDelim !in base
    ensures |base| < |id| ==> id[|base|] == VersionDelim
  {
    Split(id, VersionDelim)[0]
  }

  /** Some known ID shares the ID's base. */
  predicate HasOtherVersion(ids: set<string>, id: string)
  {
    exists a :: a in ids && BaseId(a) == BaseId(id)
  }

  /** The ID is well formed and listed in the file of its kind. */
  predicate IdPresent(c: Conventions, files: ReferenceFiles, id: string)
  {
    ClassifyId(c, id).Ok? && id in KnownIds(c, files, ClassifyId(c, id).value)
  }

  /**
   * ensembl_id_exists: (true, None) when the ID is listed; otherwise
   * (false, alt) with alt a listed ID of the same base, or (false, None).
   * Which alternative is returned depends on set iteration order, so any
   * qualifying member may be.
   */
  method EnsemblIdExists(c: Conventions, files: ReferenceFiles, id: string)
    returns (r: Result<(bool, Option<string>), RefError>)
    ensures r.Err? <==> ClassifyId(c, id).Err?
    ensures r.Err? ==> r.error == InvalidEnsemblId(id)
    ensures r.Ok? ==>
      var ids := KnownIds(c, files, ClassifyId(c, id).value);
      && (id in ids <==> r.value == (true, None))
      && (id !in ids && HasOtherVersion(ids, id) ==>
            && !r.value.0 && r.value.1.Some?
            && r.value.1.value in ids
            && BaseId(r.value.1.value) == BaseId(id)
            && r.value.1.value != id)
      && (id !in ids && !HasOtherVersion(ids, id) ==> r.value == (false, None))
  {
    var kind := ClassifyId(c, id);
    if kind.Err? {
      return Err(kind.error);
    }
    var ids := KnownIds(c, files, kind.value);
    if id in ids {
      return Ok((true, None));
    }
    var base := BaseId(id);
    var rest := ids;
    while rest != {}
      invariant rest <= ids
      invariant forall a :: a in ids && a !in rest ==> BaseId(a) != base
      decreases rest
    {
      var a :| a in rest;
      if BaseId(a) == base {
        return Ok((false, Some(a)));
      }
      rest := rest - {a};
    }
    return Ok((false, None));
  }

  /** Field 1 of a contig line, as get_trx_id_from_gene_id reads it. */
  function GeneField(line: string): Result<string, RefError>
  {
    var fields := Split(line, ContigDelim);
    if |fields| < 2 then Err(IndexError(GeneFieldOf(line))) else Ok(fields[1])
  }

  /** Field 0 of a contig line: the transcript ID. */
  function TranscriptField(line: string): string
  {
    Split(line, ContigDelim)[0]
  }

  /**
   * get_trx_id_from_gene_id, as a search over the contig lines: field 0 of
   * the first line whose field 1 is the gene ID, None when no line matches,
   * and IndexError when a line without a delimiter is reached first.
   */
  function TrxLookup(lines: seq<string>, geneId: string): Result<Option<string>, RefError>
    decreases |lines|
  {
    if lines == [] then Ok(None)
    else
      match GeneField(lines[0])
      case Err(e) => Err(e)
      case Ok(g) => if g == geneId then Ok(Some(TranscriptField(lines[0]))) else TrxLookup(lines[1..], geneId)
  }

  /** Every line before index k has a gene field, and none of them is the gene ID. */
  predicate PassesOver(lines: seq<string>, k: nat, geneId: string)
  {
    k <= |lines| && forall i :: 0 <= i < k ==> GeneField(lines[i]).Ok? && GeneField(lines[i]).value != geneId
  }

  /** No transcript is found exactly when the search passes over every line. */
  lemma {:induction false} TrxLookupNone(lines: seq<string>, geneId: string)
    ensures TrxLookup(lines, geneId) == Ok(None) <==> PassesOver(lines, |lines|, geneId)
    decreases |lines|
  {
    if lines != [] {
      TrxLookupNone(lines[1..], geneId);
      if GeneField(lines[0]).Ok? && GeneField(lines[0]).value != geneId {
        assert PassesOver(lines, |lines|, geneId) <==> PassesOver(lines[1..], |lines| - 1, geneId) by {
          forall i | 0 <= i < |lines| - 1 ensures lines[1..][i] == lines[i + 1] { }
        }
      }
    }
  }

  /**
   * When the search passes over lines 0..k-1 and line k has no gene field or
   * a matching one, the result is decided by line k.
   */
  lemma {:induction false} TrxLookupStop(lines: seq<string>, k: nat, geneId: string)
    requires k < |lines| && PassesOver(lines, k, geneId)
    requires GeneField(lines[k]).Err? || GeneField(lines[k]).value == geneId
    ensures GeneField(lines[k]).Err? ==> TrxLookup(lines, geneId) == Err(GeneField(lines[k]).error)
    ensures GeneField(lines[k]).Ok? ==> TrxLookup(lines, geneId) == Ok(Some(TranscriptField(lines[k])))
    decreases k
  {
    if k > 0 {
      assert GeneField(lines[0]).Ok? && GeneField(lines[0]).value != geneId;
      assert lines[1..][k - 1] == lines[k];
      TrxLookupStop(lines[1..], k - 1, geneId);
    }
  }

  /** get_trx_id_from_gene_id: the loop over the contig file with an early return. */
  method GetTrxIdFromGeneId(lines: seq<string>, geneId: string) returns (r: Result<Option<string>, RefError>)
    ensures r == TrxLookup(lines, geneId)
  {
    var i := 0;
    while i < |lines|
      invariant 0 <= i <= |lines|
      invariant TrxLookup(lines[i..], geneId) == TrxLookup(lines, geneId)
    {
      assert lines[i..][0] == lines[i] && lines[i..][1..] == lines[i + 1..];
      var gene := GeneField(lines[i]);
      if gene.Err? {
        return Err(gene.error);
      }
      if gene.value == geneId {
        return Ok(Some(TranscriptField(lines[i])));
      }
      i := i + 1;
    }
    return Ok(None);
  }

  /** `ensembl_id in set(line.split("|")[:2])`: the ID is the line's transcript or gene field. */
  predicate NamesContig(line: string, id: string)
  {
    var fields := Split(line, ContigDelim);
    id == fields[0] || (|fields| >= 2 && id == fields[1])
  }

  /** Line k is the first contig line naming the ID. */
  predicate FirstNaming(lines: seq<string>, id: string, k: nat)
  {
    k < |lines| && NamesContig(lines[k], id) && forall i :: 0 <= i < k ==> !NamesContig(lines[i], id)
  }

  /** The list comprehension of extract_fasta_reference: the naming lines, newline stripped. */
  function ContigIds(lines: seq<string>, id: string, newline: string): seq<string>
    decreases |lines|
  {
    if lines == [] then []
    else (if NamesContig(lines[0], id) then [RStrip(lines[0], newline)] else []) + ContigIds(lines[1..], id, newline)
  }

  lemma {:induction false} ContigIdsEmpty(lines: seq<string>, id: string, newline: string)
    ensures ContigIds(lines, id, newline) == [] <==> forall i :: 0 <= i < |lines| ==> !NamesContig(lines[i], id)
    decreases |lines|
  {
    if lines != [] {
      ContigIdsEmpty(lines[1..], id, newline);
      assert forall i :: 0 <= i < |lines| - 1 ==> lines[1..][i] == lines[i + 1];
    }
  }

  lemma {:induction false} ContigIdsHead(lines: seq<string>, id: string, newline: string, k: nat)
    requires FirstNaming(lines, id, k)
    ensures ContigIds(lines, id, newline) != [] && ContigIds(lines, id, newline)[0] == RStrip(lines[k], newline)
    decreases k
  {
    if k > 0 {
      assert lines[1..][k - 1] == lines[k];
      assert FirstNaming(lines[1..], id, k - 1) by {
        forall i | 0 <= i < k - 1 ensures !NamesContig(lines[1..][i], id) {
          assert lines[1..][i] == lines[i + 1];
        }
      }
      ContigIdsHead(lines[1..], id, newline, k - 1);
    }
  }

  /**
   * Contig selection in extract_fasta_reference: the first contig line whose
   * first two fields hold the ID, newline stripped; IndexError when no line does.
   */
  function SelectContig(lines: seq<string>, id: string, newline: string): (r: Result<string, RefError>)
    ensures r.Err? <==> forall i :: 0 <= i < |lines| ==> !NamesContig(lines[i], id)
    ensures r.Err? ==> r.error == IndexError(FirstContigFor(id))
    ensures forall k: nat :: FirstNaming(lines, id, k) ==> r == Ok(RStrip(lines[k], newline))
  {
    var ids := ContigIds(lines, id, newline);
    ContigIdsEmpty(lines, id, newline);
    assert forall k: nat :: FirstNaming(lines, id, k) ==> ids != [] && ids[0] == RStrip(lines[k], newline) by {
      forall k: nat | FirstNaming(lines, id, k) ensures ids != [] && ids[0] == RStrip(lines[k], newline) {
        ContigIdsHead(lines, id, newline, k);
      }
    }
    if ids == [] then Err(IndexError(FirstContigFor(id))) else Ok(ids[0])
  }

  /** The record carries the gene ID attribute (`interval.attrs[GENE_ID]` does not raise). */
  predicate HasGeneId(c: Conventions, rec: GffRecord)
  {
    c.geneIdAttr in rec.attrs
  }

  predicate GeneIdsBefore(c: Conventions, rs: seq<GffRecord>, n: nat)
  {
    n <= |rs| && forall i :: 0 <= i < n ==> HasGeneId(c, rs[i])
  }

  /**
   * The write test of extract_gff_reference. Python binds `and` tighter than
   * `or`, so references.py:144-146 reads (saved feature AND gene match) OR
   * transcript match.
   */
  predicate Keep(c: Conventions, rec: GffRecord, id: string)
    requires HasGeneId(c, rec)
  {
    || (rec.feature in c.saveFeatures && id == rec.attrs[c.geneIdAttr])
    || (c.transcriptIdAttr in rec.attrs && id == rec.attrs[c.transcriptIdAttr])
  }

  /** The records of `rs` that pass the write test, in input order. */
  function Kept(c: Conventions, rs: seq<GffRecord>, id: string): seq<GffRecord>
    requires GeneIdsBefore(c, rs, |rs|)
    decreases |rs|
  {
    if rs == [] then []
    else
      var last := rs[|rs| - 1];
      Kept(c, rs[..|rs| - 1], id) + (if Keep(c, last, id) then [last] else [])
  }

  /** A record is kept exactly when it is one of the input records passing the write test. */
  lemma {:induction false} KeptMembers(c: Conventions, rs: seq<GffRecord>, id: string, rec: GffRecord)
    requires GeneIdsBefore(c, rs, |rs|)
    ensures rec in Kept(c, rs, id) <==> rec in rs && HasGeneId(c, rec) && Keep(c, rec, id)
    decreases |rs|
  {
    if rs != [] {
      var init := rs[..|rs| - 1];
      KeptMembers(c, init, id, rec);
      assert rs == init + [rs[|rs| - 1]];
    }
  }

  /**
   * The loop breaks at record i: some earlier record was written and record i
   * starts a new gene block.
   */
  predicate EndsBlock(c: Conventions, rs: seq<GffRecord>, id: string, i: nat)
  {
    && 0 < i < |rs|
    && GeneIdsBefore(c, rs, i + 1)
    && Kept(c, rs[..i], id) != []
    && rs[i].attrs[c.geneIdAttr] != rs[i - 1].attrs[c.geneIdAttr]
  }

  /** The loop examines record n (or runs off the end when n == |rs|) without raising or breaking before it. */
  predicate Reaches(c: Conventions, rs: seq<GffRecord>, id: string, n: nat)
  {
    GeneIdsBefore(c, rs, n) && forall j :: 0 < j < n ==> !EndsBlock(c, rs, id, j)
  }

  /**
   * What extract_gff_reference does with the record stream: either it writes
   * the kept records up to the end or up to the first record that ends the
   * gene block, or it raises KeyError at the first record without a gene ID.
   */
  ghost predicate GffExtraction(c: Conventions, rs: seq<GffRecord>, id: string, out: Result<seq<GffRecord>, RefError>)
  {
    match out
    case Ok(written) =>
      exists n: nat ::
        && Reaches(c, rs, id, n)
        && (n == |rs| || EndsBlock(c, rs, id, n))
        && written == Kept(c, rs[..n], id)
    case Err(e) =>
      e == KeyError(c.geneIdAttr) && exists n: nat :: Reaches(c, rs, id, n) && n < |rs| && !HasGeneId(c, rs[n])
  }

  /** At most one outcome fits the description: the filter is deterministic. */
  lemma GffExtractionUnique(c: Conventions, rs: seq<GffRecord>, id: string,
                            a: Result<seq<GffRecord>, RefError>, b: Result<seq<GffRecord>, RefError>)
    requires GffExtraction(c, rs, id, a) && GffExtraction(c, rs, id, b)
    ensures a == b
  {
    var na: nat :| Reaches(c, rs, id, na) && StopPoint(c, rs, id, na, a);
    var nb: nat :| Reaches(c, rs, id, nb) && StopPoint(c, rs, id, nb, b);
    StopPointsEqual(c, rs, id, na, a, nb, b);
  }

  /** The condition on n inside GffExtraction for outcome `out`. */
  predicate StopPoint(c: Conventions, rs: seq<GffRecord>, id: string, n: nat, out: Result<seq<GffRecord>, RefError>)
  {
    match out
    case Ok(written) =>
      && (n == |rs| || EndsBlock(c, rs, id, n))
      && GeneIdsBefore(c, rs, n)
      && written == Kept(c, rs[..n], id)
    case Err(e) => e == KeyError(c.geneIdAttr) && n < |rs| && !HasGeneId(c, rs[n])
  }

  /** The loop stops at only one place. */
  lemma StopPointsEqual(c: Conventions, rs: seq<GffRecord>, id: string,
                        n: nat, a: Result<seq<GffRecord>, RefError>, m: nat, b: Result<seq<GffRecord>, RefError>)
    requires Reaches(c, rs, id, n) && StopPoint(c, rs, id, n, a)
    requires Reaches(c, rs, id, m) && StopPoint(c, rs, id, m, b)
    ensures n == m
  {
  }

  /** extract_gff_reference: the record loop with its early break. */
  method ExtractGffRecords(c: Conventions, rs: seq<GffRecord>, id: string) returns (r: Result<seq<GffRecord>, RefError>)
    ensures GffExtraction(c, rs, id, r)
  {
    var lastGeneId: Option<string> := None;
    var idObserved := false;
    var written: seq<GffRecord> := [];
    var i := 0;
    while i < |rs|
      invariant 0 <= i <= |rs|
      invariant Reaches(c, rs, id, i)
      invariant written == Kept(c, rs[..i], id)
      invariant idObserved <==> written != []
      invariant lastGeneId == if i == 0 then None else Some(rs[i - 1].attrs[c.geneIdAttr])
    {
      if c.geneIdAttr !in rs[i].attrs {
        assert StopPoint(c, rs, id, i, Err(KeyError(c.geneIdAttr)));
        return Err(KeyError(c.geneIdAttr));
      }
      var currGeneId := rs[i].attrs[c.geneIdAttr];
      if lastGeneId.Some? && idObserved && currGeneId != lastGeneId.value {
        assert EndsBlock(c, rs, id, i);
        break;
      }
      assert !EndsBlock(c, rs, id, i);
      assert rs[..i + 1][..i] == rs[..i] && rs[..i + 1][i] == rs[i];
      if Keep(c, rs[i], id) {
        idObserved := true;
        written := written + [rs[i]];
      }
      lastGeneId := Some(currGeneId);
      i := i + 1;
    }
    assert i == |rs| || EndsBlock(c, rs, id, i);
    r := Ok(written);
    assert StopPoint(c, rs, id, i, r);
  }

  /** The ID is treated as a gene ID in get_ensembl_references. */
  predicate NamesGene(c: Conventions, id: string)
  {
    Contains(id, c.genePrefix)
  }

  /**
   * The ID whose GFF records are extracted: the original ID, or for a gene ID
   * its first transcript in the contig file.
   */
  function GffId(c: Conventions, files: ReferenceFiles, id: string): Result<Option<string>, RefError>
  {
    if NamesGene(c, id) then TrxLookup(files.contigIds, id) else Ok(Some(id))
  }

  /** Every step of get_ensembl_references goes through. */
  ghost predicate LookupSucceeds(c: Conventions, files: ReferenceFiles, id: string)
  {
    && IdPresent(c, files, id)
    && GffId(c, files, id).Ok? && GffId(c, files, id).value.Some?
    && SelectContig(files.contigIds, id, c.newline).Ok?
    && exists written :: GffExtraction(c, files.trxGff, GffId(c, files, id).value.value, Ok(written))
  }

  /**
   * The error get_ensembl_references raises for `id`, step by step: a
   * malformed ID, an unlisted ID (with an alternative version when one is
   * listed), the IndexError of the gene-to-transcript map, a gene without a
   * transcript, the IndexError of the contig selection, then the KeyError of
   * the GFF filter.
   */
  ghost predicate FailsWith(c: Conventions, files: ReferenceFiles, id: string, e: RefError)
  {
    if ClassifyId(c, id).Err? then e == InvalidEnsemblId(id)
    else if !IdPresent(c, files, id) then
      && e.EnsemblIdNotFound? && e.id == id && e.reason.NotInReferences?
      && (e.reason.alternative.Some? <==> HasOtherVersion(KnownIds(c, files, ClassifyId(c, id).value), id))
    else if GffId(c, files, id).Err? then e == GffId(c, files, id).error
    else if GffId(c, files, id).value.None? then e == EnsemblIdNotFound(id, NoTranscriptForGene)
    else if SelectContig(files.contigIds, id, c.newline).Err? then
      e == SelectContig(files.contigIds, id, c.newline).error
    else GffExtraction(c, files.trxGff, GffId(c, files, id).value.value, Err(e))
  }

  /** What get_ensembl_references returns and writes. */
  datatype EnsemblRefs = EnsemblRefs(
    fasta: Path,                  // the output FASTA path
    contig: string,               // the contig extracted into it
    transcript: string,           // the ID the GFF was filtered with
    gff: Path,                    // the output GFF path
    gffRecords: seq<GffRecord>)   // the records written to it

  /**
   * get_ensembl_references: the ID must be well formed and listed; a gene ID
   * must map to a transcript; the FASTA is selected with the original ID and
   * the GFF with the transcript ID.
   */
  method GetEnsemblReferences(c: Conventions, files: ReferenceFiles, id: string, outdir: string)
    returns (r: Result<EnsemblRefs, RefError>)
    ensures ClassifyId(c, id).Err? ==> r == Err(InvalidEnsemblId(id))
    ensures ClassifyId(c, id).Ok? && !IdPresent(c, files, id) ==>
      && r.Err? && r.error.EnsemblIdNotFound? && r.error.id == id && r.error.reason.NotInReferences?
      && (r.error.reason.alternative.Some? <==> HasOtherVersion(KnownIds(c, files, ClassifyId(c, id).value), id))
    ensures IdPresent(c, files, id) && GffId(c, files, id).Err? ==> r == Err(GffId(c, files, id).error)
    ensures IdPresent(c, files, id) && GffId(c, files, id) == Ok(None) ==>
      r == Err(EnsemblIdNotFound(id, NoTranscriptForGene))
    ensures IdPresent(c, files, id) && GffId(c, files, id).Ok? && GffId(c, files, id).value.Some? ==>
      var trx := GffId(c, files, id).value.value;
      var contig := SelectContig(files.contigIds, id, c.newline);
      && (contig.Err? ==> r == Err(contig.error))
      && (contig.Ok? && r.Err? ==> GffExtraction(c, files.trxGff, trx, Err(r.error)))
      && (r.Ok? ==>
            && r.value == EnsemblRefs(Extracted(outdir, id, FastaExt), contig.value, trx,
                                      Extracted(outdir, BaseId(trx), GffExt), r.value.gffRecords)
            && GffExtraction(c, files.trxGff, trx, Ok(r.value.gffRecords)))
    ensures r.Ok? <==> LookupSucceeds(c, files, id)
    ensures r.Err? ==> FailsWith(c, files, id, r.error)
  {
    var presence := EnsemblIdExists(c, files, id);
    if presence.Err? {
      return Err(presence.error);
    }
    var (idExists, alternativeId) := presence.value;
    if !idExists {
      return Err(EnsemblIdNotFound(id, NotInReferences(alternativeId)));
    }
    var trxId := id;
    if NamesGene(c, id) {
      var mapped := GetTrxIdFromGeneId(files.contigIds, id);
      if mapped.Err? {
        return Err(mapped.error);
      }
      if mapped.value.None? {
        return Err(EnsemblIdNotFound(id, NoTranscriptForGene));
      }
      trxId := mapped.value.value;
    }
    var contig := SelectContig(files.contigIds, id, c.newline);
    if contig.Err? {
      return Err(contig.error);
    }
    var gff := ExtractGffRecords(c, files.trxGff, trxId);
    if gff.Err? {
      forall written | GffExtraction(c, files.trxGff, trxId, Ok(written)) ensures false {
        GffExtractionUnique(c, files.trxGff, trxId, gff, Ok(written));
      }
      return Err(gff.error);
    }
    return Ok(EnsemblRefs(Extracted(outdir, id, FastaExt), contig.value, trxId,
                          Extracted(outdir, BaseId(trxId), GffExt), gff.value));
  }
}
