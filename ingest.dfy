/**
 * The deterministic part of PDF ingestion (src/ingest.py): which PDF path is
 * used, the splitter settings, rejection of a PDF that yields no chunks,
 * scrubbing of empty metadata values, and the `doc-<i>` ids handed to the
 * vector store. The PDF loader and the text splitter are foreign calls: their
 * output, the list of splits, is an input here.
 */
module Ingest {
  import opened Wrappers
  import opened Text
  import opened Values
  import opened Common

  /** `CHUNK_SIZE`, the splitter's target chunk length in characters. */
  const ChunkSize := 1000

  /** `CHUNK_OVERLAP`, the characters shared by neighbouring chunks. */
  const ChunkOverlap := 150

  /** The fallback PDF when neither `--pdf` nor `PDF_PATH` gives one. */
  const DefaultPdfPath := "./document.pdf"

  /** The variables `main` requires before ingesting. */
  const RequiredVars := ["DATABASE_URL", "PDF_PATH", "PG_VECTOR_COLLECTION_NAME"]

  /** The arguments `get_documents_from_pdf` passes to `RecursiveCharacterTextSplitter`. */
  datatype SplitterSettings = SplitterSettings(chunkSize: nat, chunkOverlap: nat, addStartIndex: bool)

  /** The splitter is configured with an overlap smaller than the chunk, and no start index. */
  function Splitter(): (c: SplitterSettings)
    ensures 0 < c.chunkOverlap < c.chunkSize
    ensures !c.addStartIndex
  {
    SplitterSettings(ChunkSize, ChunkOverlap, false)
  }

  /** The errors that end an ingestion run. */
  datatype IngestError =
    | MissingVariables(vars: seq<string>)  // EnvironmentError from validate_environment
    | PdfNotFound(path: string)            // FileNotFoundError from validate_pdf_path
    | NoSplits                             // SystemExit("No document splits were created.")

  /** A metadata value the scrub drops: `v in ("", None)`. */
  predicate IsBlank(v: Value) {
    v == Null || v == Str("")
  }

  /** The dict comprehension of `enriched_documents`. */
  function Scrub(m: Metadata): (r: Metadata)
    ensures forall k :: k in r <==> k in m && !IsBlank(m[k])
    ensures forall k :: k in r ==> r[k] == m[k]
  {
    map k | k in m && !IsBlank(m[k]) :: m[k]
  }

  /** Scrubbing twice is scrubbing once. */
  lemma ScrubIdempotent(m: Metadata)
    ensures Scrub(Scrub(m)) == Scrub(m)
  {
  }

  /** `enriched_documents`: each split with its content kept and its metadata scrubbed. */
  function EnrichedDocuments(splits: seq<Document>): (r: seq<Document>)
    ensures |r| == |splits|
    ensures forall i :: 0 <= i < |r| ==> r[i].pageContent == splits[i].pageContent
    ensures forall i :: 0 <= i < |r| ==> r[i].metadata == Scrub(splits[i].metadata)
    ensures forall i, k :: 0 <= i < |r| && k in r[i].metadata ==> !IsBlank(r[i].metadata[k])
  {
    if splits == [] then []
    else
      var first := Document(splits[0].pageContent, Scrub(splits[0].metadata));
      var rest := EnrichedDocuments(splits[1..]);
      assert forall i :: 1 <= i < |splits| ==> ([first] + rest)[i] == rest[i - 1];
      [first] + rest
  }

  /** Enriching already enriched documents changes nothing. */
  lemma {:induction false} EnrichedIdempotent(splits: seq<Document>)
    ensures EnrichedDocuments(EnrichedDocuments(splits)) == EnrichedDocuments(splits)
  {
    var r := EnrichedDocuments(splits);
    var rr := EnrichedDocuments(r);
    forall i | 0 <= i < |r| ensures rr[i] == r[i] {
      ScrubIdempotent(splits[i].metadata);
    }
  }

  /** The `i`-th id, `f"doc-{i}"`. */
  function DocId(i: nat): string {
    "doc-" + NatToString(i)
  }

  /** `def_index_documents`: one id per document, numbered from 0. */
  function DefIndexDocuments(docs: seq<Document>): (ids: seq<string>)
    ensures |ids| == |docs|
    ensures forall i :: 0 <= i < |ids| ==> ids[i] == DocId(i)
  {
    seq(|docs|, i requires 0 <= i < |docs| => DocId(i))
  }

  /** The number an id carries after its `doc-` prefix. */
  function DocIndex(id: string): nat
    requires |id| >= 4
    requires forall i :: 4 <= i < |id| ==> '0' <= id[i] <= '9'
  {
    ParseDecimal(id[4..])
  }

  /** Each id names its own position: reading its number back gives `i`. */
  lemma DocIdRoundTrip(i: nat)
    ensures |DocId(i)| >= 4 && DocId(i)[..4] == "doc-"
    ensures forall j :: 4 <= j < |DocId(i)| ==> '0' <= DocId(i)[j] <= '9'
    ensures DocIndex(DocId(i)) == i
  {
    assert DocId(i)[4..] == NatToString(i);
    ParseNatToString(i);
  }

  /** The ids of one batch are pairwise distinct. */
  lemma IdsDistinct(docs: seq<Document>)
    ensures forall i, j :: 0 <= i < j < |docs| ==>
      DefIndexDocuments(docs)[i] != DefIndexDocuments(docs)[j]
  {
    var ids := DefIndexDocuments(docs);
    forall i, j | 0 <= i < j < |docs| ensures ids[i] != ids[j] {
      DocIdRoundTrip(i);
      DocIdRoundTrip(j);
    }
  }

  /** `get_documents_from_pdf` after loading and splitting: reject an empty split list. */
  function GetDocumentsFromPdf(splits: seq<Document>): (r: Result<seq<Document>, IngestError>)
    ensures r.Err? <==> splits == []
    ensures r.Err? ==> r.error == NoSplits
    ensures r.Ok? ==> |r.value| == |splits| && r.value == EnrichedDocuments(splits)
  {
    if splits == [] then Err(NoSplits) else Ok(EnrichedDocuments(splits))
  }

  /** `pdf_path or os.getenv("PDF_PATH", "./document.pdf")`. */
  function ResolvePdfPath(pdfArg: Option<string>, env: Env): (path: string)
    ensures pdfArg.Some? && pdfArg.value != "" ==> path == pdfArg.value
    ensures (pdfArg.None? || pdfArg.value == "") ==>
      path == (if "PDF_PATH" in env then env["PDF_PATH"] else DefaultPdfPath)
  {
    if pdfArg.Some? && pdfArg.value != "" then pdfArg.value
    else GetEnv(env, "PDF_PATH", DefaultPdfPath)
  }

  /** What `ingest` hands to `store.add_documents`. */
  datatype Batch = Batch(collection: string, source: string, documents: seq<Document>, ids: seq<string>)

  /**
   * `ingest(pdf_path)`: pick the PDF, check that it exists (`files` holds the
   * paths that do), turn its splits into documents, and build the batch
   * stored under the configured collection.
   */
  function RunIngest(pdfArg: Option<string>, env: Env, files: set<string>, splits: seq<Document>)
    : (r: Result<Batch, IngestError>)
    ensures ResolvePdfPath(pdfArg, env) !in files ==> r == Err(PdfNotFound(ResolvePdfPath(pdfArg, env)))
    ensures r.Ok? <==> ResolvePdfPath(pdfArg, env) in files && splits != []
    ensures ResolvePdfPath(pdfArg, env) in files && splits == [] ==> r == Err(NoSplits)
    ensures r.Ok? ==>
      && r.value.source == ResolvePdfPath(pdfArg, env)
      && r.value.source in files
      && r.value.collection == GetEnv(env, "PG_VECTOR_COLLECTION_NAME", "documents")
      && r.value.documents == EnrichedDocuments(splits)
      && |r.value.ids| == |r.value.documents| == |splits| > 0
      && (forall i :: 0 <= i < |r.value.ids| ==> r.value.ids[i] == DocId(i))
  {
    var path := ResolvePdfPath(pdfArg, env);
    if path !in files then Err(PdfNotFound(path))
    else
      match GetDocumentsFromPdf(splits)
      case Err(e) => Err(e)
      case Ok(docs) =>
        Ok(Batch(GetEnv(env, "PG_VECTOR_COLLECTION_NAME", "documents"), path, docs, DefIndexDocuments(docs)))
  }

  /** `main(pdf_path)`: check the required variables, then ingest. */
  function Main(pdfArg: Option<string>, env: Env, files: set<string>, splits: seq<Document>)
    : (r: Result<Batch, IngestError>)
    ensures ValidateEnvironment(Some(RequiredVars), env).MissingEnvironment? ==>
      r == Err(MissingVariables(MissingVars(RequiredVars, env)))
    ensures ValidateEnvironment(Some(RequiredVars), env).Passed? ==> r == RunIngest(pdfArg, env, files, splits)
    ensures r.Ok? ==> forall v :: v in RequiredVars ==> !IsUnset(env, v)
  {
    match ValidateEnvironment(Some(RequiredVars), env)
    case MissingEnvironment(vars) => Err(MissingVariables(vars))
    case Passed => RunIngest(pdfArg, env, files, splits)
  }

  /**
   * Run through `main`, ingestion without `--pdf` always takes the path from
   * `PDF_PATH`, so the built-in `./document.pdf` is never reached.
   */
  lemma MainTakesPathFromEnvironment(pdfArg: Option<string>, env: Env, files: set<string>, splits: seq<Document>)
    requires pdfArg.None? || pdfArg.value == ""
    requires Main(pdfArg, env, files, splits).Ok?
    ensures "PDF_PATH" in env && env["PDF_PATH"] != ""
    ensures Main(pdfArg, env, files, splits).value.source == env["PDF_PATH"]
  {
    assert "PDF_PATH" in RequiredVars;
  }

  /** A batch that reaches the store has one id per document and no id twice. */
  lemma StoredBatchWellFormed(pdfArg: Option<string>, env: Env, files: set<string>, splits: seq<Document>)
    requires RunIngest(pdfArg, env, files, splits).Ok?
    ensures var b := RunIngest(pdfArg, env, files, splits).value;
      |b.ids| == |b.documents| &&
      forall i, j :: 0 <= i < j < |b.ids| ==> b.ids[i] != b.ids[j]
  {
    var b := RunIngest(pdfArg, env, files, splits).value;
    IdsDistinct(b.documents);
  }
}
