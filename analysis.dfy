/**
 * The orchestration of `services/fileAnalysis.js`: fetch a stored file, classify it, extract
 * its text and hand it to the Azure MCP client, for one file or for a batch.
 *
 * Blob storage and the extractor libraries are the functions of an `Io` value; the chat
 * completion call is a `Completion` function. The service object is a class around the
 * client it delegates to.
 */
module Analysis {
  import opened Common
  import opened FileKinds
  import McpPrompts
  import McpClient

  /** The foreign functions the service calls. */
  datatype Io = Io(
    getFileBuffer: string -> Result<Bytes>,   // azureStorage.getFileBuffer: the blob, or the error's message
    pdfParse: Bytes -> Option<string>,        // pdf-parse's `text`, or None when it rejects
    mammothRawText: Bytes -> Option<string>,  // mammoth.extractRawText's `value`, or None when it rejects
    csvJson: Bytes -> string,                 // the JSON of the records csv-parse reads (it never rejects)
    utf8: Bytes -> string,                    // buffer.toString('utf-8')
    base64: Bytes -> string)                  // buffer.toString('base64')

  const PdfFailure := "Failed to extract PDF text"
  const DocxFailure := "Failed to extract DOCX text"

  /** `extractPdfText`: any failure of the parser becomes one fixed message. */
  function ExtractPdfText(io: Io, buffer: Bytes): (r: Result<string>)
    ensures r.Err? <==> io.pdfParse(buffer).None?
    ensures r.Err? ==> r.error == PdfFailure
    ensures r.Ok? ==> r.value == io.pdfParse(buffer).value
  {
    match io.pdfParse(buffer)
    case Some(text) => Ok(text)
    case None => Err(PdfFailure)
  }

  /** `extractDocxText`. */
  function ExtractDocxText(io: Io, buffer: Bytes): (r: Result<string>)
    ensures r.Err? <==> io.mammothRawText(buffer).None?
    ensures r.Err? ==> r.error == DocxFailure
    ensures r.Ok? ==> r.value == io.mammothRawText(buffer).value
  {
    match io.mammothRawText(buffer)
    case Some(text) => Ok(text)
    case None => Err(DocxFailure)
  }

  /**
   * The `switch` on the coarse kind shared by the three entry points: the extracted text of
   * a document kind, or None for the kinds the switch does not extract (image, unknown).
   */
  function Extract(io: Io, kind: Kind, buffer: Bytes): (r: Option<Result<string>>)
    ensures r.None? <==> kind == Image || kind == Unknown
    ensures kind == Pdf ==> r == Some(ExtractPdfText(io, buffer))
    ensures kind == Docx ==> r == Some(ExtractDocxText(io, buffer))
    ensures kind == Text ==> r == Some(Ok(io.utf8(buffer)))
    ensures kind == Csv ==> r == Some(Ok(io.csvJson(buffer)))
    ensures r.Some? && r.value.Err? ==> r.value.error == PdfFailure || r.value.error == DocxFailure
  {
    match kind
    case Pdf => Some(ExtractPdfText(io, buffer))
    case Text => Some(Ok(io.utf8(buffer)))
    case Csv => Some(Ok(io.csvJson(buffer)))
    case Docx => Some(ExtractDocxText(io, buffer))
    case _ => None
  }

  /** `fileName.split('/').pop()`. */
  function BaseName(key: string): (name: string)
    ensures '/' !in name
  {
    AfterLast(key, '/')
  }

  function ErrorEntry(key: string, message: string): McpPrompts.FileEntry
  {
    McpPrompts.FileEntry(BaseName(key), key, "[Error processing file: " + message + "]", "error")
  }

  /** The record one iteration of `analyzeMultipleFiles` pushes for `key`. */
  function EntryFor(io: Io, key: string): (e: McpPrompts.FileEntry)
    ensures e.fileName == BaseName(key) && e.fullPath == key
  {
    match io.getFileBuffer(key)
    case Err(message) => ErrorEntry(key, message)
    case Ok(buffer) =>
      var kind := GetMimeType(key);
      if kind == Image then McpPrompts.FileEntry(BaseName(key), key, "[Image: " + BaseName(key) + "]", KindName(kind))
      else match Extract(io, kind, buffer)
        case None => McpPrompts.FileEntry(BaseName(key), key, "[Unsupported file type: " + BaseName(key) + "]", KindName(kind))
        case Some(Err(message)) => ErrorEntry(key, message)
        case Some(Ok(text)) => McpPrompts.FileEntry(BaseName(key), key, text, KindName(kind))
  }

  /** The whole `fileContents` array: one record per key, in key order. */
  function FileContents(io: Io, keys: seq<string>): (entries: seq<McpPrompts.FileEntry>)
    ensures |entries| == |keys|
    ensures forall i :: 0 <= i < |keys| ==> entries[i] == EntryFor(io, keys[i])
  {
    seq(|keys|, i requires 0 <= i < |keys| => EntryFor(io, keys[i]))
  }

  /** Every record says where it came from: the key unchanged and its last path segment. */
  lemma EntriesKeepTheirKeys(io: Io, keys: seq<string>)
    ensures forall i :: 0 <= i < |keys| ==>
      FileContents(io, keys)[i].fullPath == keys[i] && FileContents(io, keys)[i].fileName == AfterLast(keys[i], '/')
  {
  }

  /** The placeholders a batch substitutes, case by case. */
  lemma EntryPlaceholders(io: Io, key: string)
    ensures io.getFileBuffer(key).Err? ==>
      EntryFor(io, key).content == "[Error processing file: " + io.getFileBuffer(key).error + "]"
    ensures io.getFileBuffer(key).Ok? && GetMimeType(key) == Image ==>
      EntryFor(io, key).content == "[Image: " + BaseName(key) + "]" && EntryFor(io, key).entryType == "image"
    ensures io.getFileBuffer(key).Ok? && GetMimeType(key) == Unknown ==>
      EntryFor(io, key).content == "[Unsupported file type: " + BaseName(key) + "]" && EntryFor(io, key).entryType == "unknown"
    ensures io.getFileBuffer(key).Ok? && GetMimeType(key) == Pdf && io.pdfParse(io.getFileBuffer(key).value).None? ==>
      EntryFor(io, key).content == "[Error processing file: " + PdfFailure + "]"
    ensures io.getFileBuffer(key).Ok? && GetMimeType(key) == Docx && io.mammothRawText(io.getFileBuffer(key).value).None? ==>
      EntryFor(io, key).content == "[Error processing file: " + DocxFailure + "]"
  {
  }

  /** A PDF or Word key whose extractor succeeds gets a record holding exactly the extracted text. */
  lemma ExtractedEntries(io: Io, key: string)
    ensures io.getFileBuffer(key).Ok? && GetMimeType(key) == Pdf && io.pdfParse(io.getFileBuffer(key).value).Some? ==>
      EntryFor(io, key) == McpPrompts.FileEntry(BaseName(key), key, io.pdfParse(io.getFileBuffer(key).value).value, "pdf")
    ensures io.getFileBuffer(key).Ok? && GetMimeType(key) == Docx && io.mammothRawText(io.getFileBuffer(key).value).Some? ==>
      EntryFor(io, key) == McpPrompts.FileEntry(BaseName(key), key, io.mammothRawText(io.getFileBuffer(key).value).value, "docx")
  {
    if io.getFileBuffer(key).Ok? {
      var buffer := io.getFileBuffer(key).value;
      if GetMimeType(key) == Pdf && io.pdfParse(buffer).Some? {
        PdfEntry(io, key);
      } else if GetMimeType(key) == Docx && io.mammothRawText(buffer).Some? {
        DocxEntry(io, key);
      }
    }
  }

  lemma PdfEntry(io: Io, key: string)
    requires GetMimeType(key) == Pdf && io.getFileBuffer(key).Ok?
    requires io.pdfParse(io.getFileBuffer(key).value).Some?
    ensures EntryFor(io, key) == McpPrompts.FileEntry(BaseName(key), key, io.pdfParse(io.getFileBuffer(key).value).value, "pdf")
  {
    var text := io.pdfParse(io.getFileBuffer(key).value).value;
    assert Extract(io, Pdf, io.getFileBuffer(key).value) == Some(Ok(text));
  }

  lemma DocxEntry(io: Io, key: string)
    requires GetMimeType(key) == Docx && io.getFileBuffer(key).Ok?
    requires io.mammothRawText(io.getFileBuffer(key).value).Some?
    ensures EntryFor(io, key) == McpPrompts.FileEntry(BaseName(key), key, io.mammothRawText(io.getFileBuffer(key).value).value, "docx")
  {
    var text := io.mammothRawText(io.getFileBuffer(key).value).value;
    assert Extract(io, Docx, io.getFileBuffer(key).value) == Some(Ok(text));
  }

  /**
   * A record is an error placeholder exactly when the fetch or the extraction threw;
   * otherwise its type is the key's kind name.
   */
  lemma ErrorEntriesExactlyFailures(io: Io, key: string)
    ensures EntryFor(io, key).entryType == "error" <==>
      io.getFileBuffer(key).Err? || (Extract(io, GetMimeType(key), io.getFileBuffer(key).value).Some? &&
      Extract(io, GetMimeType(key), io.getFileBuffer(key).value).value.Err?)
    ensures EntryFor(io, key).entryType != "error" ==> EntryFor(io, key).entryType == KindName(GetMimeType(key))
  {
    match io.getFileBuffer(key)
    case Err(_) =>
    case Ok(buffer) =>
      var kind := GetMimeType(key);
      assert KindName(kind) != "error";
  }

  /** Text and CSV files (and so their records) can fail only in the fetch. */
  lemma TextAndCsvFailOnlyInFetch(io: Io, key: string)
    requires GetMimeType(key) == Text || GetMimeType(key) == Csv
    requires io.getFileBuffer(key).Ok?
    ensures EntryFor(io, key).entryType != "error"
    ensures EntryFor(io, key).content ==
      (if GetMimeType(key) == Text then io.utf8(io.getFileBuffer(key).value) else io.csvJson(io.getFileBuffer(key).value))
  {
  }

  /** A batch is a map over its keys: adding a key adds its record at the end and changes no other. */
  lemma {:induction false} FileContentsAppend(io: Io, keys: seq<string>, key: string)
    ensures FileContents(io, keys + [key]) == FileContents(io, keys) + [EntryFor(io, key)]
  {
    var a, b := FileContents(io, keys + [key]), FileContents(io, keys) + [EntryFor(io, key)];
    assert |a| == |b|;
    forall i | 0 <= i < |a|
      ensures a[i] == b[i]
    {
      if i < |keys| {
        assert (keys + [key])[i] == keys[i];
      }
    }
  }

  lemma CsvEntry(io: Io, key: string)
    requires GetMimeType(key) == Csv && io.getFileBuffer(key).Ok?
    ensures EntryFor(io, key) == McpPrompts.FileEntry(BaseName(key), key, io.csvJson(io.getFileBuffer(key).value), "csv")
  {
    assert Extract(io, Csv, io.getFileBuffer(key).value) == Some(Ok(io.csvJson(io.getFileBuffer(key).value)));
  }

  lemma CorruptPdfEntry(io: Io, key: string)
    requires GetMimeType(key) == Pdf && io.getFileBuffer(key).Ok?
    requires io.pdfParse(io.getFileBuffer(key).value).None?
    ensures EntryFor(io, key) == ErrorEntry(key, PdfFailure)
  {
    assert Extract(io, Pdf, io.getFileBuffer(key).value) == Some(Err(PdfFailure));
  }

  /**
   * A batch of a readable CSV file and a corrupt PDF: both keep their records, in order; the
   * PDF's record is an error placeholder (`McpPrompts.TwoBlocks` then lays out both blocks).
   */
  lemma OneCorruptFileKeepsBatch(io: Io, csvKey: string, pdfKey: string)
    requires GetMimeType(csvKey) == Csv && GetMimeType(pdfKey) == Pdf
    requires io.getFileBuffer(csvKey).Ok? && io.getFileBuffer(pdfKey).Ok?
    requires io.pdfParse(io.getFileBuffer(pdfKey).value).None?
    ensures FileContents(io, [csvKey, pdfKey]) == [
      McpPrompts.FileEntry(BaseName(csvKey), csvKey, io.csvJson(io.getFileBuffer(csvKey).value), "csv"),
      ErrorEntry(pdfKey, PdfFailure)]
  {
    CsvEntry(io, csvKey);
    CorruptPdfEntry(io, pdfKey);
    FileContentsPair(io, csvKey, pdfKey);
  }

  lemma FileContentsPair(io: Io, a: string, b: string)
    ensures FileContents(io, [a, b]) == [EntryFor(io, a), EntryFor(io, b)]
  {
    var keys := [a, b];
    assert FileContents(io, keys)[0] == EntryFor(io, keys[0]);
    assert FileContents(io, keys)[1] == EntryFor(io, keys[1]);
  }

  /** The system prompt `analyzeFile` sends is the service's own prompt for the key's kind. */
  lemma {:induction false} PromptTablesAgree(key: string)
    ensures McpPrompts.PromptFor(GetFullMimeType(key)) == SystemPrompt(KindName(GetMimeType(key)))
  {
    var kind, full := GetMimeType(key), GetFullMimeType(key);
    TablesAgree(key);
    SystemPromptOfKind(kind);
    match kind
    case Image => McpPrompts.ImageTypesGetImagePrompt(full);
    case Pdf => PdfPromptFor();
    case Text => TextPromptFor();
    case Csv => CsvPromptFor();
    case Docx => WordPromptFor();
    case Unknown => OctetStreamPromptFor();
  }

  lemma PdfPromptFor()
    ensures McpPrompts.PromptFor("application/pdf") == McpPrompts.PdfPrompt
  {
    NotImageType("application/pdf");
    McpPrompts.FirstPrefixMatchAt(McpPrompts.PromptTable, "application/pdf", 1);
  }

  lemma TextPromptFor()
    ensures McpPrompts.PromptFor("text/plain") == McpPrompts.TextPrompt
  {
    NotImageType("text/plain");
    assert !StartsWith("text/plain", "application/pdf");
    McpPrompts.FirstPrefixMatchAt(McpPrompts.PromptTable, "text/plain", 2);
  }

  lemma CsvPromptFor()
    ensures McpPrompts.PromptFor("text/csv") == McpPrompts.CsvPrompt
  {
    NotImageType("text/csv");
    assert !StartsWith("text/csv", "application/pdf");
    assert "text/csv"[5] == 'c' && "text/plain"[5] == 'p';
    assert !StartsWith("text/csv", "text/plain");
    McpPrompts.FirstPrefixMatchAt(McpPrompts.PromptTable, "text/csv", 3);
  }

  /** Neither Word type starts with an earlier key of the client's table. */
  lemma WordTypesSkipEarlierKeys(m: string)
    requires m == WordXmlMime || m == "application/msword"
    ensures forall j :: 0 <= j < 4 ==> !StartsWith(m, McpPrompts.PromptTable[j].0)
  {
    NotImageType(m);
    assert m[12] != 'p' && "application/pdf"[12] == 'p';
    assert !StartsWith(m, "application/pdf");
    assert m[0] != 't' && "text/plain"[0] == 't' && "text/csv"[0] == 't';
    assert !StartsWith(m, "text/plain") && !StartsWith(m, "text/csv");
  }

  lemma WordPromptFor()
    ensures McpPrompts.PromptFor(WordXmlMime) == McpPrompts.WordPrompt
    ensures McpPrompts.PromptFor("application/msword") == McpPrompts.WordPrompt
  {
    WordTypesSkipEarlierKeys(WordXmlMime);
    McpPrompts.FirstPrefixMatchAt(McpPrompts.PromptTable, WordXmlMime, 4);
    WordTypesSkipEarlierKeys("application/msword");
    assert "application/msword"[12] == 'm' && WordXmlMime[12] == 'v';
    assert !StartsWith("application/msword", WordXmlMime);
    McpPrompts.FirstPrefixMatchAt(McpPrompts.PromptTable, "application/msword", 5);
  }

  lemma OctetStreamPromptFor()
    ensures McpPrompts.PromptFor(OctetStream) == McpPrompts.GenericPrompt
  {
    NotImageType(OctetStream);
    assert OctetStream[12] == 'o' && WordXmlMime[12] == 'v';
    assert "application/pdf"[12] == 'p' && "application/msword"[12] == 'm';
    assert !StartsWith(OctetStream, "application/pdf");
    assert !StartsWith(OctetStream, "text/plain") && !StartsWith(OctetStream, "text/csv");
    assert !StartsWith(OctetStream, WordXmlMime);
    assert !StartsWith(OctetStream, "application/msword");
    McpPrompts.FirstPrefixMatchNone(McpPrompts.PromptTable, OctetStream);
  }

  const AnalyzeFailure := "Failed to analyze file"
  const SummarizeFailure := "Failed to summarize file"
  const ImageSummaryQuestion := "Please provide a comprehensive summary of this image."

  /** `FileAnalysisService`: every call goes through the one client it was built with. */
  class FileAnalysisService {
    const client: McpClient.AzureMcpClient
    const io: Io

    /** The constructor calls `initializeClient`, which swallows `initialize`'s error. */
    constructor(client: McpClient.AzureMcpClient, io: Io, spawnFailure: Option<string>)
      modifies client
      ensures this.client == client && this.io == io
      ensures spawnFailure.None? ==> client.isConnected && client.reconnectAttempts == 0
      ensures spawnFailure.None? ==>
        client.Snapshot() == McpClient.Run(old(client.Snapshot()), [McpClient.Initialize(false), McpClient.StartupWaitEnds])
      ensures spawnFailure.Some? ==> client.Snapshot() == McpClient.Step(old(client.Snapshot()), McpClient.Initialize(true))
      ensures old(client.Valid()) ==> client.Valid()
    {
      this.client := client;
      this.io := io;
      new;
      InitializeClient(spawnFailure);
    }

    method InitializeClient(spawnFailure: Option<string>)
      modifies client
      ensures spawnFailure.None? ==> client.isConnected && client.reconnectAttempts == 0
      ensures spawnFailure.None? ==>
        client.Snapshot() == McpClient.Run(old(client.Snapshot()), [McpClient.Initialize(false), McpClient.StartupWaitEnds])
      ensures spawnFailure.Some? ==> client.Snapshot() == McpClient.Step(old(client.Snapshot()), McpClient.Initialize(true))
      ensures old(client.Valid()) ==> client.Valid()
    {
      var _ := client.Initialize(spawnFailure);
    }

    /** `analyzeFile(fileName, query)`. */
    method AnalyzeFile(fileName: string, query: string, complete: McpClient.Completion) returns (r: Result<string>)
      ensures r.Err? ==> r.error == AnalyzeFailure
      ensures io.getFileBuffer(fileName).Err? || GetMimeType(fileName) == Unknown || !client.hasOpenAIClient ==> r.Err?
      ensures io.getFileBuffer(fileName).Ok? && GetMimeType(fileName) == Image ==>
        (r.Ok? <==> client.AnalyzeImage(io.base64(io.getFileBuffer(fileName).value), query, complete).Ok?) &&
        (r.Ok? ==> r == client.AnalyzeImage(io.base64(io.getFileBuffer(fileName).value), query, complete))
      ensures io.getFileBuffer(fileName).Ok? && GetMimeType(fileName) != Image ==>
        match Extract(io, GetMimeType(fileName), io.getFileBuffer(fileName).value)
        case None => r.Err?
        case Some(Err(_)) => r.Err?
        case Some(Ok(text)) =>
          (r.Ok? <==> client.AnalyzeFile(text, fileName, GetFullMimeType(fileName), query, complete).Ok?) &&
          (r.Ok? ==> r == client.AnalyzeFile(text, fileName, GetFullMimeType(fileName), query, complete))
    {
      var fetched := io.getFileBuffer(fileName);
      if fetched.Err? {
        return Err(AnalyzeFailure);
      }
      var buffer := fetched.value;
      var fullMimeType := GetFullMimeType(fileName);
      var simpleMimeType := GetMimeType(fileName);
      if simpleMimeType == Image {
        var base64Image := io.base64(buffer);
        r := client.AnalyzeImage(base64Image, query, complete);
        if r.Err? {
          r := Err(AnalyzeFailure);
        }
        return;
      }
      var extractedContent := "";
      match simpleMimeType {
        case Pdf =>
          var text := ExtractPdfText(io, buffer);
          if text.Err? {
            return Err(AnalyzeFailure);
          }
          extractedContent := text.value;
        case Text =>
          extractedContent := io.utf8(buffer);
        case Csv =>
          extractedContent := io.csvJson(buffer);
        case Docx =>
          var text := ExtractDocxText(io, buffer);
          if text.Err? {
            return Err(AnalyzeFailure);
          }
          extractedContent := text.value;
        case Unknown =>
          return Err(AnalyzeFailure);
      }
      r := client.AnalyzeFile(extractedContent, fileName, fullMimeType, query, complete);
      if r.Err? {
        r := Err(AnalyzeFailure);
      }
    }

    /** `summarizeFile(fileName)`: images get a fixed question, documents the summary request. */
    method SummarizeFile(fileName: string, complete: McpClient.Completion) returns (r: Result<string>)
      ensures r.Err? ==> r.error == SummarizeFailure
      ensures io.getFileBuffer(fileName).Err? || GetMimeType(fileName) == Unknown || !client.hasOpenAIClient ==> r.Err?
      ensures io.getFileBuffer(fileName).Ok? && GetMimeType(fileName) == Image ==>
        (r.Ok? <==> client.AnalyzeImage(io.base64(io.getFileBuffer(fileName).value), ImageSummaryQuestion, complete).Ok?) &&
        (r.Ok? ==> r == client.AnalyzeImage(io.base64(io.getFileBuffer(fileName).value), ImageSummaryQuestion, complete))
      ensures io.getFileBuffer(fileName).Ok? && GetMimeType(fileName) != Image ==>
        match Extract(io, GetMimeType(fileName), io.getFileBuffer(fileName).value)
        case None => r.Err?
        case Some(Err(_)) => r.Err?
        case Some(Ok(text)) =>
          (r.Ok? <==> client.SummarizeContent(text, KindName(GetMimeType(fileName)), complete).Ok?) &&
          (r.Ok? ==> r == client.SummarizeContent(text, KindName(GetMimeType(fileName)), complete))
    {
      var fetched := io.getFileBuffer(fileName);
      if fetched.Err? {
        return Err(SummarizeFailure);
      }
      var buffer := fetched.value;
      var simpleMimeType := GetMimeType(fileName);
      if simpleMimeType == Image {
        var base64Image := io.base64(buffer);
        r := client.AnalyzeImage(base64Image, ImageSummaryQuestion, complete);
        if r.Err? {
          r := Err(SummarizeFailure);
        }
        return;
      }
      var extractedContent := "";
      match simpleMimeType {
        case Pdf =>
          var text := ExtractPdfText(io, buffer);
          if text.Err? {
            return Err(SummarizeFailure);
          }
          extractedContent := text.value;
        case Text =>
          extractedContent := io.utf8(buffer);
        case Csv =>
          extractedContent := io.csvJson(buffer);
        case Docx =>
          var text := ExtractDocxText(io, buffer);
          if text.Err? {
            return Err(SummarizeFailure);
          }
          extractedContent := text.value;
        case Unknown =>
          return Err(SummarizeFailure);
      }
      r := client.SummarizeContent(extractedContent, KindName(simpleMimeType), complete);
      if r.Err? {
        r := Err(SummarizeFailure);
      }
    }

    /** One iteration of the batch loop, with its own try/catch. */
    method LoadEntry(key: string) returns (entry: McpPrompts.FileEntry)
      ensures entry == EntryFor(io, key)
    {
      var fetched := io.getFileBuffer(key);
      if fetched.Err? {
        return ErrorEntry(key, fetched.error);
      }
      var buffer := fetched.value;
      var simpleMimeType := GetMimeType(key);
      var extractedContent := "";
      if simpleMimeType == Image {
        extractedContent := "[Image: " + BaseName(key) + "]";
      } else {
        match simpleMimeType {
          case Pdf =>
            var text := ExtractPdfText(io, buffer);
            if text.Err? {
              return ErrorEntry(key, text.error);
            }
            extractedContent := text.value;
          case Text =>
            extractedContent := io.utf8(buffer);
          case Csv =>
            extractedContent := io.csvJson(buffer);
          case Docx =>
            var text := ExtractDocxText(io, buffer);
            if text.Err? {
              return ErrorEntry(key, text.error);
            }
            extractedContent := text.value;
          case Unknown =>
            extractedContent := "[Unsupported file type: " + BaseName(key) + "]";
        }
      }
      return McpPrompts.FileEntry(BaseName(key), key, extractedContent, KindName(simpleMimeType));
    }

    /** The `for...of` loop of `analyzeMultipleFiles`: one pushed record per key, none skipped. */
    method CollectFileContents(fileNames: seq<string>) returns (entries: seq<McpPrompts.FileEntry>)
      ensures entries == FileContents(io, fileNames)
    {
      entries := [];
      var i := 0;
      while i < |fileNames|
        invariant 0 <= i <= |fileNames|
        invariant entries == FileContents(io, fileNames[..i])
      {
        var key := fileNames[i];
        var entry := LoadEntry(key);
        FileContentsAppend(io, fileNames[..i], key);
        assert fileNames[..i + 1] == fileNames[..i] + [key];
        entries := entries + [entry];
        assert entries == FileContents(io, fileNames[..i] + [key]);
        i := i + 1;
      }
      assert fileNames[..i] == fileNames;
    }

    /**
     * `analyzeMultipleFiles(fileNames, query)`: no key aborts the loop; the client's error
     * (already prefixed by the client) is prefixed once more.
     */
    method AnalyzeMultipleFiles(fileNames: seq<string>, query: string, complete: McpClient.Completion)
      returns (r: Result<string>)
      ensures !client.hasOpenAIClient ==>
        r == Err(McpClient.MultiFileFailure + (McpClient.MultiFileFailure + McpClient.NotConfigured))
      ensures client.hasOpenAIClient && complete(McpPrompts.MultiFileRequest(FileContents(io, fileNames), query)).Ok? ==>
        r == complete(McpPrompts.MultiFileRequest(FileContents(io, fileNames), query))
      ensures client.hasOpenAIClient && complete(McpPrompts.MultiFileRequest(FileContents(io, fileNames), query)).Err? ==>
        r == Err(McpClient.MultiFileFailure +
          (McpClient.MultiFileFailure + complete(McpPrompts.MultiFileRequest(FileContents(io, fileNames), query)).error))
    {
      var entries := CollectFileContents(fileNames);
      var reply := client.AnalyzeMultipleFiles(entries, query, complete);
      if reply.Err? {
        return Err(McpClient.MultiFileFailure + reply.error);
      }
      return reply;
    }

    /** `analyzeImage(buffer, query)`. */
    method AnalyzeImage(buffer: Bytes, query: string, complete: McpClient.Completion) returns (r: Result<string>)
      ensures r.Err? ==> r.error == "Failed to analyze image"
      ensures r == client.AnalyzeImage(io.base64(buffer), query, complete)
    {
      var base64Image := io.base64(buffer);
      r := client.AnalyzeImage(base64Image, query, complete);
      if r.Err? {
        r := Err("Failed to analyze image");
      }
    }

    /** `generateResponse`: the client's `analyzeFile` with the name 'file' and `fileType` as the MIME type. */
    method GenerateResponse(content: string, query: string, fileType: string, complete: McpClient.Completion)
      returns (r: Result<string>)
      ensures r.Err? ==> r.error == "Failed to generate response"
      ensures r.Ok? <==> client.AnalyzeFile(content, "file", fileType, query, complete).Ok?
      ensures r.Ok? ==> r == client.AnalyzeFile(content, "file", fileType, query, complete)
    {
      r := client.AnalyzeFile(content, "file", fileType, query, complete);
      if r.Err? {
        r := Err("Failed to generate response");
      }
    }
  }
}
