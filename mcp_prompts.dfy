/**
 * The request builders of `AzureMCPClient`: the system-prompt table for a full MIME type,
 * the single-file, image and summary message templates, and the combined prompt of a
 * multi-file analysis with its per-file truncation.
 */
module McpPrompts {
  import opened Common

  /** A chat message sent to the completion endpoint. */
  datatype Message =
    | SystemMessage(text: string)
    | UserMessage(text: string)
      // a user message with a text part and an image_url part
    | UserImageMessage(text: string, imageUrl: string)

  /** The arguments of one `chat.completions.create` call (deployment and temperature left out). */
  datatype ChatRequest = ChatRequest(messages: seq<Message>, maxTokens: nat)

  /** One element of the `fileContents` array handed to `analyzeMultipleFiles`. */
  datatype FileEntry = FileEntry(fileName: string, fullPath: string, content: string, entryType: string)

  // ---------------------------------------------------------------- system prompts

  const ImagePrompt := "You are an AI assistant that analyzes images. Provide detailed, accurate descriptions and answer questions about visual content."
  const PdfPrompt := "You are an AI assistant that analyzes PDF documents. Provide summaries, extract key information, and answer questions about the document content."
  const TextPrompt := "You are an AI assistant that analyzes text files. Provide summaries, analyze content, and answer questions about the text."
  const CsvPrompt := "You are an AI assistant that analyzes CSV data. Provide data insights, statistics, and answer questions about the dataset."
  const WordPrompt := "You are an AI assistant that analyzes Word documents. Provide summaries, extract key information, and answer questions about the document content."
  const GenericPrompt := "You are an AI assistant that analyzes files. Provide helpful information and answer questions about the file content."

  /** The prompt table in the order `Object.entries` visits it. */
  const PromptTable: seq<(string, string)> := [
    ("image/", ImagePrompt),
    ("application/pdf", PdfPrompt),
    ("text/plain", TextPrompt),
    ("text/csv", CsvPrompt),
    (WordXmlMime, WordPrompt),
    ("application/msword", WordPrompt)]

  /** The prompt of the first entry of `table` whose key is a prefix of `mimeType`. */
  function FirstPrefixMatch(table: seq<(string, string)>, mimeType: string): (p: string)
  {
    if table == [] then GenericPrompt
    else if StartsWith(mimeType, table[0].0) then table[0].1
    else FirstPrefixMatch(table[1..], mimeType)
  }

  /** The prompt `getSystemPrompt(mimeType)` returns. */
  function PromptFor(mimeType: string): string
  {
    FirstPrefixMatch(PromptTable, mimeType)
  }

  /** `getSystemPrompt(mimeType)`: scans the table in order and returns at the first prefix match. */
  method GetSystemPrompt(mimeType: string) returns (prompt: string)
    ensures prompt == PromptFor(mimeType)
    ensures (forall i :: 0 <= i < |PromptTable| ==> !StartsWith(mimeType, PromptTable[i].0)) ==>
      prompt == GenericPrompt
    ensures forall i ::
      (0 <= i < |PromptTable| && StartsWith(mimeType, PromptTable[i].0) &&
       (forall j :: 0 <= j < i ==> !StartsWith(mimeType, PromptTable[j].0)))
      ==> prompt == PromptTable[i].1
  {
    var i := 0;
    while i < |PromptTable|
      invariant 0 <= i <= |PromptTable|
      invariant forall j :: 0 <= j < i ==> !StartsWith(mimeType, PromptTable[j].0)
      invariant FirstPrefixMatch(PromptTable[i..], mimeType) == PromptFor(mimeType)
    {
      if StartsWith(mimeType, PromptTable[i].0) {
        return PromptTable[i].1;
      }
      assert PromptTable[i..][1..] == PromptTable[i + 1..];
      i := i + 1;
    }
    return GenericPrompt;
  }

  /** The entry that decides is the first one whose key is a prefix. */
  lemma {:induction false} FirstPrefixMatchAt(table: seq<(string, string)>, mimeType: string, i: nat)
    requires i < |table| && StartsWith(mimeType, table[i].0)
    requires forall j :: 0 <= j < i ==> !StartsWith(mimeType, table[j].0)
    ensures FirstPrefixMatch(table, mimeType) == table[i].1
    decreases i
  {
    if i > 0 {
      assert !StartsWith(mimeType, table[0].0);
      forall j | 0 <= j < i - 1
        ensures !StartsWith(mimeType, table[1..][j].0)
      {
        assert table[1..][j] == table[j + 1];
      }
      FirstPrefixMatchAt(table[1..], mimeType, i - 1);
    }
  }

  /** With no key a prefix, the generic prompt. */
  lemma {:induction false} FirstPrefixMatchNone(table: seq<(string, string)>, mimeType: string)
    requires forall j :: 0 <= j < |table| ==> !StartsWith(mimeType, table[j].0)
    ensures FirstPrefixMatch(table, mimeType) == GenericPrompt
    decreases |table|
  {
    if table != [] {
      assert !StartsWith(mimeType, table[0].0);
      forall j | 0 <= j < |table| - 1
        ensures !StartsWith(mimeType, table[1..][j].0)
      {
        assert table[1..][j] == table[j + 1];
      }
      FirstPrefixMatchNone(table[1..], mimeType);
    }
  }

  /** Every `image/...` type gets the image prompt, whatever follows the slash. */
  lemma ImageTypesGetImagePrompt(mimeType: string)
    requires StartsWith(mimeType, "image/")
    ensures PromptFor(mimeType) == ImagePrompt
  {
  }

  lemma {:induction false} FirstPrefixMatchIsTableOrGeneric(table: seq<(string, string)>, mimeType: string)
    ensures FirstPrefixMatch(table, mimeType) == GenericPrompt ||
      exists i :: 0 <= i < |table| && FirstPrefixMatch(table, mimeType) == table[i].1
  {
    if table != [] && !StartsWith(mimeType, table[0].0) {
      FirstPrefixMatchIsTableOrGeneric(table[1..], mimeType);
      if FirstPrefixMatch(table[1..], mimeType) != GenericPrompt {
        var i :| 0 <= i < |table[1..]| && FirstPrefixMatch(table[1..], mimeType) == table[1..][i].1;
        assert table[i + 1].1 == table[1..][i].1;
      }
    }
  }

  // ---------------------------------------------------------------- single-file templates

  const SingleFileMaxTokens := 1500
  const ImageMaxTokens := 1000
  const MultiFileMaxTokens := 3000

  function FileHead(fileName: string): string
  {
    "File: " + fileName + "\nContent: "
  }

  function QuestionTail(query: string): string
  {
    "\n\nQuestion: " + query
  }

  /**
   * The user message of `analyzeFile`: `File: <name>\nContent: <content>\n\nQuestion: <query>`,
   * with the extracted content embedded verbatim between the head and the question.
   */
  function FileQuestion(fileName: string, content: string, query: string): (text: string)
    ensures |text| == |FileHead(fileName)| + |content| + |QuestionTail(query)|
    ensures text[..|FileHead(fileName)|] == FileHead(fileName)
    ensures text[|FileHead(fileName)|..|FileHead(fileName)| + |content|] == content
    ensures text[|FileHead(fileName)| + |content|..] == QuestionTail(query)
  {
    FileHead(fileName) + content + QuestionTail(query)
  }

  /** The request `analyzeFile(fileContent, fileName, mimeType, query)` sends. */
  function FileRequest(content: string, fileName: string, mimeType: string, query: string): (r: ChatRequest)
    ensures |r.messages| == 2 && r.maxTokens == SingleFileMaxTokens
    ensures r.messages[0] == SystemMessage(PromptFor(mimeType))
    ensures r.messages[1] == UserMessage(FileQuestion(fileName, content, query))
  {
    ChatRequest([SystemMessage(PromptFor(mimeType)), UserMessage(FileQuestion(fileName, content, query))],
                SingleFileMaxTokens)
  }

  const DefaultImageQuestion := "Please analyze this image and provide a detailed description."
  const ImageUrlPrefix := "data:image/jpeg;base64,"

  /** The request `analyzeImage(base64Image, query)` sends; an empty query falls back to a default. */
  function ImageRequest(base64Image: string, query: string): (r: ChatRequest)
    ensures |r.messages| == 1 && r.messages[0].UserImageMessage? && r.maxTokens == ImageMaxTokens
    ensures r.messages[0].text == (if query == "" then DefaultImageQuestion else query)
    ensures StartsWith(r.messages[0].imageUrl, ImageUrlPrefix)
    ensures r.messages[0].imageUrl[|ImageUrlPrefix|..] == base64Image
  {
    var text := if query == "" then DefaultImageQuestion else query;
    ChatRequest([UserImageMessage(text, ImageUrlPrefix + base64Image)], ImageMaxTokens)
  }

  const SummaryRequestIntro := "Please provide a comprehensive summary of the following content:\n\n"

  const SummaryPromptHead := "You are an AI assistant that creates concise summaries. Focus on the main points, key information, and important details from "
  const SummaryPromptTail := " content."

  /** The summary system prompt names the file type between a fixed head and tail. */
  function SummaryPrompt(fileType: string): (p: string)
    ensures |p| == |SummaryPromptHead| + |fileType| + |SummaryPromptTail|
    ensures p[..|SummaryPromptHead|] == SummaryPromptHead
    ensures p[|SummaryPromptHead|..|SummaryPromptHead| + |fileType|] == fileType
    ensures p[|SummaryPromptHead| + |fileType|..] == SummaryPromptTail
  {
    SummaryPromptHead + fileType + SummaryPromptTail
  }

  /** The request `summarizeContent(content, fileType)` sends. */
  function SummaryRequest(content: string, fileType: string): (r: ChatRequest)
    ensures |r.messages| == 2 && r.maxTokens == SingleFileMaxTokens
    ensures r.messages[0] == SystemMessage(SummaryPrompt(fileType)) && r.messages[1].UserMessage?
    ensures |r.messages[1].text| == |SummaryRequestIntro| + |content|
    ensures r.messages[1].text[..|SummaryRequestIntro|] == SummaryRequestIntro
    ensures r.messages[1].text[|SummaryRequestIntro|..] == content
  {
    ChatRequest([SystemMessage(SummaryPrompt(fileType)), UserMessage(SummaryRequestIntro + content)], SingleFileMaxTokens)
  }

  const ExtractPromptHead := "You are an AI assistant that extracts specific data from documents. Extract "
  const ExtractPromptMiddle := " from the "
  const ExtractPromptTail := " content and format it clearly."

  /** The system prompt of `extractData`: the data type and the file type between fixed pieces. */
  function ExtractDataPrompt(fileType: string, dataType: string): (p: string)
    ensures |p| == |ExtractPromptHead| + |dataType| + |ExtractPromptMiddle| + |fileType| + |ExtractPromptTail|
    ensures p[..|ExtractPromptHead|] == ExtractPromptHead
    ensures p[|ExtractPromptHead|..|ExtractPromptHead| + |dataType|] == dataType
    ensures p[|ExtractPromptHead| + |dataType|..|ExtractPromptHead| + |dataType| + |ExtractPromptMiddle|]
      == ExtractPromptMiddle
    ensures p[|ExtractPromptHead| + |dataType| + |ExtractPromptMiddle|..|p| - |ExtractPromptTail|] == fileType
    ensures p[|p| - |ExtractPromptTail|..] == ExtractPromptTail
  {
    ExtractPromptHead + dataType + ExtractPromptMiddle + fileType + ExtractPromptTail
  }

  const ExtractQuestionHead := "Extract "
  const ExtractQuestionMiddle := " from the following content and format it in a structured way:\n\n"

  /** The user message of `extractData`: the data type between fixed pieces, then the content verbatim. */
  function ExtractDataQuestion(content: string, dataType: string): (q: string)
    ensures |q| == |ExtractQuestionHead| + |dataType| + |ExtractQuestionMiddle| + |content|
    ensures q[..|ExtractQuestionHead|] == ExtractQuestionHead
    ensures q[|ExtractQuestionHead|..|ExtractQuestionHead| + |dataType|] == dataType
    ensures q[|ExtractQuestionHead| + |dataType|..|q| - |content|] == ExtractQuestionMiddle
    ensures q[|q| - |content|..] == content
  {
    ExtractQuestionHead + dataType + ExtractQuestionMiddle + content
  }

  /** The request `extractData(content, fileType, dataType)` sends. */
  function ExtractDataRequest(content: string, fileType: string, dataType: string): (r: ChatRequest)
    ensures |r.messages| == 2 && r.maxTokens == SingleFileMaxTokens
    ensures r.messages[0] == SystemMessage(ExtractDataPrompt(fileType, dataType))
    ensures r.messages[1] == UserMessage(ExtractDataQuestion(content, dataType))
  {
    ChatRequest([SystemMessage(ExtractDataPrompt(fileType, dataType)), UserMessage(ExtractDataQuestion(content, dataType))],
                SingleFileMaxTokens)
  }

  // ---------------------------------------------------------------- multi-file prompt

  const MaxContentLength: nat := 8000
  const TruncationMarker := "\n... [Content truncated due to length]"

  /** A file's content as it enters the combined prompt. */
  function Truncate(content: string): (r: string)
    ensures |content| <= MaxContentLength ==> r == content
    ensures |content| > MaxContentLength ==>
      |r| == MaxContentLength + |TruncationMarker| &&
      r[..MaxContentLength] == content[..MaxContentLength] &&
      r[MaxContentLength..] == TruncationMarker
  {
    if |content| > MaxContentLength then content[..MaxContentLength] + TruncationMarker else content
  }

  lemma TruncateBounded(content: string)
    ensures |Truncate(content)| <= MaxContentLength + |TruncationMarker|
  {
  }

  /** Truncating twice gives what truncating once gives. */
  lemma TruncateIdempotent(content: string)
    ensures Truncate(Truncate(content)) == Truncate(content)
  {
    if |content| > MaxContentLength {
      var t := Truncate(content);
      assert t[..MaxContentLength] == content[..MaxContentLength];
    }
  }

  /** A 20,000-character content is cut to exactly its first 8,000 characters and the marker. */
  lemma LongContentTruncated(content: string)
    requires |content| == 20000
    ensures Truncate(content) == content[..8000] + TruncationMarker
    ensures |Truncate(content)| == 8000 + |TruncationMarker|
  {
  }

  const MultiFilePrompt := "You are an AI assistant that analyzes multiple files together. Compare, contrast, and provide insights across all the provided files. When referencing specific files, mention them by name. Focus on actionable insights and key findings."

  function Preamble(count: nat): string
  {
    "I have " + NatToString(count) + " files to analyze:\n\n"
  }

  /** The block of the file at 0-based position `index`. */
  function Block(index: nat, file: FileEntry): string
  {
    BlockHeader(index, file) + BlockBody(file)
  }

  /** `File <index + 1>: <fileName> (<type>)` and a newline. */
  function BlockHeader(index: nat, file: FileEntry): string
  {
    "File " + NatToString(index + 1) + ": " + file.fileName + " (" + file.entryType + ")\n"
  }

  /** `Content: <truncated content>` and the block separator. */
  function BlockBody(file: FileEntry): string
  {
    "Content: " + Truncate(file.content) + "\n\n---\n\n"
  }

  /** The blocks of `files[from..]`, each numbered by its position in `files`. */
  function BlocksFrom(files: seq<FileEntry>, from: nat): string
    decreases |files| - from
  {
    if from >= |files| then "" else Block(from, files[from]) + BlocksFrom(files, from + 1)
  }

  /** The block of every file, in order. */
  function BlockList(files: seq<FileEntry>): (blocks: seq<string>)
    ensures |blocks| == |files|
    ensures forall i :: 0 <= i < |files| ==> blocks[i] == Block(i, files[i])
  {
    seq(|files|, i requires 0 <= i < |files| => Block(i, files[i]))
  }

  /** The blocks from `from` on are the join of the block list from `from` on. */
  lemma {:induction false} BlocksFromJoin(files: seq<FileEntry>, from: nat)
    ensures BlocksFrom(files, from) == JoinFrom(BlockList(files), from)
    decreases |files| - from
  {
    if from < |files| {
      BlocksFromJoin(files, from + 1);
      var block, rest := Block(from, files[from]), BlocksFrom(files, from + 1);
      assert BlocksFrom(files, from) == block + rest;
      assert BlockList(files)[from] == block;
    }
  }

  const QuestionLabel := "Question: "

  /** The user message of a multi-file analysis. */
  function CombinedContent(files: seq<FileEntry>, query: string): string
  {
    Preamble(|files|) + BlocksFrom(files, 0) + QuestionLabel + query
  }

  /** `analyzeMultipleFiles`' `combinedContent`, built with `+=` inside `forEach`. */
  method BuildCombinedContent(files: seq<FileEntry>, query: string) returns (combined: string)
    ensures combined == CombinedContent(files, query)
  {
    combined := Preamble(|files|);
    var index := 0;
    while index < |files|
      invariant 0 <= index <= |files|
      invariant combined + BlocksFrom(files, index) == Preamble(|files|) + BlocksFrom(files, 0)
    {
      var file := files[index];
      var content := file.content;
      if |content| > MaxContentLength {
        content := content[..MaxContentLength] + TruncationMarker;
      }
      ghost var before := combined;
      var header := "File " + NatToString(index + 1) + ": " + file.fileName + " (" + file.entryType + ")\n";
      var body := "Content: " + content + "\n\n---\n\n";
      combined := combined + header;
      combined := combined + body;
      var rest := BlocksFrom(files, index + 1);
      assert header == BlockHeader(index, file) && body == BlockBody(file);
      assert BlocksFrom(files, index) == Block(index, file) + rest;
      assert Block(index, file) == header + body;
      ConcatRegroup(before, header, body, rest);
      index := index + 1;
    }
    combined := combined + QuestionLabel + query;
  }

  /** The request `analyzeMultipleFiles(fileContents, query)` sends. */
  function MultiFileRequest(files: seq<FileEntry>, query: string): (r: ChatRequest)
    ensures r.messages == [SystemMessage(MultiFilePrompt), UserMessage(CombinedContent(files, query))]
    ensures r.maxTokens == MultiFileMaxTokens
  {
    ChatRequest([SystemMessage(MultiFilePrompt), UserMessage(CombinedContent(files, query))], MultiFileMaxTokens)
  }

  /**
   * The blocks split at any position: the prompt is the preamble, the blocks of the files
   * before `k` in order, the block of file `k`, the blocks after it, and the question.
   */
  lemma BlocksSplit(files: seq<FileEntry>, from: nat, k: nat)
    requires from <= k < |files|
    ensures BlocksFrom(files, from) == BlocksFrom(files[..k], from) + Block(k, files[k]) + BlocksFrom(files, k + 1)
  {
    var blocks, before := BlockList(files), BlockList(files[..k]);
    BlocksFromJoin(files, from);
    BlocksFromJoin(files[..k], from);
    BlocksFromJoin(files, k + 1);
    PrefixBlocksAgree(files, k);
    JoinFromSplit(before, blocks, from, k);
    assert blocks[k] == Block(k, files[k]);
  }

  /** The files before `k` have the same blocks on their own as in the whole list. */
  lemma PrefixBlocksAgree(files: seq<FileEntry>, k: nat)
    requires k <= |files|
    ensures forall i :: 0 <= i < k ==> BlockList(files[..k])[i] == BlockList(files)[i]
  {
    forall i | 0 <= i < k
      ensures BlockList(files[..k])[i] == BlockList(files)[i]
    {
      assert files[..k][i] == files[i];
    }
  }

  /**
   * The combined prompt opens with the file count, places the block of file `k` (numbered
   * k + 1) right after the blocks of the files before it, and closes with the question.
   */
  lemma CombinedLayout(files: seq<FileEntry>, query: string, k: nat)
    requires k < |files|
    ensures CombinedContent(files, query) ==
      Preamble(|files|) + BlocksFrom(files[..k], 0) + Block(k, files[k]) + BlocksFrom(files, k + 1) + QuestionLabel + query
  {
    BlocksSplit(files, 0, k);
    var p, b1, bk, bt := Preamble(|files|), BlocksFrom(files[..k], 0), Block(k, files[k]), BlocksFrom(files, k + 1);
    assert BlocksFrom(files, 0) == (b1 + bk) + bt;
    ConcatRegroup(p, b1, bk, bt);
  }

  /** A batch of two files has exactly their two blocks. */
  lemma TwoBlocks(files: seq<FileEntry>, query: string)
    requires |files| == 2
    ensures CombinedContent(files, query) == Preamble(2) + (Block(0, files[0]) + Block(1, files[1])) + QuestionLabel + query
  {
    assert BlocksFrom(files, 2) == "";
    assert BlocksFrom(files, 1) == Block(1, files[1]) + "";
    assert Block(1, files[1]) + "" == Block(1, files[1]);
  }

  lemma CombinedFraming(files: seq<FileEntry>, query: string)
    ensures StartsWith(CombinedContent(files, query), Preamble(|files|))
    ensures CombinedContent(files, query)[|CombinedContent(files, query)| - |QuestionLabel + query|..] == QuestionLabel + query
  {
    var p, b, q := Preamble(|files|), BlocksFrom(files, 0), QuestionLabel + query;
    ConcatAssoc(p + b, QuestionLabel, query);
    var c := (p + b) + q;
    assert c[..|p|] == p;
    assert c[|c| - |q|..] == q;
  }

  /** Adding a file at the end adds exactly its block before the question (and updates the count). */
  lemma AppendFileAppendsBlock(files: seq<FileEntry>, file: FileEntry, from: nat)
    requires from <= |files|
    ensures BlocksFrom(files + [file], from) == BlocksFrom(files, from) + Block(|files|, file)
  {
    var blocks, more := BlockList(files), BlockList(files + [file]);
    BlocksFromJoin(files + [file], from);
    BlocksFromJoin(files, from);
    assert forall i :: from <= i < |files| ==> blocks[i] == more[i] by {
      forall i | from <= i < |files|
        ensures blocks[i] == more[i]
      {
        assert (files + [file])[i] == files[i];
      }
    }
    JoinFromPrefix(blocks, more, from, |files|);
    JoinFromLast(more);
  }
}
