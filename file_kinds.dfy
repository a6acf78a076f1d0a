/**
 * The file classification tables of `FileAnalysisService`: the coarse kind of a storage
 * key, its full MIME type, and the kind-specific system prompt.
 */
module FileKinds {
  import opened Common

  /** The coarse kinds `getMimeType` returns: 'image', 'pdf', 'text', 'csv', 'docx', 'unknown'. */
  datatype Kind = Image | Pdf | Text | Csv | Docx | Unknown

  function KindName(k: Kind): (r: string)
    ensures r != "error"
  {
    match k
    case Image => "image"
    case Pdf => "pdf"
    case Text => "text"
    case Csv => "csv"
    case Docx => "docx"
    case Unknown => "unknown"
  }

  lemma KindNameInjective(a: Kind, b: Kind)
    ensures KindName(a) == KindName(b) <==> a == b
  {
  }

  /** Suffix to coarse kind. */
  const KindTable: map<string, Kind> := map[
    "jpg" := Image, "jpeg" := Image, "png" := Image, "gif" := Image, "webp" := Image,
    "pdf" := Pdf, "txt" := Text, "csv" := Csv, "docx" := Docx, "doc" := Docx, "svg" := Image]

  const OctetStream := "application/octet-stream"

  /** Suffix to full MIME type. */
  const FullMimeTable: map<string, string> := map[
    "jpg" := "image/jpeg", "jpeg" := "image/jpeg", "png" := "image/png", "gif" := "image/gif",
    "webp" := "image/webp", "svg" := "image/svg+xml", "pdf" := "application/pdf",
    "txt" := "text/plain", "csv" := "text/csv", "docx" := WordXmlMime, "doc" := "application/msword"]

  /** `fileName.split('.').pop().toLowerCase()`. */
  function Extension(fileName: string): (ext: string)
    ensures IsLowerCase(ext)
    ensures '.' !in ext
  {
    LowerIsLowerCase(AfterLast(fileName, '.'));
    Lower(AfterLast(fileName, '.'))
  }

  /** `getMimeType`: the kind mapped to the lower-cased suffix, 'unknown' for every other suffix. */
  function GetMimeType(fileName: string): (k: Kind)
    ensures k == Unknown <==> Extension(fileName) !in KindTable
    ensures k != Unknown ==> k == KindTable[Extension(fileName)]
  {
    var ext := Extension(fileName);
    if ext in KindTable then KindTable[ext] else Unknown
  }

  /** `getFullMimeType`: the MIME type mapped to the lower-cased suffix, octet-stream otherwise. */
  function GetFullMimeType(fileName: string): (m: string)
    ensures Extension(fileName) !in FullMimeTable ==> m == OctetStream
    ensures Extension(fileName) in FullMimeTable ==> m == FullMimeTable[Extension(fileName)]
  {
    var ext := Extension(fileName);
    if ext in FullMimeTable then FullMimeTable[ext] else OctetStream
  }

  /** Both classifications see only the lower-cased text after the last '.'. */
  lemma {:induction false} ClassificationIgnoresCase(a: string, b: string)
    requires Lower(a) == Lower(b)
    ensures GetMimeType(a) == GetMimeType(b)
    ensures GetFullMimeType(a) == GetFullMimeType(b)
  {
    LowerAfterLast(a, '.');
    LowerAfterLast(b, '.');
  }

  lemma ClassificationSeesOnlySuffix(a: string, b: string)
    requires Lower(AfterLast(a, '.')) == Lower(AfterLast(b, '.'))
    ensures GetMimeType(a) == GetMimeType(b)
    ensures GetFullMimeType(a) == GetFullMimeType(b)
  {
  }

  /** The suffix of a key whose last '.' is followed by `suffix`. */
  lemma ExtensionOf(fileName: string, suffix: string)
    requires '.' !in suffix && |suffix| < |fileName|
    requires fileName[|fileName| - |suffix| - 1] == '.' && fileName[|fileName| - |suffix|..] == suffix
    ensures Extension(fileName) == Lower(suffix)
  {
    AfterLastUnique(fileName, '.', suffix);
  }

  lemma ClassifiedBySuffix(fileName: string, ext: string)
    requires Extension(fileName) == ext
    ensures GetMimeType(fileName) == (if ext in KindTable then KindTable[ext] else Unknown)
    ensures GetFullMimeType(fileName) == (if ext in FullMimeTable then FullMimeTable[ext] else OctetStream)
  {
  }

  /** `Report.PDF`, `report.pdf` and every other key ending in `.pdf`, in any case, are PDFs. */
  lemma PdfInAnyCase(fileName: string)
    requires |fileName| >= 4 && fileName[|fileName| - 4] == '.' && Lower(fileName[|fileName| - 3..]) == "pdf"
    ensures GetMimeType(fileName) == Pdf
    ensures GetFullMimeType(fileName) == "application/pdf"
  {
    var suffix := fileName[|fileName| - 3..];
    assert forall i :: 0 <= i < 3 ==> LowerChar(suffix[i]) != '.';
    ExtensionOf(fileName, suffix);
    ClassifiedBySuffix(fileName, "pdf");
  }

  /**
   * What it means for a coarse kind and a full MIME type to agree: 'image' exactly for the
   * image/ types, pdf, text, csv and docx exactly for their own types, and neither falls back.
   */
  predicate EntryAgrees(k: Kind, m: string)
  {
    && (k == Image <==> StartsWith(m, "image/"))
    && (k == Pdf <==> m == "application/pdf")
    && (k == Text <==> m == "text/plain")
    && (k == Csv <==> m == "text/csv")
    && (k == Docx <==> m in {WordXmlMime, "application/msword"})
    && k != Unknown && m != OctetStream
  }

  /** Every image/ type agrees with the coarse 'image' kind. */
  lemma ImageEntryAgrees(m: string)
    requires StartsWith(m, "image/")
    ensures EntryAgrees(Image, m)
  {
    assert m[0] == 'i';
  }

  /** Each document type agrees with its own coarse kind. */
  lemma DocumentEntryAgrees(k: Kind, m: string)
    requires k == Pdf || k == Text || k == Csv || k == Docx
    requires k == Pdf ==> m == "application/pdf"
    requires k == Text ==> m == "text/plain"
    requires k == Csv ==> m == "text/csv"
    requires k == Docx ==> m in {WordXmlMime, "application/msword"}
    ensures EntryAgrees(k, m)
  {
    NotImageType(m);
    assert m[0] != 'i';
  }

  /** The image suffixes are in both tables, with entries that agree. */
  lemma ImageSuffixesAgree(ext: string)
    requires ext in {"jpg", "jpeg", "png", "gif", "webp", "svg"}
    ensures ext in KindTable && ext in FullMimeTable && EntryAgrees(KindTable[ext], FullMimeTable[ext])
  {
    var k, m := KindTable[ext], FullMimeTable[ext];
    if ext == "jpg" || ext == "jpeg" {
      assert k == Image && m == "image/jpeg";
    } else if ext == "png" {
      assert k == Image && m == "image/png";
    } else if ext == "gif" {
      assert k == Image && m == "image/gif";
    } else if ext == "webp" {
      assert k == Image && m == "image/webp";
    } else {
      assert k == Image && m == "image/svg+xml";
    }
    ImageEntryAgrees(m);
  }

  /** The document suffixes are in both tables, with entries that agree. */
  lemma DocumentSuffixesAgree(ext: string)
    requires ext in {"pdf", "txt", "csv", "docx", "doc"}
    ensures ext in KindTable && ext in FullMimeTable && EntryAgrees(KindTable[ext], FullMimeTable[ext])
  {
    var k, m := KindTable[ext], FullMimeTable[ext];
    if ext == "pdf" {
      assert k == Pdf && m == "application/pdf";
    } else if ext == "txt" {
      assert k == Text && m == "text/plain";
    } else if ext == "csv" {
      assert k == Csv && m == "text/csv";
    } else if ext == "docx" {
      assert k == Docx && m == WordXmlMime;
    } else {
      assert k == Docx && m == "application/msword";
    }
    DocumentEntryAgrees(k, m);
  }

  /** The agreement of the two tables, suffix by suffix. */
  lemma TablesAgreeOn(ext: string)
    ensures ext in KindTable <==> ext in FullMimeTable
    ensures ext in KindTable ==> EntryAgrees(KindTable[ext], FullMimeTable[ext])
  {
    TableKeysAgree();
    if ext in KindTable {
      assert ext in {"jpg", "jpeg", "png", "gif", "webp", "pdf", "txt", "csv", "docx", "doc", "svg"};
      if ext in {"jpg", "jpeg", "png", "gif", "webp", "svg"} {
        ImageSuffixesAgree(ext);
      } else {
        DocumentSuffixesAgree(ext);
      }
    }
  }

  /**
   * The two tables have the same suffixes and agree on each: coarse 'image' exactly for the
   * image/ MIME types, pdf, text, csv and docx for their MIME types, and 'unknown' exactly
   * where the full type falls back to octet-stream.
   */
  lemma TablesAgree(fileName: string)
    ensures GetMimeType(fileName) == Unknown <==> GetFullMimeType(fileName) == OctetStream
    ensures GetMimeType(fileName) == Image <==> StartsWith(GetFullMimeType(fileName), "image/")
    ensures GetMimeType(fileName) == Pdf <==> GetFullMimeType(fileName) == "application/pdf"
    ensures GetMimeType(fileName) == Text <==> GetFullMimeType(fileName) == "text/plain"
    ensures GetMimeType(fileName) == Csv <==> GetFullMimeType(fileName) == "text/csv"
    ensures GetMimeType(fileName) == Docx <==>
      GetFullMimeType(fileName) in {WordXmlMime, "application/msword"}
  {
    TablesAgreeOn(Extension(fileName));
    NotImageType(OctetStream);
  }

  lemma NotImageType(m: string)
    requires |m| > 0 && m[0] != 'i'
    ensures !StartsWith(m, "image/")
  {
  }

  lemma TableKeysAgree()
    ensures KindTable.Keys == FullMimeTable.Keys
  {
  }

  // The kind-specific system prompts of `getSystemPrompt(fileType)`.
  const ImagePrompt := "You are an AI assistant that analyzes images. Provide detailed, accurate descriptions and answer questions about visual content."
  const PdfPrompt := "You are an AI assistant that analyzes PDF documents. Provide summaries, extract key information, and answer questions about the document content."
  const TextPrompt := "You are an AI assistant that analyzes text files. Provide summaries, analyze content, and answer questions about the text."
  const CsvPrompt := "You are an AI assistant that analyzes CSV data. Provide data insights, statistics, and answer questions about the dataset."
  const DocxPrompt := "You are an AI assistant that analyzes Word documents. Provide summaries, extract key information, and answer questions about the document content."
  const GenericPrompt := "You are an AI assistant that analyzes files. Provide helpful information and answer questions about the file content."

  const PromptTable: map<string, string> := map[
    "image" := ImagePrompt, "pdf" := PdfPrompt, "text" := TextPrompt, "csv" := CsvPrompt, "docx" := DocxPrompt]

  /** `getSystemPrompt(fileType)`: the prompt for a known kind name, the generic prompt otherwise. */
  function SystemPrompt(fileType: string): (p: string)
    ensures fileType in PromptTable ==> p == PromptTable[fileType]
    ensures fileType !in PromptTable ==> p == GenericPrompt
  {
    if fileType in PromptTable then PromptTable[fileType] else GenericPrompt
  }

  lemma {:induction false} SystemPromptOfKind(k: Kind)
    ensures SystemPrompt(KindName(k)) == GenericPrompt <==> k == Unknown
    ensures k == Image ==> SystemPrompt(KindName(k)) == ImagePrompt
    ensures k == Pdf ==> SystemPrompt(KindName(k)) == PdfPrompt
    ensures k == Text ==> SystemPrompt(KindName(k)) == TextPrompt
    ensures k == Csv ==> SystemPrompt(KindName(k)) == CsvPrompt
    ensures k == Docx ==> SystemPrompt(KindName(k)) == DocxPrompt
  {
    match k
    case Unknown => assert "unknown" !in PromptTable;
    case _ =>
  }

  /*
   * The lookups above are written `table[key] || fallback` over object literals. Such an object
   * also answers for the properties every plain object inherits, so a key naming one of them
   * yields that inherited function or object instead of the fallback.
   */

  /** A value a lookup can produce: a string, or the inherited property of that name. */
  datatype JsValue = JsString(s: string) | Inherited(name: string)

  /** The properties of `Object.prototype`. */
  const ObjectPrototypeProperties: set<string> := {
    "constructor", "__proto__", "toString", "toLocaleString", "valueOf", "hasOwnProperty",
    "isPrototypeOf", "propertyIsEnumerable", "__defineGetter__", "__defineSetter__",
    "__lookupGetter__", "__lookupSetter__"}

  /** `table[key] || fallback` on an object literal whose values are non-empty strings. */
  function LookupOr(table: map<string, string>, key: string, fallback: string): JsValue
  {
    if key in table then JsString(table[key])
    else if key in ObjectPrototypeProperties then Inherited(key)
    else JsString(fallback)
  }

  function KindNameTable(): map<string, string>
  {
    map ext | ext in KindTable :: KindName(KindTable[ext])
  }

  /** `getMimeType` as written. */
  function MimeTypeAsWritten(fileName: string): JsValue
  {
    LookupOr(KindNameTable(), Extension(fileName), "unknown")
  }

  /** `getFullMimeType` as written. */
  function FullMimeTypeAsWritten(fileName: string): JsValue
  {
    LookupOr(FullMimeTable, Extension(fileName), OctetStream)
  }

  /** `getSystemPrompt` (of this service) as written; its argument is not lower-cased. */
  function SystemPromptAsWritten(fileType: string): JsValue
  {
    LookupOr(PromptTable, fileType, GenericPrompt)
  }

  /** Only two inherited property names are entirely lower case. */
  lemma LowerCasePrototypeProperties()
    ensures forall key :: key in ObjectPrototypeProperties && IsLowerCase(key) ==>
      key == "constructor" || key == "__proto__"
  {
    assert IsUpper("toString"[2]) && IsUpper("toLocaleString"[2]) && IsUpper("valueOf"[5]);
    assert IsUpper("hasOwnProperty"[3]) && IsUpper("isPrototypeOf"[2]);
    assert IsUpper("propertyIsEnumerable"[8]);
    assert IsUpper("__defineGetter__"[8]) && IsUpper("__defineSetter__"[8]);
    assert IsUpper("__lookupGetter__"[8]) && IsUpper("__lookupSetter__"[8]);
  }

  /**
   * Apart from the suffixes "constructor" and "__proto__", the code as written returns the
   * strings the corrected lookups return.
   */
  lemma {:induction false} AsWrittenAgreesElsewhere(fileName: string)
    requires Extension(fileName) != "constructor" && Extension(fileName) != "__proto__"
    ensures MimeTypeAsWritten(fileName) == JsString(KindName(GetMimeType(fileName)))
    ensures FullMimeTypeAsWritten(fileName) == JsString(GetFullMimeType(fileName))
  {
    var ext := Extension(fileName);
    LowerCasePrototypeProperties();
    assert ext in KindNameTable() <==> ext in KindTable;
  }

  /** A suffix that names an inherited property and no table entry yields that property. */
  lemma InheritedSuffixAsWritten(fileName: string, ext: string)
    requires Extension(fileName) == ext && ext !in KindTable && ext in ObjectPrototypeProperties
    ensures MimeTypeAsWritten(fileName) == Inherited(ext)
    ensures FullMimeTypeAsWritten(fileName) == Inherited(ext)
    ensures GetMimeType(fileName) == Unknown && GetFullMimeType(fileName) == OctetStream
  {
    TableKeysAgree();
    assert ext !in KindNameTable();
  }

  /** Every key ending in ".constructor" is classified as the inherited `Object` function. */
  lemma ConstructorSuffixAsWritten(fileName: string)
    requires |fileName| >= 12 && fileName[|fileName| - 12..] == ".constructor"
    ensures MimeTypeAsWritten(fileName) == Inherited("constructor")
    ensures FullMimeTypeAsWritten(fileName) == Inherited("constructor")
    ensures GetMimeType(fileName) == Unknown
    ensures GetFullMimeType(fileName) == OctetStream
  {
    ConstructorExtension(fileName);
    InheritedSuffixAsWritten(fileName, "constructor");
  }

  lemma ConstructorExtension(fileName: string)
    requires |fileName| >= 12 && fileName[|fileName| - 12..] == ".constructor"
    ensures Extension(fileName) == "constructor"
  {
    var ext := "constructor";
    assert fileName[|fileName| - 11..] == ext;
    AfterLastUnique(fileName, '.', ext);
    LowerOfLowerCase(ext);
  }

  lemma ToStringPromptAsWritten()
    ensures SystemPromptAsWritten("toString") == Inherited("toString")
    ensures SystemPrompt("toString") == GenericPrompt
  {
  }
}
