/**
 * tools/doc/func.go: the document tools' request defaults and the
 * size-bounded "smart" read. Document text is measured in bytes, as Go's
 * `len` measures it, so it is a sequence of bytes here. The document
 * reader library is the parameter `read`: a path, whether to clean the
 * text, and (for ranged reads) the range, to a document or an error text.
 */
module ToolsDoc {
  import opened GoStrings

  type Byte = b: int | 0 <= b < 256

  /** "\n\n... [中间部分] ...\n\n" in UTF-8. */
  const Separator1: seq<Byte> := [10, 10, 46, 46, 46, 32, 91, 228, 184, 173, 233, 151, 180, 233, 131, 168,
                                   229, 136, 134, 93, 32, 46, 46, 46, 10, 10]
  /** "\n\n... [后续部分] ...\n\n" in UTF-8. */
  const Separator2: seq<Byte> := [10, 10, 46, 46, 46, 32, 91, 229, 144, 142, 231, 187, 173, 233, 131, 168,
                                   229, 136, 134, 93, 32, 46, 46, 46, 10, 10]

  /** The budget below which sampling degenerates to a plain prefix. */
  const MinSampleBudget := 300

  /**
   * sampleContent: short content unchanged; with too small a budget the
   * first maxChars bytes; otherwise a head, a middle and a tail of
   * `(maxChars - separators) / 3` bytes each (the middle rounded down to an
   * even length), joined by the two separators.
   */
  function SampleContent(content: seq<Byte>, maxChars: nat): (r: seq<Byte>)
    ensures |content| <= maxChars ==> r == content
    ensures |content| > maxChars && maxChars - |Separator1| - |Separator2| < MinSampleBudget ==> r == content[..maxChars]
    ensures |r| <= maxChars || r == content
  {
    if |content| <= maxChars then content
    else
      var available := maxChars - (|Separator1| + |Separator2|);
      if available < MinSampleBudget then content[..maxChars]
      else
        var partSize := available / 3;
        var middleStart := |content| / 2 - partSize / 2;
        var middleEnd := if |content| / 2 + partSize / 2 > |content| then |content| else |content| / 2 + partSize / 2;
        var endStart := if |content| - partSize < 0 then 0 else |content| - partSize;
        var result := content[..partSize] + Separator1 + content[middleStart..middleEnd] + Separator2 + content[endStart..];
        if |result| > maxChars then result[..maxChars] else result
  }

  /**
   * When SampleContent samples, the result is exactly head, separator,
   * middle, separator, tail: the final cut to maxChars never removes
   * anything, and the middle is centred on the midpoint.
   */
  lemma SampleShape(content: seq<Byte>, maxChars: nat)
    requires |content| > maxChars && maxChars - |Separator1| - |Separator2| >= MinSampleBudget
    ensures var partSize := (maxChars - |Separator1| - |Separator2|) / 3;
            var mid := |content| / 2;
            0 <= mid - partSize / 2 && mid + partSize / 2 <= |content| && partSize <= |content|
            && SampleContent(content, maxChars)
               == content[..partSize] + Separator1 + content[mid - partSize / 2..mid + partSize / 2]
                  + Separator2 + content[|content| - partSize..]
            && |SampleContent(content, maxChars)| == 2 * partSize + 2 * (partSize / 2) + |Separator1| + |Separator2|
  {
    var partSize := (maxChars - |Separator1| - |Separator2|) / 3;
    var mid := |content| / 2;
    assert 3 * partSize <= maxChars - 52;
    assert partSize / 2 <= mid;
    var result := content[..partSize] + Separator1 + content[mid - partSize / 2..mid + partSize / 2]
                  + Separator2 + content[|content| - partSize..];
    assert |result| == 2 * partSize + 2 * (partSize / 2) + 52;
    assert |result| <= maxChars;
  }

  /** What the reader library returns: the text and the document's metadata. */
  datatype Document = Document(content: seq<Byte>, metadata: map<string, string>)
  datatype ReadResult<T> = ReadFailed(err: string) | ReadOk(value: T)

  /** ReadDocumentSmartResponse */
  datatype SmartResponse = SmartResponse(content: seq<Byte>, isTruncated: bool, originalSize: nat,
                                         returnedSize: nat, strategy: string, metadata: map<string, string>,
                                         errorMessage: string, suggestion: string)

  const DefaultMaxChars := 50000

  /** The effective limit: 50000 unless a positive one is asked for. */
  function EffectiveMaxChars(requested: int): (m: nat)
    ensures m > 0
    ensures requested > 0 ==> m == requested
    ensures requested <= 0 ==> m == DefaultMaxChars
  {
    if requested <= 0 then DefaultMaxChars else requested
  }

  /** Cleaning is on when asked for, and also whenever the effective limit is the default. */
  function EffectiveClean(requestedClean: bool, maxChars: nat): (c: bool)
    ensures c <==> requestedClean || maxChars == DefaultMaxChars
  {
    if !requestedClean && maxChars == DefaultMaxChars then true else requestedClean
  }

  /**
   * ReadDocumentSmart: a document within the limit is returned whole;
   * a larger one is sampled or cut to its first maxChars bytes, and is
   * reported truncated.
   */
  function ReadDocumentSmart(path: string, requestedMax: int, sampleMode: bool, requestedClean: bool,
                             read: (string, bool) -> ReadResult<Document>): (r: SmartResponse)
    ensures var res := read(path, EffectiveClean(requestedClean, EffectiveMaxChars(requestedMax)));
            (res.ReadFailed? ==> r.errorMessage == "读取文档失败: " + res.err && r.content == [])
            && (res.ReadOk? ==> r == SmartOfDocument(res.value, EffectiveMaxChars(requestedMax), sampleMode))
  {
    var maxChars := EffectiveMaxChars(requestedMax);
    var clean := EffectiveClean(requestedClean, maxChars);
    match read(path, clean)
    case ReadFailed(err) => SmartResponse([], false, 0, 0, "", map[], "读取文档失败: " + err, "")
    case ReadOk(doc) => SmartOfDocument(doc, maxChars, sampleMode)
  }

  function TruncatedSuggestion(size: nat, maxChars: nat, sampleMode: bool): string {
    if sampleMode then
      "文档较大（" + NatString(size) + "字符），已采样关键部分。建议使用 ReadDocumentByPages 或 ReadDocumentByLines 按需读取特定部分"
    else
      "文档较大（" + NatString(size) + "字符），仅返回前 " + NatString(maxChars)
      + " 字符。建议使用 ReadDocumentByPages 或 ReadDocumentByLines 按需读取"
  }

  /** The response for a document that was read. */
  function SmartOfDocument(doc: Document, maxChars: nat, sampleMode: bool): (r: SmartResponse)
    ensures r.originalSize == |doc.content| && r.metadata == doc.metadata && r.errorMessage == ""
    ensures r.isTruncated <==> |doc.content| > maxChars
    ensures r.returnedSize == |r.content| && |r.content| <= maxChars
    ensures !r.isTruncated ==> r.content == doc.content
    ensures r.isTruncated && !sampleMode ==> r.content == doc.content[..maxChars]
    ensures r.isTruncated && sampleMode ==> r.content == SampleContent(doc.content, maxChars)
  {
    var size := |doc.content|;
    if size <= maxChars then
      SmartResponse(doc.content, false, size, size, "完整读取", doc.metadata, "", "")
    else
      var c := if sampleMode then SampleContent(doc.content, maxChars) else doc.content[..maxChars];
      SmartResponse(c, true, size, |c|, if sampleMode then "均匀采样" else "从头截断", doc.metadata, "",
                    TruncatedSuggestion(size, maxChars, sampleMode))
  }

  /** The "read to the end" value a negative end page or end line becomes. */
  const ToTheEnd := 999999

  /** ReadDocumentByPages' range: a negative end page reads to the end. */
  function PageRange(startPage: int, endPage: int): (r: (int, int))
    ensures r.0 == startPage
    ensures endPage < 0 ==> r.1 == ToTheEnd
    ensures endPage >= 0 ==> r.1 == endPage
  {
    (startPage, if endPage < 0 then ToTheEnd else endPage)
  }

  /** ReadDocumentByLines' page and range: a negative page is page 0, a negative end line reads to the end. */
  function LineRange(pageIndex: int, startLine: int, endLine: int): (r: (nat, int, int))
    ensures pageIndex >= 0 ==> r.0 == pageIndex
    ensures pageIndex < 0 ==> r.0 == 0
    ensures r.1 == startLine
    ensures endLine < 0 ==> r.2 == ToTheEnd
    ensures endLine >= 0 ==> r.2 == endLine
  {
    (if pageIndex < 0 then 0 else pageIndex, startLine, if endLine < 0 then ToTheEnd else endLine)
  }

  /** A page as the reader library returns it. */
  datatype Page = Page(pageNumber: int, pageName: string, totalLines: nat, lines: seq<seq<Byte>>)
  datatype PagedResult = PagedResult(content: seq<Byte>, pages: seq<Page>, totalPages: nat,
                                     metadata: map<string, string>)

  /** PageContentDetail */
  datatype PageDetail = PageDetail(pageNumber: int, pageName: string, lineCount: nat)

  datatype PagesResponse = PagesResponse(content: seq<Byte>, pages: seq<PageDetail>, totalPages: nat,
                                         readPages: nat, metadata: map<string, string>, errorMessage: string)

  function DetailOf(p: Page): PageDetail {
    PageDetail(p.pageNumber, p.pageName, p.totalLines)
  }

  /** ReadDocumentByPages: one detail per page read, in order, numbered and named as the page. */
  method ReadDocumentByPages(path: string, startPage: int, endPage: int,
                             read: (string, int, int) -> ReadResult<PagedResult>) returns (r: PagesResponse)
    ensures read(path, startPage, PageRange(startPage, endPage).1).ReadFailed? ==>
      r.errorMessage == "读取文档失败: " + read(path, startPage, PageRange(startPage, endPage).1).err && r.pages == []
    ensures read(path, startPage, PageRange(startPage, endPage).1).ReadOk? ==>
      (var res := read(path, startPage, PageRange(startPage, endPage).1).value;
       r.content == res.content && r.totalPages == res.totalPages && r.metadata == res.metadata
       && r.readPages == |res.pages| == |r.pages| && r.errorMessage == ""
       && forall i :: 0 <= i < |r.pages| ==> r.pages[i] == DetailOf(res.pages[i]))
  {
    var range := PageRange(startPage, endPage);
    var result := read(path, range.0, range.1);
    if result.ReadFailed? {
      return PagesResponse([], [], 0, 0, map[], "读取文档失败: " + result.err);
    }
    var res := result.value;
    var details: seq<PageDetail> := [];
    var i := 0;
    while i < |res.pages|
      invariant 0 <= i <= |res.pages|
      invariant |details| == i
      invariant forall k :: 0 <= k < i ==> details[k] == DetailOf(res.pages[k])
    {
      details := details + [DetailOf(res.pages[i])];
      i := i + 1;
    }
    r := PagesResponse(res.content, details, res.totalPages, |res.pages|, res.metadata, "");
  }

  datatype LinesResponse = LinesResponse(content: seq<Byte>, totalLines: nat, readLines: nat, pageIndex: nat,
                                         metadata: map<string, string>, errorMessage: string)

  /** ReadDocumentByLines: the line counts come from the first page returned, if any. */
  function ReadDocumentByLines(path: string, pageIndex: int, startLine: int, endLine: int,
                               read: (string, nat, int, int) -> ReadResult<PagedResult>): (r: LinesResponse)
    ensures var rg := LineRange(pageIndex, startLine, endLine);
            var res := read(path, rg.0, rg.1, rg.2);
            (res.ReadFailed? ==> r.errorMessage == "读取文档失败: " + res.err)
            && (res.ReadOk? ==>
                  r.pageIndex == rg.0 && r.content == res.value.content && r.errorMessage == ""
                  && (|res.value.pages| == 0 ==> r.totalLines == 0 && r.readLines == 0)
                  && (|res.value.pages| > 0 ==>
                        r.totalLines == res.value.pages[0].totalLines
                        && r.readLines == |res.value.pages[0].lines|))
  {
    var rg := LineRange(pageIndex, startLine, endLine);
    match read(path, rg.0, rg.1, rg.2)
    case ReadFailed(err) => LinesResponse([], 0, 0, 0, map[], "读取文档失败: " + err)
    case ReadOk(res) =>
      if |res.pages| > 0 then
        LinesResponse(res.content, res.pages[0].totalLines, |res.pages[0].lines|, rg.0, res.metadata, "")
      else LinesResponse(res.content, 0, 0, rg.0, res.metadata, "")
  }
}
