/** `DocumentChunker`: a document is cut into chunks by its extension.  A
    text file gives one chunk per blank-line-separated paragraph, a PDF one
    chunk per non-blank text block, a workbook one chunk per non-blank row.
    Reading the file (and parsing it with fitz or pandas) is outside the
    model: what each reader yields, or the error it raises, is the input
    `Readings`. */
module Chunking {
  import opened Wrappers
  import opened Text
  import opened Json

  /** One chunk, with the keys the source's dicts carry. */
  datatype Chunk =
    | PdfChunk(content: string, source: string, page: nat, x0: real, y0: real, x1: real, y1: real)
    | ExcelChunk(content: string, source: string, sheet: string, row: Json)
    | TextChunk(content: string, source: string, paragraph: nat)
  {
    /** `chunk["type"]`. */
    function Kind(): string {
      match this
      case PdfChunk(_, _, _, _, _, _, _) => "pdf"
      case ExcelChunk(_, _, _, _) => "excel"
      case TextChunk(_, _, _) => "text"
    }

    /** `chunk.get("page")`: only PDF chunks have one. */
    function Page(): Option<nat> {
      if PdfChunk? then Some(page) else None
    }
  }

  /** A text block of a PDF page: its rectangle and its text. */
  datatype Block = Block(x0: real, y0: real, x1: real, y1: real, text: string)

  /** A row of a sheet: its index label and its cells, `None` for a null
      cell and otherwise the cell's `str()`. */
  datatype Row = Row(index: Json, cells: seq<Option<string>>)

  datatype Sheet = Sheet(name: string, rows: seq<Row>)

  /** What reading the file yields for each format: the decoded text, the
      pages of blocks (getting the blocks of a page may itself raise), or
      the sheets. */
  datatype Readings = Readings(
    text: Result<string>, pdf: Result<seq<Result<seq<Block>>>>, excel: Result<seq<Sheet>>)

  /** `s.strip()` is truthy: the test the readers apply to content. */
  predicate HasText(s: string) {
    Strip(s) != []
  }

  /** Non-empty, with no whitespace at either end: what `strip()` leaves of
      a non-blank text. */
  predicate Trimmed(s: string) {
    s != [] && !IsSpace(s[0]) && !IsSpace(s[|s| - 1])
  }

  lemma TrimmedHasText(s: string)
    requires Trimmed(s)
    ensures HasText(s)
  {
    StripEmptyIffBlank(s);
  }

  // ---------------------------------------------------------------------
  // Text files
  // ---------------------------------------------------------------------

  /** `[p.strip() for p in parts if p.strip()]`. */
  function Paragraphs(parts: seq<string>): (r: seq<string>)
    ensures |r| <= |parts|
    ensures forall i :: 0 <= i < |r| ==> Trimmed(r[i])
    decreases |parts|
  {
    if parts == [] then []
    else
      var init := Paragraphs(parts[..|parts| - 1]);
      var p := Strip(parts[|parts| - 1]);
      if p != [] then init + [p] else init
  }

  /** Paragraphs keep the order of the pieces: those of two runs of pieces
      are those of the first run followed by those of the second. */
  lemma {:induction false} ParagraphsConcat(a: seq<string>, b: seq<string>)
    ensures Paragraphs(a + b) == Paragraphs(a) + Paragraphs(b)
    decreases |b|
  {
    if b != [] {
      var b' := b[..|b| - 1];
      ParagraphsConcat(a, b');
      assert (a + b)[..|a + b| - 1] == a + b';
      assert (a + b)[|a + b| - 1] == b[|b| - 1];
    } else {
      assert a + b == a;
    }
  }

  /** One piece gives its stripped text, or nothing when it is blank. */
  lemma ParagraphsOne(p: string)
    ensures Paragraphs([p]) == if HasText(p) then [Strip(p)] else []
  {
    assert [p][..0] == [];
  }

  /** The chunks of a text file read as `content`; none when reading
      raised. */
  function TextChunks(path: string, content: Result<string>): (r: seq<Chunk>)
    ensures content.Failure? ==> r == []
    ensures content.Success? ==> |r| == |Paragraphs(Split(content.value, "\n\n"))|
    ensures forall i :: 0 <= i < |r| ==>
      r[i].TextChunk? && r[i].paragraph == i && r[i].source == path && Trimmed(r[i].content)
  {
    if content.Failure? then []
    else
      Numbered(path, Paragraphs(Split(content.value, "\n\n")))
  }

  /** The text chunks of the kept paragraphs, numbered from 0. */
  function Numbered(path: string, paragraphs: seq<string>): seq<Chunk> {
    seq(|paragraphs|, i requires 0 <= i < |paragraphs| => TextChunk(paragraphs[i], path, i))
  }

  /** `for idx, paragraph in enumerate(paragraphs): chunks.append(...)`. */
  method NumberParagraphs(path: string, paragraphs: seq<string>) returns (chunks: seq<Chunk>)
    ensures chunks == Numbered(path, paragraphs)
  {
    chunks := [];
    var idx := 0;
    while idx < |paragraphs|
      invariant 0 <= idx <= |paragraphs|
      invariant chunks == Numbered(path, paragraphs[..idx])
    {
      chunks := chunks + [TextChunk(paragraphs[idx], path, idx)];
      idx := idx + 1;
    }
    assert paragraphs[..idx] == paragraphs;
  }

  /** `_process_text(file_path)`. */
  method ProcessText(path: string, content: Result<string>) returns (chunks: seq<Chunk>)
    ensures chunks == TextChunks(path, content)
  {
    if content.Failure? {
      return [];
    }
    chunks := NumberParagraphs(path, Paragraphs(Split(content.value, "\n\n")));
  }

  // ---------------------------------------------------------------------
  // PDF files
  // ---------------------------------------------------------------------

  /** The chunks of the blocks of page `pageNum`: the blocks whose text is
      not blank, in order. */
  function PageChunks(path: string, pageNum: nat, blocks: seq<Block>): (r: seq<Chunk>)
    ensures |r| <= |blocks|
    ensures forall i :: 0 <= i < |r| ==>
      r[i].PdfChunk? && r[i].page == pageNum && r[i].source == path
    decreases |blocks|
  {
    if blocks == [] then []
    else
      var init := PageChunks(path, pageNum, blocks[..|blocks| - 1]);
      var b := blocks[|blocks| - 1];
      if HasText(b.text) then init + [PdfChunk(b.text, path, pageNum, b.x0, b.y0, b.x1, b.y1)]
      else init
  }

  /** The chunks of pages numbered from 1, and whether getting the blocks
      of a page raised (which ends the scan). */
  function PdfScan(path: string, pages: seq<Result<seq<Block>>>): (r: (seq<Chunk>, bool))
    ensures forall i :: 0 <= i < |r.0| ==>
      r.0[i].PdfChunk? && 1 <= r.0[i].page <= |pages| && r.0[i].source == path
    decreases |pages|
  {
    if pages == [] then ([], false)
    else
      var (chunks, failed) := PdfScan(path, pages[..|pages| - 1]);
      if failed then (chunks, true)
      else match pages[|pages| - 1]
        case Failure(_) => (chunks, true)
        case Success(blocks) => (chunks + PageChunks(path, |pages|, blocks), false)
  }

  /** Once a page has raised, later pages add nothing. */
  lemma {:induction false} PdfScanStops(path: string, pages: seq<Result<seq<Block>>>, more: seq<Result<seq<Block>>>)
    requires PdfScan(path, pages).1
    ensures PdfScan(path, pages + more) == PdfScan(path, pages)
    decreases |more|
  {
    if more != [] {
      var m := more[..|more| - 1];
      PdfScanStops(path, pages, m);
      assert (pages + more)[..|pages + more| - 1] == pages + m;
    } else {
      assert pages + more == pages;
    }
  }

  /** Without a failing page, the chunks are those of every page in turn. */
  lemma {:induction false} PdfScanAppend(path: string, pages: seq<Result<seq<Block>>>, blocks: seq<Block>)
    requires !PdfScan(path, pages).1
    ensures PdfScan(path, pages + [Success(blocks)])
         == (PdfScan(path, pages).0 + PageChunks(path, |pages| + 1, blocks), false)
  {
    assert (pages + [Success(blocks)])[..|pages|] == pages;
  }

  /** The chunks of a PDF: none when it cannot be opened, otherwise those
      gathered before the first page that raised. */
  function PdfChunks(path: string, doc: Result<seq<Result<seq<Block>>>>): (r: seq<Chunk>)
    ensures doc.Failure? ==> r == []
    ensures forall i :: 0 <= i < |r| ==>
      r[i].PdfChunk? && 1 <= r[i].page && r[i].source == path
  {
    if doc.Failure? then [] else PdfScan(path, doc.value).0
  }

  /** `for block in blocks: if block[4].strip(): chunks.append(...)` for
      page `pageNum`. */
  method BlockChunks(path: string, pageNum: nat, blocks: seq<Block>) returns (chunks: seq<Chunk>)
    ensures chunks == PageChunks(path, pageNum, blocks)
  {
    chunks := [];
    var j := 0;
    while j < |blocks|
      invariant 0 <= j <= |blocks|
      invariant chunks == PageChunks(path, pageNum, blocks[..j])
    {
      assert blocks[..j + 1][..j] == blocks[..j];
      var block := blocks[j];
      if HasText(block.text) {
        chunks := chunks + [PdfChunk(block.text, path, pageNum, block.x0, block.y0, block.x1, block.y1)];
      }
      j := j + 1;
    }
    assert blocks[..j] == blocks;
  }

  /** `_process_pdf(file_path)`. */
  method ProcessPdf(path: string, doc: Result<seq<Result<seq<Block>>>>) returns (chunks: seq<Chunk>)
    ensures chunks == PdfChunks(path, doc)
  {
    chunks := [];
    if doc.Failure? {
      return;
    }
    var pages := doc.value;
    var n := 0;
    while n < |pages|
      invariant 0 <= n <= |pages|
      invariant PdfScan(path, pages[..n]) == (chunks, false)
    {
      assert pages[..n + 1] == pages[..n] + [pages[n]];
      if pages[n].Failure? {
        assert PdfScan(path, pages[..n + 1]) == (chunks, true);
        PdfScanStops(path, pages[..n + 1], pages[n + 1..]);
        assert pages[..n + 1] + pages[n + 1..] == pages;
        return;
      }
      var blocks := pages[n].value;
      var pageChunks := BlockChunks(path, n + 1, blocks);
      chunks := chunks + pageChunks;
      PdfScanAppend(path, pages[..n], blocks);
      n := n + 1;
    }
    assert pages[..n] == pages;
  }

  // ---------------------------------------------------------------------
  // Workbooks
  // ---------------------------------------------------------------------

  /** The non-null cells of a row, stringified, in order. */
  function Present(cells: seq<Option<string>>): (r: seq<string>)
    ensures |r| <= |cells|
    decreases |cells|
  {
    if cells == [] then []
    else
      var init := Present(cells[..|cells| - 1]);
      match cells[|cells| - 1]
      case None => init
      case Some(s) => init + [s]
  }

  /** `" ".join(str(cell) for cell in row if pd.notna(cell))`. */
  function RowContent(cells: seq<Option<string>>): string {
    Join(" ", Present(cells))
  }

  /** A row whose cells are all null has empty content. */
  lemma {:induction false} NullRowIsEmpty(cells: seq<Option<string>>)
    requires forall i :: 0 <= i < |cells| ==> cells[i].None?
    ensures RowContent(cells) == ""
    decreases |cells|
  {
    if cells != [] {
      NullRowIsEmpty(cells[..|cells| - 1]);
    }
  }

  /** The chunks of the rows of one sheet: rows whose content is not blank,
      in order, each with its sheet and row label. */
  function RowChunks(path: string, sheet: string, rows: seq<Row>): (r: seq<Chunk>)
    ensures |r| <= |rows|
    ensures forall i :: 0 <= i < |r| ==>
      r[i].ExcelChunk? && r[i].sheet == sheet && r[i].source == path
    decreases |rows|
  {
    if rows == [] then []
    else
      var init := RowChunks(path, sheet, rows[..|rows| - 1]);
      var row := rows[|rows| - 1];
      var content := RowContent(row.cells);
      if HasText(content) then init + [ExcelChunk(content, path, sheet, row.index)] else init
  }

  /** One more row adds its chunk, when its content is not blank. */
  lemma RowChunksStep(path: string, sheet: string, rows: seq<Row>, j: nat)
    requires j < |rows|
    ensures var content := RowContent(rows[j].cells);
      RowChunks(path, sheet, rows[..j + 1]) ==
        RowChunks(path, sheet, rows[..j]) + (if HasText(content) then [ExcelChunk(content, path, sheet, rows[j].index)] else [])
  {
    assert rows[..j + 1][..j] == rows[..j];
  }

  /** The chunk each row would give, blank or not. */
  function RowCandidates(path: string, sheet: string, rows: seq<Row>): (r: seq<Chunk>)
    ensures |r| == |rows|
    ensures forall j :: 0 <= j < |rows| ==>
      r[j] == ExcelChunk(RowContent(rows[j].cells), path, sheet, rows[j].index)
  {
    seq(|rows|, j requires 0 <= j < |rows| => ExcelChunk(RowContent(rows[j].cells), path, sheet, rows[j].index))
  }

  /** Every row chunk is the content and label of one of the rows. */
  lemma {:induction false} RowChunksFromRows(path: string, sheet: string, rows: seq<Row>)
    ensures forall c :: c in RowChunks(path, sheet, rows) ==> c in RowCandidates(path, sheet, rows)
    decreases |rows|
  {
    if rows != [] {
      var n := |rows| - 1;
      var init := rows[..n];
      RowChunksFromRows(path, sheet, init);
      var cands := RowCandidates(path, sheet, rows);
      assert RowCandidates(path, sheet, init) == cands[..n];
      var prev := RowChunks(path, sheet, init);
      assert RowChunks(path, sheet, rows) == prev || RowChunks(path, sheet, rows) == prev + [cands[n]];
    }
  }

  /** The chunks of all sheets, sheet by sheet. */
  function SheetsChunks(path: string, sheets: seq<Sheet>): (r: seq<Chunk>)
    ensures forall i :: 0 <= i < |r| ==> r[i].ExcelChunk? && r[i].source == path
    decreases |sheets|
  {
    if sheets == [] then []
    else
      var last := sheets[|sheets| - 1];
      SheetsChunks(path, sheets[..|sheets| - 1]) + RowChunks(path, last.name, last.rows)
  }

  /** The chunks of a workbook: none when it cannot be read. */
  function ExcelChunks(path: string, workbook: Result<seq<Sheet>>): (r: seq<Chunk>)
    ensures workbook.Failure? ==> r == []
    ensures forall i :: 0 <= i < |r| ==> r[i].ExcelChunk? && r[i].source == path
  {
    if workbook.Failure? then [] else SheetsChunks(path, workbook.value)
  }

  /** `for idx, row in sheet_df.iterrows(): ...` for one sheet. */
  method SheetRowChunks(path: string, sheet: Sheet) returns (chunks: seq<Chunk>)
    ensures chunks == RowChunks(path, sheet.name, sheet.rows)
  {
    var rows := sheet.rows;
    chunks := [];
    var j := 0;
    while j < |rows|
      invariant 0 <= j <= |rows|
      invariant chunks == RowChunks(path, sheet.name, rows[..j])
    {
      RowChunksStep(path, sheet.name, rows, j);
      var content := RowContent(rows[j].cells);
      if HasText(content) {
        chunks := chunks + [ExcelChunk(content, path, sheet.name, rows[j].index)];
      }
      j := j + 1;
    }
    assert rows[..j] == rows;
  }

  /** `_process_excel(file_path)`. */
  method ProcessExcel(path: string, workbook: Result<seq<Sheet>>) returns (chunks: seq<Chunk>)
    ensures chunks == ExcelChunks(path, workbook)
  {
    chunks := [];
    if workbook.Failure? {
      return;
    }
    var sheets := workbook.value;
    var s := 0;
    while s < |sheets|
      invariant 0 <= s <= |sheets|
      invariant chunks == SheetsChunks(path, sheets[..s])
    {
      assert sheets[..s + 1][..s] == sheets[..s];
      var sheetChunks := SheetRowChunks(path, sheets[s]);
      chunks := chunks + sheetChunks;
      s := s + 1;
    }
    assert sheets[..s] == sheets;
  }

  // ---------------------------------------------------------------------
  // Dispatch
  // ---------------------------------------------------------------------

  /** `file_path.split('.')[-1].lower()`. */
  function Extension(path: string): (r: string)
    ensures '.' !in r && |r| <= |path|
    ensures forall i :: 0 <= i < |r| ==> !('A' <= r[i] <= 'Z')
  {
    Lower(AfterLast(path, '.'))
  }

  /** `process_document(file_path)`: pdf, xlsx/xls and txt (in any case)
      go to their reader; any other extension gives no chunks.  Whatever
      the format, every chunk has the path as its source and content that
      is not blank. */
  function DocumentChunks(path: string, files: Readings): (r: seq<Chunk>)
    ensures Extension(path) == "pdf" ==> r == PdfChunks(path, files.pdf)
    ensures Extension(path) in ["xlsx", "xls"] ==> r == ExcelChunks(path, files.excel)
    ensures Extension(path) == "txt" ==> r == TextChunks(path, files.text)
    ensures Extension(path) !in ["pdf", "xlsx", "xls", "txt"] ==> r == []
    ensures forall i :: 0 <= i < |r| ==> r[i].source == path
  {
    var ext := Extension(path);
    if ext == "pdf" then PdfChunks(path, files.pdf)
    else if ext == "xlsx" || ext == "xls" then ExcelChunks(path, files.excel)
    else if ext == "txt" then TextChunks(path, files.text)
    else []
  }

  lemma {:induction false} PageChunksHaveText(path: string, pageNum: nat, blocks: seq<Block>)
    ensures forall c :: c in PageChunks(path, pageNum, blocks) ==> HasText(c.content)
    decreases |blocks|
  {
    if blocks != [] {
      PageChunksHaveText(path, pageNum, blocks[..|blocks| - 1]);
    }
  }

  lemma {:induction false} PdfScanHasText(path: string, pages: seq<Result<seq<Block>>>)
    ensures forall c :: c in PdfScan(path, pages).0 ==> HasText(c.content)
    decreases |pages|
  {
    if pages != [] {
      PdfScanHasText(path, pages[..|pages| - 1]);
      if pages[|pages| - 1].Success? {
        PageChunksHaveText(path, |pages|, pages[|pages| - 1].value);
      }
    }
  }

  lemma {:induction false} RowChunksHaveText(path: string, sheet: string, rows: seq<Row>)
    ensures forall c :: c in RowChunks(path, sheet, rows) ==> HasText(c.content)
    decreases |rows|
  {
    if rows != [] {
      RowChunksHaveText(path, sheet, rows[..|rows| - 1]);
    }
  }

  lemma {:induction false} SheetsChunksHaveText(path: string, sheets: seq<Sheet>)
    ensures forall c :: c in SheetsChunks(path, sheets) ==> HasText(c.content)
    decreases |sheets|
  {
    if sheets != [] {
      SheetsChunksHaveText(path, sheets[..|sheets| - 1]);
      RowChunksHaveText(path, sheets[|sheets| - 1].name, sheets[|sheets| - 1].rows);
    }
  }

  /** Whatever the format, no chunk is blank: each one's content has text
      left after `strip()`. */
  lemma ChunksHaveText(path: string, files: Readings)
    ensures forall c :: c in DocumentChunks(path, files) ==> HasText(c.content)
  {
    var ext := Extension(path);
    if ext == "pdf" && files.pdf.Success? {
      PdfScanHasText(path, files.pdf.value);
    } else if (ext == "xlsx" || ext == "xls") && files.excel.Success? {
      SheetsChunksHaveText(path, files.excel.value);
    } else if ext == "txt" {
      var r := DocumentChunks(path, files);
      forall c | c in r ensures HasText(c.content) {
        var i :| 0 <= i < |r| && r[i] == c;
        TrimmedHasText(c.content);
      }
    }
  }

  /** `process_document(file_path)`, calling the reader of the format. */
  method ProcessDocument(path: string, files: Readings) returns (chunks: seq<Chunk>)
    ensures chunks == DocumentChunks(path, files)
  {
    var ext := Extension(path);
    if ext == "pdf" {
      chunks := ProcessPdf(path, files.pdf);
    } else if ext == "xlsx" || ext == "xls" {
      chunks := ProcessExcel(path, files.excel);
    } else if ext == "txt" {
      chunks := ProcessText(path, files.text);
    } else {
      chunks := [];
    }
  }

  /** The extension is read case-insensitively: "REPORT.PDF" is a PDF. */
  lemma UpperCaseExtension(files: Readings)
    ensures DocumentChunks("REPORT.PDF", files) == PdfChunks("REPORT.PDF", files.pdf)
  {
    assert AfterLast("REPORT.PDF", '.') == "PDF";
    assert Lower("PDF") == "pdf";
  }
}
