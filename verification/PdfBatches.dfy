/**
  Reading a PDF in batches of pages under limits on pages, text and tables.

  A document is the list of its pages as extraction returns them, the same however
  many pages are opened at a time.
 */
module PdfBatches {

  import opened Strings
  import opened Wrappers

  type Table = seq<seq<Option<string>>>

  datatype Page = Page(text: Option<string>, width: real, height: real, tables: seq<Table>)

  datatype Limits = Limits(maxPages: nat, maxChars: nat, maxTables: nat)

  datatype PageOutput = PageOutput(number: nat, widthPx: int, heightPx: int, textLayerPresent: bool, rawText: string)

  datatype Chunk =
    | TextChunk(index: nat, content: string, page: nat, width: real, height: real)
    | TableChunk(index: nat, content: string, page: nat, tableIndex: nat, rowsCount: nat)

  datatype Warning =
    | PageLimitExceeded(totalPages: nat)
    | TextLimitExceeded(page: nat)
    | TableLimitExceeded(page: nat)
    | OcrUnavailable(totalPages: nat)

  datatype Status = Completed | CompletedWithWarnings | AwaitingReview

  datatype Extraction = Extraction(status: Status, quality: real, textLayerPresent: bool,
                                   pages: seq<PageOutput>, chunks: seq<Chunk>, warnings: seq<Warning>)

  /** What the loops carry. */
  datatype Reading = Reading(pages: seq<PageOutput>, chunks: seq<Chunk>, warnings: seq<Warning>,
                             textLength: nat, chunkIndex: nat, totalTables: nat, stopReading: bool)

  predicate IsLimitWarning(w: Warning) {
    !w.OcrUnavailable?
  }

  function Truncated(x: real): int {
    if x < 0.0 then -(-x).Floor else x.Floor
  }

  function RawText(page: Page): string {
    if page.text.Some? then page.text.value else ""
  }

  function Body(page: Page): string {
    Strip(RawText(page))
  }

  function Cell(c: Option<string>): string {
    if c.Some? then c.value else ""
  }

  function RowText(row: seq<Option<string>>): string {
    Join(seq(|row|, i requires 0 <= i < |row| => Cell(row[i])), " | ")
  }

  function Content(table: Table): string {
    Join(seq(|table|, i requires 0 <= i < |table| => RowText(table[i])), "\n")
  }

  function OutputOf(page: Page, number: nat): PageOutput {
    PageOutput(number, Truncated(page.width), Truncated(page.height), Body(page) != "", RawText(page))
  }

  // -------------------------------------------------------------- a single pass

  /** The page's own row and its text chunk. */
  function ReadText(r: Reading, page: Page, number: nat): Reading {
    var body := Body(page);
    var r := r.(textLength := r.textLength + |body|, pages := r.pages + [OutputOf(page, number)]);
    if body == "" then r
    else r.(chunkIndex := r.chunkIndex + 1,
            chunks := r.chunks + [TextChunk(r.chunkIndex + 1, body, number, page.width, page.height)])
  }

  function AddTable(r: Reading, table: Table, number: nat, t: nat): Reading {
    r.(totalTables := r.totalTables + 1, chunkIndex := r.chunkIndex + 1,
       chunks := r.chunks + [TableChunk(r.chunkIndex + 1, Content(table), number, t, |table|)])
  }

  function ReadTables(r: Reading, limits: Limits, tables: seq<Table>, number: nat, t: nat): Reading
    requires t <= |tables|
    decreases |tables| - t
  {
    if t == |tables| then r
    else if tables[t] == [] then ReadTables(r, limits, tables, number, t + 1)
    else if r.totalTables + 1 > limits.maxTables then
      r.(totalTables := r.totalTables + 1, warnings := r.warnings + [TableLimitExceeded(number)])
    else ReadTables(AddTable(r, tables[t], number, t), limits, tables, number, t + 1)
  }

  function ReadPage(r: Reading, limits: Limits, page: Page, number: nat): Reading {
    var r := ReadText(r, page, number);
    if r.textLength > limits.maxChars then
      r.(warnings := r.warnings + [TextLimitExceeded(number)], stopReading := true)
    else ReadTables(r, limits, page.tables, number, 0)
  }

  function PageLimit(doc: seq<Page>, limits: Limits): nat {
    if |doc| < limits.maxPages then |doc| else limits.maxPages
  }

  /** Pages `number`, `number` + 1, ... up to the limit or a stop. */
  function SinglePass(r: Reading, limits: Limits, doc: seq<Page>, number: nat): Reading
    requires number >= 1
    decreases PageLimit(doc, limits) + 1 - number
  {
    if number > PageLimit(doc, limits) || r.stopReading then r
    else SinglePass(ReadPage(r, limits, doc[number - 1], number), limits, doc, number + 1)
  }

  function Start(doc: seq<Page>, limits: Limits): Reading {
    Reading([], [], if |doc| > limits.maxPages then [PageLimitExceeded(|doc|)] else [], 0, 0, 0, false)
  }

  function Conclude(r: Reading, totalPages: nat): Extraction {
    if r.textLength == 0 then
      Extraction(AwaitingReview, 0.0, false, r.pages, r.chunks, r.warnings + [OcrUnavailable(totalPages)])
    else if exists i :: 0 <= i < |r.warnings| && IsLimitWarning(r.warnings[i]) then
      Extraction(CompletedWithWarnings, 0.70, true, r.pages, r.chunks, r.warnings)
    else if |r.warnings| > 0 then
      Extraction(CompletedWithWarnings, 0.85, true, r.pages, r.chunks, r.warnings)
    else
      Extraction(Completed, 1.0, true, r.pages, r.chunks, r.warnings)
  }

  function Parsed(doc: seq<Page>, limits: Limits): Extraction {
    Conclude(SinglePass(Start(doc, limits), limits, doc, 1), |doc|)
  }

  // ----------------------------------------------------------- reading in batches

  method ReadOnePage(r: Reading, limits: Limits, page: Page, number: nat) returns (next: Reading)
    ensures next == ReadPage(r, limits, page, number)
  {
    next := ReadText(r, page, number);
    if next.textLength > limits.maxChars {
      return next.(warnings := next.warnings + [TextLimitExceeded(number)], stopReading := true);
    }
    ghost var target := ReadTables(next, limits, page.tables, number, 0);
    for t := 0 to |page.tables|
      invariant ReadTables(next, limits, page.tables, number, t) == target
    {
      if page.tables[t] != [] {
        if next.totalTables + 1 > limits.maxTables {
          next := next.(totalTables := next.totalTables + 1, warnings := next.warnings + [TableLimitExceeded(number)]);
          return;
        }
        next := AddTable(next, page.tables[t], number, t);
      }
    }
  }

  method ReadBatch(r: Reading, limits: Limits, doc: seq<Page>, first: nat, last: nat) returns (next: Reading)
    requires 1 <= first <= last + 1 && last <= PageLimit(doc, limits)
    ensures SinglePass(next, limits, doc, last + 1) == SinglePass(r, limits, doc, first)
  {
    next := r;
    var number := first;
    while number <= last && !next.stopReading
      invariant first <= number <= last + 1
      invariant SinglePass(next, limits, doc, number) == SinglePass(r, limits, doc, first)
    {
      next := ReadOnePage(next, limits, doc[number - 1], number);
      number := number + 1;
    }
  }

  lemma PassOver(r: Reading, limits: Limits, doc: seq<Page>, number: nat)
    requires number > PageLimit(doc, limits) || (number >= 1 && r.stopReading)
    ensures SinglePass(r, limits, doc, number) == r
  {
  }

  /** One turn of the batch loop. */
  method NextBatch(r: Reading, limits: Limits, doc: seq<Page>, batchStart: nat, batchSize: nat) returns (next: Reading)
    requires batchSize > 0 && 1 <= batchStart <= PageLimit(doc, limits)
    ensures SinglePass(next, limits, doc, batchStart + batchSize) == SinglePass(r, limits, doc, batchStart)
  {
    var pageLimit := PageLimit(doc, limits);
    if batchStart + batchSize - 1 < pageLimit {
      next := ReadBatch(r, limits, doc, batchStart, batchStart + batchSize - 1);
    } else {
      next := ReadBatch(r, limits, doc, batchStart, pageLimit);
      PassOver(next, limits, doc, pageLimit + 1);
      PassOver(next, limits, doc, batchStart + batchSize);
    }
  }

  method ReadAll(start: Reading, limits: Limits, doc: seq<Page>, batchSize: nat) returns (r: Reading)
    requires batchSize > 0
    ensures r == SinglePass(start, limits, doc, 1)
  {
    r := start;
    ghost var target := SinglePass(r, limits, doc, 1);
    var pageLimit := PageLimit(doc, limits);
    var batchStart := 1;
    while batchStart <= pageLimit && !r.stopReading
      invariant batchStart >= 1
      invariant SinglePass(r, limits, doc, batchStart) == target
      decreases pageLimit + 1 - batchStart
    {
      r := NextBatch(r, limits, doc, batchStart, batchSize);
      batchStart := batchStart + batchSize;
    }
    PassOver(r, limits, doc, batchStart);
  }

  /** For every batch size, batched reading gives what one pass over the pages gives. */
  method Parse(doc: seq<Page>, limits: Limits, batchSize: nat) returns (extraction: Extraction)
    requires batchSize > 0
    ensures extraction == Parsed(doc, limits)
  {
    var r := ReadAll(Start(doc, limits), limits, doc, batchSize);
    extraction := Conclude(r, |doc|);
  }

  // ------------------------------------------------------- an independent reading

  /** Characters on the first k pages. */
  function TextUpTo(doc: seq<Page>, k: nat): nat
    requires k <= |doc|
  {
    if k == 0 then 0 else TextUpTo(doc, k - 1) + |Body(doc[k - 1])|
  }

  function Outputs(doc: seq<Page>, k: nat): seq<PageOutput>
    requires k <= |doc|
  {
    if k == 0 then [] else Outputs(doc, k - 1) + [OutputOf(doc[k - 1], k)]
  }

  datatype TableRef = TableRef(page: nat, tableIndex: nat, content: string, rowsCount: nat)

  function TablesOf(tables: seq<Table>, number: nat, t: nat): seq<TableRef>
    requires t <= |tables|
  {
    if t == 0 then []
    else TablesOf(tables, number, t - 1)
         + if tables[t - 1] == [] then [] else [TableRef(number, t - 1, Content(tables[t - 1]), |tables[t - 1]|)]
  }

  /** The non-empty tables of the first k pages, in order. */
  function AllTables(doc: seq<Page>, k: nat): seq<TableRef>
    requires k <= |doc|
  {
    if k == 0 then [] else AllTables(doc, k - 1) + TablesOf(doc[k - 1].tables, k, |doc[k - 1].tables|)
  }

  /** One warning for every page with tables from the one on whose tables pass the limit. */
  function TableWarnings(count: nat -> nat, max: nat, k: nat): seq<Warning> {
    if k == 0 then []
    else TableWarnings(count, max, k - 1)
         + if count(k) > max && count(k) > count(k - 1) then [TableLimitExceeded(k)] else []
  }

  /** How many non-empty tables the first k pages hold. */
  function TableCount(doc: seq<Page>): nat -> nat {
    (k: nat) => if k <= |doc| then |AllTables(doc, k)| else 0
  }

  function StartWarnings(doc: seq<Page>, limits: Limits): seq<Warning> {
    if |doc| > limits.maxPages then [PageLimitExceeded(|doc|)] else []
  }

  datatype TextRef = TextRef(page: nat, content: string, width: real, height: real)

  /** The non-blank texts of the first k pages, in order. */
  function AllTexts(doc: seq<Page>, k: nat): seq<TextRef>
    requires k <= |doc|
  {
    if k == 0 then []
    else AllTexts(doc, k - 1)
         + if Body(doc[k - 1]) == "" then [] else [TextRef(k, Body(doc[k - 1]), doc[k - 1].width, doc[k - 1].height)]
  }

  function TableChunks(chunks: seq<Chunk>): seq<TableRef> {
    if chunks == [] then []
    else
      var last := chunks[|chunks| - 1];
      TableChunks(chunks[..|chunks| - 1])
      + if last.TableChunk? then [TableRef(last.page, last.tableIndex, last.content, last.rowsCount)] else []
  }

  function TextChunks(chunks: seq<Chunk>): seq<TextRef> {
    if chunks == [] then []
    else
      var last := chunks[|chunks| - 1];
      TextChunks(chunks[..|chunks| - 1]) + if last.TextChunk? then [TextRef(last.page, last.content, last.width, last.height)] else []
  }

  /** Page by page, the text of a page before its tables. */
  predicate Ordered(chunks: seq<Chunk>) {
    forall i, j :: 0 <= i < j < |chunks| ==>
      chunks[i].page < chunks[j].page || (chunks[i].page == chunks[j].page && chunks[j].TableChunk?)
  }

  predicate UpToPage(chunks: seq<Chunk>, k: nat) {
    forall i :: 0 <= i < |chunks| ==> chunks[i].page <= k
  }

  predicate Numbered(chunks: seq<Chunk>) {
    forall i :: 0 <= i < |chunks| ==> chunks[i].index == i + 1
  }

  predicate OnlyLimitWarnings(warnings: seq<Warning>) {
    forall i :: 0 <= i < |warnings| ==> IsLimitWarning(warnings[i])
  }

  function Capped<T>(s: seq<T>, max: nat): seq<T> {
    if |s| <= max then s else s[..max]
  }

  /** The tables met so far, against what was kept of them. */
  ghost predicate TablesKept(r: Reading, max: nat, met: seq<TableRef>) {
    && TableChunks(r.chunks) == Capped(met, max)
    && (r.totalTables <= max ==> r.totalTables == |met|)
    && (r.totalTables > max ==> |met| > max)
  }

  ghost predicate PagesKept(r: Reading, doc: seq<Page>, k: nat)
    requires k <= |doc|
  {
    && r.pages == Outputs(doc, k)
    && r.textLength == TextUpTo(doc, k)
    && TextChunks(r.chunks) == AllTexts(doc, k)
    && Numbered(r.chunks) && r.chunkIndex == |r.chunks| && Ordered(r.chunks) && UpToPage(r.chunks, k)
    && OnlyLimitWarnings(r.warnings)
  }

  /** Pages 1..k read, the last of them without its tables when its text ended the reading. */
  ghost predicate Read(r: Reading, doc: seq<Page>, limits: Limits, k: nat)
    requires k <= |doc|
  {
    && PagesKept(r, doc, k)
    && (forall j :: 0 <= j < k ==> TextUpTo(doc, j) <= limits.maxChars)
    && (r.stopReading <==> TextUpTo(doc, k) > limits.maxChars)
    && (r.stopReading ==> k > 0)
    && var met := AllTables(doc, if r.stopReading then k - 1 else k);
       && TablesKept(r, limits.maxTables, met)
       && r.warnings == StartWarnings(doc, limits)
                        + TableWarnings(TableCount(doc), limits.maxTables, if r.stopReading then k - 1 else k)
                        + if r.stopReading then [TextLimitExceeded(k)] else []
  }

  // ------------------------------------------------------------------- lemmas

  lemma {:induction false} OutputsInOrder(doc: seq<Page>, k: nat)
    requires k <= |doc|
    ensures |Outputs(doc, k)| == k && forall i :: 0 <= i < k ==> Outputs(doc, k)[i] == OutputOf(doc[i], i + 1)
  {
    if k > 0 {
      OutputsInOrder(doc, k - 1);
    }
  }

  /** Cut towards zero. */
  predicate CutTo(x: real, n: int) {
    if x >= 0.0 then n as real <= x < n as real + 1.0 else n as real - 1.0 < x <= n as real
  }

  /** Row i shows page i: number, size in whole pixels, its raw text, and whether there is more to it than blanks. */
  lemma OutputsAt(doc: seq<Page>, k: nat, i: nat)
    requires i < k <= |doc|
    ensures |Outputs(doc, k)| == k
    ensures var row := Outputs(doc, k)[i];
            && row.number == i + 1 && CutTo(doc[i].width, row.widthPx) && CutTo(doc[i].height, row.heightPx)
            && row.rawText == (match doc[i].text case None => "" case Some(text) => text)
            && (row.textLayerPresent <==> !AllSpace(row.rawText))
  {
    OutputsInOrder(doc, k);
    var left, right := StripExactly(RawText(doc[i]));
    if Body(doc[i]) == "" {
      assert RawText(doc[i]) == left + right;
    } else {
      var text := RawText(doc[i]);
      assert text[|left|] == Body(doc[i])[0];
    }
  }

  /** The text of a row and of a table from the front: an empty cell reads as nothing, bars and line breaks only in between. */
  lemma RowTextExactly(cell: Option<string>, rest: seq<Option<string>>)
    ensures RowText([]) == ""
    ensures RowText([cell] + rest) ==
            (match cell case None => "" case Some(text) => text) + if rest == [] then "" else " | " + RowText(rest)
  {
    var cells := [cell] + rest;
    var texts := seq(|rest|, i requires 0 <= i < |rest| => Cell(rest[i]));
    assert seq(|cells|, i requires 0 <= i < |cells| => Cell(cells[i])) == [Cell(cell)] + texts;
    JoinFromFront(Cell(cell), texts, " | ");
  }

  lemma ContentExactly(row: seq<Option<string>>, rest: Table)
    ensures Content([]) == ""
    ensures Content([row] + rest) == RowText(row) + if rest == [] then "" else "\n" + Content(rest)
  {
    var table := [row] + rest;
    var rows := seq(|rest|, i requires 0 <= i < |rest| => RowText(rest[i]));
    assert seq(|table|, i requires 0 <= i < |table| => RowText(table[i])) == [RowText(row)] + rows;
    JoinFromFront(RowText(row), rows, "\n");
  }

  lemma AddedWarning(warnings: seq<Warning>, w: Warning)
    requires OnlyLimitWarnings(warnings) && IsLimitWarning(w)
    ensures OnlyLimitWarnings(warnings + [w])
  {
  }

  lemma AddedChunk(chunks: seq<Chunk>, c: Chunk)
    ensures TableChunks(chunks + [c]) ==
            TableChunks(chunks) + if c.TableChunk? then [TableRef(c.page, c.tableIndex, c.content, c.rowsCount)] else []
    ensures TextChunks(chunks + [c]) == TextChunks(chunks) + if c.TextChunk? then [TextRef(c.page, c.content, c.width, c.height)] else []
  {
    assert (chunks + [c])[..|chunks|] == chunks;
  }

  lemma NumberedNext(chunks: seq<Chunk>, c: Chunk)
    requires Numbered(chunks) && c.index == |chunks| + 1
    ensures Numbered(chunks + [c])
  {
  }

  lemma OrderedNext(chunks: seq<Chunk>, c: Chunk, k: nat)
    requires Ordered(chunks) && c.page == k > 0
    requires UpToPage(chunks, if c.TextChunk? then k - 1 else k)
    ensures Ordered(chunks + [c]) && UpToPage(chunks + [c], k)
  {
  }

  lemma {:induction false} TablesOfGrows(tables: seq<Table>, number: nat, t: nat, u: nat)
    requires t <= u <= |tables|
    ensures TablesOf(tables, number, t) <= TablesOf(tables, number, u)
  {
    if t < u {
      TablesOfGrows(tables, number, t, u - 1);
    }
  }

  lemma ReadTextKeeps(r: Reading, doc: seq<Page>, k: nat)
    requires 0 < k <= |doc| && PagesKept(r, doc, k - 1)
    ensures var next := ReadText(r, doc[k - 1], k);
            && PagesKept(next, doc, k) && TableChunks(next.chunks) == TableChunks(r.chunks)
            && next.warnings == r.warnings && next.totalTables == r.totalTables && next.stopReading == r.stopReading
  {
    var page, body := doc[k - 1], Body(doc[k - 1]);
    if body != "" {
      var c := TextChunk(r.chunkIndex + 1, body, k, page.width, page.height);
      AddedChunk(r.chunks, c);
      NumberedNext(r.chunks, c);
      OrderedNext(r.chunks, c, k);
      assert AllTexts(doc, k) == AllTexts(doc, k - 1) + [TextRef(k, body, page.width, page.height)];
    } else {
      assert AllTexts(doc, k) == AllTexts(doc, k - 1);
    }
  }

  lemma AddTableKeeps(r: Reading, doc: seq<Page>, k: nat, t: nat, max: nat, met: seq<TableRef>)
    requires 0 < k <= |doc| && t < |doc[k - 1].tables| && PagesKept(r, doc, k)
    requires TablesKept(r, max, met) && r.totalTables + 1 <= max
    ensures var table := doc[k - 1].tables[t];
            && PagesKept(AddTable(r, table, k, t), doc, k)
            && TablesKept(AddTable(r, table, k, t), max, met + [TableRef(k, t, Content(table), |table|)])
  {
    var table := doc[k - 1].tables[t];
    var c := TableChunk(r.chunkIndex + 1, Content(table), k, t, |table|);
    AddedChunk(r.chunks, c);
    NumberedNext(r.chunks, c);
    OrderedNext(r.chunks, c, k);
  }

  /** The tables met by now, kept up to the limit, with one warning when some are met beyond it. */
  ghost predicate Met(r: Reading, next: Reading, doc: seq<Page>, k: nat, max: nat, met: seq<TableRef>, already: nat)
    requires k <= |doc|
  {
    && PagesKept(next, doc, k) && TablesKept(next, max, met) && next.stopReading == r.stopReading
    && next.warnings == r.warnings + if |met| > max && |met| > already then [TableLimitExceeded(k)] else []
  }

  /** One table too many: the page's other tables are met but not looked at. */
  lemma TableLimitHit(r: Reading, limits: Limits, doc: seq<Page>, k: nat, t: nat, before: seq<TableRef>)
    requires 0 < k <= |doc| && t < |doc[k - 1].tables| && PagesKept(r, doc, k) && doc[k - 1].tables[t] != []
    requires TablesKept(r, limits.maxTables, before + TablesOf(doc[k - 1].tables, k, t))
    requires r.totalTables + 1 > limits.maxTables
    ensures var tables := doc[k - 1].tables;
            var next := r.(totalTables := r.totalTables + 1, warnings := r.warnings + [TableLimitExceeded(k)]);
            Met(r, next, doc, k, limits.maxTables, before + TablesOf(tables, k, |tables|), |before| + |TablesOf(tables, k, t)|)
  {
    var tables, max := doc[k - 1].tables, limits.maxTables;
    AddedWarning(r.warnings, TableLimitExceeded(k));
    TablesOfGrows(tables, k, t + 1, |tables|);
    assert TablesOf(tables, k, t) <= TablesOf(tables, k, t + 1);
    assert before + TablesOf(tables, k, t) <= before + TablesOf(tables, k, |tables|);
  }

  /** From the t-th table on, the rest of the page's tables are met. */
  lemma {:induction false} ReadTablesKeeps(r: Reading, limits: Limits, doc: seq<Page>, k: nat, t: nat, before: seq<TableRef>)
    requires 0 < k <= |doc| && t <= |doc[k - 1].tables| && PagesKept(r, doc, k)
    requires TablesKept(r, limits.maxTables, before + TablesOf(doc[k - 1].tables, k, t))
    ensures var tables := doc[k - 1].tables;
            Met(r, ReadTables(r, limits, tables, k, t), doc, k, limits.maxTables,
                before + TablesOf(tables, k, |tables|), |before| + |TablesOf(tables, k, t)|)
    decreases |doc[k - 1].tables| - t
  {
    var tables := doc[k - 1].tables;
    if t == |tables| {
    } else if tables[t] == [] {
      assert TablesOf(tables, k, t + 1) == TablesOf(tables, k, t);
      ReadTablesKeeps(r, limits, doc, k, t + 1, before);
    } else if r.totalTables + 1 > limits.maxTables {
      TableLimitHit(r, limits, doc, k, t, before);
    } else {
      AddTableKeeps(r, doc, k, t, limits.maxTables, before + TablesOf(tables, k, t));
      TablesOfNext(tables, k, t, before);
      ReadTablesKeeps(AddTable(r, tables[t], k, t), limits, doc, k, t + 1, before);
    }
  }

  lemma TablesOfNext(tables: seq<Table>, k: nat, t: nat, before: seq<TableRef>)
    requires t < |tables| && tables[t] != []
    ensures before + TablesOf(tables, k, t) + [TableRef(k, t, Content(tables[t]), |tables[t]|)]
            == before + TablesOf(tables, k, t + 1)
  {
  }

  lemma PageTablesKeep(r: Reading, limits: Limits, doc: seq<Page>, k: nat)
    requires 0 < k <= |doc| && PagesKept(r, doc, k) && TablesKept(r, limits.maxTables, AllTables(doc, k - 1))
    ensures Met(r, ReadTables(r, limits, doc[k - 1].tables, k, 0), doc, k, limits.maxTables, AllTables(doc, k),
                |AllTables(doc, k - 1)|)
  {
    var before := AllTables(doc, k - 1);
    assert before + TablesOf(doc[k - 1].tables, k, 0) == before;
    ReadTablesKeeps(r, limits, doc, k, 0, before);
  }

  lemma AllTablesGrows(doc: seq<Page>, k: nat)
    requires 0 < k <= |doc|
    ensures |AllTables(doc, k - 1)| <= |AllTables(doc, k)|
  {
  }

  lemma TextLimitHit(text: Reading, limits: Limits, doc: seq<Page>, k: nat)
    requires 0 < k <= |doc| && PagesKept(text, doc, k) && TablesKept(text, limits.maxTables, AllTables(doc, k - 1))
    requires text.textLength > limits.maxChars && forall j :: 0 <= j < k ==> TextUpTo(doc, j) <= limits.maxChars
    requires text.warnings == StartWarnings(doc, limits) + TableWarnings(TableCount(doc), limits.maxTables, k - 1)
    ensures Read(text.(warnings := text.warnings + [TextLimitExceeded(k)], stopReading := true), doc, limits, k)
  {
    AddedWarning(text.warnings, TextLimitExceeded(k));
  }

  lemma Associative(a: seq<Warning>, b: seq<Warning>, c: seq<Warning>)
    ensures a + b + c == a + (b + c)
  {
  }

  lemma PageReadThrough(text: Reading, limits: Limits, doc: seq<Page>, k: nat)
    requires 0 < k <= |doc| && PagesKept(text, doc, k) && TablesKept(text, limits.maxTables, AllTables(doc, k - 1))
    requires text.textLength <= limits.maxChars && forall j :: 0 <= j < k ==> TextUpTo(doc, j) <= limits.maxChars
    requires !text.stopReading
    requires text.warnings == StartWarnings(doc, limits) + TableWarnings(TableCount(doc), limits.maxTables, k - 1)
    ensures Read(ReadTables(text, limits, doc[k - 1].tables, k, 0), doc, limits, k)
  {
    PageTablesKeep(text, limits, doc, k);
    AllTablesGrows(doc, k);
    var start, before := StartWarnings(doc, limits), TableWarnings(TableCount(doc), limits.maxTables, k - 1);
    Associative(start, before, if |AllTables(doc, k)| > limits.maxTables && |AllTables(doc, k)| > |AllTables(doc, k - 1)|
                               then [TableLimitExceeded(k)] else []);
    assert TableCount(doc)(k) == |AllTables(doc, k)| && TableCount(doc)(k - 1) == |AllTables(doc, k - 1)|;
  }

  lemma ReadPageKeeps(r: Reading, limits: Limits, doc: seq<Page>, k: nat)
    requires 0 < k <= |doc| && Read(r, doc, limits, k - 1) && !r.stopReading
    ensures Read(ReadPage(r, limits, doc[k - 1], k), doc, limits, k)
  {
    var text := ReadText(r, doc[k - 1], k);
    ReadTextKeeps(r, doc, k);
    if text.textLength > limits.maxChars {
      TextLimitHit(text, limits, doc, k);
    } else {
      PageReadThrough(text, limits, doc, k);
    }
  }

  lemma PassGoesOn(r: Reading, limits: Limits, doc: seq<Page>, number: nat) returns (next: Reading)
    requires 1 <= number <= PageLimit(doc, limits) && !r.stopReading && Read(r, doc, limits, number - 1)
    ensures SinglePass(r, limits, doc, number) == SinglePass(next, limits, doc, number + 1)
    ensures Read(next, doc, limits, number)
  {
    ReadPageKeeps(r, limits, doc, number);
    next := ReadPage(r, limits, doc[number - 1], number);
  }

  /** How many pages a pass reads: up to the page limit, or to the page whose text passes the limit on text. */
  lemma {:induction false} PassReads(r: Reading, limits: Limits, doc: seq<Page>, number: nat) returns (k: nat, end: Reading)
    requires 1 <= number <= PageLimit(doc, limits) + 1 && Read(r, doc, limits, number - 1)
    ensures number - 1 <= k <= PageLimit(doc, limits)
    ensures end == SinglePass(r, limits, doc, number)
    ensures Read(end, doc, limits, k)
    ensures k == PageLimit(doc, limits) || end.stopReading
    decreases PageLimit(doc, limits) + 1 - number
  {
    if number > PageLimit(doc, limits) || r.stopReading {
      k, end := number - 1, r;
    } else {
      var next := PassGoesOn(r, limits, doc, number);
      k, end := PassReads(next, limits, doc, number + 1);
    }
  }

  lemma StartRead(doc: seq<Page>, limits: Limits)
    ensures Read(Start(doc, limits), doc, limits, 0)
  {
  }

  // ----------------------------------------------------------------- theorems

  /** The tables of the pages read to their end. */
  function MetTables(doc: seq<Page>, limits: Limits, k: nat): seq<TableRef>
    requires k <= |doc|
  {
    AllTables(doc, if k > 0 && TextUpTo(doc, k) > limits.maxChars then k - 1 else k)
  }

  /** In order: too many pages, the pages with too many tables, too much text, and no text at all. */
  function ExpectedWarnings(doc: seq<Page>, limits: Limits, k: nat): seq<Warning>
    requires k <= |doc|
  {
    var stopped := k > 0 && TextUpTo(doc, k) > limits.maxChars;
    StartWarnings(doc, limits) + TableWarnings(TableCount(doc), limits.maxTables, if stopped then k - 1 else k)
    + (if stopped then [TextLimitExceeded(k)] else [])
    + if TextUpTo(doc, k) == 0 then [OcrUnavailable(|doc|)] else []
  }

  /**
    What is read, without reference to the loops: the pages are a prefix 1..k, ending at
    the page limit or at the first page whose text passes the limit; every non-blank
    page has its text chunk; the table chunks are the first tables met, never more than
    the limit; chunks go page by page, text before tables, with indices 1..n; the warnings are those of the limits passed, in order.
   */
  ghost predicate Contents(x: Extraction, doc: seq<Page>, limits: Limits, k: nat)
    requires k <= |doc|
  {
    && k <= PageLimit(doc, limits) && (k == PageLimit(doc, limits) || TextUpTo(doc, k) > limits.maxChars)
    && (forall j :: 0 <= j < k ==> TextUpTo(doc, j) <= limits.maxChars)
    && x.pages == Outputs(doc, k)
    && Numbered(x.chunks) && Ordered(x.chunks)
    && TextChunks(x.chunks) == AllTexts(doc, k)
    && TableChunks(x.chunks) == Capped(MetTables(doc, limits, k), limits.maxTables)
    && x.warnings == ExpectedWarnings(doc, limits, k)
  }

  /** The outcome is settled by whether there was text and whether a limit was passed. */
  predicate Verdict(x: Extraction, doc: seq<Page>, limits: Limits, k: nat)
    requires k <= |doc|
  {
    var exceeded := |doc| > limits.maxPages || TextUpTo(doc, k) > limits.maxChars
                    || |MetTables(doc, limits, k)| > limits.maxTables;
    && x.textLayerPresent == (TextUpTo(doc, k) > 0)
    && x.status == (if !x.textLayerPresent then AwaitingReview else if exceeded then CompletedWithWarnings else Completed)
    && x.quality == (if !x.textLayerPresent then 0.0 else if exceeded then 0.70 else 1.0)
  }

  lemma LimitWarningsCount(warnings: seq<Warning>)
    requires OnlyLimitWarnings(warnings)
    ensures (exists i :: 0 <= i < |warnings| && IsLimitWarning(warnings[i])) <==> warnings != []
  {
    if warnings != [] {
      assert IsLimitWarning(warnings[0]);
    }
  }

  /** There is a warning about tables exactly when more were met than the limit allows. */
  lemma {:induction false} TableWarningsExactly(count: nat -> nat, max: nat, k: nat)
    requires count(0) == 0 && forall j: nat :: 0 < j <= k ==> count(j - 1) <= count(j)
    ensures TableWarnings(count, max, k) != [] <==> count(k) > max
  {
    if k > 0 {
      TableWarningsExactly(count, max, k - 1);
    }
  }

  lemma CountsGrow(doc: seq<Page>, max: nat, k: nat)
    requires k <= |doc|
    ensures TableWarnings(TableCount(doc), max, k) != [] <==> |AllTables(doc, k)| > max
  {
    forall j: nat | 0 < j <= k ensures TableCount(doc)(j - 1) <= TableCount(doc)(j) {
      AllTablesGrows(doc, j);
    }
    TableWarningsExactly(TableCount(doc), max, k);
  }

  lemma ConcludeContents(r: Reading, doc: seq<Page>, limits: Limits, k: nat)
    requires k <= PageLimit(doc, limits) && Read(r, doc, limits, k)
    requires k == PageLimit(doc, limits) || r.stopReading
    ensures Contents(Conclude(r, |doc|), doc, limits, k)
  {
    ConcludeKeeps(r, |doc|);
    ConcludeWarns(r, doc, limits, k);
  }

  lemma ConcludeKeeps(r: Reading, totalPages: nat)
    ensures Conclude(r, totalPages).pages == r.pages && Conclude(r, totalPages).chunks == r.chunks
    ensures Conclude(r, totalPages).warnings == r.warnings + if r.textLength == 0 then [OcrUnavailable(totalPages)] else []
  {
  }

  lemma ConcludeWarns(r: Reading, doc: seq<Page>, limits: Limits, k: nat)
    requires k <= |doc| && Read(r, doc, limits, k)
    ensures r.warnings + (if r.textLength == 0 then [OcrUnavailable(|doc|)] else []) == ExpectedWarnings(doc, limits, k)
  {
  }

  lemma ConcludeVerdict(r: Reading, doc: seq<Page>, limits: Limits, k: nat)
    requires k <= |doc| && Read(r, doc, limits, k)
    ensures Verdict(Conclude(r, |doc|), doc, limits, k)
  {
    LimitWarningsCount(r.warnings);
    CountsGrow(doc, limits.maxTables, if r.stopReading then k - 1 else k);
  }

  /** The outcome for every document and all limits; a quality of 0.85 is never given. */
  lemma ParsedExactly(doc: seq<Page>, limits: Limits) returns (k: nat)
    ensures k <= |doc| && Contents(Parsed(doc, limits), doc, limits, k) && Verdict(Parsed(doc, limits), doc, limits, k)
  {
    StartRead(doc, limits);
    var r;
    k, r := PassReads(Start(doc, limits), limits, doc, 1);
    ConcludeContents(r, doc, limits, k);
    ConcludeVerdict(r, doc, limits, k);
  }
}
