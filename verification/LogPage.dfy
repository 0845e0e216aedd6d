/** Backward pages over application log members, plain or gzip.

    A page is a byte range [pageStart, pageEnd) of the member. The text shown for the range
    (lossy decoding, line joining, redaction) is the parameter `present`. */
module LogPage {
  import opened Bytes
  import opened Prelude
  import opened Utf8

  datatype Page = Page(
    content: Text,
    lineCount: nat,
    returnedBytes: nat,
    fileSizeBytes: nat,
    truncated: bool,
    hasOlder: bool,
    hasNewer: bool,
    nextBefore: Option<nat>,
    pageStart: nat,
    pageEnd: nat)

  /** ApplicationLogError with its HTTP status. */
  datatype Response = Served(page: Page) | Refused(status: nat)

  const MAX_TAIL_BYTES: nat := 512 * 1024
  const READ_BYTES: nat := 1024 * 1024

  function Before(total: nat, before: Option<nat>): nat {
    if before.None? then total else Min(total, before.value)
  }

  /** Number of bytes before the last `n` lines. */
  function Omitted(lines: seq<Bytes>, n: nat): nat {
    |Concat(lines[..|lines| - |Last(lines, n)|])|
  }

  function PageContent(present: Bytes -> Text, data: Bytes, windowStart: nat, pageEnd: nat, total: nat,
                       lineLimit: nat): Page
    requires lineLimit >= 1
  {
    var selected := Last(Segments(data), lineLimit);
    var pageStart := windowStart + Omitted(Segments(data), lineLimit);
    var tail := BoundedTail(present(Concat(selected)), MAX_TAIL_BYTES);
    Page(tail.text, |selected|, tail.bytes, total,
         pageStart > 0 || pageEnd < total || tail.truncated,
         pageStart > 0, pageEnd < total,
         if pageStart > 0 then Some(pageStart) else None,
         pageStart, pageEnd)
  }

  function WindowStart(end: nat): (start: nat)
    ensures start <= end <= start + MAX_TAIL_BYTES
  {
    if end > MAX_TAIL_BYTES then end - MAX_TAIL_BYTES else 0
  }

  /** `_bounded_regular_page` on the bytes of the file. */
  function RegularPage(present: Bytes -> Text, content: Bytes, lineLimit: nat, before: Option<nat>): Page
    requires lineLimit >= 1
  {
    var end := Before(|content|, before);
    var start := WindowStart(end);
    PageContent(present, content[start..end], start, end, |content|, lineLimit)
  }

  // ----- one page -----

  lemma ConcatCut(parts: seq<Bytes>, k: nat)
    requires k <= |parts|
    ensures |Concat(parts[..k])| <= |Concat(parts)|
    ensures Concat(parts[k..]) == Concat(parts)[|Concat(parts[..k])|..]
    ensures k < |parts| && parts[k] != [] ==> |Concat(parts[..k])| < |Concat(parts)|
  {
    Halves(parts, k);
    ConcatAppend(parts[..k], parts[k..]);
  }

  /** The final lines of a window are one suffix of it. */
  lemma SelectedLinesAreSuffix(lines: seq<Bytes>, n: nat)
    requires n >= 1
    ensures Omitted(lines, n) <= |Concat(lines)|
    ensures Concat(Last(lines, n)) == Concat(lines)[Omitted(lines, n)..]
    ensures lines != [] && (forall i :: 0 <= i < |lines| ==> lines[i] != [])
            ==> Omitted(lines, n) < |Concat(lines)|
  {
    var k := |lines| - |Last(lines, n)|;
    assert Last(lines, n) == lines[k..];
    hide Concat, Last;
    ConcatCut(lines, k);
  }

  predicate IsLineBreak(b: Byte) {
    b == NEWLINE || b == RETURN
  }

  /** What comes before a later line ends with a line break. */
  lemma PrefixOfLinesEnds(data: Bytes, lines: seq<Bytes>, k: nat)
    requires lines == Segments(data) && 0 < k < |lines|
    ensures 0 < |Concat(lines[..k])| <= |data|
    ensures IsLineBreak(data[|Concat(lines[..k])| - 1])
  {
    hide Segments, Concat, EndsLine, IsLineBreak;
    InnerLinesEnd(data, k - 1);
    PrefixEndsWithItsLine(lines, k);
  }

  lemma PrefixEndsWithItsLine(lines: seq<Bytes>, k: nat)
    requires 0 < k <= |lines| && EndsLine(lines[k - 1])
    ensures 0 < |Concat(lines[..k])| <= |Concat(lines)|
    ensures IsLineBreak(Concat(lines)[|Concat(lines[..k])| - 1])
  {
    var older := lines[..k];
    Halves(lines, k);
    ConcatAppend(older, lines[k..]);
    ConcatKeepsLastByte(older);
    var at := |Concat(older)| - 1;
    assert (Concat(older) + Concat(lines[k..]))[at] == Concat(older)[at];
  }

  /** A line break ends every line but the last. */
  predicate EndsLine(line: Bytes) {
    line != [] && IsLineBreak(line[|line| - 1])
  }

  lemma {:induction false} FirstLineEnds(s: Bytes)
    requires s != []
    ensures FirstLineLength(s) < |s| ==> EndsLine(s[..FirstLineLength(s)])
  {
    if s[0] != NEWLINE && s[0] != RETURN && |s| > 1 {
      FirstLineEnds(s[1..]);
      var n := FirstLineLength(s[1..]);
      assert s[..n + 1][n] == s[1..][..n][n - 1];
    }
  }

  lemma {:induction false} InnerLinesEnd(s: Bytes, i: nat)
    requires i + 1 < |Segments(s)|
    ensures EndsLine(Segments(s)[i])
  {
    var n := FirstLineLength(s);
    if i == 0 {
      FirstLineEnds(s);
      assert s[n..] != [];
    } else {
      InnerLinesEnd(s[n..], i - 1);
    }
  }

  lemma {:induction false} ConcatKeepsLastByte(lines: seq<Bytes>)
    requires lines != [] && lines[|lines| - 1] != []
    ensures Concat(lines) != []
    ensures var last := lines[|lines| - 1];
            Concat(lines)[|Concat(lines)| - 1] == last[|last| - 1]
  {
    if |lines| > 1 {
      ConcatKeepsLastByte(lines[1..]);
    } else {
      assert lines[1..] == [];
      assert Concat(lines) == lines[0] + [];
    }
  }

  /** What a page of the regular path is: its bytes are exactly the stated range, at most
      `lineLimit` lines and MAX_TAIL_BYTES long, it makes progress, and it starts on a line
      start unless the byte window itself cut the line. */
  lemma RegularPageShowsItsRange(present: Bytes -> Text, content: Bytes, lineLimit: nat, before: Option<nat>)
    requires lineLimit >= 1
    ensures var page := RegularPage(present, content, lineLimit, before);
            && page.pageStart <= page.pageEnd == Before(|content|, before) <= |content|
            && page.pageEnd - page.pageStart <= MAX_TAIL_BYTES
            && page.lineCount <= lineLimit
            && (page.pageEnd > 0 ==> page.pageStart < page.pageEnd)
            && page.content == BoundedTail(present(content[page.pageStart..page.pageEnd]), MAX_TAIL_BYTES).text
            && page.returnedBytes == |Encode(page.content)| <= MAX_TAIL_BYTES
            && (page.nextBefore == if page.pageStart > 0 then Some(page.pageStart) else None)
            && (page.hasOlder <==> page.pageStart > 0) && (page.hasNewer <==> page.pageEnd < |content|)
  {
    hide RegularPage, PageStart, BoundedTail, Encode;
    RegularPageFields(present, content, lineLimit, before);
    TailIsBounded(present(content[PageStart(content, lineLimit, before)..Before(|content|, before)]));
  }

  /** Where the selected lines of the window start. */
  ghost function PageStart(content: Bytes, lineLimit: nat, before: Option<nat>): nat {
    var end := Before(|content|, before);
    WindowStart(end) + Omitted(Segments(content[WindowStart(end)..end]), lineLimit)
  }

  lemma RegularPageFields(present: Bytes -> Text, content: Bytes, lineLimit: nat, before: Option<nat>)
    requires lineLimit >= 1
    ensures var end, from := Before(|content|, before), PageStart(content, lineLimit, before);
            && WindowStart(end) <= from <= end && (end > 0 ==> from < end)
            && var tail := BoundedTail(present(content[from..end]), MAX_TAIL_BYTES);
               RegularPage(present, content, lineLimit, before)
               == Page(tail.text, Min(lineLimit, |Segments(content[WindowStart(end)..end])|), tail.bytes, |content|,
                       from > 0 || end < |content| || tail.truncated, from > 0, end < |content|,
                       if from > 0 then Some(from) else None, from, end)
  {
    hide Segments, Omitted, Last, Concat, BoundedTail;
    SelectedFromWindow(content, WindowStart(Before(|content|, before)), Before(|content|, before), lineLimit);
  }

  /** Without its first lines a text has as many lines fewer. */
  lemma {:induction false} LaterSegments(data: Bytes, k: nat, m: nat)
    requires k <= |Segments(data)| && m == |Concat(Segments(data)[..k])|
    ensures m <= |data| && |Segments(data[m..])| == |Segments(data)| - k
  {
    hide *;
    if k == 0 {
      NoLinesBefore(data);
    } else {
      FirstSegment(data, k);
      var n := FirstLineLength(data);
      LaterSegments(data[n..], k - 1, m - n);
      DropTwice(data, n, m - n);
    }
  }

  lemma FirstSegment(data: Bytes, k: nat)
    requires 0 < k <= |Segments(data)|
    ensures var n, m := FirstLineLength(data), |Concat(Segments(data)[..k])|;
            && n <= m && n <= |data|
            && |Segments(data)| == 1 + |Segments(data[n..])|
            && m - n == |Concat(Segments(data[n..])[..k - 1])|
  {
    var n := FirstLineLength(data);
    SegmentsOfFirst(data);
    hide Segments, FirstLineLength;
    var line, rest := data[..n], Segments(data[n..]);
    assert ([line] + rest)[..k] == [line] + rest[..k - 1];
    hide Concat;
    ConcatOfFirst(line, rest[..k - 1]);
  }

  lemma SegmentsOfFirst(data: Bytes)
    requires Segments(data) != []
    ensures var n := FirstLineLength(data);
            n <= |data| && Segments(data) == [data[..n]] + Segments(data[n..])
  {
  }

  lemma ConcatOfFirst(line: Bytes, rest: seq<Bytes>)
    ensures Concat([line] + rest) == line + Concat(rest)
  {
  }

  lemma NoLinesBefore(data: Bytes)
    ensures Concat(Segments(data)[..0]) == [] && data[0..] == data
  {
  }

  lemma DropTwice(data: Bytes, n: nat, m: nat)
    requires n + m <= |data|
    ensures data[n..][m..] == data[n + m..]
  {
  }

  /** How much of its window a page shows: the last `lineLimit` lines before its end, or all of them if there
      are fewer, and the line count is that of the bytes shown. */
  lemma RegularPageShowsItsLines(present: Bytes -> Text, content: Bytes, lineLimit: nat, before: Option<nat>)
    requires lineLimit >= 1
    ensures var page := RegularPage(present, content, lineLimit, before);
            var start := WindowStart(page.pageEnd);
            && start <= page.pageStart <= page.pageEnd <= |content|
            && page.lineCount == Min(lineLimit, |Segments(content[start..page.pageEnd])|)
            && page.lineCount == |Segments(content[page.pageStart..page.pageEnd])|
            && (page.lineCount < lineLimit ==> page.pageStart == start)
            && page.fileSizeBytes == |content|
            && (page.truncated <==>
                  page.pageStart > 0 || page.pageEnd < |content|
                  || |Encode(present(content[page.pageStart..page.pageEnd]))| > MAX_TAIL_BYTES)
  {
    hide RegularPage, Segments, Omitted, BoundedTail, Encode;
    var end := Before(|content|, before);
    RegularPageFields(present, content, lineLimit, before);
    CountFromWindow(content, WindowStart(end), end, lineLimit);
    TailIsBounded(present(content[PageStart(content, lineLimit, before)..end]));
  }

  lemma CountFromWindow(content: Bytes, start: nat, end: nat, n: nat)
    requires start <= end <= |content| && n >= 1
    ensures var lines := Segments(content[start..end]);
            var omitted := Omitted(lines, n);
            && omitted <= end - start
            && |Segments(content[start + omitted..end])| == |Last(lines, n)|
            && (|lines| <= n ==> omitted == 0)
  {
    hide Segments, Concat;
    var data := content[start..end];
    var lines := Segments(data);
    LaterSegments(data, |lines| - |Last(lines, n)|, Omitted(lines, n));
    NoLinesBefore(data);
    TakeThenDrop(content, start, end, Omitted(lines, n));
  }

  lemma TakeThenDrop(content: Bytes, start: nat, end: nat, n: nat)
    requires start <= end <= |content| && n <= end - start
    ensures content[start..end][n..] == content[start + n..end]
  {
  }

  /** The lines a page selects are the bytes from its start to the end of its window. */
  lemma SelectedFromWindow(content: Bytes, start: nat, end: nat, n: nat)
    requires start <= end <= |content| && n >= 1
    ensures var lines := Segments(content[start..end]);
            && Omitted(lines, n) <= end - start
            && (start < end ==> Omitted(lines, n) < end - start)
            && Concat(Last(lines, n)) == content[start + Omitted(lines, n)..end]
  {
    var data := content[start..end];
    var lines := Segments(data);
    NoLinesOfNothing(data);
    hide Segments, Omitted, Last, Concat;
    SelectedLinesAreSuffix(lines, n);
    assert data[Omitted(lines, n)..] == content[start + Omitted(lines, n)..end];
  }

  lemma NoLinesOfNothing(data: Bytes)
    ensures Segments(data) == [] ==> data == []
  {
  }

  lemma TailIsBounded(text: Text)
    ensures var t := BoundedTail(text, MAX_TAIL_BYTES);
            t.bytes == |Encode(t.text)| <= MAX_TAIL_BYTES && (t.truncated <==> |Encode(text)| > MAX_TAIL_BYTES)
  {
    hide BoundedTail, Encode;
    TailIsLongestThatFits(text, MAX_TAIL_BYTES);
  }

  /** A line starts here, or the byte window does. */
  predicate StartsALine(content: Bytes, windowStart: nat, start: nat) {
    start == 0 || start == windowStart || (start <= |content| && IsLineBreak(content[start - 1]))
  }

  lemma WindowLineStart(content: Bytes, windowStart: nat, end: nat, n: nat)
    requires n >= 1 && windowStart <= end <= |content|
    ensures StartsALine(content, windowStart, windowStart + Omitted(Segments(content[windowStart..end]), n))
  {
    hide Segments, Concat, Last, IsLineBreak, StartsALine;
    var data := content[windowStart..end];
    var lines := Segments(data);
    var k := |lines| - |Last(lines, n)|;
    if k == 0 {
      NothingBefore(lines);
    } else {
      PrefixOfLinesEnds(data, lines, k);
    }
    ShiftedLineStart(content, windowStart, end, |Concat(lines[..k])|);
  }

  lemma NothingBefore(lines: seq<Bytes>)
    ensures Concat(lines[..0]) == []
  {
  }

  lemma ShiftedLineStart(content: Bytes, windowStart: nat, end: nat, n: nat)
    requires windowStart <= end <= |content| && n <= end - windowStart
    requires n > 0 ==> IsLineBreak(content[windowStart..end][n - 1])
    ensures StartsALine(content, windowStart, windowStart + n)
  {
  }

  /** A page starts where a line starts, unless its window is full and its first line is cut. */
  lemma RegularPageStartsOnALine(present: Bytes -> Text, content: Bytes, lineLimit: nat, before: Option<nat>)
    requires lineLimit >= 1
    ensures StartsALine(content, WindowStart(Before(|content|, before)),
                        RegularPage(present, content, lineLimit, before).pageStart)
  {
    hide Segments, Last, Concat, Omitted, BoundedTail, StartsALine;
    var end := Before(|content|, before);
    WindowLineStart(content, WindowStart(end), end, lineLimit);
  }

  // ----- the gzip path -----

  datatype GzipResult = GzipResult(response: Response, consumed: nat)

  /** Length of the next chunk: the archive returns between one byte and what was asked for, and
      nothing only at the end of the expanded data. `wish` is the decompressor's choice. */
  function ChunkLength(wish: nat, asked: nat, left: nat): (n: nat)
    ensures n <= asked && n <= left
    ensures asked > 0 && left > 0 ==> n > 0
  {
    var most := Min(asked, left);
    if wish == 0 then Min(1, most) else Min(wish, most)
  }

  lemma LastOfExtended(prefix: Bytes, more: Bytes)
    ensures Last(Last(prefix, MAX_TAIL_BYTES) + more, MAX_TAIL_BYTES) == Last(prefix + more, MAX_TAIL_BYTES)
  {
  }

  lemma LastIsWindow(expanded: Bytes, end: nat)
    requires end <= |expanded|
    ensures Last(expanded[..end], MAX_TAIL_BYTES) == expanded[WindowStart(end)..end]
  {
  }

  /** `_bounded_gzip_page`: streams the expanded bytes through a window. The page, or the refusal,
      is that of the plain path on the expanded bytes, whatever the chunks were. */
  method BoundedGzipPage(present: Bytes -> Text, expanded: Bytes, wishes: nat -> nat, lineLimit: nat,
                         before: Option<nat>, maximumExpandedBytes: nat) returns (result: GzipResult)
    requires lineLimit >= 1
    ensures result.response ==
            if |expanded| > maximumExpandedBytes then Refused(413)
            else Served(RegularPage(present, expanded, lineLimit, before))
    ensures result.consumed == Min(|expanded|, maximumExpandedBytes + 1)
  {
    hide PageContent, Last, ChunkLength;
    var total := 0;
    var window: Bytes := [];
    var call := 0;
    assert expanded[..Before(total, before)] == [];
    while true
      invariant total <= |expanded| && total <= maximumExpandedBytes
      invariant window == Last(expanded[..Before(total, before)], MAX_TAIL_BYTES)
      decreases |expanded| - total
    {
      var length := ChunkLength(wishes(call), Min(READ_BYTES, maximumExpandedBytes + 1 - total), |expanded| - total);
      call := call + 1;
      var chunk := expanded[total..total + length];
      if chunk == [] { break; }
      var chunkStart := total;
      total := total + |chunk|;
      if total > maximumExpandedBytes {
        return GzipResult(Refused(413), total);
      }
      window := Admit(expanded, window, chunkStart, chunk, before);
    }
    var end := Before(total, before);
    var start := if end > |window| then end - |window| else 0;
    LastIsWindow(expanded, end);
    return GzipResult(Served(PageContent(present, window, start, end, total, lineLimit)), total);
  }

  /** One pass of the streaming loop: keep what lies before the page end, at most a window of it. */
  method Admit(ghost expanded: Bytes, window: Bytes, chunkStart: nat, chunk: Bytes, before: Option<nat>)
    returns (next: Bytes)
    requires chunkStart + |chunk| <= |expanded| && chunk == expanded[chunkStart..chunkStart + |chunk|]
    requires window == Last(expanded[..Before(chunkStart, before)], MAX_TAIL_BYTES)
    ensures next == Last(expanded[..Before(chunkStart + |chunk|, before)], MAX_TAIL_BYTES)
  {
    var targetEnd := Before(chunkStart + |chunk|, before);
    var admitted := if targetEnd > chunkStart then targetEnd - chunkStart else 0;
    next := window;
    if admitted > 0 {
      ghost var prefix := expanded[..chunkStart];
      assert prefix + chunk[..admitted] == expanded[..targetEnd];
      LastOfExtended(prefix, chunk[..admitted]);
      next := next + chunk[..admitted];
      if |next| > MAX_TAIL_BYTES {
        next := next[|next| - MAX_TAIL_BYTES..];
      }
    }
  }

  // ----- walking back through a member -----

  /** A page shows the bytes of `content` in its own range. */
  ghost predicate ShowsRangeOf(present: Bytes -> Text, content: Bytes, page: Page) {
    && page.pageStart <= page.pageEnd <= |content|
    && page.content == BoundedTail(present(content[page.pageStart..page.pageEnd]), MAX_TAIL_BYTES).text
  }

  lemma FirstPageShows(present: Bytes -> Text, content: Bytes, before: Option<nat>, n: nat)
    requires n >= 1
    ensures var page := RegularPage(present, content, n, before);
            && ShowsRangeOf(present, content, page)
            && page.pageEnd == Before(|content|, before)
            && page.pageStart <= page.pageEnd
            && (page.pageEnd > 0 ==> page.pageStart < page.pageEnd)
            && page.nextBefore == if page.pageStart > 0 then Some(page.pageStart) else None
  {
    hide RegularPage, BoundedTail;
    RegularPageShowsItsRange(present, content, n, before);
  }

  /** Pages a client gets by following `next_before`; between two calls the file may grow. */
  function Walk(present: Bytes -> Text, content: Bytes, before: Option<nat>, limits: nat -> nat,
                growth: nat -> Bytes, call: nat): (pages: seq<Page>)
    requires forall i :: limits(i) >= 1
    decreases Before(|content|, before)
  {
    FirstPageShows(present, content, before, limits(call));
    var page := RegularPage(present, content, limits(call), before);
    if page.nextBefore.None? then [page]
    else [page] + Walk(present, content + growth(call), page.nextBefore, limits, growth, call + 1)
  }

  /** Newest first, the ranges follow one another without gap or overlap from `end` down to 0, and
      no range is empty unless there is nothing to show. */
  predicate Tiles(pages: seq<Page>, end: nat) {
    && pages != []
    && pages[0].pageEnd == end
    && pages[0].pageStart <= end
    && (end > 0 ==> pages[0].pageStart < end)
    && (if |pages| == 1 then pages[0].pageStart == 0
        else pages[0].pageStart > 0 && Tiles(pages[1..], pages[0].pageStart))
  }

  /** The ranges in file order, read from the content the walk started from. */
  function Reassembled(content: Bytes, pages: seq<Page>): Bytes
    requires forall p :: p in pages ==> p.pageStart <= p.pageEnd <= |content|
  {
    if pages == [] then []
    else Reassembled(content, pages[1..]) + content[pages[0].pageStart..pages[0].pageEnd]
  }

  lemma {:induction false} WalkTiles(present: Bytes -> Text, content: Bytes, before: Option<nat>, limits: nat -> nat,
                                     growth: nat -> Bytes, call: nat)
    requires forall i :: limits(i) >= 1
    ensures Tiles(Walk(present, content, before, limits, growth, call), Before(|content|, before))
    decreases Before(|content|, before)
  {
    hide RegularPage, ShowsRangeOf;
    FirstPageShows(present, content, before, limits(call));
    var page := RegularPage(present, content, limits(call), before);
    if page.nextBefore.Some? {
      WalkTiles(present, content + growth(call), page.nextBefore, limits, growth, call + 1);
    }
  }

  lemma {:induction false} TilesReassemble(content: Bytes, pages: seq<Page>, end: nat, text: Bytes)
    requires Tiles(pages, end) && end <= |content| && text == content[..end]
    ensures forall p :: p in pages ==> p.pageStart <= p.pageEnd <= |content|
    ensures Reassembled(content, pages) == text
  {
    if |pages| == 1 {
      assert pages == [pages[0]] && pages[1..] == [];
    } else {
      TilesReassemble(content, pages[1..], pages[0].pageStart, content[..pages[0].pageStart]);
      assert pages == [pages[0]] + pages[1..];
    }
  }

  /** Following `next_before` from the newest page reads the starting snapshot exactly once, even
      while the file grows between the calls. */
  lemma WalkReadsTheSnapshotOnce(present: Bytes -> Text, content: Bytes, limits: nat -> nat, growth: nat -> Bytes)
    requires forall i :: limits(i) >= 1
    ensures var pages := Walk(present, content, None, limits, growth, 0);
            && Tiles(pages, |content|)
            && (forall p :: p in pages ==> p.pageStart <= p.pageEnd <= |content|)
            && Reassembled(content, pages) == content
  {
    WalkTiles(present, content, None, limits, growth, 0);
    TilesReassemble(content, Walk(present, content, None, limits, growth, 0), |content|, content);
  }

  lemma GrowthKeepsRange(present: Bytes -> Text, content: Bytes, more: Bytes, page: Page)
    requires ShowsRangeOf(present, content + more, page) && page.pageEnd <= |content|
    ensures ShowsRangeOf(present, content, page)
  {
    assert (content + more)[page.pageStart..page.pageEnd] == content[page.pageStart..page.pageEnd];
  }

  /** One step of the walk: what the rest shows of the grown file, it shows of this content. */
  lemma StepShowsTheSnapshot(present: Bytes -> Text, content: Bytes, more: Bytes, rest: seq<Page>, end: nat)
    requires end <= |content|
    requires forall page :: page in rest ==> page.pageEnd <= end && ShowsRangeOf(present, content + more, page)
    ensures forall page :: page in rest ==> page.pageEnd <= end && ShowsRangeOf(present, content, page)
  {
    hide ShowsRangeOf;
    forall page | page in rest
      ensures ShowsRangeOf(present, content, page)
    {
      GrowthKeepsRange(present, content, more, page);
    }
  }

  /** Every page of the walk shows the bytes of the starting snapshot, not of the grown file. */
  lemma {:induction false} WalkShowsTheSnapshot(present: Bytes -> Text, content: Bytes, before: Option<nat>,
                                                limits: nat -> nat, growth: nat -> Bytes, call: nat)
    requires forall k :: limits(k) >= 1
    ensures forall page :: page in Walk(present, content, before, limits, growth, call)
                           ==> page.pageEnd <= Before(|content|, before) && ShowsRangeOf(present, content, page)
    decreases Before(|content|, before)
  {
    hide ShowsRangeOf, RegularPage;
    FirstPageShows(present, content, before, limits(call));
    var first := RegularPage(present, content, limits(call), before);
    if first.nextBefore.Some? {
      var grown := content + growth(call);
      WalkShowsTheSnapshot(present, grown, first.nextBefore, limits, growth, call + 1);
      StepShowsTheSnapshot(present, content, growth(call),
                           Walk(present, grown, first.nextBefore, limits, growth, call + 1), first.pageStart);
    }
  }
}
