/** The append-aware JSONL index: an incremental count, a block-wise reverse reader and a pager.

    A file is what one `stat` and one read of it show. Everything the index answers is compared
    with a plain reading: cut the whole file on newlines, drop the open last line, keep the
    lines that parse. */
module JsonlIndex {
  import opened Bytes
  import opened Prelude

  /** Identity stands for (st_dev, st_ino); 0 is the (0, 0) that a missing file leaves behind. */
  datatype FileView = Missing | Present(identity: nat, content: Bytes)

  datatype IndexState = IndexState(identity: Option<nat>, offset: nat, pending: Bytes, validRecords: nat)

  datatype Refreshed = Refreshed(state: IndexState, total: nat, snapshot: nat)

  // ----- the plain reading -----

  /** bytes.strip() removes ASCII whitespace. */
  predicate IsBlank(raw: Bytes) {
    forall b :: b in raw ==> b == 32 || 9 <= b <= 13
  }

  function DecodeRecord<R>(parse: Bytes -> Option<R>, raw: Bytes): Option<R> {
    if IsBlank(raw) then None else parse(raw)
  }

  function Records<R>(parse: Bytes -> Option<R>, lines: seq<Bytes>): seq<R> {
    if lines == [] then []
    else
      var first := DecodeRecord(parse, lines[0]);
      var rest := Records(parse, lines[1..]);
      if first.Some? then [first.value] + rest else rest
  }

  lemma {:induction false} RecordsAppend<R>(parse: Bytes -> Option<R>, a: seq<Bytes>, b: seq<Bytes>)
    ensures Records(parse, a + b) == Records(parse, a) + Records(parse, b)
  {
    if a == [] {
      assert a + b == b;
    } else {
      Uncons(a, b);
      RecordsAppend(parse, a[1..], b);
      var first := DecodeRecord(parse, a[0]);
      if first.Some? { Associative([first.value], Records(parse, a[1..]), Records(parse, b)); }
    }
  }

  lemma {:induction false} RecordsReverse<R>(parse: Bytes -> Option<R>, lines: seq<Bytes>)
    ensures Records(parse, Reverse(lines)) == Reverse(Records(parse, lines))
  {
    if lines != [] {
      RecordsReverse(parse, lines[1..]);
      RecordsAppend(parse, Reverse(lines[1..]), [lines[0]]);
      var first := DecodeRecord(parse, lines[0]);
      var head := if first.Some? then [first.value] else [];
      assert Records(parse, [lines[0]]) == head;
      assert Reverse(head) == head;
      ReverseAppend(head, Records(parse, lines[1..]));
    }
  }

  function CompleteRecords<R>(parse: Bytes -> Option<R>, content: Bytes): seq<R> {
    Records(parse, ClosedParts(content))
  }

  function NewestFirst<R>(parse: Bytes -> Option<R>, content: Bytes): seq<R> {
    Reverse(CompleteRecords(parse, content))
  }

  function ContentOf(file: FileView): Bytes {
    if file.Present? then file.content else []
  }

  // ----- the incremental count -----

  function Reset(identity: nat): IndexState {
    IndexState(Some(identity), 0, [], 0)
  }

  const NEW_INDEX := IndexState(None, 0, [], 0)

  /** Counting only what was added since the offset. */
  function Extend<R>(parse: Bytes -> Option<R>, base: IndexState, content: Bytes): IndexState
    requires base.offset <= |content|
  {
    if |content| == base.offset then base
    else
      var combined := base.pending + content[base.offset..];
      base.(offset := |content|, pending := LastPart(combined),
            validRecords := base.validRecords + |CompleteRecords(parse, combined)|)
  }

  function Refresh<R>(parse: Bytes -> Option<R>, state: IndexState, file: FileView): Refreshed {
    match file
    case Missing => Refreshed(Reset(0), 0, 0)
    case Present(identity, content) =>
      var base := if state.identity != Some(identity) || |content| < state.offset then Reset(identity) else state;
      var next := Extend(parse, base, content);
      Refreshed(next, next.validRecords, Max(0, |content| - |next.pending|))
  }

  /** The state is what a full scan of exactly these bytes would have left. */
  ghost predicate HasCounted<R>(parse: Bytes -> Option<R>, state: IndexState, seen: Bytes) {
    && state.offset == |seen|
    && state.pending == LastPart(seen)
    && state.validRecords == |CompleteRecords(parse, seen)|
  }

  /** What the index may rely on: a file it recognizes still starts with the bytes it counted. */
  ghost predicate Continues(state: IndexState, seen: Bytes, file: FileView) {
    file.Present? && state.identity == Some(file.identity) && |file.content| >= |seen|
    ==> file.content[..|seen|] == seen
  }

  lemma CountOfGrownText<R>(parse: Bytes -> Option<R>, seen: Bytes, added: Bytes)
    ensures var combined := LastPart(seen) + added;
            && LastPart(seen + added) == LastPart(combined)
            && |CompleteRecords(parse, seen + added)|
               == |CompleteRecords(parse, seen)| + |CompleteRecords(parse, combined)|
  {
    SplitAppend(seen, added);
    var combined := LastPart(seen) + added;
    var whole := Split(seen + added);
    assert whole[|whole| - 1] == Split(combined)[|Split(combined)| - 1];
    assert ClosedParts(seen + added) == ClosedParts(seen) + ClosedParts(combined);
    RecordsAppend(parse, ClosedParts(seen), ClosedParts(combined));
  }

  lemma ExtendCounts<R>(parse: Bytes -> Option<R>, base: IndexState, seen: Bytes, content: Bytes)
    requires HasCounted(parse, base, seen)
    requires |seen| <= |content| && content[..|seen|] == seen
    ensures HasCounted(parse, Extend(parse, base, content), content)
  {
    var added := content[|seen|..];
    assert content == seen + added;
    if added == [] {
      assert content == seen;
    } else {
      CountOfGrownText(parse, seen, added);
    }
  }

  lemma IncrementalCountIsFullScan<R>(parse: Bytes -> Option<R>, state: IndexState, seen: Bytes, file: FileView)
    requires HasCounted(parse, state, seen)
    requires Continues(state, seen, file)
    ensures HasCounted(parse, Refresh(parse, state, file).state, ContentOf(file))
    ensures Refresh(parse, state, file).total == |CompleteRecords(parse, ContentOf(file))|
    ensures Refresh(parse, state, file).snapshot == |ContentOf(file)| - |LastPart(ContentOf(file))|
  {
    if file.Present? {
      OpenPartIsSuffix(file.content);
      if state.identity == Some(file.identity) && |file.content| >= state.offset {
        ExtendCounts(parse, state, seen, file.content);
      } else {
        ExtendCounts(parse, Reset(file.identity), [], file.content);
      }
    }
  }

  // ----- every history of a log file -----

  /** What happens around the index between two answers. `Replace` is a rename onto the path, or a
      creation; an identity may come back once its file is gone. `Truncate` keeps the identity. */
  datatype Event =
    | Append(data: Bytes)
    | Replace(identity: nat, replacement: Bytes)
    | Truncate(length: nat)
    | Remove
    | Poll

  /** `polled` is the content at the last poll; it is not part of the index. */
  datatype World = World(file: FileView, index: IndexState, polled: Bytes)

  const START := World(Missing, NEW_INDEX, [])

  function Step<R>(parse: Bytes -> Option<R>, w: World, e: Event): World {
    match e
    case Append(data) =>
      if w.file.Present? then w.(file := w.file.(content := w.file.content + data)) else w
    case Replace(identity, replacement) => w.(file := Present(identity, replacement))
    case Truncate(length) =>
      if w.file.Present? && length < |w.file.content| then w.(file := w.file.(content := w.file.content[..length]))
      else w
    case Remove => w.(file := Missing)
    case Poll => w.(index := Refresh(parse, w.index, w.file).state, polled := ContentOf(w.file))
  }

  function Run<R>(parse: Bytes -> Option<R>, w: World, events: seq<Event>): World
    decreases |events|
  {
    if events == [] then w else Run(parse, Step(parse, w, events[0]), events[1..])
  }

  // Histories the index counts right.

  /** Every poll, and the reading after the last event, sees a file that continues what was counted;
      what happens to the file in between does not matter. */
  ghost predicate ContinuingRun<R>(parse: Bytes -> Option<R>, w: World, events: seq<Event>)
    decreases |events|
  {
    if events == [] then Continues(w.index, w.polled, w.file)
    else
      && (events[0].Poll? ==> Continues(w.index, w.polled, w.file))
      && ContinuingRun(parse, Step(parse, w, events[0]), events[1..])
  }

  lemma {:induction false} ContinuingRunStaysCounted<R>(parse: Bytes -> Option<R>, w: World, events: seq<Event>)
    requires HasCounted(parse, w.index, w.polled) && ContinuingRun(parse, w, events)
    ensures var w' := Run(parse, w, events);
            HasCounted(parse, w'.index, w'.polled) && Continues(w'.index, w'.polled, w'.file)
    decreases |events|
  {
    hide HasCounted, Continues, Refresh;
    if events != [] {
      if events[0].Poll? { IncrementalCountIsFullScan(parse, w.index, w.polled, w.file); }
      ContinuingRunStaysCounted(parse, Step(parse, w, events[0]), events[1..]);
    }
  }

  lemma NothingCountedYet<R>(parse: Bytes -> Option<R>)
    ensures HasCounted(parse, START.index, START.polled)
  {
  }

  /** After any such history the next answer counts the complete valid records of the file as it is. */
  lemma CountAfterAnyHistory<R>(parse: Bytes -> Option<R>, events: seq<Event>)
    requires ContinuingRun(parse, START, events)
    ensures var w := Run(parse, START, events);
            var answer := Refresh(parse, w.index, w.file);
            && answer.total == |CompleteRecords(parse, ContentOf(w.file))|
            && answer.snapshot == |ContentOf(w.file)| - |LastPart(ContentOf(w.file))|
  {
    hide HasCounted, Continues, Refresh;
    NothingCountedYet(parse);
    ContinuingRunStaysCounted(parse, START, events);
    var w := Run(parse, START, events);
    IncrementalCountIsFullScan(parse, w.index, w.polled, w.file);
  }

  // What keeps a history among them, event by event.

  /** A file that shrank below the offset does not grow back over it before a poll sees it, and no other
      file comes with the identity of the counted one. */
  predicate Observable(w: World, e: Event) {
    match e
    case Append(data) =>
      w.file.Present? && w.index.identity == Some(w.file.identity) && |w.file.content| < w.index.offset
      ==> |w.file.content| + |data| < w.index.offset
    case Replace(identity, _) => w.index.identity != Some(identity)
    case _ => true
  }

  predicate ObservableRun<R>(parse: Bytes -> Option<R>, w: World, events: seq<Event>)
    decreases |events|
  {
    events == [] || (Observable(w, events[0]) && ObservableRun(parse, Step(parse, w, events[0]), events[1..]))
  }

  lemma StepContinues<R>(parse: Bytes -> Option<R>, w: World, e: Event)
    requires HasCounted(parse, w.index, w.polled) && Continues(w.index, w.polled, w.file) && Observable(w, e)
    ensures var w' := Step(parse, w, e);
            HasCounted(parse, w'.index, w'.polled) && Continues(w'.index, w'.polled, w'.file)
  {
    match e
    case Append(data) =>
      if w.file.Present? && |w.file.content| >= |w.polled| {
        assert (w.file.content + data)[..|w.polled|] == w.file.content[..|w.polled|];
      }
    case Truncate(length) =>
      if w.file.Present? && |w.polled| <= length < |w.file.content| {
        assert w.file.content[..length][..|w.polled|] == w.file.content[..|w.polled|];
      }
    case Poll =>
      IncrementalCountIsFullScan(parse, w.index, w.polled, w.file);
      assert ContentOf(w.file)[..|ContentOf(w.file)|] == ContentOf(w.file);
    case _ =>
  }

  lemma {:induction false} ObservableRunContinues<R>(parse: Bytes -> Option<R>, w: World, events: seq<Event>)
    requires HasCounted(parse, w.index, w.polled) && Continues(w.index, w.polled, w.file)
    requires ObservableRun(parse, w, events)
    ensures ContinuingRun(parse, w, events)
    decreases |events|
  {
    hide HasCounted, Continues, Observable, Refresh;
    if events != [] {
      StepContinues(parse, w, events[0]);
      ObservableRunContinues(parse, Step(parse, w, events[0]), events[1..]);
    }
  }

  // All histories: exactly when the index is right.

  /** The refresh goes on from what it counted. */
  predicate GoesOn(state: IndexState, file: FileView) {
    file.Present? && state.identity == Some(file.identity) && |file.content| >= state.offset
  }

  /** The records counted, with those that the counted open line and the added bytes complete. */
  function GrownCount<R>(parse: Bytes -> Option<R>, seen: Bytes, added: Bytes): nat {
    |CompleteRecords(parse, seen)| + |CompleteRecords(parse, LastPart(seen) + added)|
  }

  /** What was counted and what the file now holds in its place give one count with the added bytes. */
  predicate SameCount<R>(parse: Bytes -> Option<R>, seen: Bytes, content: Bytes) {
    |seen| <= |content|
    && GrownCount(parse, seen, content[|seen|..]) == GrownCount(parse, content[..|seen|], content[|seen|..])
  }

  /** They leave the same open line. */
  predicate SameOpenLine(seen: Bytes, content: Bytes) {
    |seen| <= |content|
    && LastPart(LastPart(seen) + content[|seen|..]) == LastPart(LastPart(content[..|seen|]) + content[|seen|..])
  }

  lemma ExtendExactly<R>(parse: Bytes -> Option<R>, base: IndexState, seen: Bytes, content: Bytes)
    requires HasCounted(parse, base, seen) && |seen| <= |content|
    ensures var next := Extend(parse, base, content);
            && next.offset == |content|
            && (next.validRecords == |CompleteRecords(parse, content)| <==> SameCount(parse, seen, content))
            && (next.pending == LastPart(content) <==> SameOpenLine(seen, content))
  {
    var added := content[|seen|..];
    assert content == content[..|seen|] + added;
    CountOfGrownText(parse, content[..|seen|], added);
    CountOfGrownText(parse, seen, added);
    if added == [] {
      assert LastPart(seen) + added == LastPart(seen) && seen + added == seen;
    }
    hide LastPart, CompleteRecords;
  }

  /** One refresh, whatever file it finds: the total is the full rescan's exactly where the file gives the
      same count, and the index is what a full rescan leaves exactly where it also leaves the same open line. */
  lemma RefreshCountsExactly<R>(parse: Bytes -> Option<R>, state: IndexState, seen: Bytes, file: FileView)
    requires HasCounted(parse, state, seen)
    ensures var answer, content := Refresh(parse, state, file), ContentOf(file);
            && (answer.total == |CompleteRecords(parse, content)|
                <==> (GoesOn(state, file) ==> SameCount(parse, seen, content)))
            && (HasCounted(parse, answer.state, content)
                <==> (GoesOn(state, file) ==> SameCount(parse, seen, content) && SameOpenLine(seen, content)))
  {
    if GoesOn(state, file) {
      hide LastPart, CompleteRecords, SameCount, SameOpenLine, Extend;
      ExtendExactly(parse, state, seen, file.content);
    } else {
      hide Extend, CompleteRecords, LastPart, SameCount, SameOpenLine;
      IncrementalCountIsFullScan(parse, state, seen, file);
    }
  }

  /** Every poll leaves the index as a full rescan would. */
  ghost predicate PollsCount<R>(parse: Bytes -> Option<R>, w: World, events: seq<Event>)
    decreases |events|
  {
    if events == [] then true
    else
      var next := Step(parse, w, events[0]);
      (events[0].Poll? ==> HasCounted(parse, next.index, next.polled)) && PollsCount(parse, next, events[1..])
  }

  /** Every poll that goes on from what was counted finds a file with the same count and open line. */
  predicate PollsReadAlike<R>(parse: Bytes -> Option<R>, w: World, events: seq<Event>)
    decreases |events|
  {
    if events == [] then true
    else
      && (events[0].Poll? && GoesOn(w.index, w.file) ==>
            SameCount(parse, w.polled, w.file.content) && SameOpenLine(w.polled, w.file.content))
      && PollsReadAlike(parse, Step(parse, w, events[0]), events[1..])
  }

  lemma {:induction false} PollsCountFrom<R>(parse: Bytes -> Option<R>, w: World, events: seq<Event>)
    requires HasCounted(parse, w.index, w.polled)
    ensures PollsCount(parse, w, events) <==> PollsReadAlike(parse, w, events)
    ensures PollsCount(parse, w, events) ==>
              HasCounted(parse, Run(parse, w, events).index, Run(parse, w, events).polled)
    decreases |events|
  {
    hide HasCounted, SameCount, SameOpenLine, Refresh;
    if events != [] {
      if events[0].Poll? { RefreshCountsExactly(parse, w.index, w.polled, w.file); }
      var next := Step(parse, w, events[0]);
      if HasCounted(parse, next.index, next.polled) { PollsCountFrom(parse, next, events[1..]); }
    }
  }

  /** Over every history: each poll leaves the index as a full rescan would exactly when each reads alike;
      and then the next total is right exactly when the file at hand gives the same count. */
  lemma HistoryCountsExactly<R>(parse: Bytes -> Option<R>, events: seq<Event>)
    ensures PollsCount(parse, START, events) <==> PollsReadAlike(parse, START, events)
    ensures var w := Run(parse, START, events);
            PollsReadAlike(parse, START, events) ==>
              (Refresh(parse, w.index, w.file).total == |CompleteRecords(parse, ContentOf(w.file))|
               <==> (GoesOn(w.index, w.file) ==> SameCount(parse, w.polled, ContentOf(w.file))))
  {
    hide HasCounted, SameCount, SameOpenLine, Refresh, PollsReadAlike, PollsCount;
    NothingCountedYet(parse);
    PollsCountFrom(parse, START, events);
    if PollsReadAlike(parse, START, events) {
      var w := Run(parse, START, events);
      RefreshCountsExactly(parse, w.index, w.polled, w.file);
    }
  }

  /** Growing back unobserved can break it: blank lines written over a counted record leave the old
      count standing. */
  lemma UnobservedRegrowthMiscounts<R>(parse: Bytes -> Option<R>, index: IndexState, record: Bytes)
    requires record != [] && HasCounted(parse, index, record) && index.identity == Some(1)
    requires CompleteRecords(parse, record) != []
    ensures var w := World(Present(1, record), index, record);
            var cut := Step(parse, w, Truncate(0));
            var regrown := Step(parse, cut, Append(seq(|record|, _ => NEWLINE)));
            && Continues(w.index, w.polled, w.file)
            && !Observable(cut, Append(seq(|record|, _ => NEWLINE)))
            && CompleteRecords(parse, ContentOf(regrown.file)) == []
            && Refresh(parse, regrown.index, regrown.file).total > 0
  {
    var blanks := seq(|record|, _ => NEWLINE);
    assert record[..|record|] == record;
    assert [] + blanks == blanks;
    NewlinesHoldNoRecord(parse, blanks);
  }

  lemma {:induction false} NewlinesHoldNoRecord<R>(parse: Bytes -> Option<R>, blanks: Bytes)
    requires forall i :: 0 <= i < |blanks| ==> blanks[i] == NEWLINE
    ensures CompleteRecords(parse, blanks) == []
  {
    if blanks != [] {
      SplitAtNewline(blanks);
      NewlinesHoldNoRecord(parse, blanks[1..]);
      assert IsBlank([]);
      assert ([[]] + ClosedParts(blanks[1..]))[1..] == ClosedParts(blanks[1..]);
    }
  }

  // ----- the reverse reader -----

  function NonEmpty(lines: seq<Bytes>): seq<Bytes> {
    if lines == [] then []
    else if lines[0] == [] then NonEmpty(lines[1..])
    else [lines[0]] + NonEmpty(lines[1..])
  }

  lemma {:induction false} NonEmptyAppend(a: seq<Bytes>, b: seq<Bytes>)
    ensures NonEmpty(a + b) == NonEmpty(a) + NonEmpty(b)
  {
    if a == [] {
      assert a + b == b;
    } else {
      Uncons(a, b);
      NonEmptyAppend(a[1..], b);
      Associative([a[0]], NonEmpty(a[1..]), NonEmpty(b));
    }
  }

  lemma {:induction false} BlankLinesHoldNoRecord<R>(parse: Bytes -> Option<R>, lines: seq<Bytes>)
    ensures Records(parse, NonEmpty(lines)) == Records(parse, lines)
  {
    if lines != [] {
      BlankLinesHoldNoRecord(parse, lines[1..]);
      if lines[0] == [] {
        assert IsBlank(lines[0]);
      } else {
        assert ([lines[0]] + NonEmpty(lines[1..]))[1..] == NonEmpty(lines[1..]);
      }
    }
  }

  /** `_reverse_lines`: reads blocks from the end and carries an unfinished line leftwards. */
  method ReverseLines(content: Bytes, snapshot: nat, blockBytes: nat) returns (lines: seq<Bytes>)
    requires snapshot <= |content| && blockBytes >= 1
    ensures lines == Reverse(NonEmpty(Split(content[..snapshot])))
  {
    lines := [];
    var position := snapshot;
    var remainder: Bytes := [];
    ghost var text := content[..snapshot];
    ghost var done: seq<Bytes> := [];
    assert content[..position] + remainder == text;
    while position > 0
      invariant position <= snapshot
      invariant Split(remainder) == [remainder]
      invariant Split(text) == Split(content[..position] + remainder) + done
      invariant lines == Reverse(NonEmpty(done))
    {
      var readSize := if blockBytes < position then blockBytes else position;
      ghost var before := position;
      position := position - readSize;
      var chunk := content[position..position + readSize] + remainder;
      var parts := Split(chunk);
      assert content[..before] + remainder == content[..position] + chunk;
      SplitPrepend(content[..position], chunk);
      PartHasNoNewline(chunk, 0);
      SplitWithoutNewline(parts[0]);
      remainder := parts[0];
      var tail := parts[1..];
      assert Split(text) == Split(content[..position] + remainder) + (tail + done);
      lines := YieldReversed(lines, tail);
      NonEmptyAppend(tail, done);
      ReverseAppend(NonEmpty(tail), NonEmpty(done));
      done := tail + done;
    }
    assert content[..0] + remainder == remainder;
    NonEmptyAppend([remainder], done);
    ReverseAppend(NonEmpty([remainder]), NonEmpty(done));
    if remainder != [] {
      assert NonEmpty([remainder]) == [remainder];
      lines := lines + [remainder];
    }
  }

  /** The inner loop of the reader: `for line in reversed(parts): if line: yield line`. */
  method YieldReversed(yielded: seq<Bytes>, parts: seq<Bytes>) returns (lines: seq<Bytes>)
    ensures lines == yielded + Reverse(NonEmpty(parts))
  {
    lines := yielded;
    var k := |parts|;
    assert parts[k..] == [];
    while k > 0
      invariant 0 <= k <= |parts|
      invariant lines == yielded + Reverse(NonEmpty(parts[k..]))
    {
      k := k - 1;
      assert parts[k..] == [parts[k]] + parts[k + 1..];
      NonEmptyAppend([parts[k]], parts[k + 1..]);
      ReverseAppend(NonEmpty([parts[k]]), NonEmpty(parts[k + 1..]));
      if parts[k] != [] { lines := lines + [parts[k]]; }
    }
    assert parts[0..] == parts;
  }

  // ----- the pager -----

  function TotalPages(total: nat, pageSize: nat): (n: nat)
    requires pageSize >= 1
    ensures n >= 1
  {
    if total == 0 then 1 else Max(1, (total + pageSize - 1) / pageSize)
  }

  /** Rows of one normalized page over a list that is already newest first. */
  function Slice<R>(all: seq<R>, page: nat, pageSize: nat): seq<R>
    requires page >= 1 && pageSize >= 1
  {
    var skip := Min((page - 1) * pageSize, |all|);
    all[skip..Min(skip + pageSize, |all|)]
  }

  function SlicesUpTo<R>(all: seq<R>, pages: nat, pageSize: nat): seq<R>
    requires pageSize >= 1
  {
    if pages == 0 then [] else SlicesUpTo(all, pages - 1, pageSize) + Slice(all, pages, pageSize)
  }

  lemma {:induction false} SlicesArePrefix<R>(all: seq<R>, pages: nat, pageSize: nat)
    requires pageSize >= 1
    ensures SlicesUpTo(all, pages, pageSize) == all[..Min(pages * pageSize, |all|)]
  {
    if pages > 0 {
      SlicesArePrefix(all, pages - 1, pageSize);
      var skip := Min((pages - 1) * pageSize, |all|);
      assert (pages - 1) * pageSize + pageSize == pages * pageSize;
    }
  }

  lemma PagesCover(total: nat, pageSize: nat)
    requires pageSize >= 1
    ensures TotalPages(total, pageSize) * pageSize >= total
    ensures total > 0 ==> (TotalPages(total, pageSize) - 1) * pageSize < total
  {
    if total > 0 {
      var q := (total + pageSize - 1) / pageSize;
      var r := (total + pageSize - 1) % pageSize;
      assert total + pageSize - 1 == q * pageSize + r;
      assert q >= 1;
      assert (q - 1) * pageSize == q * pageSize - pageSize;
    }
  }

  lemma MultiplesInOrder(a: nat, b: nat, k: nat)
    requires a <= b
    ensures a * k <= b * k
  {
    assert b * k - a * k == (b - a) * k;
    assert (b - a) * k >= 0;
  }

  /** Pages 1 to last, put together, list every complete valid record exactly once, newest first;
      and no page before the end is empty. */
  lemma PagesListEveryRecordOnce<R>(parse: Bytes -> Option<R>, content: Bytes, pageSize: nat)
    requires pageSize >= 1
    ensures var all := NewestFirst(parse, content);
            var last := TotalPages(|all|, pageSize);
            && SlicesUpTo(all, last, pageSize) == all
            && forall p :: 1 <= p <= last && all != [] ==> Slice(all, p, pageSize) != []
  {
    hide NewestFirst, TotalPages, SlicesUpTo, Slice;
    var all := NewestFirst(parse, content);
    var last := TotalPages(|all|, pageSize);
    PagesCover(|all|, pageSize);
    SlicesArePrefix(all, last, pageSize);
    forall p | 1 <= p <= last && all != []
      ensures Slice(all, p, pageSize) != []
    {
      PageIsNotEmpty(all, p, pageSize);
    }
  }

  lemma PageIsNotEmpty<R>(all: seq<R>, page: nat, pageSize: nat)
    requires pageSize >= 1 && all != [] && 1 <= page <= TotalPages(|all|, pageSize)
    ensures Slice(all, page, pageSize) != []
  {
    hide TotalPages;
    PagesCover(|all|, pageSize);
    MultiplesInOrder(page - 1, TotalPages(|all|, pageSize) - 1, pageSize);
  }

  lemma PageStartsInside(total: nat, page: nat, pageSize: nat)
    requires pageSize >= 1 && 1 <= page <= TotalPages(total, pageSize)
    ensures (page - 1) * pageSize <= total
  {
    PagesCover(total, pageSize);
    MultiplesInOrder(page - 1, TotalPages(total, pageSize) - 1, pageSize);
  }

  lemma ReaderSeesNewestFirst<R>(parse: Bytes -> Option<R>, content: Bytes, lines: seq<Bytes>)
    requires |LastPart(content)| <= |content|
    requires lines == Reverse(NonEmpty(Split(content[..|content| - |LastPart(content)|])))
    ensures Records(parse, lines) == NewestFirst(parse, content)
  {
    OpenPartIsSuffix(content);
    var closed := ClosedParts(content);
    NonEmptyAppend(closed, [[]]);
    assert NonEmpty([[]]) == [];
    assert NonEmpty(closed + [[]]) == NonEmpty(closed);
    RecordsReverse(parse, NonEmpty(closed));
    BlankLinesHoldNoRecord(parse, closed);
  }

  lemma NoRecordsInNoLines<R>(parse: Bytes -> Option<R>, lines: seq<Bytes>)
    ensures Records(parse, lines[..0]) == []
  {
  }

  lemma RecordsOfPrefix<R>(parse: Bytes -> Option<R>, lines: seq<Bytes>, k: nat)
    requires k <= |lines|
    ensures Records(parse, lines[..k]) <= Records(parse, lines)
  {
    hide Records;
    Halves(lines, k);
    RecordsAppend(parse, lines[..k], lines[k..]);
  }

  /** What one more line adds to the records. */
  lemma OneMoreLine<R>(parse: Bytes -> Option<R>, lines: seq<Bytes>, k: nat)
    requires k < |lines|
    ensures var value := DecodeRecord(parse, lines[k]);
            Records(parse, lines[..k + 1])
            == Records(parse, lines[..k]) + if value.Some? then [value.value] else []
  {
    hide Records, DecodeRecord;
    RecordOfOneLine(parse, lines[k]);
    assert lines[..k + 1] == lines[..k] + [lines[k]];
    RecordsAppend(parse, lines[..k], [lines[k]]);
  }

  lemma RecordOfOneLine<R>(parse: Bytes -> Option<R>, line: Bytes)
    ensures var value := DecodeRecord(parse, line);
            Records(parse, [line]) == if value.Some? then [value.value] else []
  {
  }

  /** The index object. The file is read through the view handed to each call. */
  class JsonlLogIndex<R(!new)> {
    const parse: Bytes -> Option<R>
    const blockBytes: nat
    var identity: Option<nat>
    var offset: nat
    var pending: Bytes
    var validRecords: nat

    function State(): IndexState
      reads this
    {
      IndexState(identity, offset, pending, validRecords)
    }

    constructor (parse: Bytes -> Option<R>, requestedBlock: int)
      ensures State() == NEW_INDEX
      ensures this.parse == parse && blockBytes == Max(1024, requestedBlock)
    {
      this.parse := parse;
      this.blockBytes := Max(1024, requestedBlock);
      identity, offset, pending, validRecords := None, 0, [], 0;
    }

    method ResetTo(newIdentity: nat)
      modifies this
      ensures State() == Reset(newIdentity)
    {
      identity := Some(newIdentity);
      offset := 0;
      pending := [];
      validRecords := 0;
    }

    /** `_refresh_count` */
    method RefreshCount(file: FileView) returns (total: nat, snapshot: nat)
      modifies this
      ensures Refreshed(State(), total, snapshot) == Refresh(parse, old(State()), file)
    {
      if file.Missing? {
        ResetTo(0);
        return 0, 0;
      }
      if identity != Some(file.identity) || |file.content| < offset {
        ResetTo(file.identity);
      }
      var size := |file.content|;
      if size == offset {
        return validRecords, Max(0, size - |pending|);
      }
      var combined := pending + file.content[offset..];
      var lines := Split(combined);
      pending := lines[|lines| - 1];
      lines := lines[..|lines| - 1];
      var counted := CountValid(lines);
      validRecords := validRecords + counted;
      offset := size;
      return validRecords, Max(0, size - |pending|);
    }

    method CountValid(lines: seq<Bytes>) returns (n: nat)
      ensures n == |Records(parse, lines)|
    {
      n := 0;
      for k := 0 to |lines|
        invariant n == |Records(parse, lines[..k])|
      {
        assert lines[..k + 1] == lines[..k] + [lines[k]];
        RecordsAppend(parse, lines[..k], [lines[k]]);
        if DecodeRecord(parse, lines[k]).Some? { n := n + 1; }
      }
      assert lines[..|lines|] == lines;
    }

    /** `page`: the total, the page number actually shown, and its rows newest first. */
    method Page(file: FileView, ghost seen: Bytes, page: int, limit: int)
      returns (total: nat, shown: nat, rows: seq<R>)
      requires blockBytes >= 1
      requires HasCounted(parse, State(), seen) && Continues(State(), seen, file)
      modifies this
      ensures HasCounted(parse, State(), ContentOf(file))
      ensures State() == Refresh(parse, old(State()), file).state
      ensures total == |NewestFirst(parse, ContentOf(file))|
      ensures shown == Min(Max(1, page), TotalPages(total, Max(1, limit)))
      ensures rows == Slice(NewestFirst(parse, ContentOf(file)), shown, Max(1, limit))
    {
      var pageSize: nat := Max(1, limit);
      var snapshot: nat;
      total, snapshot := RefreshFor(file, seen);
      hide *;
      shown := Min(Max(1, page), TotalPages(total, pageSize));
      rows := ShownRows(ContentOf(file), snapshot, total, shown, pageSize);
    }

    /** The refresh of an index that follows its file, in terms of the plain reading. */
    method RefreshFor(file: FileView, ghost seen: Bytes) returns (total: nat, snapshot: nat)
      requires HasCounted(parse, State(), seen) && Continues(State(), seen, file)
      modifies this
      ensures HasCounted(parse, State(), ContentOf(file))
      ensures State() == Refresh(parse, old(State()), file).state
      ensures total == |NewestFirst(parse, ContentOf(file))|
      ensures snapshot == |ContentOf(file)| - |LastPart(ContentOf(file))|
    {
      IncrementalCountIsFullScan(parse, State(), seen, file);
      total, snapshot := RefreshCount(file);
      hide *;
    }

    method ShownRows(content: Bytes, snapshot: nat, total: nat, shown: nat, pageSize: nat) returns (rows: seq<R>)
      requires blockBytes >= 1 && pageSize >= 1 && 1 <= shown <= TotalPages(total, pageSize)
      requires total == |NewestFirst(parse, content)|
      requires snapshot == |content| - |LastPart(content)|
      ensures rows == Slice(NewestFirst(parse, content), shown, pageSize)
    {
      hide NewestFirst, LastPart, TotalPages;
      PageStartsInside(total, shown, pageSize);
      rows := RowsOf(content, snapshot, (shown - 1) * pageSize, pageSize);
    }

    method RowsOf(content: Bytes, snapshot: nat, skip: nat, pageSize: nat) returns (rows: seq<R>)
      requires blockBytes >= 1 && pageSize >= 1
      requires snapshot == |content| - |LastPart(content)|
      ensures var all := NewestFirst(parse, content);
              rows == all[Min(skip, |all|)..Min(skip + pageSize, |all|)]
    {
      var lines := ReverseLines(content, snapshot, blockBytes);
      ReaderSeesNewestFirst(parse, content, lines);
      rows := CollectRows(lines, skip, pageSize);
    }

    /** The loop of `page`: skip, collect, stop when the page is full. */
    method CollectRows(lines: seq<Bytes>, skip: nat, pageSize: nat) returns (rows: seq<R>)
      requires pageSize >= 1
      ensures var all := Records(parse, lines);
              rows == all[Min(skip, |all|)..Min(skip + pageSize, |all|)]
    {
      hide Records, DecodeRecord;
      rows := [];
      var validSeen := 0;
      assert Records(parse, lines[..0]) == [] by { NoRecordsInNoLines(parse, lines); }
      for k := 0 to |lines|
        invariant validSeen == |Records(parse, lines[..k])|
        invariant |rows| < pageSize
        invariant rows == Records(parse, lines[..k])[Min(skip, validSeen)..]
      {
        OneMoreLine(parse, lines, k);
        RecordsOfPrefix(parse, lines, k + 1);
        var value := DecodeRecord(parse, lines[k]);
        if value.None? { continue; }
        if validSeen < skip {
          validSeen := validSeen + 1;
          continue;
        }
        rows := rows + [value.value];
        validSeen := validSeen + 1;
        if |rows| >= pageSize {
          break;
        }
      }
      assert lines[..|lines|] == lines;
    }
  }

}
