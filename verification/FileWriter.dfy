/**
  One pair's recordings (l2/file_writer.cc), in a directory of names and contents. `closed`,
  `consumed` and `openings` are history: the final names given so far, the entries taken from the queue, and
  when files were opened.
 */
module RecordingSpec {
  import opened Messages
  import opened Printing
  import ParserSpec
  import L2Manager

  const NANOS_PER_SECOND: nat := 1_000_000_000

  /** Unix time in nanoseconds, from the epoch on. */
  type Nanos = t: i64 | 0 <= t

  /** A recording's start time, in its header, and its records. */
  datatype Recording = Recording(startTime: Nanos, messages: seq<Message>)

  type Directory = map<string, Recording>

  /** None where the stream has a gap. */
  type Entry = Option<Message>

  datatype Writer = Writer(
    symbolStem: string, directory: Directory, startTime: Nanos, fileStem: string, open: bool, messagesInFile: nat,
    closed: seq<string>, consumed: seq<Entry>, openings: set<Nanos>)

  function FileStem(symbolStem: string, now: Nanos): string { symbolStem + "-" + PrintNat(now / NANOS_PER_SECOND) }

  function OpenPath(fileStem: string): string { fileStem + ".bin" }

  /** The names a closed file may get, in the order they are tried. */
  function FinalName(fileStem: string, end: nat, n: nat): string {
    fileStem + "-" + PrintNat(end) + if n == 0 then ".bin" else "-" + PrintNat(n) + ".bin"
  }

  lemma FinalNamesDiffer(fileStem: string, end: nat, m: nat, n: nat)
    requires m != n
    ensures FinalName(fileStem, end, m) != FinalName(fileStem, end, n)
  {
    PrintReadsBack(m);
    PrintReadsBack(n);
    var prefix := fileStem + "-" + PrintNat(end);
    SameTail(prefix, Suffix(m), Suffix(n));
    SuffixHoldsNumber(m);
    SuffixHoldsNumber(n);
  }

  lemma SuffixHoldsNumber(n: nat)
    ensures |Suffix(n)| > 4 <==> n != 0
    ensures n != 0 ==> Suffix(n)[1..|Suffix(n)| - 4] == PrintNat(n)
  {
  }

  function Suffix(n: nat): string { if n == 0 then ".bin" else "-" + PrintNat(n) + ".bin" }

  lemma SameTail(prefix: string, a: string, b: string)
    ensures prefix + a == prefix + b ==> a == b
  {
    assert (prefix + a)[|prefix|..] == a && (prefix + b)[|prefix|..] == b;
  }

  /** The first free name from the `n`th on. It exists, as `taken` is finite. */
  function FirstFree(taken: set<string>, fileStem: string, end: nat, n: nat): (free: nat)
    ensures n <= free && FinalName(fileStem, end, free) !in taken
    ensures forall m :: n <= m < free ==> FinalName(fileStem, end, m) in taken
    decreases |taken|
  {
    var name := FinalName(fileStem, end, n);
    if name !in taken then n
    else
      var free := FirstFree(taken - {name}, fileStem, end, n + 1);
      FinalNamesDiffer(fileStem, end, n, free);
      free
  }

  function FinalPath(directory: Directory, fileStem: string, end: nat): string {
    FinalName(fileStem, end, FirstFree(directory.Keys, fileStem, end, 0))
  }

  // ----- The operations -------------------------------------------------------------

  function Open(w: Writer, now: Nanos): Writer {
    var stem := FileStem(w.symbolStem, now);
    w.(startTime := now, fileStem := stem, open := true, messagesInFile := 0, openings := w.openings + {now},
       directory := w.directory[OpenPath(stem) := Recording(now, [])])
  }

  function Create(symbolStem: string, directory: Directory, now: Nanos): Writer {
    Open(Writer(symbolStem, directory, 0, "", false, 0, [], [], {}), now)
  }

  predicate HasFile(w: Writer) { OpenPath(w.fileStem) in w.directory }

  function Write(w: Writer, message: Message): Writer
    requires HasFile(w)
  {
    var file := w.directory[OpenPath(w.fileStem)];
    w.(directory := w.directory[OpenPath(w.fileStem) := file.(messages := file.messages + [message])],
       messagesInFile := w.messagesInFile + 1)
  }

  /** std::filesystem::rename. */
  function Rename(directory: Directory, path: string, final: string): Directory
    requires path in directory
  {
    (directory - {path})[final := directory[path]]
  }

  function Close(w: Writer, end: nat): Writer
    requires w.open ==> HasFile(w)
  {
    if !w.open then w
    else
      var final := FinalPath(w.directory, w.fileStem, end);
      w.(open := false, closed := w.closed + [final], directory := Rename(w.directory, OpenPath(w.fileStem), final))
  }

  function Consume(w: Writer, entry: Entry, now: Nanos, end: nat): Writer
    requires w.open ==> HasFile(w)
  {
    match entry
    case None => (if w.messagesInFile > 0 then Close(w, end) else w).(consumed := w.consumed + [entry])
    case Some(message) => Write(if w.open then w else Open(w, now), message).(consumed := w.consumed + [entry])
  }

  // ----- What the files should hold -------------------------------------------------

  /** The maximal gap-free stretches: a message goes with the one right before it, or starts another. */
  function Stretches(entries: seq<Entry>): seq<seq<Message>> {
    if entries == [] then []
    else
      var before := Stretches(entries[..|entries| - 1]);
      match entries[|entries| - 1]
      case None => before
      case Some(message) =>
        if |entries| == 1 || entries[|entries| - 2].None? || before == [] then before + [[message]]
        else before[..|before| - 1] + [before[|before| - 1] + [message]]
  }

  function Joined(stretches: seq<seq<Message>>): seq<Message> {
    if stretches == [] then [] else Joined(stretches[..|stretches| - 1]) + stretches[|stretches| - 1]
  }

  function MessagesOf(entries: seq<Entry>): seq<Message> {
    if entries == [] then []
    else
      var last := entries[|entries| - 1];
      MessagesOf(entries[..|entries| - 1]) + if last.Some? then [last.value] else []
  }

  /** How often the stream starts, or starts over after a gap. */
  function Beginnings(entries: seq<Entry>): nat {
    if entries == [] then 0
    else
      var k := |entries| - 1;
      Beginnings(entries[..k]) + if entries[k].Some? && (k == 0 || entries[k - 1].None?) then 1 else 0
  }

  lemma {:induction false} StretchesBegin(entries: seq<Entry>)
    ensures |Stretches(entries)| == Beginnings(entries)
    ensures entries != [] && entries[|entries| - 1].Some? ==> Stretches(entries) != []
  {
    if entries != [] { StretchesBegin(entries[..|entries| - 1]); }
  }

  /** Every message is in exactly one stretch, in order, and a stretch begins only where the stream does. */
  lemma {:induction false} StretchesPartition(entries: seq<Entry>)
    ensures Joined(Stretches(entries)) == MessagesOf(entries)
    ensures |Stretches(entries)| == Beginnings(entries)
    ensures forall i :: 0 <= i < |Stretches(entries)| ==> Stretches(entries)[i] != []
  {
    StretchesBegin(entries);
    if entries != [] {
      var rest := entries[..|entries| - 1];
      StretchesPartition(rest);
      if entries[|entries| - 1].Some? {
        JoinedGrows(Stretches(rest), Stretches(entries), entries[|entries| - 1].value);
      }
    }
  }

  lemma JoinedGrows(before: seq<seq<Message>>, after: seq<seq<Message>>, message: Message)
    requires after == before + [[message]]
      || (before != [] && after == before[..|before| - 1] + [before[|before| - 1] + [message]])
    ensures Joined(after) == Joined(before) + [message]
  {
    if after == before + [[message]] {
      assert after[..|after| - 1] == before;
    } else {
      assert after[..|after| - 1] == before[..|before| - 1];
    }
  }

  predicate Begins(entries: seq<Entry>, i: nat)
    requires i < |entries|
  {
    entries[i].Some? && (i == 0 || entries[i - 1].None?)
  }

  ghost predicate StartsWithSnapshots(entries: seq<Entry>) {
    forall i :: 0 <= i < |entries| && Begins(entries, i) ==> entries[i].value.kind.Snapshot?
  }

  predicate AllStart(stretches: seq<seq<Message>>) {
    forall i :: 0 <= i < |stretches| ==> stretches[i] != [] && stretches[i][0].kind.Snapshot?
  }

  lemma LastStarts(before: seq<seq<Message>>, after: seq<seq<Message>>, message: Message)
    requires AllStart(before)
    requires (after == before + [[message]] && message.kind.Snapshot?)
      || (before != [] && after == before[..|before| - 1] + [before[|before| - 1] + [message]])
    ensures AllStart(after)
  {
    forall i | 0 <= i < |after| ensures after[i] != [] && after[i][0].kind.Snapshot? {
      if i < |after| - 1 { assert after[i] == before[i]; }
    }
  }

  /** If the stream starts, and starts over, with a snapshot, so does every stretch. */
  lemma {:induction false} StretchesStartWithSnapshots(entries: seq<Entry>)
    requires StartsWithSnapshots(entries)
    ensures AllStart(Stretches(entries))
  {
    if entries != [] {
      var rest, last := entries[..|entries| - 1], entries[|entries| - 1];
      assert forall i :: 0 <= i < |rest| && Begins(rest, i) ==> Begins(entries, i);
      StretchesStartWithSnapshots(rest);
      if last.Some? {
        assert rest + [last] == entries;
        MessageStretches(rest, last.value);
        assert Begins(entries, |rest|) <==> rest == [] || rest[|rest| - 1].None?;
        LastStarts(Stretches(rest), Stretches(entries), last.value);
      }
    }
  }

  /** What a receiver's log puts in the queue. */
  function EntriesOf(events: seq<ParserSpec.Event>): seq<Entry> {
    if events == [] then []
    else
      EntriesOf(events[..|events| - 1])
      + [match events[|events| - 1] case Received(message, _) => Some(message) case Gapped(_, _) => None]
  }

  lemma {:induction false} EntryAt(events: seq<ParserSpec.Event>, i: nat)
    requires i < |events|
    ensures |EntriesOf(events)| == |events|
    ensures EntriesOf(events)[i] == if events[i].Received? then Some(events[i].message) else None
    decreases |events|
  {
    if i < |events| - 1 {
      EntryAt(events[..|events| - 1], i);
    } else if |events| > 1 {
      EntryAt(events[..|events| - 1], 0);
    }
  }

  /** In every run of the manager, each file of a recording would start with a snapshot, so it can be replayed alone. */
  lemma RecordingsReplayAlone(check: Option<ParserSpec.ChecksumFunction>, states: seq<L2Manager.Manager>,
                              steps: seq<L2Manager.Step>, receiver: ParserSpec.ReceiverId, i: nat)
    requires L2Manager.IsRun(check, states, steps) && receiver in states[|steps|].parser.logs
    requires i < |Stretches(EntriesOf(states[|steps|].parser.logs[receiver].events))|
    ensures var stretch := Stretches(EntriesOf(states[|steps|].parser.logs[receiver].events))[i];
      stretch != [] && stretch[0].kind.Snapshot?
  {
    L2Manager.ReceiverLogsAreWellFormed(check, states, steps, receiver);
    GatedStartsWithSnapshots(states[|steps|].parser.logs[receiver].events);
    StretchesStartWithSnapshots(EntriesOf(states[|steps|].parser.logs[receiver].events));
  }

  lemma GatedStartsWithSnapshots(events: seq<ParserSpec.Event>)
    requires ParserSpec.Gated(events)
    ensures StartsWithSnapshots(EntriesOf(events))
  {
    var entries := EntriesOf(events);
    if events != [] { EntryAt(events, 0); }
    forall i | 0 <= i < |entries| && Begins(entries, i)
      ensures entries[i].value.kind.Snapshot?
    {
      EntryAt(events, i);
      if i > 0 { EntryAt(events, i - 1); }
      assert ParserSpec.StartsOver(events, i);
    }
  }

  // ----- The invariant --------------------------------------------------------------

  /** A name an open file may have: its stem, then nothing but digits and ".bin". */
  predicate IsOpenPath(symbolStem: string, path: string) {
    && |symbolStem| < |path| && path[..|symbolStem| + 1] == symbolStem + "-"
    && '-' !in path[|symbolStem| + 1..]
  }

  ghost predicate Contents(directory: Directory, closed: seq<string>, stretches: seq<seq<Message>>) {
    && |closed| == |stretches|
    && forall i :: 0 <= i < |closed| ==> closed[i] in directory && directory[closed[i]].messages == stretches[i]
  }

  ghost predicate Named(w: Writer) {
    && w.fileStem == FileStem(w.symbolStem, w.startTime) && w.startTime in w.openings
    && (forall i :: 0 <= i < |w.closed| ==> !IsOpenPath(w.symbolStem, w.closed[i]))
    && (forall i, j :: 0 <= i < j < |w.closed| ==> w.closed[i] != w.closed[j])
  }

  /** What of the stretches has not got its final name yet. */
  ghost predicate Recorded(w: Writer)
    requires w.open ==> HasFile(w)
  {
    var stretches := Stretches(w.consumed);
    if !w.open then stretches != [] && Contents(w.directory, w.closed, stretches)
    else if w.messagesInFile == 0 then stretches == [] && w.closed == [] && w.directory[OpenPath(w.fileStem)].messages == []
    else
      && stretches != [] && Contents(w.directory, w.closed, stretches[..|stretches| - 1])
      && w.directory[OpenPath(w.fileStem)].messages == stretches[|stretches| - 1]
  }

  ghost predicate Valid(w: Writer) {
    && Named(w)
    && (w.open ==> HasFile(w))
    && (!w.open ==> w.messagesInFile > 0)
    && (w.open && w.messagesInFile > 0 <==> w.consumed != [] && w.consumed[|w.consumed| - 1].Some?)
    && Recorded(w)
  }

  lemma OpenPathIs(symbolStem: string, now: Nanos)
    ensures IsOpenPath(symbolStem, OpenPath(FileStem(symbolStem, now)))
  {
    var path := OpenPath(FileStem(symbolStem, now));
    var digits := PrintNat(now / NANOS_PER_SECOND);
    PrintReadsBack(now / NANOS_PER_SECOND);
    assert path[|symbolStem| + 1..] == digits + ".bin";
    assert path[..|symbolStem| + 1] == symbolStem + "-";
  }

  lemma FinalNameIsNot(symbolStem: string, now: Nanos, end: nat, n: nat)
    ensures !IsOpenPath(symbolStem, FinalName(FileStem(symbolStem, now), end, n))
  {
    var stem := FileStem(symbolStem, now);
    var name := FinalName(stem, end, n);
    assert |symbolStem| + 1 <= |stem| && name[|stem|] == '-';
    assert name[|symbolStem| + 1..][|stem| - |symbolStem| - 1] == '-';
  }

  lemma OwnPathIs(w: Writer)
    requires Named(w)
    ensures IsOpenPath(w.symbolStem, OpenPath(w.fileStem))
  {
    OpenPathIs(w.symbolStem, w.startTime);
  }

  // ----- Nothing closed is ever touched again ---------------------------------------

  ghost predicate WasOpen(w: Writer, path: string) {
    exists t :: t in w.openings && path == OpenPath(FileStem(w.symbolStem, t))
  }

  /** Every file there keeps its name and content, apart from those whose name this writer opened. */
  ghost predicate Keeps(before: Directory, w: Writer) {
    forall path :: path in before && !WasOpen(w, path) ==> path in w.directory && w.directory[path] == before[path]
  }

  lemma OpenKeeps(w: Writer, now: Nanos)
    ensures Keeps(w.directory, Open(w, now))
  {
    assert now in Open(w, now).openings;
  }

  lemma WriteKeeps(w: Writer, message: Message)
    requires Named(w) && HasFile(w)
    ensures Keeps(w.directory, Write(w, message))
  {
    assert w.startTime in Write(w, message).openings;
  }

  lemma CloseKeeps(w: Writer, end: nat)
    requires Named(w) && (w.open ==> HasFile(w))
    ensures Keeps(w.directory, Close(w, end))
  {
    assert w.startTime in Close(w, end).openings;
  }

  lemma KeepsOn(before: Directory, v: Writer, w: Writer)
    requires Keeps(before, v) && Keeps(v.directory, w) && v.symbolStem == w.symbolStem && v.openings <= w.openings
    ensures Keeps(before, w)
  {
    forall path | WasOpen(v, path) ensures WasOpen(w, path) {
      var t :| t in v.openings && path == OpenPath(FileStem(v.symbolStem, t));
      assert t in w.openings;
    }
  }

  lemma WasOpenIs(w: Writer)
    ensures forall path :: WasOpen(w, path) ==> IsOpenPath(w.symbolStem, path)
  {
    forall path | WasOpen(w, path) ensures IsOpenPath(w.symbolStem, path) {
      var t :| t in w.openings && path == OpenPath(FileStem(w.symbolStem, t));
      OpenPathIs(w.symbolStem, t);
    }
  }

  lemma ContentsAreKept(before: Directory, w: Writer, closed: seq<string>, stretches: seq<seq<Message>>)
    requires Contents(before, closed, stretches) && Keeps(before, w)
    requires forall i :: 0 <= i < |closed| ==> !IsOpenPath(w.symbolStem, closed[i])
    ensures Contents(w.directory, closed, stretches)
  {
    WasOpenIs(w);
  }

  // ----- Every operation keeps the invariant ----------------------------------------

  lemma CreateIsValid(symbolStem: string, directory: Directory, now: Nanos)
    ensures Valid(Create(symbolStem, directory, now))
    ensures Keeps(directory, Create(symbolStem, directory, now))
  {
    OpenKeeps(Writer(symbolStem, directory, 0, "", false, 0, [], [], {}), now);
  }

  /** A file gets the next final name, free until then, with what was written to it. */
  lemma CloseNames(w: Writer, end: nat)
    requires Valid(w) && w.open
    ensures var c := Close(w, end);
      && Named(c) && Keeps(w.directory, c)
      && Contents(c.directory, c.closed,
                  if w.messagesInFile == 0 then [[]] else Stretches(w.consumed))
  {
    var c := Close(w, end);
    CloseKeeps(w, end);
    CloseFrees(w, end);
    if w.messagesInFile > 0 {
      var stretches := Stretches(w.consumed);
      ContentsAreKept(w.directory, c, w.closed, stretches[..|stretches| - 1]);
    }
  }

  lemma CloseFrees(w: Writer, end: nat)
    requires Named(w) && w.open && HasFile(w)
    ensures var final := FinalPath(w.directory, w.fileStem, end);
      && final !in w.directory && !IsOpenPath(w.symbolStem, final)
      && Close(w, end).directory[final] == w.directory[OpenPath(w.fileStem)]
  {
    FinalNameIsNot(w.symbolStem, w.startTime, end, FirstFree(w.directory.Keys, w.fileStem, end, 0));
  }

  lemma {:induction false} MessageStretches(entries: seq<Entry>, message: Message)
    ensures var before, after := Stretches(entries), Stretches(entries + [Some(message)]);
      if entries == [] || entries[|entries| - 1].None? then after == before + [[message]]
      else before != [] && after == before[..|before| - 1] + [before[|before| - 1] + [message]]
  {
    var longer := entries + [Some(message)];
    assert longer[..|longer| - 1] == entries;
    StretchesBegin(entries);
  }

  lemma GapIsValid(w: Writer, end: nat)
    requires Valid(w)
    ensures Valid(Consume(w, None, 0, end)) && Keeps(w.directory, Consume(w, None, 0, end))
  {
    var longer := w.consumed + [None];
    assert longer[..|w.consumed|] == w.consumed;
    assert Stretches(longer) == Stretches(w.consumed);
    if w.open && w.messagesInFile > 0 { CloseNames(w, end); }
  }

  lemma FirstMessageIsValid(w: Writer, message: Message, now: Nanos, v: Writer)
    requires Valid(w) && !w.open && v == Write(Open(w, now), message).(consumed := w.consumed + [Some(message)])
    ensures Valid(v) && Keeps(w.directory, v)
  {
    OpenKeeps(w, now);
    OpenPathIs(w.symbolStem, now);
    MessageStretches(w.consumed, message);
    var stretches := Stretches(w.consumed);
    assert Stretches(v.consumed)[..|stretches|] == stretches;
    assert Keeps(w.directory, v);
    ContentsAreKept(w.directory, v, w.closed, stretches);
  }

  lemma EmptyFileTakesMessage(w: Writer, message: Message, v: Writer)
    requires Valid(w) && w.open && w.messagesInFile == 0
    requires v == Write(w, message).(consumed := w.consumed + [Some(message)])
    ensures Valid(v)
  {
    MessageStretches(w.consumed, message);
    assert w.directory[OpenPath(w.fileStem)].messages == [] && w.closed == [];
    assert v.directory[OpenPath(v.fileStem)].messages == [message];
    assert v.consumed[|v.consumed| - 1] == Some(message);
    var after := Stretches(v.consumed);
    assert after == [[message]];
    assert after[..|after| - 1] == [];
    assert Recorded(v);
  }

  lemma NextMessageIsValid(w: Writer, message: Message, v: Writer)
    requires Valid(w) && w.open && v == Write(w, message).(consumed := w.consumed + [Some(message)])
    ensures Valid(v) && Keeps(w.directory, v)
  {
    WriteKeeps(w, message);
    if w.messagesInFile == 0 {
      EmptyFileTakesMessage(w, message, v);
    } else {
      MessageStretches(w.consumed, message);
      var before, after := Stretches(w.consumed), Stretches(v.consumed);
      assert after[..|after| - 1] == before[..|before| - 1];
      ContentsAreKept(w.directory, v, w.closed, before[..|before| - 1]);
    }
  }

  lemma ConsumeIsValid(w: Writer, entry: Entry, now: Nanos, end: nat)
    requires Valid(w)
    ensures Valid(Consume(w, entry, now, end)) && Keeps(w.directory, Consume(w, entry, now, end))
  {
    match entry
    case None => GapIsValid(w, end);
    case Some(message) =>
      if w.open {
        NextMessageIsValid(w, message, Consume(w, entry, now, end));
      } else {
        FirstMessageIsValid(w, message, now, Consume(w, entry, now, end));
      }
  }

  // ----- A whole recording ----------------------------------------------------------

  /** When an entry was consumed: the system clock, and the seconds it showed if a file was closed. */
  datatype Tick = Tick(now: Nanos, end: nat)

  function ConsumeAll(symbolStem: string, directory: Directory, start: Nanos, entries: seq<Entry>, ticks: seq<Tick>): (w: Writer)
    requires |entries| == |ticks|
    ensures w.open ==> HasFile(w)
  {
    if entries == [] then Create(symbolStem, directory, start)
    else
      var k := |entries| - 1;
      Consume(ConsumeAll(symbolStem, directory, start, entries[..k], ticks[..k]), entries[k], ticks[k].now, ticks[k].end)
  }

  lemma {:induction false} ConsumeAllIsValid(symbolStem: string, directory: Directory, start: Nanos, entries: seq<Entry>,
                                             ticks: seq<Tick>)
    requires |entries| == |ticks|
    ensures Valid(ConsumeAll(symbolStem, directory, start, entries, ticks))
  {
    if entries == [] {
      CreateIsValid(symbolStem, directory, start);
    } else {
      var k := |entries| - 1;
      ConsumeAllIsValid(symbolStem, directory, start, entries[..k], ticks[..k]);
      ConsumeIsValid(ConsumeAll(symbolStem, directory, start, entries[..k], ticks[..k]), entries[k], ticks[k].now, ticks[k].end);
    }
  }

  lemma {:induction false} ConsumesAll(symbolStem: string, directory: Directory, start: Nanos, entries: seq<Entry>,
                                       ticks: seq<Tick>)
    requires |entries| == |ticks|
    ensures var w := ConsumeAll(symbolStem, directory, start, entries, ticks);
      w.consumed == entries && w.symbolStem == symbolStem
  {
    if entries != [] {
      var k := |entries| - 1;
      ConsumesAll(symbolStem, directory, start, entries[..k], ticks[..k]);
      assert entries[..k] + [entries[k]] == entries;
    }
  }

  lemma {:induction false} ConsumeAllKeeps(symbolStem: string, directory: Directory, start: Nanos, entries: seq<Entry>,
                                           ticks: seq<Tick>)
    requires |entries| == |ticks|
    ensures Keeps(directory, ConsumeAll(symbolStem, directory, start, entries, ticks))
  {
    if entries == [] {
      CreateIsValid(symbolStem, directory, start);
    } else {
      var k := |entries| - 1;
      var before, w := ConsumeAll(symbolStem, directory, start, entries[..k], ticks[..k]),
                       ConsumeAll(symbolStem, directory, start, entries, ticks);
      ConsumeAllKeeps(symbolStem, directory, start, entries[..k], ticks[..k]);
      ConsumeAllIsValid(symbolStem, directory, start, entries[..k], ticks[..k]);
      ConsumeKeeps(directory, before, entries[k], ticks[k].now, ticks[k].end, w);
    }
  }

  lemma ConsumeKeeps(directory: Directory, w: Writer, entry: Entry, now: Nanos, end: nat, v: Writer)
    requires Valid(w) && Keeps(directory, w) && v == Consume(w, entry, now, end)
    ensures Keeps(directory, v)
  {
    ConsumeIsValid(w, entry, now, end);
    KeepsOn(directory, w, v);
  }

  /** When files were opened: at the start, and when the stream started over. */
  ghost predicate OpenedAt(start: Nanos, entries: seq<Entry>, ticks: seq<Tick>, t: Nanos)
    requires |entries| == |ticks|
  {
    t == start || exists i :: 0 < i < |entries| && Begins(entries, i) && ticks[i].now == t
  }

  lemma {:induction false} OpensAtBeginnings(symbolStem: string, directory: Directory, start: Nanos, entries: seq<Entry>,
                                             ticks: seq<Tick>, t: Nanos)
    requires |entries| == |ticks| && t in ConsumeAll(symbolStem, directory, start, entries, ticks).openings
    ensures OpenedAt(start, entries, ticks, t)
  {
    if entries != [] {
      var k := |entries| - 1;
      var before := ConsumeAll(symbolStem, directory, start, entries[..k], ticks[..k]);
      if t in before.openings {
        OpensAtBeginnings(symbolStem, directory, start, entries[..k], ticks[..k], t);
        OpenedEarlier(start, entries, ticks, t);
      } else {
        ConsumesAll(symbolStem, directory, start, entries[..k], ticks[..k]);
        ConsumeAllIsValid(symbolStem, directory, start, entries[..k], ticks[..k]);
        OpensAfterGap(before, entries[k], ticks[k].now, ticks[k].end);
        assert Begins(entries, k) && ticks[k].now == t;
      }
    }
  }

  lemma OpenedEarlier(start: Nanos, entries: seq<Entry>, ticks: seq<Tick>, t: Nanos)
    requires |entries| == |ticks| > 0 && OpenedAt(start, entries[..|entries| - 1], ticks[..|entries| - 1], t)
    ensures OpenedAt(start, entries, ticks, t)
  {
    var k := |entries| - 1;
    if t != start {
      var i :| 0 < i < k && Begins(entries[..k], i) && ticks[..k][i].now == t;
      assert Begins(entries, i) && ticks[i].now == t;
    }
  }

  lemma OpensAfterGap(w: Writer, entry: Entry, now: Nanos, end: nat)
    requires Valid(w)
    ensures var v := Consume(w, entry, now, end);
      v.openings == w.openings
      || (v.openings == w.openings + {now} && entry.Some? && w.consumed != [] && w.consumed[|w.consumed| - 1].None?)
  {
  }

  /** Every file is one that was there, one closed, or the open one. */
  ghost predicate AddsOnly(directory: Directory, w: Writer) {
    forall path :: path in w.directory ==> path in directory || path in w.closed || (w.open && path == OpenPath(w.fileStem))
  }

  lemma CloseAddsOnly(directory: Directory, w: Writer, end: nat)
    requires AddsOnly(directory, w) && (w.open ==> HasFile(w))
    ensures AddsOnly(directory, Close(w, end))
  {
    var c := Close(w, end);
    if w.open {
      assert c.closed[|w.closed|] == FinalPath(w.directory, w.fileStem, end);
      assert forall path :: path in w.closed ==> path in c.closed;
    }
  }

  lemma ConsumeAddsOnly(directory: Directory, w: Writer, entry: Entry, now: Nanos, end: nat)
    requires AddsOnly(directory, w) && (w.open ==> HasFile(w))
    ensures AddsOnly(directory, Consume(w, entry, now, end))
  {
    CloseAddsOnly(directory, w, end);
  }

  lemma {:induction false} ConsumeAllAddsOnly(symbolStem: string, directory: Directory, start: Nanos, entries: seq<Entry>, ticks: seq<Tick>)
    requires |entries| == |ticks|
    ensures AddsOnly(directory, ConsumeAll(symbolStem, directory, start, entries, ticks))
  {
    if entries != [] {
      var k := |entries| - 1;
      ConsumeAllAddsOnly(symbolStem, directory, start, entries[..k], ticks[..k]);
      ConsumeAddsOnly(directory, ConsumeAll(symbolStem, directory, start, entries[..k], ticks[..k]), entries[k],
                      ticks[k].now, ticks[k].end);
    }
  }

  /**
    The files a writer leaves are exactly the stream's gap-free stretches, in order, one file each,
    or one file without messages if there were none. Nothing else is added to the directory, and
    whatever was there is still there, but under the names of the files while they were open: the stem and
    the second at which the recording, or the stream after a gap, began.
   */
  lemma RecordingIsSegmented(symbolStem: string, directory: Directory, start: Nanos, entries: seq<Entry>, ticks: seq<Tick>, end: nat)
    requires |entries| == |ticks|
    ensures var w := Close(ConsumeAll(symbolStem, directory, start, entries, ticks), end);
      && Contents(w.directory, w.closed, if Stretches(entries) == [] then [[]] else Stretches(entries))
      && (forall i, j :: 0 <= i < j < |w.closed| ==> w.closed[i] != w.closed[j])
      && (forall path :: path in w.directory ==> path in directory || path in w.closed)
      && w.symbolStem == symbolStem && Keeps(directory, w)
      && (forall t :: t in w.openings ==> OpenedAt(start, entries, ticks, t))
  {
    var w := ConsumeAll(symbolStem, directory, start, entries, ticks);
    ConsumesAll(symbolStem, directory, start, entries, ticks);
    ConsumeAllIsValid(symbolStem, directory, start, entries, ticks);
    CloseLeaves(w, end, entries, Close(w, end));
    ConsumeAllAddsOnly(symbolStem, directory, start, entries, ticks);
    CloseAddsOnly(directory, w, end);
    ConsumeAllKeeps(symbolStem, directory, start, entries, ticks);
    KeepsOn(directory, w, Close(w, end));
    forall t | t in w.openings ensures OpenedAt(start, entries, ticks, t) {
      OpensAtBeginnings(symbolStem, directory, start, entries, ticks, t);
    }
  }

  lemma CloseLeaves(w: Writer, end: nat, entries: seq<Entry>, c: Writer)
    requires Valid(w) && w.consumed == entries && c == Close(w, end)
    ensures Contents(c.directory, c.closed, if Stretches(entries) == [] then [[]] else Stretches(entries))
    ensures forall i, j :: 0 <= i < j < |c.closed| ==> c.closed[i] != c.closed[j]
    ensures Keeps(w.directory, c) && c.symbolStem == w.symbolStem && c.openings == w.openings && !c.open
  {
    if w.open { CloseNames(w, end); }
  }

  /** What `v` had closed is there in `w`, with its name and its content. */
  ghost predicate KeepsClosed(v: Writer, w: Writer) {
    && v.closed <= w.closed
    && forall i :: 0 <= i < |v.closed| ==>
         v.closed[i] in v.directory && v.closed[i] in w.directory && w.directory[v.closed[i]] == v.directory[v.closed[i]]
  }

  /** A file once closed keeps its name and content, whatever is recorded after it. */
  lemma {:induction false} ClosedFilesAreFinal(symbolStem: string, directory: Directory, start: Nanos,
                                               entries: seq<Entry>, ticks: seq<Tick>, k: nat)
    requires |entries| == |ticks| && k <= |entries|
    ensures KeepsClosed(ConsumeAll(symbolStem, directory, start, entries[..k], ticks[..k]),
                        ConsumeAll(symbolStem, directory, start, entries, ticks))
  {
    var early := ConsumeAll(symbolStem, directory, start, entries[..k], ticks[..k]);
    if k == |entries| {
      assert entries[..k] == entries && ticks[..k] == ticks;
      AllClosedAreThere(symbolStem, directory, start, entries, ticks);
    } else {
      var n := |entries| - 1;
      assert entries[..n][..k] == entries[..k] && ticks[..n][..k] == ticks[..k];
      ClosedFilesAreFinal(symbolStem, directory, start, entries[..n], ticks[..n], k);
      NextKeepsClosed(symbolStem, directory, start, entries, ticks, early);
    }
  }

  lemma AllClosedAreThere(symbolStem: string, directory: Directory, start: Nanos, entries: seq<Entry>, ticks: seq<Tick>)
    requires |entries| == |ticks|
    ensures var w := ConsumeAll(symbolStem, directory, start, entries, ticks);
      KeepsClosed(w, w)
  {
    ConsumeAllIsValid(symbolStem, directory, start, entries, ticks);
    ClosedAreThere(ConsumeAll(symbolStem, directory, start, entries, ticks));
  }

  lemma NextKeepsClosed(symbolStem: string, directory: Directory, start: Nanos, entries: seq<Entry>, ticks: seq<Tick>,
                        early: Writer)
    requires |entries| == |ticks| > 0
    requires KeepsClosed(early, ConsumeAll(symbolStem, directory, start, entries[..|entries| - 1], ticks[..|entries| - 1]))
    ensures KeepsClosed(early, ConsumeAll(symbolStem, directory, start, entries, ticks))
  {
    var k := |entries| - 1;
    ConsumeAllIsValid(symbolStem, directory, start, entries[..k], ticks[..k]);
    ConsumeKeepsClosed(early, ConsumeAll(symbolStem, directory, start, entries[..k], ticks[..k]), entries[k],
                       ticks[k].now, ticks[k].end, ConsumeAll(symbolStem, directory, start, entries, ticks));
  }

  lemma ConsumeKeepsClosed(early: Writer, w: Writer, entry: Entry, now: Nanos, end: nat, v: Writer)
    requires Valid(w) && KeepsClosed(early, w) && v == Consume(w, entry, now, end)
    ensures KeepsClosed(early, v)
  {
    ConsumeIsValid(w, entry, now, end);
    WasOpenIs(v);
    ClosedGrows(w, entry, now, end);
    forall i | 0 <= i < |early.closed| ensures early.closed[i] == w.closed[i] && !WasOpen(v, w.closed[i]) {}
  }

  lemma ClosedGrows(w: Writer, entry: Entry, now: Nanos, end: nat)
    requires Valid(w)
    ensures w.closed <= Consume(w, entry, now, end).closed && Consume(w, entry, now, end).symbolStem == w.symbolStem
  {
  }

  lemma ClosedAreThere(w: Writer)
    requires Valid(w)
    ensures KeepsClosed(w, w)
  {
  }

  // ----- What each file says of its start -------------------------------------------

  /** When each stretch's file was opened: at the start for the first, then when its first message came. */
  function StartTimes(start: Nanos, entries: seq<Entry>, ticks: seq<Tick>): seq<Nanos>
    requires |entries| == |ticks|
  {
    if entries == [] then []
    else
      var k := |entries| - 1;
      var before := StartTimes(start, entries[..k], ticks[..k]);
      if !Begins(entries, k) then before
      else if before == [] then [start]
      else before + [ticks[k].now]
  }

  /** The pair, the second a file was opened, the one it was closed, and a number if that name was taken. */
  function NameFrom(symbolStem: string, second: nat, end: nat, n: nat): string {
    symbolStem + "-" + PrintNat(second) + "-" + PrintNat(end) + (if n == 0 then ".bin" else "-" + PrintNat(n) + ".bin")
  }

  /** A final name of a file opened then. */
  ghost predicate NamedFor(symbolStem: string, t: Nanos, name: string) {
    exists end: nat, n: nat :: name == NameFrom(symbolStem, t / 1_000_000_000, end, n)
  }

  ghost predicate ClosedAreTimed(w: Writer, times: seq<Nanos>) {
    |w.closed| <= |times|
    && forall i :: 0 <= i < |w.closed| ==>
         && w.closed[i] in w.directory && w.directory[w.closed[i]].startTime == times[i]
         && NamedFor(w.symbolStem, times[i], w.closed[i])
  }

  /** The open file's header holds the time it was opened at, which its stretch begins with. */
  ghost predicate OpenIsTimed(w: Writer, start: Nanos, times: seq<Nanos>) {
    w.open ==>
      && HasFile(w) && w.directory[OpenPath(w.fileStem)].startTime == w.startTime
      && (if w.messagesInFile == 0 then times == [] && w.startTime == start
          else |times| == |w.closed| + 1 && w.startTime == times[|w.closed|])
  }

  ghost predicate Timed(w: Writer, start: Nanos, times: seq<Nanos>) {
    && ClosedAreTimed(w, times) && OpenIsTimed(w, start, times)
    && (!w.open ==> |times| == |w.closed| && times != [])
  }

  /** What an entry makes of the start times. */
  function NextTimes(times: seq<Nanos>, start: Nanos, now: Nanos, entry: Entry, open: bool, messagesInFile: nat): seq<Nanos> {
    if entry.None? || (open && messagesInFile > 0) then times else if times == [] then [start] else times + [now]
  }

  lemma StayTimed(w: Writer, v: Writer, times: seq<Nanos>, longer: seq<Nanos>)
    requires ClosedAreTimed(w, times) && KeepsClosed(w, v) && v.closed == w.closed && v.symbolStem == w.symbolStem
    requires times <= longer
    ensures ClosedAreTimed(v, longer)
  {
  }

  lemma FinalNamesAreFor(symbolStem: string, t: Nanos, end: nat, n: nat)
    ensures NamedFor(symbolStem, t, FinalName(FileStem(symbolStem, t), end, n))
  {
    assert FinalName(FileStem(symbolStem, t), end, n) == NameFrom(symbolStem, t / 1_000_000_000, end, n);
  }

  lemma ClosingMoves(w: Writer, end: nat, c: Writer) returns (final: string)
    requires Valid(w) && w.open && c == Close(w, end)
    ensures KeepsClosed(w, c) && c.closed == w.closed + [final] && c.symbolStem == w.symbolStem && !c.open
    ensures final in c.directory && c.directory[final] == w.directory[OpenPath(w.fileStem)]
    ensures NamedFor(w.symbolStem, w.startTime, final)
  {
    final := FinalPath(w.directory, w.fileStem, end);
    FinalNamesAreFor(w.symbolStem, w.startTime, end, FirstFree(w.directory.Keys, w.fileStem, end, 0));
    CloseFrees(w, end);
    CloseKeeps(w, end);
    WasOpenIs(c);
    ClosedAreThere(w);
    forall i | 0 <= i < |w.closed| ensures c.closed[i] == w.closed[i] && !WasOpen(c, w.closed[i]) {}
  }

  lemma ClosingIsTimed(w: Writer, end: nat, c: Writer, start: Nanos, times: seq<Nanos>)
    requires Valid(w) && w.open && c == Close(w, end) && Timed(w, start, times)
    ensures ClosedAreTimed(c, if times == [] then [start] else times)
    ensures |c.closed| == if times == [] then 1 else |times|
  {
    var final := ClosingMoves(w, end, c);
    OneMoreIsTimed(w, c, final, times, if times == [] then [start] else times);
  }

  lemma OneMoreIsTimed(w: Writer, c: Writer, final: string, times: seq<Nanos>, longer: seq<Nanos>)
    requires ClosedAreTimed(w, times) && KeepsClosed(w, c) && c.closed == w.closed + [final] && c.symbolStem == w.symbolStem
    requires times <= longer && |w.closed| < |longer|
    requires final in c.directory && c.directory[final].startTime == longer[|w.closed|]
    requires NamedFor(c.symbolStem, longer[|w.closed|], final)
    ensures ClosedAreTimed(c, longer)
  {
    forall i | 0 <= i < |c.closed|
      ensures c.closed[i] in c.directory && c.directory[c.closed[i]].startTime == longer[i]
      ensures NamedFor(c.symbolStem, longer[i], c.closed[i])
    {
      if i < |w.closed| { assert c.closed[i] == w.closed[i]; }
    }
  }

  lemma GapIsTimed(w: Writer, end: nat, v: Writer, start: Nanos, times: seq<Nanos>)
    requires Valid(w) && Timed(w, start, times) && v == Consume(w, None, 0, end)
    ensures Timed(v, start, times)
  {
    if w.open && w.messagesInFile > 0 { ClosingIsTimed(w, end, Close(w, end), start, times); }
  }

  lemma MessageIsTimed(w: Writer, message: Message, now: Nanos, v: Writer, start: Nanos, times: seq<Nanos>)
    requires Valid(w) && Timed(w, start, times) && v == Consume(w, Some(message), now, 0)
    ensures Timed(v, start, NextTimes(times, start, now, Some(message), w.open, w.messagesInFile))
  {
    var longer := NextTimes(times, start, now, Some(message), w.open, w.messagesInFile);
    ClosedAreThere(w);
    ConsumeKeepsClosed(w, w, Some(message), now, 0, v);
    StayTimed(w, v, times, longer);
  }

  lemma TimesFollow(start: Nanos, entries: seq<Entry>, ticks: seq<Tick>, w: Writer)
    requires |entries| == |ticks| > 0 && Valid(w) && w.consumed == entries[..|entries| - 1]
    requires Timed(w, start, StartTimes(start, entries[..|entries| - 1], ticks[..|entries| - 1]))
    ensures var k := |entries| - 1;
      StartTimes(start, entries, ticks)
      == NextTimes(StartTimes(start, entries[..k], ticks[..k]), start, ticks[k].now, entries[k], w.open, w.messagesInFile)
  {
    var k := |entries| - 1;
    if k > 0 { assert w.consumed[k - 1] == entries[k - 1]; }
  }

  lemma {:induction false} FilesAreTimed(symbolStem: string, directory: Directory, start: Nanos, entries: seq<Entry>,
                                         ticks: seq<Tick>)
    requires |entries| == |ticks|
    ensures Timed(ConsumeAll(symbolStem, directory, start, entries, ticks), start, StartTimes(start, entries, ticks))
  {
    if entries != [] {
      var k := |entries| - 1;
      var w := ConsumeAll(symbolStem, directory, start, entries[..k], ticks[..k]);
      FilesAreTimed(symbolStem, directory, start, entries[..k], ticks[..k]);
      ConsumeAllIsValid(symbolStem, directory, start, entries[..k], ticks[..k]);
      ConsumesAll(symbolStem, directory, start, entries[..k], ticks[..k]);
      TimesFollow(start, entries, ticks, w);
      EntryIsTimed(w, entries[k], ticks[k], ConsumeAll(symbolStem, directory, start, entries, ticks), start,
                   StartTimes(start, entries[..k], ticks[..k]));
    }
  }

  lemma EntryIsTimed(w: Writer, entry: Entry, tick: Tick, v: Writer, start: Nanos, times: seq<Nanos>)
    requires Valid(w) && Timed(w, start, times) && v == Consume(w, entry, tick.now, tick.end)
    ensures Timed(v, start, NextTimes(times, start, tick.now, entry, w.open, w.messagesInFile))
  {
    if entry.None? { GapIsTimed(w, tick.end, v, start, times); }
    else { MessageIsTimed(w, entry.value, tick.now, v, start, times); }
  }

  /**
    Each file a recording leaves says in its header when it was opened, and is named for that second: the first
    when the recording began, and each other when the first message of its stretch came.
   */
  lemma FilesTellTheirStart(symbolStem: string, directory: Directory, start: Nanos, entries: seq<Entry>, ticks: seq<Tick>,
                            end: nat)
    requires |entries| == |ticks|
    ensures var w := Close(ConsumeAll(symbolStem, directory, start, entries, ticks), end);
      var times := if StartTimes(start, entries, ticks) == [] then [start] else StartTimes(start, entries, ticks);
      && |w.closed| == |times|
      && forall i :: 0 <= i < |times| ==>
           && w.closed[i] in w.directory && w.directory[w.closed[i]].startTime == times[i]
           && NamedFor(symbolStem, times[i], w.closed[i])
  {
    var w := ConsumeAll(symbolStem, directory, start, entries, ticks);
    FilesAreTimed(symbolStem, directory, start, entries, ticks);
    ConsumeAllIsValid(symbolStem, directory, start, entries, ticks);
    ConsumesAll(symbolStem, directory, start, entries, ticks);
    if w.open { ClosingIsTimed(w, end, Close(w, end), start, StartTimes(start, entries, ticks)); }
  }
}

/** The class of l2/file_writer.h, as its own thread runs it. */
module FileWriters {
  import opened Messages
  import opened RecordingSpec
  import opened Printing

  class FileWriter {
    const symbolStem: string
    var directory: Directory
    var startTime: Nanos
    var fileStem: string
    var path: string
    var open: bool
    var messagesInFile: nat
    ghost var closed: seq<string>
    ghost var consumed: seq<Entry>
    ghost var openings: set<Nanos>

    ghost function State(): Writer
      reads this
    {
      Writer(symbolStem, directory, startTime, fileStem, open, messagesInFile, closed, consumed, openings)
    }

    ghost predicate Valid()
      reads this
    {
      RecordingSpec.Valid(State()) && path == OpenPath(fileStem)
    }

    /** `symbol` without its slashes. */
    static function Stem(symbol: string): string {
      if symbol == "" then "" else (if symbol[0] == '/' then "" else [symbol[0]]) + Stem(symbol[1..])
    }

    constructor (symbol: string, directory: Directory, now: Nanos)
      ensures Valid() && State() == Create(Stem(symbol), directory, now)
    {
      this.symbolStem, this.directory := Stem(symbol), directory;
      startTime, fileStem, path, open, messagesInFile := 0, "", ".bin", false, 0;
      closed, consumed, openings := [], [], {};
      new;
      CreateIsValid(symbolStem, directory, now);
      Open(now);
    }

    method Open(now: Nanos)
      modifies this
      ensures State() == RecordingSpec.Open(old(State()), now) && path == OpenPath(fileStem)
    {
      startTime := now;
      fileStem := symbolStem + "-" + PrintNat(now / NANOS_PER_SECOND);
      path := fileStem + ".bin";
      open := true;
      directory := directory[path := Recording(now, [])];
      openings := openings + {now};
      messagesInFile := 0;
    }

    method Write(message: Message)
      requires path == OpenPath(fileStem) && HasFile(State())
      modifies this
      ensures State() == RecordingSpec.Write(old(State()), message) && path == old(path)
    {
      var file := directory[path];
      directory := directory[path := file.(messages := file.messages + [message])];
      messagesInFile := messagesInFile + 1;
    }

    method Close(end: nat)
      requires path == OpenPath(fileStem) && (open ==> HasFile(State()))
      modifies this
      ensures State() == RecordingSpec.Close(old(State()), end) && path == old(path)
    {
      if !open {
        return;
      }
      open := false;
      var finalPath := FinalPath(directory, fileStem, end);
      directory := Rename(directory, path, finalPath);
      closed := closed + [finalPath];
    }

    /** Tries names until one is free; a finite directory leaves one. */
    static method FinalPath(directory: Directory, stem: string, end: nat) returns (path: string)
      ensures path == RecordingSpec.FinalPath(directory, stem, end) && path !in directory
    {
      path := stem + "-" + PrintNat(end) + ".bin";
      var n := 1;
      ghost var taken := directory.Keys;
      while path in directory
        invariant n >= 1 && path == FinalName(stem, end, n - 1)
        invariant taken <= directory.Keys
        invariant forall m :: n - 1 <= m && FinalName(stem, end, m) in directory ==> FinalName(stem, end, m) in taken
        invariant FirstFree(directory.Keys, stem, end, 0) == FirstFree(taken, stem, end, n - 1)
        decreases |taken|
      {
        NextNames(stem, end, n - 1);
        taken := taken - {path};
        path := stem + "-" + PrintNat(end) + "-" + PrintNat(n) + ".bin";
        n := n + 1;
        assert path == FinalName(stem, end, n - 1);
      }
    }

    static lemma NextNames(stem: string, end: nat, n: nat)
      ensures forall m :: n < m ==> FinalName(stem, end, m) != FinalName(stem, end, n)
    {
      forall m | n < m ensures FinalName(stem, end, m) != FinalName(stem, end, n) {
        FinalNamesDiffer(stem, end, m, n);
      }
    }

    method Consume(entry: Entry, now: Nanos, end: nat)
      requires Valid()
      modifies this
      ensures Valid() && State() == RecordingSpec.Consume(old(State()), entry, now, end)
    {
      ConsumeIsValid(State(), entry, now, end);
      consumed := consumed + [entry];
      if entry.None? {
        if messagesInFile > 0 {
          Close(end);
        }
        return;
      }
      if !open {
        Open(now);
      }
      Write(entry.value);
    }
  }
}
