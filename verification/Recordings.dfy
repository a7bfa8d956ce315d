/** The files of a recording (RecordingSpec) as the bytes written to them (RecordSpec), and what they read back as. */
module Recordings {
  import opened Messages
  import opened LittleEndian
  import opened RecordingSpec
  import opened RecordSpec

  /** What the header says of the pair. */
  datatype Pair = Pair(venue: seq<byte>, symbol: seq<byte>, depth: u32, priceDecimals: u32, qtyDecimals: u32)

  predicate AreStorable(messages: seq<Message>) { forall i :: 0 <= i < |messages| ==> Writable(messages[i]) }

  predicate Storables(entries: seq<Entry>) { forall i :: 0 <= i < |entries| && entries[i].Some? ==> Writable(entries[i].value) }

  function HeaderOf(pair: Pair, file: Recording): FileHeader {
    MakeFileHeader(pair.venue, pair.symbol, pair.depth, pair.priceDecimals, pair.qtyDecimals, file.startTime)
  }

  /** A header says what there is to say of the pair, and when its recording started. */
  predicate Describes(header: FileHeader, pair: Pair, startTime: Nanos) {
    && header.depth == pair.depth && header.priceDecimals == pair.priceDecimals && header.qtyDecimals == pair.qtyDecimals
    && header.startTime == startTime && header.venue == FixedText(pair.venue) && header.symbol == FixedText(pair.symbol)
  }

  function BytesOf(pair: Pair, file: Recording): seq<byte>
    requires AreStorable(file.messages)
  {
    FileBytes(HeaderOf(pair, file), file.messages)
  }

  /** A new file is its header; a message written is its record after what was there. */
  lemma WritingAppends(pair: Pair, now: Nanos, file: Recording, message: Message)
    requires AreStorable(file.messages) && Writable(message)
    ensures BytesOf(pair, Recording(now, [])) == Header(HeaderOf(pair, Recording(now, [])))
    ensures BytesOf(pair, file.(messages := file.messages + [message])) == BytesOf(pair, file) + Record(message)
  {
    AppendedRecord(file.messages, message);
    Associates(Header(HeaderOf(pair, file)), Records(file.messages), Record(message));
    assert Header(HeaderOf(pair, Recording(now, []))) + Records([]) == Header(HeaderOf(pair, Recording(now, [])));
  }

  lemma AppendedRecord(ms: seq<Storable>, m: Storable)
    ensures Records(ms + [m]) == Records(ms) + Record(m)
  {
    RecordsGrow(ms + [m], |ms|);
    assert (ms + [m])[..|ms|] == ms && (ms + [m])[|ms|..] == [m];
    OneRecord(m);
  }

  lemma OneRecord(m: Storable)
    ensures Records([m]) == Record(m)
  {
    assert [m][1..] == [] && Record(m) + [] == Record(m);
  }

  lemma {:induction false} StretchesAreStorable(entries: seq<Entry>)
    requires Storables(entries)
    ensures forall i :: 0 <= i < |Stretches(entries)| ==> AreStorable(Stretches(entries)[i])
  {
    if entries != [] { StretchesAreStorable(entries[..|entries| - 1]); }
  }

  lemma WholeFileReadsBack(pair: Pair, file: Recording)
    requires AreStorable(file.messages)
    ensures ReadFile(BytesOf(pair, file)) == File(HeaderOf(pair, file), BareAll(file.messages))
  {
    RecordsReadBack(file.messages);
    RecordSpec.ReadsHeader(HeaderOf(pair, file), Records(file.messages));
  }

  /** The stretches a closed recording's files hold: one without messages if there was none. */
  function Kept(entries: seq<Entry>): seq<seq<Message>> {
    if Stretches(entries) == [] then [[]] else Stretches(entries)
  }

  /** The bytes of each file a recording leaves read back as its stretch, but for the symbols, and its own start. */
  lemma FilesReadBack(pair: Pair, symbolStem: string, directory: Directory, start: Nanos, entries: seq<Entry>,
                      ticks: seq<Tick>, end: nat, i: nat)
    requires |entries| == |ticks| && Storables(entries) && i < |Kept(entries)|
    ensures var w := Close(ConsumeAll(symbolStem, directory, start, entries, ticks), end);
      && |w.closed| == |Kept(entries)| && w.closed[i] in w.directory && AreStorable(Kept(entries)[i])
      && var file := w.directory[w.closed[i]];
      && AreStorable(file.messages)
      && ReadFile(BytesOf(pair, file)) == File(HeaderOf(pair, file), BareAll(Kept(entries)[i]))
      && Describes(HeaderOf(pair, file), pair, file.startTime)
  {
    var w := Close(ConsumeAll(symbolStem, directory, start, entries, ticks), end);
    RecordingIsSegmented(symbolStem, directory, start, entries, ticks, end);
    StretchesAreStorable(entries);
    WholeFileReadsBack(pair, w.directory[w.closed[i]]);
  }

  /** What the open file holds: the stretch being recorded, if the stream has no gap just now. */
  function Current(entries: seq<Entry>): seq<Message> {
    if entries != [] && entries[|entries| - 1].Some? && Stretches(entries) != []
    then Stretches(entries)[|Stretches(entries)| - 1]
    else []
  }

  lemma OpenFileHolds(w: Writer)
    requires RecordingSpec.Valid(w) && w.open
    ensures w.directory[OpenPath(w.fileStem)].messages == Current(w.consumed)
  {
  }

  /** Cut at `n`: no file if the header is cut, else the header and the first `k` messages, whose records are whole. */
  ghost predicate ReadsBackCut(pair: Pair, file: Recording, n: nat, k: nat) {
    && AreStorable(file.messages) && k <= |file.messages|
    && (n <= |BytesOf(pair, file)| ==>
         if n < HEADER_SIZE then ReadFile(BytesOf(pair, file)[..n]) == NotAFile
         else
           && ReadFile(BytesOf(pair, file)[..n]) == File(HeaderOf(pair, file), BareAll(file.messages[..k]))
           && HEADER_SIZE + |Records(file.messages[..k])| <= n
           && (k < |file.messages| ==> n < HEADER_SIZE + |Records(file.messages[..k + 1])|))
  }

  lemma CutReadsBack(pair: Pair, file: Recording, n: nat) returns (k: nat)
    requires AreStorable(file.messages)
    ensures ReadsBackCut(pair, file, n, k)
  {
    k := 0;
    if HEADER_SIZE <= n <= |BytesOf(pair, file)| {
      k := CutFileReadsBack(HeaderOf(pair, file), file.messages, n);
    }
  }

  /** The open file, cut anywhere, as by a crash, reads back as a prefix of the stretch being recorded. */
  lemma OpenFileReadsBack(pair: Pair, symbolStem: string, directory: Directory, start: Nanos, entries: seq<Entry>,
                          ticks: seq<Tick>, n: nat) returns (k: nat)
    requires |entries| == |ticks| && Storables(entries)
    requires ConsumeAll(symbolStem, directory, start, entries, ticks).open
    ensures var w := ConsumeAll(symbolStem, directory, start, entries, ticks);
      var file := w.directory[OpenPath(w.fileStem)];
      && file.messages == Current(entries) && ReadsBackCut(pair, file, n, k)
      && Describes(HeaderOf(pair, file), pair, file.startTime)
  {
    var w := ConsumeAll(symbolStem, directory, start, entries, ticks);
    ConsumeAllIsValid(symbolStem, directory, start, entries, ticks);
    ConsumesAll(symbolStem, directory, start, entries, ticks);
    OpenFileHolds(w);
    StretchesAreStorable(entries);
    k := CutReadsBack(pair, w.directory[OpenPath(w.fileStem)], n);
  }
}
