/**
  One client's connection (frontend/server.cc): its queue of outgoing frames, which drops
  Books when full, the numbers frames go out under, and the limit on pending commands.
  `inFlight`, `started`, `offered` and `dropped` are history: whether a write is under way,
  the frames handed to the socket, every payload that took a number, and the numbers of those
  dropped. The frames a client reads are a prefix of `started`.
 */
module SessionSpec {
  import opened StreamSpec

  const MAX_QUEUED_FRAMES: nat := 4096
  const MAX_BACKLOG_FRAMES: nat := 2 * MAX_QUEUED_FRAMES
  const MAX_PENDING_COMMANDS: nat := 64

  datatype Frame = Frame(sequence: nat, payload: Payload)

  datatype Session = Session(
    outgoing: seq<Frame>, nextSequence: nat, closed: bool, pending: nat,
    inFlight: bool, started: seq<Frame>, offered: seq<Payload>, dropped: set<nat>)

  const OPENED := Session([], 0, false, 0, false, [], [], {})

  function Close(s: Session): Session { s.(closed := true) }

  function Drop(s: Session, payload: Payload): Session {
    s.(nextSequence := s.nextSequence + 1, offered := s.offered + [payload], dropped := s.dropped + {s.nextSequence})
  }

  function Push(s: Session, payload: Payload): Session {
    s.(outgoing := s.outgoing + [Frame(s.nextSequence, payload)],
       nextSequence := s.nextSequence + 1, offered := s.offered + [payload])
  }

  function WriteFront(s: Session): Session
    requires s.outgoing != []
  {
    s.(inFlight := true, started := s.started + [s.outgoing[0]])
  }

  function Enqueue(s: Session, payload: Payload): Session {
    if s.closed then s
    else if |s.outgoing| >= MAX_QUEUED_FRAMES && payload.BookChange? then Drop(s, payload)
    else if |s.outgoing| >= MAX_BACKLOG_FRAMES then Close(s)
    else
      var pushed := Push(s, payload);
      if |pushed.outgoing| == 1 then WriteFront(pushed) else pushed
  }

  /** The write in flight ended, well or not. */
  function Written(s: Session, ok: bool): Session
    requires s.outgoing != []
  {
    if !ok then Close(s).(inFlight := false)
    else
      var popped := s.(outgoing := s.outgoing[1..], inFlight := false);
      if !popped.closed && popped.outgoing != [] then WriteFront(popped) else popped
  }

  /** A command was read, or reading failed. */
  function Read(s: Session, ok: bool): Session {
    if !ok || s.closed || s.pending >= MAX_PENDING_COMMANDS then Close(s) else s.(pending := s.pending + 1)
  }

  function CommandDone(s: Session): Session
    requires s.pending > 0
  {
    s.(pending := s.pending - 1)
  }

  // ----- The invariant --------------------------------------------------------------

  /** The frames handed to the socket, then those that will be. */
  function Accepted(s: Session): seq<Frame> { s.started + if s.inFlight && s.outgoing != [] then s.outgoing[1..] else [] }

  ghost predicate Carries(frames: seq<Frame>, n: nat) {
    exists i :: 0 <= i < |frames| && frames[i].sequence == n
  }

  /** Frames carry what was offered under their number, in order. */
  ghost predicate Numbered(frames: seq<Frame>, offered: seq<Payload>) {
    && (forall i :: 0 <= i < |frames| ==>
         frames[i].sequence < |offered| && frames[i].payload == offered[frames[i].sequence])
    && (forall i, j :: 0 <= i < j < |frames| ==> frames[i].sequence < frames[j].sequence)
  }

  function Limit(s: Session): nat {
    if !s.closed then |s.offered|
    else if Accepted(s) == [] then 0
    else Accepted(s)[|Accepted(s)| - 1].sequence + 1
  }

  /** A number below `limit` has a frame exactly if it was not dropped. */
  ghost predicate MissingAreDropped(frames: seq<Frame>, dropped: set<nat>, limit: nat) {
    forall n: nat :: n < limit ==> (Carries(frames, n) <==> n !in dropped)
  }

  ghost predicate Writing(s: Session) {
    && (s.inFlight ==> s.outgoing != [] && s.started != [] && s.started[|s.started| - 1] == s.outgoing[0])
    && (!s.closed ==> (s.inFlight <==> s.outgoing != []))
  }

  ghost predicate Valid(s: Session) {
    && |s.outgoing| <= MAX_BACKLOG_FRAMES && s.pending <= MAX_PENDING_COMMANDS
    && s.nextSequence == |s.offered|
    && Writing(s)
    && Numbered(Accepted(s), s.offered)
    && (forall n :: n in s.dropped ==> n < |s.offered| && s.offered[n].BookChange?)
    && MissingAreDropped(Accepted(s), s.dropped, Limit(s))
  }

  lemma CarriesSplits(frames: seq<Frame>, frame: Frame, n: nat)
    ensures Carries(frames + [frame], n) <==> Carries(frames, n) || frame.sequence == n
  {
    var longer := frames + [frame];
    if Carries(frames, n) {
      var i :| 0 <= i < |frames| && frames[i].sequence == n;
      assert longer[i].sequence == n;
    }
    assert longer[|frames|] == frame;
  }

  lemma PushIsValid(s: Session, payload: Payload, t: Session)
    requires Valid(s) && !s.closed && |s.outgoing| < MAX_BACKLOG_FRAMES
    requires t == if s.outgoing == [] then WriteFront(Push(s, payload)) else Push(s, payload)
    ensures Valid(t)
  {
    var frame := Frame(|s.offered|, payload);
    assert Accepted(t) == Accepted(s) + [frame];
    forall n: nat | n < |t.offered| ensures Carries(Accepted(t), n) <==> n !in t.dropped {
      CarriesSplits(Accepted(s), frame, n);
      if n == |s.offered| { assert n !in s.dropped; }
    }
  }

  lemma DropIsValid(s: Session, payload: Payload)
    requires Valid(s) && !s.closed && payload.BookChange?
    ensures Valid(Drop(s, payload))
  {
    var t := Drop(s, payload);
    assert Accepted(t) == Accepted(s);
    forall n: nat | n < |t.offered| ensures Carries(Accepted(t), n) <==> n !in t.dropped {
      if n == |s.offered| { assert !Carries(Accepted(s), n); }
    }
  }

  /** Whatever was started, the frames cut off behind it leave nothing out before it. */
  lemma PrefixMissesOnlyDropped(frames: seq<Frame>, offered: seq<Payload>, dropped: set<nat>, limit: nat, k: nat)
    requires Numbered(frames, offered) && MissingAreDropped(frames, dropped, limit)
    requires 0 < k <= |frames| && frames[k - 1].sequence < limit
    ensures MissingAreDropped(frames[..k], dropped, frames[k - 1].sequence + 1)
  {
    forall n: nat | n < frames[k - 1].sequence + 1 ensures Carries(frames[..k], n) <==> n !in dropped {
      if Carries(frames, n) {
        var i :| 0 <= i < |frames| && frames[i].sequence == n;
        assert i < k;
        assert frames[..k][i].sequence == n;
      }
    }
  }

  lemma ClosingIsValid(s: Session, t: Session)
    requires Valid(s) && t.closed
    requires Accepted(t) <= Accepted(s) && t.offered == s.offered && t.dropped == s.dropped
    requires t.nextSequence == s.nextSequence && t.pending == s.pending && |t.outgoing| <= |s.outgoing|
    requires Writing(t)
    ensures Valid(t)
  {
    PrefixIsValid(s, |Accepted(t)|);
    assert Accepted(t) == Accepted(s)[..|Accepted(t)|];
  }

  lemma PrefixIsValid(s: Session, k: nat)
    requires Valid(s) && k <= |Accepted(s)|
    ensures Numbered(Accepted(s)[..k], s.offered)
    ensures k > 0 ==> MissingAreDropped(Accepted(s)[..k], s.dropped, Accepted(s)[k - 1].sequence + 1)
  {
    var frames := Accepted(s);
    if k > 0 {
      if s.closed { assert frames[k - 1].sequence <= frames[|frames| - 1].sequence; }
      PrefixMissesOnlyDropped(frames, s.offered, s.dropped, Limit(s), k);
    }
  }

  lemma EnqueueIsValid(s: Session, payload: Payload)
    requires Valid(s)
    ensures Valid(Enqueue(s, payload))
  {
    if s.closed {
    } else if |s.outgoing| >= MAX_QUEUED_FRAMES && payload.BookChange? {
      DropIsValid(s, payload);
    } else if |s.outgoing| >= MAX_BACKLOG_FRAMES {
      ClosingIsValid(s, Close(s));
    } else {
      PushIsValid(s, payload, Enqueue(s, payload));
    }
  }

  lemma WrittenIsValid(s: Session, ok: bool)
    requires Valid(s) && s.inFlight
    ensures Valid(Written(s, ok))
  {
    var t := Written(s, ok);
    if t.closed {
      ClosingIsValid(s, t);
    } else {
      assert Accepted(t) == Accepted(s);
    }
  }

  lemma ReadIsValid(s: Session, ok: bool)
    requires Valid(s)
    ensures Valid(Read(s, ok))
  {
    if Read(s, ok).closed {
      ClosingIsValid(s, Read(s, ok));
    } else {
      assert Accepted(Read(s, ok)) == Accepted(s);
    }
  }

  // ----- Runs -----------------------------------------------------------------------

  datatype Op = Offer(payload: Payload) | Finish(ok: bool) | Hear(ok: bool) | Answer | Hang

  predicate Enabled(s: Session, op: Op) {
    && (op.Finish? ==> s.inFlight && s.outgoing != [])
    && (op.Answer? ==> s.pending > 0)
  }

  function Apply1(s: Session, op: Op): Session
    requires Enabled(s, op)
  {
    match op
    case Offer(payload) => Enqueue(s, payload)
    case Finish(ok) => Written(s, ok)
    case Hear(ok) => Read(s, ok)
    case Answer => CommandDone(s)
    case Hang => Close(s)
  }

  lemma OpKeepsValid(s: Session, op: Op)
    requires Valid(s) && Enabled(s, op)
    ensures Valid(Apply1(s, op))
  {
    match op
    case Offer(payload) => EnqueueIsValid(s, payload);
    case Finish(ok) => WrittenIsValid(s, ok);
    case Hear(ok) => ReadIsValid(s, ok);
    case Answer => assert Accepted(CommandDone(s)) == Accepted(s);
    case Hang => ClosingIsValid(s, Close(s));
  }

  ghost predicate IsRun(states: seq<Session>, ops: seq<Op>) {
    && |states| == |ops| + 1 && states[0] == OPENED
    && forall i :: 0 <= i < |ops| ==> Enabled(states[i], ops[i]) && states[i + 1] == Apply1(states[i], ops[i])
  }

  lemma {:induction false} RunsAreValid(states: seq<Session>, ops: seq<Op>)
    requires IsRun(states, ops)
    ensures Valid(states[|ops|])
  {
    if ops == [] {
      assert Accepted(OPENED) == [];
    } else {
      var n := |ops| - 1;
      assert IsRun(states[..n + 1], ops[..n]);
      RunsAreValid(states[..n + 1], ops[..n]);
      OpKeepsValid(states[n], ops[n]);
    }
  }

  /**
    What goes on the wire, in every run: never a queue past the backlog limit, numbers strictly
    increasing, each number carrying what was offered under it, and the numbers left out
    before the last exactly those of dropped Books.
   */
  lemma WireIsInOrder(states: seq<Session>, ops: seq<Op>)
    requires IsRun(states, ops)
    ensures var s := states[|ops|];
      && |s.outgoing| <= MAX_BACKLOG_FRAMES && s.pending <= MAX_PENDING_COMMANDS
      && Numbered(s.started, s.offered)
      && (s.started != [] ==> MissingAreDropped(s.started, s.dropped, s.started[|s.started| - 1].sequence + 1))
      && (forall n :: n in s.dropped ==> n < |s.offered| && s.offered[n].BookChange?)
  {
    RunsAreValid(states, ops);
    StartedIsInOrder(states[|ops|]);
  }

  lemma {:induction false} KeepingUpDropsNothing(states: seq<Session>, ops: seq<Op>)
    requires IsRun(states, ops)
    requires forall i :: 0 <= i < |states| ==> |states[i].outgoing| < MAX_QUEUED_FRAMES
    ensures states[|ops|].dropped == {}
  {
    if ops != [] {
      var n := |ops| - 1;
      assert IsRun(states[..n + 1], ops[..n]);
      KeepingUpDropsNothing(states[..n + 1], ops[..n]);
      assert states[n + 1] == Apply1(states[n], ops[n]);
    }
  }

  lemma {:induction false} NoneMissing(frames: seq<Frame>, offered: seq<Payload>, i: nat)
    requires Numbered(frames, offered) && i < |frames|
    requires MissingAreDropped(frames, {}, frames[|frames| - 1].sequence + 1)
    ensures frames[i].sequence == i
  {
    if i > 0 { NoneMissing(frames, offered, i - 1); }
    assert i <= frames[i].sequence <= frames[|frames| - 1].sequence;
    assert Carries(frames, i);
    var j :| 0 <= j < |frames| && frames[j].sequence == i;
  }

  /** A client whose queue never fills gets everything, numbered from 0. */
  lemma KeepingUpLosesNothing(states: seq<Session>, ops: seq<Op>, i: nat)
    requires IsRun(states, ops)
    requires forall k :: 0 <= k < |states| ==> |states[k].outgoing| < MAX_QUEUED_FRAMES
    requires i < |states[|ops|].started|
    ensures i < |states[|ops|].offered| && states[|ops|].started[i] == Frame(i, states[|ops|].offered[i])
  {
    var s := states[|ops|];
    WireIsInOrder(states, ops);
    KeepingUpDropsNothing(states, ops);
    NoneMissing(s.started, s.offered, i);
  }

  // ----- What is done, and when it is not -------------------------------------------

  /** The four things that end a session: hung up, a failed write or read, a command too many, a full backlog. */
  predicate Ends(s: Session, op: Op) {
    || op.Hang?
    || (op.Finish? && !op.ok)
    || (op.Hear? && (!op.ok || s.pending == MAX_PENDING_COMMANDS))
    || (op.Offer? && !op.payload.BookChange? && |s.outgoing| == MAX_BACKLOG_FRAMES)
  }

  /** A command is run, so owed an answer. */
  predicate Runs(s: Session, op: Op) { op.Hear? && op.ok && !s.closed && s.pending < MAX_PENDING_COMMANDS }

  /** A payload takes the next number. */
  predicate Counts(s: Session, op: Op) { op.Offer? && !s.closed && !Ends(s, op) }

  /** A number goes unused: a Book found the queue full. */
  predicate Drops(s: Session, op: Op) {
    op.Offer? && op.payload.BookChange? && !s.closed && |s.outgoing| >= MAX_QUEUED_FRAMES
  }

  /** What an operation does, by what was so before it; a closed session starts no further write. */
  predicate Does(s: Session, op: Op, t: Session) {
    && (t.closed <==> s.closed || Ends(s, op))
    && t.pending + (if op.Answer? then 1 else 0) == s.pending + (if Runs(s, op) then 1 else 0)
    && t.offered == s.offered + (if Counts(s, op) then [op.payload] else [])
    && t.dropped == s.dropped + (if Drops(s, op) then {|s.offered|} else {})
    && (s.closed ==> t.started == s.started)
  }

  lemma OpDoes(s: Session, op: Op)
    requires Valid(s) && Enabled(s, op)
    ensures Does(s, op, Apply1(s, op))
  {
    assert s.offered + [] == s.offered && s.dropped + {} == s.dropped;
  }

  function RunsOf(states: seq<Session>, ops: seq<Op>): nat
    requires |states| == |ops| + 1
  {
    if ops == [] then 0
    else
      var n := |ops| - 1;
      RunsOf(states[..n + 1], ops[..n]) + if Runs(states[n], ops[n]) then 1 else 0
  }

  function Answers(ops: seq<Op>): nat {
    if ops == [] then 0 else Answers(ops[..|ops| - 1]) + if ops[|ops| - 1].Answer? then 1 else 0
  }

  function CountedOf(states: seq<Session>, ops: seq<Op>): seq<Payload>
    requires |states| == |ops| + 1
  {
    if ops == [] then []
    else
      var n := |ops| - 1;
      CountedOf(states[..n + 1], ops[..n]) + if Counts(states[n], ops[n]) then [ops[n].payload] else []
  }

  ghost predicate EverEnds(states: seq<Session>, ops: seq<Op>)
    requires |states| == |ops| + 1
  {
    exists i :: 0 <= i < |ops| && Ends(states[i], ops[i])
  }

  ghost predicate DroppedBy(states: seq<Session>, ops: seq<Op>, n: nat)
    requires |states| == |ops| + 1
  {
    exists i :: 0 <= i < |ops| && Drops(states[i], ops[i]) && n == |states[i].offered|
  }

  lemma EndsGrow(states: seq<Session>, ops: seq<Op>)
    requires |states| == |ops| + 1 && ops != []
    ensures var k := |ops| - 1;
      EverEnds(states, ops) <==> EverEnds(states[..k + 1], ops[..k]) || Ends(states[k], ops[k])
  {
    var k := |ops| - 1;
    if EverEnds(states[..k + 1], ops[..k]) {
      var i :| 0 <= i < k && Ends(states[..k + 1][i], ops[..k][i]);
      assert Ends(states[i], ops[i]);
    }
    if EverEnds(states, ops) {
      var i :| 0 <= i < |ops| && Ends(states[i], ops[i]);
      if i < k { assert Ends(states[..k + 1][i], ops[..k][i]); }
    }
  }

  lemma DropsGrow(states: seq<Session>, ops: seq<Op>, n: nat)
    requires |states| == |ops| + 1 && ops != []
    ensures var k := |ops| - 1;
      DroppedBy(states, ops, n)
      <==> DroppedBy(states[..k + 1], ops[..k], n) || (Drops(states[k], ops[k]) && n == |states[k].offered|)
  {
    var k := |ops| - 1;
    if DroppedBy(states[..k + 1], ops[..k], n) {
      var i :| 0 <= i < k && Drops(states[..k + 1][i], ops[..k][i]) && n == |states[..k + 1][i].offered|;
      assert Drops(states[i], ops[i]);
    }
    if DroppedBy(states, ops, n) {
      var i :| 0 <= i < |ops| && Drops(states[i], ops[i]) && n == |states[i].offered|;
      if i < k { assert Drops(states[..k + 1][i], ops[..k][i]); }
    }
  }

  lemma LastDoes(states: seq<Session>, ops: seq<Op>)
    requires IsRun(states, ops) && ops != []
    ensures var k := |ops| - 1; IsRun(states[..k + 1], ops[..k]) && Does(states[k], ops[k], states[k + 1])
  {
    var k := |ops| - 1;
    assert IsRun(states[..k + 1], ops[..k]);
    RunsAreValid(states[..k + 1], ops[..k]);
    OpDoes(states[k], ops[k]);
  }

  /** In every run: a session is closed exactly if one of those four things happened to it. */
  lemma {:induction false} SessionsEndOnlyFor(states: seq<Session>, ops: seq<Op>)
    requires IsRun(states, ops)
    ensures states[|ops|].closed <==> EverEnds(states, ops)
  {
    if ops != [] {
      LastDoes(states, ops);
      SessionsEndOnlyFor(states[..|ops|], ops[..|ops| - 1]);
      EndsGrow(states, ops);
    }
  }

  /** In every run: once closed, a session stays so, and starts no further write. */
  lemma {:induction false} ClosedStaysSilent(states: seq<Session>, ops: seq<Op>, k: nat)
    requires IsRun(states, ops) && k <= |ops| && states[k].closed
    ensures states[|ops|].closed && states[|ops|].started == states[k].started
  {
    if k < |ops| {
      LastDoes(states, ops);
      ClosedStaysSilent(states[..|ops|], ops[..|ops| - 1], k);
    }
  }

  /** In every run: the pending commands are those run and not answered. */
  lemma {:induction false} PendingAreUnanswered(states: seq<Session>, ops: seq<Op>)
    requires IsRun(states, ops)
    ensures states[|ops|].pending + Answers(ops) == RunsOf(states, ops)
  {
    if ops != [] {
      LastDoes(states, ops);
      PendingAreUnanswered(states[..|ops|], ops[..|ops| - 1]);
    }
  }

  /**
    In every run: every payload offered to an open session, and not ending it, took the next number; and the
    numbers dropped are exactly those of Books that found the queue full.
   */
  lemma {:induction false} OnlyFullQueuesDrop(states: seq<Session>, ops: seq<Op>)
    requires IsRun(states, ops)
    ensures states[|ops|].offered == CountedOf(states, ops)
    ensures forall n: nat :: n in states[|ops|].dropped <==> DroppedBy(states, ops, n)
  {
    if ops != [] {
      LastDoes(states, ops);
      OnlyFullQueuesDrop(states[..|ops|], ops[..|ops| - 1]);
      forall n: nat ensures n in states[|ops|].dropped <==> DroppedBy(states, ops, n) { DropsGrow(states, ops, n); }
    }
  }

  ghost predicate Leads(s: Session, ops: seq<Op>, t: Session)
    decreases ops
  {
    if ops == [] then t == s else Enabled(s, ops[0]) && Leads(Apply1(s, ops[0]), ops[1..], t)
  }

  lemma WritingGoesOn(s: Session)
    requires Valid(s) && !s.closed && s.outgoing != []
    ensures var t := Written(s, true);
      Enabled(s, Finish(true)) && Valid(t) && !t.closed && |t.outgoing| < |s.outgoing| && Accepted(t) == Accepted(s)
  {
    WrittenIsValid(s, true);
  }

  /** All that is queued is written if the client keeps reading. */
  lemma {:induction false} QueueIsWritten(s: Session) returns (ops: seq<Op>, t: Session)
    requires Valid(s) && !s.closed
    ensures Leads(s, ops, t) && (forall i :: 0 <= i < |ops| ==> ops[i] == Finish(true))
    ensures t.outgoing == [] && !t.closed && t.started == Accepted(s)
    decreases |s.outgoing|
  {
    if s.outgoing == [] {
      ops, t := [], s;
      assert s.started + [] == s.started;
    } else {
      WritingGoesOn(s);
      ops, t := QueueIsWritten(Written(s, true));
      assert ([Finish(true)] + ops)[1..] == ops;
      ops := [Finish(true)] + ops;
    }
  }

  lemma StartedIsInOrder(s: Session)
    requires Valid(s)
    ensures Numbered(s.started, s.offered)
    ensures s.started != [] ==> MissingAreDropped(s.started, s.dropped, s.started[|s.started| - 1].sequence + 1)
  {
    PrefixIsValid(s, |s.started|);
    assert Accepted(s)[..|s.started|] == s.started;
  }
}

/** The class Server::Session. */
module Sessions {
  import SessionSpec
  import StreamSpec

  class Session {
    var outgoing: seq<SessionSpec.Frame>
    var nextSequence: nat
    var closed: bool
    var pendingCommands: nat
    ghost var inFlight: bool
    ghost var started: seq<SessionSpec.Frame>
    ghost var offered: seq<StreamSpec.Payload>
    ghost var dropped: set<nat>

    ghost function State(): SessionSpec.Session
      reads this
    {
      SessionSpec.Session(outgoing, nextSequence, closed, pendingCommands, inFlight, started, offered, dropped)
    }

    ghost predicate Valid()
      reads this
    {
      SessionSpec.Valid(State())
    }

    constructor ()
      ensures Valid() && State() == SessionSpec.OPENED
    {
      outgoing, nextSequence, closed, pendingCommands := [], 0, false, 0;
      inFlight, started, offered, dropped := false, [], [], {};
      new;
      assert SessionSpec.Accepted(State()) == [];
    }

    method Enqueue(payload: StreamSpec.Payload)
      requires Valid()
      modifies this
      ensures Valid() && State() == SessionSpec.Enqueue(old(State()), payload)
    {
      SessionSpec.EnqueueIsValid(State(), payload);
      if closed {
        return;
      }
      if |outgoing| >= SessionSpec.MAX_QUEUED_FRAMES {
        if payload.BookChange? {
          dropped, offered := dropped + {nextSequence}, offered + [payload];
          nextSequence := nextSequence + 1;
          return;
        }
        if |outgoing| >= SessionSpec.MAX_BACKLOG_FRAMES {
          Close();
          return;
        }
      }
      outgoing := outgoing + [SessionSpec.Frame(nextSequence, payload)];
      offered := offered + [payload];
      nextSequence := nextSequence + 1;
      if |outgoing| == 1 {
        WriteFront();
      }
    }

    method WriteFront()
      requires outgoing != [] && !inFlight
      modifies this`inFlight, this`started
      ensures State() == SessionSpec.WriteFront(old(State()))
    {
      inFlight, started := true, started + [outgoing[0]];
    }

    /** The handler of the write in flight. */
    method Written(ok: bool)
      requires Valid() && inFlight
      modifies this
      ensures Valid() && State() == SessionSpec.Written(old(State()), ok)
    {
      SessionSpec.WrittenIsValid(State(), ok);
      inFlight := false;
      if !ok {
        Close();
        return;
      }
      outgoing := outgoing[1..];
      if !closed && outgoing != [] {
        WriteFront();
      }
    }

    /** The handler of a read. Returns whether a command goes on to be run. */
    method Read(ok: bool) returns (run: bool)
      requires Valid()
      modifies this
      ensures Valid() && State() == SessionSpec.Read(old(State()), ok)
      ensures run <==> ok && !old(closed) && old(pendingCommands) < SessionSpec.MAX_PENDING_COMMANDS
      ensures pendingCommands == old(pendingCommands) + (if run then 1 else 0) && closed == !run
      ensures outgoing == old(outgoing) && nextSequence == old(nextSequence) && inFlight == old(inFlight)
    {
      SessionSpec.ReadIsValid(State(), ok);
      if !ok || closed {
        Close();
        return false;
      }
      if pendingCommands >= SessionSpec.MAX_PENDING_COMMANDS {
        Close();
        return false;
      }
      pendingCommands := pendingCommands + 1;
      run := true;
    }

    method CommandDone()
      requires pendingCommands > 0
      modifies this`pendingCommands
      ensures State() == SessionSpec.CommandDone(old(State()))
    {
      pendingCommands := pendingCommands - 1;
    }

    method Close()
      modifies this`closed
      ensures State() == SessionSpec.Close(old(State()))
    {
      if closed {
        return;
      }
      closed := true;
    }
  }
}
