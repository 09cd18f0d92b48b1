/** What clients of a shell may rely on, in every run of the shell machine. */
module ShellTheorems {
  import opened Bytes
  import opened Ascii
  import opened Limits
  import opened ShellProtocol
  import opened ShellInvariant

  /** A run of the shell from its creation or adoption. */
  ghost predicate Run(init: World, steps: seq<Step>) {
    Initial(init.shell) && IsRun(init, steps)
  }

  function Final(init: World, steps: seq<Step>): World {
    RunFrom(init, steps)
  }

  lemma {:induction false} RunInv(init: World, steps: seq<Step>)
    requires Run(init, steps)
    ensures Inv(Final(init, steps).shell, Final(init, steps).closed)
  {
    InitialInv(init.shell, init.closed);
    RunKeepsInv(init, steps);
  }

  datatype Piece = Piece(seqNo: nat, bytes: Chunk)

  /** The Output messages of a log as the client sees them. */
  function Outputs(log: Log): seq<Piece> {
    match log
    case Nothing => []
    case Sent(before, msg) =>
      Outputs(before) +
      match msg
      case Output(seqNo, bytes) => [Piece(seqNo, bytes)]
      case Replayed(seqNo, bytes) => [Piece(seqNo, bytes)]
      case _ => []
  }

  function Screen(log: Log): seq<Chunk> {
    if First(log).Some? && First(log).value.Snapshot? then First(log).value.screen else []
  }

  function ExitCount(log: Log): nat {
    match log
    case Nothing => 0
    case Sent(before, msg) => ExitCount(before) + if msg.ShellExited? then 1 else 0
  }

  /** The channel of `id` is still read. */
  predicate Listening(w: World, id: AttachId) {
    id in w.shell.clients && w.shell.clients[id].conn !in w.closed
  }

  // ------------------------------------------------------------- shape of a stream

  predicate IsChunk(piece: Piece, seqNo: int, output: seq<Chunk>) {
    1 <= seqNo <= |output| && piece == Piece(seqNo, output[seqNo - 1])
  }

  /** One replay at most, then the chunks start, start + 1, ... without gaps. */
  lemma {:induction false} StreamShape(log: Log, start: nat, output: seq<Chunk>)
    requires start >= 1 && WellSent(log, start, output)
    ensures ReplayCount(log) <= 1 && |Outputs(log)| == ReplayCount(log) + SentCount(log)
    ensures forall k | ReplayCount(log) <= k < |Outputs(log)| ::
              IsChunk(Outputs(log)[k], start + k - ReplayCount(log), output)
    ensures ReplayCount(log) == 1 ==>
              && SnapshotNumbered(log, start - 1) && start <= |output|
              && Outputs(log)[0].seqNo == start && IsSuffix(Outputs(log)[0].bytes, output[start - 1])
  {
    if log.Sent? {
      var before := log.before;
      var outs, earlier := Outputs(log), Outputs(before);
      StreamShape(before, start, output);
      hide Outputs, IsChunk, WellSent, MsgFits;
      forall k | ReplayCount(log) <= k < |outs|
        ensures IsChunk(outs[k], start + k - ReplayCount(log), output)
      {
        if k < |earlier| {
          assert outs[k] == earlier[k] && IsChunk(earlier[k], start + k - ReplayCount(before), output);
        }
      }
    }
  }

  lemma {:induction false} FirstIsSnapshot(log: Log, start: nat, output: seq<Chunk>)
    requires start >= 1 && WellSent(log, start, output) && log.Sent?
    ensures First(log).Some? && First(log).value.Snapshot?
    ensures start - 1 <= First(log).value.seqNo <= start
    ensures Screen(log) <= output && start - 1 <= |Screen(log)| <= start
  {
    if log.before.Sent? {
      FirstIsSnapshot(log.before, start, output);
    }
  }

  /** Consecutive chunks, in full; only the first may come twice, and may then be cut at its front. */
  ghost predicate WithoutGaps(outs: seq<Piece>, output: seq<Chunk>) {
    && (forall i | 0 <= i < |outs| :: 1 <= outs[i].seqNo <= |output|)
    && (forall i | 0 < i < |outs| ::
          && (outs[i].seqNo == outs[i - 1].seqNo + 1 || (i == 1 && outs[1].seqNo == outs[0].seqNo))
          && outs[i].bytes == output[outs[i].seqNo - 1])
    && (outs != [] ==> IsSuffix(outs[0].bytes, output[outs[0].seqNo - 1]))
  }

  /** At most `r` <= 1 replay of chunk `start`, then the chunks from `start` on. */
  ghost predicate ReplayThenChunks(outs: seq<Piece>, output: seq<Chunk>, start: nat, r: nat) {
    && start >= 1 && r <= 1 && r <= |outs|
    && (forall k | r <= k < |outs| :: IsChunk(outs[k], start + k - r, output))
    && (r == 1 ==> outs[0].seqNo == start <= |output| && IsSuffix(outs[0].bytes, output[start - 1]))
  }

  lemma {:induction false} ChunksWithoutGaps(outs: seq<Piece>, output: seq<Chunk>, start: nat, r: nat)
    requires ReplayThenChunks(outs, output, start, r)
    ensures WithoutGaps(outs, output) && (outs != [] ==> outs[0].seqNo == start)
  {
    forall i | 0 <= i < |outs|
      ensures outs[i].seqNo == start + (if i < r then 0 else i - r) && 1 <= outs[i].seqNo <= |output|
      ensures i >= r ==> outs[i].bytes == output[outs[i].seqNo - 1]
    {
      if i >= r {
        assert IsChunk(outs[i], start + i - r, output);
      }
    }
  }

  /** What a client can check: its Outputs follow its Snapshot in order, without gaps. */
  ghost predicate InOrder(log: Log, output: seq<Chunk>) {
    var outs := Outputs(log);
    && WithoutGaps(outs, output)
    && First(log).Some? && First(log).value.Snapshot?
    && Screen(log) <= output
    && (outs != [] ==>
          var seqNo := First(log).value.seqNo;
          && seqNo <= outs[0].seqNo <= seqNo + 1
          && outs[0].seqNo - 1 <= |Screen(log)| <= outs[0].seqNo)
  }

  /**
   * Order and bounded duplication: for every attach ever made, Output seqs start at
   * Snapshot.seq or one later, never skip, and only the first may come twice.
   */
  lemma {:induction false} BoundedDuplication(init: World, steps: seq<Step>, id: AttachId)
    requires Run(init, steps)
    requires id in Final(init, steps).shell.clients && Final(init, steps).shell.clients[id].log.Sent?
    ensures InOrder(Final(init, steps).shell.clients[id].log, Final(init, steps).shell.output)
  {
    RunInv(init, steps);
    var s := Final(init, steps).shell;
    var c := s.clients[id];
    assert ClientInv(s, Final(init, steps).closed, id);
    StreamIsInOrder(c.log, c.start, s.output);
  }

  lemma {:induction false} StreamIsInOrder(log: Log, start: nat, output: seq<Chunk>)
    requires start >= 1 && WellSent(log, start, output) && log.Sent?
    ensures InOrder(log, output)
  {
    hide *;
    OutputsWithoutGaps(log, start, output);
    FirstIsSnapshot(log, start, output);
    InOrderFrom(log, start, output);
  }

  lemma {:induction false} OutputsWithoutGaps(log: Log, start: nat, output: seq<Chunk>)
    requires start >= 1 && WellSent(log, start, output)
    ensures WithoutGaps(Outputs(log), output) && (Outputs(log) != [] ==> Outputs(log)[0].seqNo == start)
  {
    hide ReplayThenChunks, WithoutGaps, WellSent;
    StreamHasShape(log, start, output);
    ChunksWithoutGaps(Outputs(log), output, start, ReplayCount(log));
  }

  lemma {:induction false} StreamHasShape(log: Log, start: nat, output: seq<Chunk>)
    requires start >= 1 && WellSent(log, start, output)
    ensures ReplayThenChunks(Outputs(log), output, start, ReplayCount(log))
  {
    StreamShape(log, start, output);
    hide WellSent, MsgFits;
  }

  lemma {:induction false} InOrderFrom(log: Log, start: nat, output: seq<Chunk>)
    requires WithoutGaps(Outputs(log), output) && (Outputs(log) != [] ==> Outputs(log)[0].seqNo == start)
    requires First(log).Some? && First(log).value.Snapshot?
    requires start - 1 <= First(log).value.seqNo <= start
    requires Screen(log) <= output && start - 1 <= |Screen(log)| <= start
    ensures InOrder(log, output)
  {
    hide WithoutGaps, Outputs, First, Screen;
  }

  /**
   * No output is lost: while a client is the current one and listening, every chunk the
   * reader has finished with is on its screen or was sent to it in full; the one chunk
   * that may still be missing is in flight.
   */
  lemma {:induction false} NoOutputLost(init: World, steps: seq<Step>, id: AttachId, j: nat)
    requires Run(init, steps)
    requires var w := Final(init, steps); w.shell.attach == Some(id) && Listening(w, id)
    requires 1 <= j <= |Final(init, steps).shell.output|
    ensures var s := Final(init, steps).shell;
            || j <= |Screen(s.clients[id].log)|
            || Piece(j, s.output[j - 1]) in Outputs(s.clients[id].log)
            || (j == |s.output| && !s.reader.Waiting?)
  {
    RunInv(init, steps);
    var w := Final(init, steps);
    var s := w.shell;
    var c := s.clients[id];
    assert ClientInv(s, w.closed, id);
    StreamShape(c.log, c.start, s.output);
    FirstIsSnapshot(c.log, c.start, s.output);
    if c.start <= j < c.start + SentCount(c.log) {
      assert IsChunk(Outputs(c.log)[ReplayCount(c.log) + j - c.start], j, s.output);
    }
  }

  // ----------------------------------------------------------------------- the replay

  /** Between the last two sections of `record_output` the ring ends in the chunk, unless its cap is zero. */
  ghost predicate RingFollows(s: Shell) {
    s.reader.Logged? ==>
      if s.ringCap == 0 then s.events == []
      else s.events != [] && s.events[|s.events| - 1] == Event(s.seqNo, LastN(s.reader.bytes, s.ringCap))
  }

  lemma {:induction false} ReadingFollows(s: Shell, closed: set<Conn>, a: Action)
    requires Enabled(s, a) && IsReading(a)
    ensures RingFollows(Apply(s, closed, a))
  {
    hide LastN, Appended, Attaching, Cleaning, Polling;
    if a.LogChunk? && s.ringCap > 0 {
      LastEventSurvives(s.ringCap, s.events, s.seqNo, s.reader.bytes);
    } else if a.LogChunk? {
      NoRing(s.events, s.seqNo, s.reader.bytes);
    }
  }

  lemma {:induction false} NoRing(events: seq<Event>, seqNo: nat, bytes: Chunk)
    ensures Appended(0, events, seqNo, bytes) == []
  {
  }

  lemma {:induction false} AttachingFollows(s: Shell, closed: set<Conn>, a: Action)
    requires RingFollows(s) && Enabled(s, a) && IsAttachPart(a)
    ensures RingFollows(Apply(s, closed, a))
  {
    hide LastN, After, SendAll, Reading, Cleaning, Polling;
    if a.Replay? {
      SendAllLeaves(s, closed, s.attacher.id, After(s.events, s.attacher.seqNo));
    }
  }

  lemma {:induction false} ActionKeepsFollows(s: Shell, closed: set<Conn>, a: Action)
    requires RingFollows(s) && Enabled(s, a)
    ensures RingFollows(Apply(s, closed, a))
  {
    hide LastN, Reading, Attaching;
    if IsReading(a) {
      ReadingFollows(s, closed, a);
    } else if IsAttachPart(a) {
      AttachingFollows(s, closed, a);
    }
  }

  lemma {:induction false} RunKeepsFollows(w: World, steps: seq<Step>)
    requires RingFollows(w.shell) && IsRun(w, steps)
    ensures RingFollows(RunFrom(w, steps).shell)
    decreases |steps|
  {
    hide RingFollows, Apply, Enabled;
    if steps != [] {
      if steps[0].Act? {
        ActionKeepsFollows(w.shell, w.closed, steps[0].action);
      }
      RunKeepsFollows(Next(w, steps[0]), steps[1..]);
    }
  }

  lemma {:induction false} ReplayOfLast(events: seq<Event>, seqNo: nat)
    requires Increasing(events) && events != [] && events[|events| - 1].seqNo > seqNo
    requires |After(events, seqNo)| <= 1
    ensures After(events, seqNo) == [events[|events| - 1]]
  {
    AfterIsSuffix(events, seqNo);
  }

  lemma {:induction false} ReplayedIn(s: Shell, closed: set<Conn>)
    requires Inv(s, closed) && RingFollows(s) && s.attacher.Installed?
    ensures After(s.events, s.attacher.seqNo) ==
            if s.attacher.seqNo + 1 == s.seqNo && s.reader.Logged? && s.ringCap > 0
            then [Event(s.seqNo, LastN(s.reader.bytes, s.ringCap))]
            else []
  {
    hide After, LastN, IsSuffix, ClientInv, CallersInv, CleanupInv;
    var seqNo := s.attacher.seqNo;
    var replay := After(s.events, seqNo);
    InstalledFits(s, closed);
    ReplayIsShort(s, seqNo, s.clients[s.attacher.id].start);
    AfterIsSuffix(s.events, seqNo);
    if replay != [] {
      assert replay[0] in s.events;
      var i :| 0 <= i < |s.events| && s.events[i] == replay[0];
      assert EventFits(s.events[i], s.output, LoggedCount(s));
    }
    if s.reader.Logged? && s.ringCap > 0 && seqNo + 1 == s.seqNo {
      ReplayOfLast(s.events, seqNo);
    }
  }

  /**
   * In every reachable state the replay of an `attach` call is the chunk in flight exactly if that
   * chunk was numbered after the call loaded its seq, is logged and not yet delivered, and the ring
   * holds anything at all; in all other cases it is empty.
   */
  lemma {:induction false} ReplayExactly(init: World, steps: seq<Step>)
    requires Run(init, steps) && Final(init, steps).shell.attacher.Installed?
    ensures var s := Final(init, steps).shell;
            After(s.events, s.attacher.seqNo) ==
            if s.attacher.seqNo + 1 == s.seqNo && s.reader.Logged? && s.ringCap > 0
            then [Event(s.seqNo, LastN(s.reader.bytes, s.ringCap))]
            else []
  {
    RunInv(init, steps);
    RunKeepsFollows(init, steps);
    hide Inv, RingFollows, After, LastN;
    ReplayedIn(Final(init, steps).shell, Final(init, steps).closed);
  }

  // -------------------------------------------------------------- the end of a shell

  /**
   * Once the cleanup has told its client, every client that was shown a running shell
   * got an end message, detached itself, or stopped listening.
   */
  lemma {:induction false} EndedProperly(init: World, steps: seq<Step>, id: AttachId)
    requires Run(init, steps)
    requires var s := Final(init, steps).shell;
             (s.cleanup.Told? || s.cleanup.Closed?) && id in s.clients && SaidRunning(s.clients[id].log)
    ensures var w := Final(init, steps);
            Ended(w.shell.clients[id].log) || id in w.shell.detached || !Listening(w, id)
  {
    RunInv(init, steps);
    var w := Final(init, steps);
    assert ClientInv(w.shell, w.closed, id);
  }

  lemma {:induction false} ExitIsLast(log: Log, start: nat, output: seq<Chunk>)
    requires WellSent(log, start, output)
    ensures ExitCount(log) == if log.Sent? && log.msg.ShellExited? then 1 else 0
  {
    if log.Sent? {
      ExitIsLast(log.before, start, output);
    }
  }

  // --------------------------------------------------------------------- cleanup calls

  /** However many calls there are, at most one finds the shell in the map. */
  lemma {:induction false} OneOwner(init: World, steps: seq<Step>, c: Caller, d: Caller)
    requires Run(init, steps)
    requires var s := Final(init, steps).shell;
             c in s.callers && d in s.callers && Owned(s.callers[c]) && Owned(s.callers[d])
    ensures c == d
  {
    RunInv(init, steps);
  }

  /** However many calls try to clean the shell up, it is marked, closed and reported at most once. */
  lemma {:induction false} CleanupHappensOnce(init: World, steps: seq<Step>)
    requires Run(init, steps)
    ensures var s := Final(init, steps).shell;
            && s.marks <= 1 && s.closes <= 1 && (s.closes == 1 <==> !s.masterOpen)
            && (s.cleanup.Closed? ==> s.marks == s.closes == 1 && s.status == Exited)
            && (forall a | a in s.clients :: ExitCount(s.clients[a].log) <= 1)
            && (forall a, b | a in s.clients && b in s.clients
                  && ExitCount(s.clients[a].log) == 1 && ExitCount(s.clients[b].log) == 1 :: a == b)
  {
    RunInv(init, steps);
    var w := Final(init, steps);
    forall a | a in w.shell.clients
      ensures ExitCount(w.shell.clients[a].log) <= 1
      ensures ExitCount(w.shell.clients[a].log) == 1 ==> w.shell.exitTold == Some(a)
    {
      assert ClientInv(w.shell, w.closed, a);
      ExitIsLast(w.shell.clients[a].log, w.shell.clients[a].start, w.shell.output);
    }
  }

  /** The shell is marked exited and its master closed, each exactly once. */
  predicate CleanedUp(s: Shell) {
    s.marks == 1 && s.closes == 1 && s.status == Exited && !s.masterOpen
  }

  /**
   * What a call that has returned may assume: the shell is cleaned up exactly if the call
   * was the owner, or the owner has returned as well.
   */
  lemma {:induction false} ReturnedExactly(init: World, steps: seq<Step>, c: Caller)
    requires Run(init, steps)
    requires var s := Final(init, steps).shell; c in s.callers && s.callers[c].Returned?
    ensures var s := Final(init, steps).shell;
            CleanedUp(s) <==> s.callers[c].owned || exists d :: IsAt(s, d, Returned(true))
  {
    RunInv(init, steps);
    var s := Final(init, steps).shell;
    if CleanedUp(s) {
      OwnerReturned(s);
    }
    forall d | IsAt(s, d, Returned(true))
      ensures CleanedUp(s)
    {
      assert Owned(s.callers[d]);
    }
    assert s.callers[c].owned ==> IsAt(s, c, Returned(true));
  }

  lemma {:induction false} OwnerReturned(s: Shell)
    requires CallersInv(s) && CleanupInv(s) && s.closes == 1
    ensures exists d :: IsAt(s, d, Returned(true))
  {
    var d :| d in s.callers && Owned(s.callers[d]);
    assert OwnerFits(s, s.callers[d]);
    assert IsAt(s, d, Returned(true));
  }

  // --------------------------------------------------------- cwd, stealing, detaching

  /** Between two polls the current client has been told the stored cwd. */
  lemma {:induction false} CwdConverges(init: World, steps: seq<Step>, id: AttachId)
    requires Run(init, steps)
    requires var w := Final(init, steps);
             w.shell.attach == Some(id) && Listening(w, id) && !w.shell.poller.Changed?
    ensures var s := Final(init, steps).shell; LastCwd(s.clients[id].log) == Some(s.cwd)
  {
    RunInv(init, steps);
    var w := Final(init, steps);
    assert ClientInv(w.shell, w.closed, id);
  }

  /** A client that was told it lost its place is out, whatever it asks for. */
  lemma {:induction false} EndedClientIsOut(init: World, steps: seq<Step>, id: AttachId)
    requires Run(init, steps)
    requires var s := Final(init, steps).shell; s.attacher.Free? && id in s.clients && Ended(s.clients[id].log)
    ensures var w := Final(init, steps);
            w.shell.attach != Some(id) && Apply(w.shell, w.closed, DetachClient(id)) == w.shell
  {
    RunInv(init, steps);
    var w := Final(init, steps);
    assert ClientInv(w.shell, w.closed, id);
  }

  // --------------------------------------------------------------------- witnesses

  /** One more action at the end of a run. */
  lemma {:induction false} Do(init: World, steps: seq<Step>, a: Action) returns (longer: seq<Step>)
    requires IsRun(init, steps) && Enabled(RunFrom(init, steps).shell, a)
    ensures IsRun(init, longer)
    ensures RunFrom(init, longer) ==
            World(Apply(RunFrom(init, steps).shell, RunFrom(init, steps).closed, a), RunFrom(init, steps).closed)
  {
    longer := steps + [Act(a)];
    Extend(init, steps, Act(a));
  }

  lemma {:induction false} Extend(w: World, steps: seq<Step>, step: Step)
    requires IsRun(w, steps) && CanStep(RunFrom(w, steps), step)
    ensures IsRun(w, steps + [step]) && RunFrom(w, steps + [step]) == Next(RunFrom(w, steps), step)
    decreases |steps|
  {
    hide CanStep, Next, Enabled, Apply;
    if steps == [] {
      assert [] + [step] == [step] && [step][1..] == [];
      assert IsRun(Next(w, step), []);
    } else {
      Extend(Next(w, steps[0]), steps[1..], step);
      assert (steps + [step])[1..] == steps[1..] + [step] && (steps + [step])[0] == steps[0];
    }
  }

  const NewShell := Shell(100, 100, Running, 0, true, 0, [], [], [], None, Waiting, Free, Registered, map[], Sleeping,
                          [], map[], {}, 0, 0, None)

  /** An `attach` without interruption, in three parts. */
  lemma {:induction false} EnterAlone(init: World, steps: seq<Step>, id: AttachId) returns (longer: seq<Step>)
    requires IsRun(init, steps)
    requires var w := RunFrom(init, steps);
             w.closed == {} && w.shell.attacher.Free? && w.shell.attach == None && id !in w.shell.clients
    ensures IsRun(init, longer)
    ensures var s := RunFrom(init, steps).shell;
            RunFrom(init, longer) == World(
              s.(clients := s.clients[id := Client(0, Delivered(s) + 1, Nothing)],
                 attacher := ScreenRead(id, s.seqNo, s.terminal)), {})
  {
    hide IsRun, RunFrom;
    longer := Do(init, steps, LockAttach(0, false));
    longer := Do(init, longer, LoadSeq(id));
    longer := Do(init, longer, ReadScreen);
  }

  lemma {:induction false} GreetAlone(init: World, steps: seq<Step>, id: AttachId) returns (longer: seq<Step>)
    requires IsRun(init, steps)
    requires var w := RunFrom(init, steps);
             w.closed == {} && w.shell.attacher.ScreenRead? && w.shell.attacher.id == id && id in w.shell.clients
    ensures IsRun(init, longer)
    ensures var s := RunFrom(init, steps).shell;
            var snapshot := Snapshot(s.attacher.seqNo, s.status, s.attacher.screen);
            RunFrom(init, longer) == World(
              s.(clients := s.clients[id := s.clients[id].(
                   log := Sent(Sent(s.clients[id].log, snapshot), CwdChanged(s.cwd)))],
                 attacher := CwdSent(id, s.attacher.seqNo)), {})
  {
    hide IsRun, RunFrom;
    longer := Do(init, steps, ReadStatus);
    longer := Do(init, longer, SendSnapshot);
    longer := Do(init, longer, SendCwd);
  }

  lemma {:induction false} SettleAlone(init: World, steps: seq<Step>, id: AttachId) returns (longer: seq<Step>)
    requires IsRun(init, steps)
    requires var w := RunFrom(init, steps);
             w.shell.attacher.CwdSent? && w.shell.attacher.id == id && id in w.shell.clients && w.shell.events == []
    ensures IsRun(init, longer)
    ensures var w := RunFrom(init, steps);
            RunFrom(init, longer) == World(w.shell.(attach := Some(id), attacher := Free), w.closed)
  {
    hide IsRun, RunFrom;
    longer := Do(init, steps, Install);
    longer := Do(init, longer, Replay);
    longer := Do(init, longer, Unlock);
  }

  /**
   * A client whose lookup came before the cleanup and whose `attach` came after it holds
   * the attach of a closed shell and is never told: its Snapshot said Exited.
   */
  lemma {:induction false} LateAttachIsNotEnded() returns (steps: seq<Step>)
    ensures Run(World(NewShell, {}), steps)
    ensures var w := Final(World(NewShell, {}), steps);
            && w.shell.cleanup == Closed && w.shell.attach == Some(7) && Listening(w, 7)
            && !Ended(w.shell.clients[7].log) && !SaidRunning(w.shell.clients[7].log)
  {
    hide IsRun, RunFrom;
    var init := World(NewShell, {});
    EmptyRun(init);
    steps := Do(init, [], CallCleanup(0, Waiter));
    steps := Do(init, steps, RemoveFromMap(0));
    steps := Do(init, steps, MarkExited(0));
    steps := Do(init, steps, TakeAttach(0));
    steps := Do(init, steps, SendExited(0));
    steps := Do(init, steps, CloseMaster(0));
    steps := EnterAlone(init, steps, 7);
    steps := GreetAlone(init, steps, 7);
    steps := SettleAlone(init, steps, 7);
  }

  /**
   * The child waiter and a `kill` find the same shell; the `kill` is late, gets nothing
   * from the map and returns while the shell is still Running and its master open.
   */
  lemma {:induction false} SecondCleanupReturnsEarly() returns (steps: seq<Step>)
    ensures Run(World(NewShell, {}), steps)
    ensures var s := Final(World(NewShell, {}), steps).shell;
            && IsAt(s, 0, Owner(Removed)) && IsAt(s, 1, Returned(false))
            && s.status == Running && s.masterOpen && !CleanedUp(s)
  {
    hide IsRun, RunFrom;
    var init := World(NewShell, {});
    EmptyRun(init);
    steps := Do(init, [], CallCleanup(0, Waiter));
    steps := Do(init, steps, CallCleanup(1, Kill));
    steps := Do(init, steps, RemoveFromMap(0));
    steps := Do(init, steps, RemoveFromMap(1));
  }

  lemma {:induction false} EmptyRun(init: World)
    ensures IsRun(init, []) && RunFrom(init, []) == init
  {
  }

  /** The reader up to the attach lock, without interruption. */
  lemma {:induction false} RecordAlone(init: World, steps: seq<Step>, bytes: Chunk) returns (longer: seq<Step>)
    requires IsRun(init, steps) && RunFrom(init, steps).shell.reader.Waiting?
    ensures IsRun(init, longer)
    ensures var w := RunFrom(init, steps); var s := w.shell;
            RunFrom(init, longer) == World(
              s.(seqNo := s.seqNo + 1, output := s.output + [bytes], terminal := s.terminal + [bytes],
                 scroll := LastN(s.scroll + bytes, s.scrollCap),
                 events := Appended(s.ringCap, s.events, s.seqNo + 1, bytes), reader := Logged(bytes)), w.closed)
  {
    hide IsRun, RunFrom;
    longer := Do(init, steps, TakeChunk(bytes));
    longer := Do(init, longer, ProcessChunk);
    longer := Do(init, longer, ScrollChunk);
    longer := Do(init, longer, LogChunk);
  }

  /**
   * One chunk can reach a client three times, whatever it is: on the screen, replayed as far as the
   * ring kept it, and sent.
   */
  lemma {:induction false} OneChunkThreeTimes(bytes: Chunk, cap: nat) returns (steps: seq<Step>)
    requires cap > 0
    ensures Run(World(NewShell.(ringCap := cap), {}), steps)
    ensures var s := Final(World(NewShell.(ringCap := cap), {}), steps).shell;
            && s.attach == Some(7) && 7 in s.clients
            && Screen(s.clients[7].log) == [bytes]
            && Outputs(s.clients[7].log) == [Piece(1, LastN(bytes, cap)), Piece(1, bytes)]
  {
    hide IsRun, RunFrom, After, Outputs, Screen, LastN;
    var init := World(NewShell.(ringCap := cap), {});
    steps := ChunkOnScreen(bytes, cap);
    OneEvent(bytes, cap);
    steps := ReplayOne(init, steps, LastN(bytes, cap));
    steps := Do(init, steps, DeliverChunk);
    ThreeCopies(RunFrom(init, steps).shell.clients[7].log, LastN(bytes, cap), bytes);
  }

  lemma {:induction false} ChunkOnScreen(bytes: Chunk, cap: nat) returns (steps: seq<Step>)
    requires cap > 0
    ensures Run(World(NewShell.(ringCap := cap), {}), steps)
    ensures var w := Final(World(NewShell.(ringCap := cap), {}), steps);
            var s := w.shell;
            && w.closed == {} && s.attacher == Installed(7, 0) && s.attach == Some(7)
            && s.seqNo == 1 && s.reader == Logged(bytes)
            && s.events == [Event(1, LastN(bytes, cap))]
            && s.clients == map[7 := Client(0, 1, Sent(Sent(Nothing, Snapshot(0, Running, [bytes])), CwdChanged(0)))]
  {
    hide IsRun, RunFrom, Appended, LastN;
    var init := World(NewShell.(ringCap := cap), {});
    EmptyRun(init);
    steps := Do(init, [], LockAttach(0, false));
    steps := Do(init, steps, LoadSeq(7));
    steps := RecordAlone(init, steps, bytes);
    assert [] + [bytes] == [bytes];
    steps := Do(init, steps, ReadScreen);
    steps := GreetAlone(init, steps, 7);
    steps := Do(init, steps, Install);
    OneEvent(bytes, cap);
  }

  lemma {:induction false} ThreeCopies(log: Log, part: Chunk, bytes: Chunk)
    requires var greeting := Sent(Sent(Nothing, Snapshot(0, Running, [bytes])), CwdChanged(0));
             log == Sent(Sent(greeting, Replayed(1, part)), Output(1, bytes))
    ensures Screen(log) == [bytes] && Outputs(log) == [Piece(1, part), Piece(1, bytes)]
  {
    var snapshot := Sent(Nothing, Snapshot(0, Running, [bytes]));
    var greeting := Sent(snapshot, CwdChanged(0));
    assert Outputs(snapshot) == [];
    assert Outputs(greeting) == [];
    assert First(snapshot) == Some(Snapshot(0, Running, [bytes]));
    assert First(greeting) == First(Sent(greeting, Replayed(1, part))) == First(snapshot);
  }

  lemma {:induction false} ReplayOne(init: World, steps: seq<Step>, bytes: Chunk) returns (longer: seq<Step>)
    requires IsRun(init, steps)
    requires var w := RunFrom(init, steps);
             w.closed == {} && w.shell.attacher.Installed? && w.shell.attacher.id in w.shell.clients
             && After(w.shell.events, w.shell.attacher.seqNo) == [Event(1, bytes)]
    ensures IsRun(init, longer)
    ensures var s := RunFrom(init, steps).shell;
            var c := s.clients[s.attacher.id];
            RunFrom(init, longer) == World(
              s.(clients := s.clients[s.attacher.id := c.(log := Sent(c.log, Replayed(1, bytes)))],
                 attacher := Free), {})
  {
    hide IsRun, RunFrom, After;
    var s := RunFrom(init, steps).shell;
    SendAllShort(s, {}, [Event(1, bytes)]);
    longer := Do(init, steps, Replay);
    longer := Do(init, longer, Unlock);
  }

  lemma {:induction false} OneEvent(bytes: Chunk, cap: nat)
    requires cap > 0
    ensures Appended(cap, [], 1, bytes) == [Event(1, LastN(bytes, cap))]
    ensures After([Event(1, LastN(bytes, cap))], 0) == [Event(1, LastN(bytes, cap))]
  {
    var one := [Event(1, LastN(bytes, cap))];
    assert [] + one == one && one[1..] == [];
    assert Total(one) == |LastN(bytes, cap)|;
  }
}
