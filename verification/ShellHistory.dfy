/** What the fields of a shell are, read off the steps of the run that led there. */
module ShellHistory {
  import opened Bytes
  import opened Ascii
  import opened Limits
  import opened ShellProtocol
  import opened ShellInvariant
  import opened ShellTheorems

  /** The cwd that the last poll read, or `cwd` if none has been read. */
  function LastPolled(steps: seq<Step>, cwd: nat): nat
    decreases |steps|
  {
    if steps == [] then cwd
    else
      var read := if steps[0].Act? && steps[0].action.PollCwd? then steps[0].action.cwd else cwd;
      LastPolled(steps[1..], read)
  }

  /** The chunks that the reader took, in order. */
  function Taken(steps: seq<Step>): seq<Chunk>
    decreases |steps|
  {
    if steps == [] then []
    else
      var chunk := if steps[0].Act? && steps[0].action.TakeChunk? then [steps[0].action.bytes] else [];
      chunk + Taken(steps[1..])
  }

  ghost predicate SomeMark(steps: seq<Step>) {
    exists i :: 0 <= i < |steps| && steps[i].Act? && steps[i].action.MarkExited?
  }

  ghost predicate SomeClose(steps: seq<Step>) {
    exists i :: 0 <= i < |steps| && steps[i].Act? && steps[i].action.CloseMaster?
  }

  // ------------------------------------------------------------------- step by step

  /** What one action does to the fields that threads only write in one place. */
  predicate Moves(s: Shell, a: Action, t: Shell) {
    && t.cwd == (if a.PollCwd? then a.cwd else s.cwd)
    && t.output == s.output + (if a.TakeChunk? then [a.bytes] else [])
    && t.status == (if a.MarkExited? then Exited else s.status)
    && t.masterOpen == (s.masterOpen && !a.CloseMaster?)
    && (t.poller.Stopped? <==> s.poller.Stopped? || (a.CheckStatus? && s.status == Exited))
  }

  lemma {:induction false} ReadingMoves(s: Shell, closed: set<Conn>, a: Action)
    requires Enabled(s, a) && IsReading(a)
    ensures Moves(s, a, Apply(s, closed, a))
  {
    hide Appended, LastN, Attaching, Cleaning, Polling;
  }

  lemma {:induction false} AttachingMoves(s: Shell, closed: set<Conn>, a: Action)
    requires Enabled(s, a) && IsAttachPart(a)
    ensures Moves(s, a, Apply(s, closed, a))
  {
    hide After, SendAll, Reading, Cleaning, Polling;
    if a.Replay? {
      SendAllLeaves(s, closed, s.attacher.id, After(s.events, s.attacher.seqNo));
    }
  }

  lemma {:induction false} ActionMoves(s: Shell, closed: set<Conn>, a: Action)
    requires Enabled(s, a)
    ensures Moves(s, a, Apply(s, closed, a))
  {
    hide Reading, Attaching;
    if IsReading(a) {
      ReadingMoves(s, closed, a);
    } else if IsAttachPart(a) {
      AttachingMoves(s, closed, a);
    }
  }

  // -------------------------------------------------------------------- whole runs

  lemma {:induction false} RunMoves(w: World, steps: seq<Step>)
    requires IsRun(w, steps)
    ensures var t := RunFrom(w, steps).shell;
            && t.cwd == LastPolled(steps, w.shell.cwd)
            && t.output == w.shell.output + Taken(steps)
            && (t.status == Exited <==> w.shell.status == Exited || SomeMark(steps))
            && (t.masterOpen <==> w.shell.masterOpen && !SomeClose(steps))
    decreases |steps|
  {
    hide Apply, Enabled, SomeMark, SomeClose;
    SomeLater(steps);
    if steps != [] {
      if steps[0].Act? {
        ActionMoves(w.shell, w.closed, steps[0].action);
      }
      RunMoves(Next(w, steps[0]), steps[1..]);
    }
  }

  lemma {:induction false} SomeLater(steps: seq<Step>)
    ensures SomeMark(steps) <==>
            steps != [] && ((steps[0].Act? && steps[0].action.MarkExited?) || SomeMark(steps[1..]))
    ensures SomeClose(steps) <==>
            steps != [] && ((steps[0].Act? && steps[0].action.CloseMaster?) || SomeClose(steps[1..]))
  {
    if steps != [] {
      var rest := steps[1..];
      assert forall i | 0 <= i < |rest| :: steps[i + 1] == rest[i];
      assert forall i | 0 < i < |steps| :: steps[i] == rest[i - 1];
    }
  }

  /**
   * The stored cwd is the one the last poll read; the shell is Exited and its master closed exactly
   * if some cleanup call got that far (or the shell was adopted as Exited).
   */
  lemma {:induction false} FieldsFollowSteps(init: World, steps: seq<Step>)
    requires Run(init, steps)
    ensures var s := Final(init, steps).shell;
            && s.cwd == LastPolled(steps, init.shell.cwd)
            && s.output == Taken(steps)
            && (s.status == Exited <==> init.shell.status == Exited || SomeMark(steps))
            && (s.masterOpen <==> !SomeClose(steps))
  {
    RunMoves(init, steps);
  }

  /** Between polls the current client has been told the cwd that the last poll read. */
  lemma {:induction false} ClientKnowsPolledCwd(init: World, steps: seq<Step>, id: AttachId)
    requires Run(init, steps)
    requires var w := Final(init, steps);
             w.shell.attach == Some(id) && Listening(w, id) && !w.shell.poller.Changed?
    ensures LastCwd(Final(init, steps).shell.clients[id].log) == Some(LastPolled(steps, init.shell.cwd))
  {
    CwdConverges(init, steps, id);
    FieldsFollowSteps(init, steps);
  }

  /** The k-th step is a look at the status that finds the shell Exited. */
  predicate FindsExited(w: World, steps: seq<Step>, k: int) {
    0 <= k < |steps| && steps[k] == Act(CheckStatus) && RunFrom(w, steps[..k]).shell.status == Exited
  }

  lemma {:induction false} FindsLater(w: World, steps: seq<Step>, k: int)
    requires 0 <= k < |steps| - 1
    ensures FindsExited(Next(w, steps[0]), steps[1..], k) <==> FindsExited(w, steps, k + 1)
  {
    hide Next;
    assert steps[..k + 1][1..] == steps[1..][..k] && steps[..k + 1][0] == steps[0];
  }

  /** The poller has stopped exactly if it once found the shell Exited. */
  lemma {:induction false} PollerStopsExactly(w: World, steps: seq<Step>)
    requires IsRun(w, steps) && !w.shell.poller.Stopped?
    ensures RunFrom(w, steps).shell.poller.Stopped? <==> exists k :: FindsExited(w, steps, k)
    decreases |steps|
  {
    hide Apply, Enabled;
    if steps != [] {
      var next, rest := Next(w, steps[0]), steps[1..];
      if steps[0].Act? {
        ActionMoves(w.shell, w.closed, steps[0].action);
      }
      assert steps[..0] == [];
      if next.shell.poller.Stopped? {
        StaysStopped(next, rest);
        assert FindsExited(w, steps, 0);
      } else {
        PollerStopsExactly(next, rest);
        forall k | FindsExited(next, rest, k)
          ensures FindsExited(w, steps, k + 1)
        {
          FindsLater(w, steps, k);
        }
        forall k | FindsExited(w, steps, k)
          ensures FindsExited(next, rest, k - 1)
        {
          FindsLater(w, steps, k - 1);
        }
      }
    }
  }

  lemma {:induction false} StaysStopped(w: World, steps: seq<Step>)
    requires IsRun(w, steps) && w.shell.poller.Stopped?
    ensures RunFrom(w, steps).shell.poller.Stopped?
    decreases |steps|
  {
    hide Apply, Enabled;
    if steps != [] {
      if steps[0].Act? {
        ActionMoves(w.shell, w.closed, steps[0].action);
      }
      StaysStopped(Next(w, steps[0]), steps[1..]);
    }
  }

  // ---------------------------------------------------------------------- the caches

  /** The concatenation of the chunks. */
  function Joined(chunks: seq<Chunk>): seq<byte> {
    if chunks == [] then [] else Joined(chunks[..|chunks| - 1]) + chunks[|chunks| - 1]
  }

  /** A ring to which the chunks, numbered from 1 on, have been appended. */
  function Ringed(cap: nat, ring: seq<Event>, chunks: seq<Chunk>): seq<Event> {
    if chunks == [] then ring
    else Appended(cap, Ringed(cap, ring, chunks[..|chunks| - 1]), |chunks|, chunks[|chunks| - 1])
  }

  /** Chunks that are in the scrollback. */
  function ScrolledCount(s: Shell): int {
    if s.reader.Numbered? || s.reader.Processed? then s.seqNo - 1 else s.seqNo
  }

  predicate ScrollHolds(s: Shell, start: seq<byte>) {
    && 0 <= ScrolledCount(s) <= |s.output|
    && s.scroll == if ScrolledCount(s) == 0 then start
                   else LastN(start + Joined(s.output[..ScrolledCount(s)]), s.scrollCap)
  }

  predicate RingIs(s: Shell, start: seq<Event>) {
    && 0 <= LoggedCount(s) <= |s.output|
    && s.events == Ringed(s.ringCap, start, s.output[..LoggedCount(s)])
  }

  lemma {:induction false} OneMoreChunk(output: seq<Chunk>, n: nat, cap: nat, start: seq<byte>)
    requires n < |output|
    ensures LastN((if n == 0 then start else LastN(start + Joined(output[..n]), cap)) + output[n], cap) ==
            LastN(start + Joined(output[..n + 1]), cap)
  {
    hide LastN;
    var m := output[..n + 1];
    assert m[..n] == output[..n] && m[n] == output[n];
    var past := Joined(output[..n]);
    LastNOfLastN(start + past, output[n], cap);
    assert start + past + output[n] == start + (past + output[n]);
    if n == 0 {
      assert start + [] == start && past == [];
    }
  }

  lemma {:induction false} ReadingKeepsScroll(s: Shell, closed: set<Conn>, a: Action, start: seq<byte>)
    requires ReaderInv(s) && ScrollHolds(s, start) && Enabled(s, a) && IsReading(a)
    ensures ScrollHolds(Apply(s, closed, a), start)
  {
    hide LastN, Appended, Attaching, Cleaning, Polling, Joined;
    if a.TakeChunk? {
      assert (s.output + [a.bytes])[..s.seqNo] == s.output[..s.seqNo];
    } else if a.ScrollChunk? {
      OneMoreChunk(s.output, s.seqNo - 1, s.scrollCap, start);
    }
  }

  lemma {:induction false} ReadingKeepsRing(s: Shell, closed: set<Conn>, a: Action, start: seq<Event>)
    requires ReaderInv(s) && RingIs(s, start) && Enabled(s, a) && IsReading(a)
    ensures RingIs(Apply(s, closed, a), start)
  {
    hide LastN, Appended, Attaching, Cleaning, Polling;
    if a.TakeChunk? {
      assert (s.output + [a.bytes])[..s.seqNo] == s.output[..s.seqNo];
    } else if a.LogChunk? {
      var m := s.output[..s.seqNo];
      assert m[..s.seqNo - 1] == s.output[..s.seqNo - 1] && m[s.seqNo - 1] == s.output[s.seqNo - 1];
    }
  }

  /** What actions outside the reader leave alone. */
  predicate SameCaches(s: Shell, t: Shell) {
    && t.scroll == s.scroll && t.events == s.events && t.output == s.output && t.seqNo == s.seqNo
    && t.reader == s.reader && t.scrollCap == s.scrollCap && t.ringCap == s.ringCap
  }

  lemma {:induction false} AttachingLeavesCaches(s: Shell, closed: set<Conn>, a: Action)
    requires Enabled(s, a) && IsAttachPart(a)
    ensures SameCaches(s, Apply(s, closed, a))
  {
    hide After, SendAll, Reading, Cleaning, Polling;
    if a.Replay? {
      SendAllLeaves(s, closed, s.attacher.id, After(s.events, s.attacher.seqNo));
    }
  }

  lemma {:induction false} OthersLeaveCaches(s: Shell, closed: set<Conn>, a: Action)
    requires Enabled(s, a) && !IsReading(a)
    ensures SameCaches(s, Apply(s, closed, a))
  {
    hide Reading, Attaching;
    if IsAttachPart(a) {
      AttachingLeavesCaches(s, closed, a);
    }
  }

  lemma {:induction false} RunKeepsCaches(w: World, steps: seq<Step>, scroll: seq<byte>, events: seq<Event>)
    requires Inv(w.shell, w.closed) && ScrollHolds(w.shell, scroll) && RingIs(w.shell, events) && IsRun(w, steps)
    ensures ScrollHolds(RunFrom(w, steps).shell, scroll) && RingIs(RunFrom(w, steps).shell, events)
    decreases |steps|
  {
    hide Apply, Enabled, ScrollHolds, RingIs, Inv;
    if steps != [] {
      match steps[0] {
        case Act(a) =>
          StepKeepsCaches(w.shell, w.closed, a, scroll, events);
          ActionKeepsInv(w.shell, w.closed, a);
        case CloseChannel(conn) =>
          CloseKeepsInv(w.shell, w.closed, conn);
      }
      RunKeepsCaches(Next(w, steps[0]), steps[1..], scroll, events);
    }
  }

  lemma {:induction false} StepKeepsCaches(s: Shell, closed: set<Conn>, a: Action,
                                           scroll: seq<byte>, events: seq<Event>)
    requires Inv(s, closed) && ScrollHolds(s, scroll) && RingIs(s, events) && Enabled(s, a)
    ensures ScrollHolds(Apply(s, closed, a), scroll) && RingIs(Apply(s, closed, a), events)
  {
    hide Apply, Enabled, AttacherInv, ClientInv, CallersInv, CleanupInv, RingInv, ReaderFits;
    if IsReading(a) {
      ReadingKeepsScroll(s, closed, a, scroll);
      ReadingKeepsRing(s, closed, a, events);
    } else {
      OthersLeaveCaches(s, closed, a);
    }
  }

  /**
   * The scrollback is the last bytes of what it started with and all chunks that have reached it;
   * the ring is what it started with after all chunks that have reached it, each under its number.
   */
  lemma {:induction false} CachesFollowOutput(init: World, steps: seq<Step>)
    requires Run(init, steps)
    ensures var s := Final(init, steps).shell;
            && s.output == Taken(steps)
            && 0 <= ScrolledCount(s) <= |s.output| && 0 <= LoggedCount(s) <= |s.output|
            && s.scroll == (if ScrolledCount(s) == 0 then init.shell.scroll
                            else LastN(init.shell.scroll + Joined(Taken(steps)[..ScrolledCount(s)]), s.scrollCap))
            && s.events == Ringed(s.ringCap, init.shell.events, Taken(steps)[..LoggedCount(s)])
  {
    FieldsFollowSteps(init, steps);
    InitialInv(init.shell, init.closed);
    RunKeepsCaches(init, steps, init.shell.scroll, init.shell.events);
  }

  // ------------------------------------------------------------------ what was on screen

  ghost predicate ScreensShown(clients: map<AttachId, Client>, terminal: seq<Chunk>) {
    forall id | id in clients :: Screen(clients[id].log) <= terminal
  }

  /** Every screen sent, or about to be sent, was the terminal's at some moment before. */
  ghost predicate ScreensHold(s: Shell) {
    && ScreensShown(s.clients, s.terminal)
    && (s.attacher.ScreenRead? || s.attacher.StatusRead? ==> s.attacher.screen <= s.terminal)
  }

  lemma {:induction false} SendKeepsScreens(s: Shell, closed: set<Conn>, id: AttachId, msg: Msg)
    requires ScreensShown(s.clients, s.terminal) && (msg.Snapshot? ==> msg.screen <= s.terminal)
    ensures var t := Send(s, closed, id, msg); ScreensShown(t.clients, s.terminal) && t == s.(clients := t.clients)
  {
  }

  lemma {:induction false} SendAllKeepsScreens(s: Shell, closed: set<Conn>, id: AttachId, events: seq<Event>)
    requires ScreensShown(s.clients, s.terminal)
    ensures var t := SendAll(s, closed, id, events);
            ScreensShown(t.clients, s.terminal) && t == s.(clients := t.clients)
    decreases |events|
  {
    hide ScreensShown, Send;
    if events != [] {
      var msg := Replayed(events[0].seqNo, events[0].bytes);
      SendKeepsScreens(s, closed, id, msg);
      SendAllKeepsScreens(Send(s, closed, id, msg), closed, id, events[1..]);
    }
  }

  lemma {:induction false} NewScreen(clients: map<AttachId, Client>, id: AttachId, client: Client, terminal: seq<Chunk>)
    requires ScreensShown(clients, terminal) && client.log == Nothing
    ensures ScreensShown(clients[id := client], terminal)
  {
  }

  lemma {:induction false} AttachingKeepsScreens(s: Shell, closed: set<Conn>, a: Action)
    requires ScreensHold(s) && Enabled(s, a) && IsAttachPart(a)
    ensures ScreensHold(Apply(s, closed, a))
  {
    hide Send, SendAll, After, Reading, Cleaning, Polling, ScreensShown;
    if a.LockAttach? && s.attach.Some? {
      SendKeepsScreens(s, closed, s.attach.value, DetachedByAnother);
    } else if a.LoadSeq? {
      NewScreen(s.clients, a.id, Client(s.attacher.conn, Delivered(s) + 1, Nothing), s.terminal);
    } else if a.SendSnapshot? {
      SendKeepsScreens(s, closed, s.attacher.id, Snapshot(s.attacher.seqNo, s.attacher.status, s.attacher.screen));
    } else if a.SendCwd? {
      SendKeepsScreens(s, closed, s.attacher.id, CwdChanged(s.cwd));
    } else if a.Replay? {
      SendAllKeepsScreens(s, closed, s.attacher.id, After(s.events, s.attacher.seqNo));
    }
  }

  lemma {:induction false} OthersKeepScreens(s: Shell, closed: set<Conn>, a: Action)
    requires ScreensHold(s) && Enabled(s, a) && !IsAttachPart(a)
    ensures ScreensHold(Apply(s, closed, a))
  {
    hide Attaching, Send, ScreensShown, Appended, LastN, MayCall;
    if a.ProcessChunk? {
      MoreTerminal(s.clients, s.terminal, [s.reader.bytes]);
    } else if a.DeliverChunk? && s.attach.Some? {
      SendKeepsScreens(s, closed, s.attach.value, Output(s.seqNo, s.reader.bytes));
    } else if a.NotifyCwd? && s.attach.Some? {
      SendKeepsScreens(s, closed, s.attach.value, CwdChanged(s.poller.cwd));
    } else if a.SendExited? && s.callers[a.caller].stage.client.Some? {
      SendKeepsScreens(Own(s, a.caller, Told), closed, s.callers[a.caller].stage.client.value, ShellExited);
    }
  }

  lemma {:induction false} MoreTerminal(clients: map<AttachId, Client>, terminal: seq<Chunk>, more: seq<Chunk>)
    requires ScreensShown(clients, terminal)
    ensures ScreensShown(clients, terminal + more)
  {
    hide Screen;
  }

  lemma {:induction false} RunKeepsScreens(w: World, steps: seq<Step>)
    requires ScreensHold(w.shell) && IsRun(w, steps)
    ensures ScreensHold(RunFrom(w, steps).shell)
    decreases |steps|
  {
    hide Apply, Enabled, ScreensHold;
    if steps != [] {
      if steps[0].Act? && IsAttachPart(steps[0].action) {
        AttachingKeepsScreens(w.shell, w.closed, steps[0].action);
      } else if steps[0].Act? {
        OthersKeepScreens(w.shell, w.closed, steps[0].action);
      }
      RunKeepsScreens(Next(w, steps[0]), steps[1..]);
    }
  }

  /** A snapshot never shows more than the terminal has processed, and that is a part of what was taken. */
  lemma {:induction false} ScreenWasShown(init: World, steps: seq<Step>, id: AttachId)
    requires Run(init, steps) && id in Final(init, steps).shell.clients
    ensures var s := Final(init, steps).shell; Screen(s.clients[id].log) <= s.terminal <= Taken(steps)
  {
    RunInv(init, steps);
    RunKeepsScreens(init, steps);
    FieldsFollowSteps(init, steps);
    assert ScreensShown(Final(init, steps).shell.clients, Final(init, steps).shell.terminal);
    hide Inv, Screen, ClientInv, CallersInv, AttacherInv;
  }

  /** A delivery reaches the current client, or finds it gone and then drops it. */
  lemma {:induction false} DeliveryDropsTheGone(init: World, steps: seq<Step>)
    requires Run(init, steps) && Enabled(Final(init, steps).shell, DeliverChunk)
    ensures var s := Final(init, steps).shell;
            var closed := Final(init, steps).closed;
            var t := Apply(s, closed, DeliverChunk);
            && (s.attach.Some? ==> s.attach.value in s.clients)
            && t.attach == (if s.attach.Some? && s.clients[s.attach.value].conn in closed then None else s.attach)
            && (t.attach.Some? ==>
                  && t.attach.value in t.clients && t.clients[t.attach.value].conn !in closed
                  && t.clients[t.attach.value].log ==
                     Sent(s.clients[t.attach.value].log, Output(|Taken(steps)|, s.reader.bytes)))
  {
    RunInv(init, steps);
    FieldsFollowSteps(init, steps);
    hide Run, IsRun, RunFrom, ClientInv, CallersInv, AttacherInv, RingInv;
  }

  // ----------------------------------------------------------------- without stealing

  predicate NeverSteals(steps: seq<Step>) {
    forall i | 0 <= i < |steps| :: steps[i].Act? && steps[i].action.LockAttach? ==> !steps[i].action.steal
  }

  predicate Displaced(log: Log) {
    log.Sent? && (log.msg.DetachedByAnother? || Displaced(log.before))
  }

  ghost predicate NoneDisplaced(clients: map<AttachId, Client>) {
    forall id | id in clients :: !Displaced(clients[id].log)
  }

  /** Why a client can leave the attach field other than by being displaced. */
  predicate MayLeave(s: Shell, closed: set<Conn>, a: Action, id: AttachId) {
    || a == DetachClient(id) || a.TakeAttach?
    || (a.DeliverChunk? && id in s.clients && s.clients[id].conn in closed)
  }

  lemma {:induction false} SendDisplacesNone(s: Shell, closed: set<Conn>, id: AttachId, msg: Msg)
    requires NoneDisplaced(s.clients) && !msg.DetachedByAnother?
    ensures var t := Send(s, closed, id, msg); NoneDisplaced(t.clients) && t == s.(clients := t.clients)
  {
  }

  lemma {:induction false} SendAllDisplacesNone(s: Shell, closed: set<Conn>, id: AttachId, events: seq<Event>)
    requires NoneDisplaced(s.clients)
    ensures var t := SendAll(s, closed, id, events); NoneDisplaced(t.clients) && t == s.(clients := t.clients)
    decreases |events|
  {
    hide NoneDisplaced, Send;
    if events != [] {
      var msg := Replayed(events[0].seqNo, events[0].bytes);
      SendDisplacesNone(s, closed, id, msg);
      SendAllDisplacesNone(Send(s, closed, id, msg), closed, id, events[1..]);
    }
  }

  /** Nobody was displaced, and an attach call that holds the lock found the field empty. */
  ghost predicate Peaceful(s: Shell) {
    NoneDisplaced(s.clients) && (Handover(s) ==> s.attach.None?)
  }

  predicate Steals(a: Action) {
    a.LockAttach? && a.steal
  }

  lemma {:induction false} AttachingKeepsPeace(s: Shell, closed: set<Conn>, a: Action)
    requires Peaceful(s) && Enabled(s, a) && IsAttachPart(a) && !Steals(a)
    ensures Peaceful(Apply(s, closed, a))
    ensures s.attach.Some? ==> Apply(s, closed, a).attach == s.attach
  {
    hide Send, SendAll, After, Reading, Cleaning, Polling, NoneDisplaced;
    if a.LoadSeq? {
      NewClientIsNot(s.clients, a.id, Client(s.attacher.conn, Delivered(s) + 1, Nothing));
    } else if a.SendSnapshot? {
      SendDisplacesNone(s, closed, s.attacher.id, Snapshot(s.attacher.seqNo, s.attacher.status, s.attacher.screen));
    } else if a.SendCwd? {
      SendDisplacesNone(s, closed, s.attacher.id, CwdChanged(s.cwd));
    } else if a.Replay? {
      SendAllDisplacesNone(s, closed, s.attacher.id, After(s.events, s.attacher.seqNo));
    }
  }

  lemma {:induction false} NewClientIsNot(clients: map<AttachId, Client>, id: AttachId, client: Client)
    requires NoneDisplaced(clients) && client.log == Nothing
    ensures NoneDisplaced(clients[id := client])
  {
  }

  lemma {:induction false} OthersKeepPeace(s: Shell, closed: set<Conn>, a: Action)
    requires Peaceful(s) && Enabled(s, a) && !IsAttachPart(a)
    ensures Peaceful(Apply(s, closed, a))
    ensures s.attach.Some? ==> Apply(s, closed, a).attach == s.attach || MayLeave(s, closed, a, s.attach.value)
  {
    hide Attaching, Send, NoneDisplaced, Appended, LastN, MayCall;
    if a.DeliverChunk? && s.attach.Some? {
      SendDisplacesNone(s, closed, s.attach.value, Output(s.seqNo, s.reader.bytes));
    } else if a.NotifyCwd? && s.attach.Some? {
      SendDisplacesNone(s, closed, s.attach.value, CwdChanged(s.poller.cwd));
    } else if a.SendExited? && s.callers[a.caller].stage.client.Some? {
      SendDisplacesNone(Own(s, a.caller, Told), closed, s.callers[a.caller].stage.client.value, ShellExited);
    }
  }

  lemma {:induction false} ActionKeepsPeace(s: Shell, closed: set<Conn>, a: Action)
    requires Peaceful(s) && Enabled(s, a) && !Steals(a)
    ensures Peaceful(Apply(s, closed, a))
    ensures s.attach.Some? ==> Apply(s, closed, a).attach == s.attach || MayLeave(s, closed, a, s.attach.value)
  {
    hide Apply, Enabled, Peaceful, MayLeave;
    if IsAttachPart(a) {
      AttachingKeepsPeace(s, closed, a);
    } else {
      OthersKeepPeace(s, closed, a);
    }
  }

  lemma {:induction false} RunKeepsPeace(w: World, steps: seq<Step>)
    requires Peaceful(w.shell) && IsRun(w, steps) && NeverSteals(steps)
    ensures Peaceful(RunFrom(w, steps).shell)
    decreases |steps|
  {
    hide Apply, Enabled, Peaceful;
    if steps != [] {
      if steps[0].Act? {
        ActionKeepsPeace(w.shell, w.closed, steps[0].action);
      }
      assert forall i | 0 <= i < |steps| - 1 :: steps[1..][i] == steps[i + 1];
      RunKeepsPeace(Next(w, steps[0]), steps[1..]);
    }
  }

  /**
   * While no attach call asks to steal, no client is ever told that another took its place, and the
   * client in the attach field stays there until it detaches, is gone, or the shell exits.
   */
  lemma {:induction false} AttachWithoutSteal(init: World, steps: seq<Step>, a: Action)
    requires Run(init, steps) && NeverSteals(steps) && Enabled(Final(init, steps).shell, a) && !Steals(a)
    ensures var w := Final(init, steps);
            var t := Apply(w.shell, w.closed, a);
            && (forall id | id in t.clients :: !Displaced(t.clients[id].log))
            && (w.shell.attach.Some? ==>
                  t.attach == w.shell.attach || MayLeave(w.shell, w.closed, a, w.shell.attach.value))
  {
    RunKeepsPeace(init, steps);
    var w := Final(init, steps);
    ActionKeepsPeace(w.shell, w.closed, a);
    assert Peaceful(Apply(w.shell, w.closed, a));
    hide Apply, Enabled, MayLeave;
  }

  /** On a taken shell an attach call that does not ask to steal changes nothing at all. */
  lemma {:induction false} RefusedExactly(s: Shell, closed: set<Conn>, conn: Conn, steal: bool)
    requires Enabled(s, LockAttach(conn, steal))
    ensures Apply(s, closed, LockAttach(conn, steal)) == s <==> s.attach.Some? && !steal
  {
  }

  // ---------------------------------------------------------------------- idle sweeps

  predicate NoAttach(steps: seq<Step>) {
    forall i | 0 <= i < |steps| :: !(steps[i].Act? && steps[i].action.LockAttach?)
  }

  lemma {:induction false} EmptyStaysEmpty(w: World, steps: seq<Step>)
    requires w.shell.attach.None? && w.shell.attacher.Free? && IsRun(w, steps) && NoAttach(steps)
    ensures RunFrom(w, steps).shell.attach.None? && RunFrom(w, steps).shell.attacher.Free?
    decreases |steps|
  {
    hide Apply, Enabled;
    if steps != [] {
      if steps[0].Act? {
        EmptyStep(w.shell, w.closed, steps[0].action);
      }
      assert forall i | 0 <= i < |steps| - 1 :: steps[1..][i] == steps[i + 1];
      EmptyStaysEmpty(Next(w, steps[0]), steps[1..]);
    }
  }

  lemma {:induction false} EmptyStep(s: Shell, closed: set<Conn>, a: Action)
    requires s.attach.None? && s.attacher.Free? && Enabled(s, a) && !a.LockAttach?
    ensures Apply(s, closed, a).attach.None? && Apply(s, closed, a).attacher.Free?
  {
    hide Appended, LastN, MayCall, Attaching;
  }

  /** An idle sweep finds nobody to take out of the shell, unless an attach begins after it looked. */
  lemma {:induction false} IdleSweepTakesNobody(w: World, c: Caller, more: seq<Step>)
    requires Enabled(w.shell, CallCleanup(c, IdleSweep)) && NoAttach(more)
    requires IsRun(Next(w, Act(CallCleanup(c, IdleSweep))), more)
    ensures RunFrom(Next(w, Act(CallCleanup(c, IdleSweep))), more).shell.attach.None?
  {
    EmptyStep(w.shell, w.closed, CallCleanup(c, IdleSweep));
    hide Apply, Enabled;
    EmptyStaysEmpty(Next(w, Act(CallCleanup(c, IdleSweep))), more);
  }

  const Looked := World(NewShell.(callers := map[0 := Called]), {})

  /** A client installed in the meantime. */
  lemma {:induction false} AttachMeanwhile() returns (more: seq<Step>)
    ensures IsRun(Looked, more)
    ensures RunFrom(Looked, more) == World(Looked.shell.(
              attach := Some(7),
              clients := map[7 := Client(0, 1, Sent(Sent(Nothing, Snapshot(0, Running, [])), CwdChanged(0)))]), {})
  {
    more := [];
    assert IsRun(Looked, more) && RunFrom(Looked, more) == Looked;
    hide IsRun, RunFrom;
    more := EnterAlone(Looked, more, 7);
    more := GreetAlone(Looked, more, 7);
    more := SettleAlone(Looked, more, 7);
  }

  /** An attach between the look and the cleanup: the sweep for idle shells ends a client's shell. */
  lemma {:induction false} IdleSweepCanEndClient() returns (more: seq<Step>)
    ensures Enabled(NewShell, CallCleanup(0, IdleSweep))
    ensures IsRun(Next(World(NewShell, {}), Act(CallCleanup(0, IdleSweep))), more)
    ensures var w := RunFrom(Next(World(NewShell, {}), Act(CallCleanup(0, IdleSweep))), more);
            && 7 in w.shell.clients && Listening(w, 7)
            && w.shell.clients[7].log.Sent? && w.shell.clients[7].log.msg.ShellExited?
  {
    assert Next(World(NewShell, {}), Act(CallCleanup(0, IdleSweep))) == Looked;
    hide IsRun, RunFrom, Reading, Attaching, Polling, Detaching;
    more := AttachMeanwhile();
    more := Do(Looked, more, RemoveFromMap(0));
    more := Do(Looked, more, MarkExited(0));
    more := Do(Looked, more, TakeAttach(0));
    more := Do(Looked, more, SendExited(0));
  }

  // ------------------------------------------------------------------------- progress

  /** What the attach call in progress does next; a fresh id is drawn when one is needed. */
  function NextPart(s: Shell, id: AttachId): Action
    requires !s.attacher.Free?
  {
    match s.attacher
    case Locked(_) => LoadSeq(id)
    case SeqLoaded(_, _) => ReadScreen
    case ScreenRead(_, _, _) => ReadStatus
    case StatusRead(_, _, _, _) => SendSnapshot
    case SnapshotSent(_, _) => SendCwd
    case CwdSent(_, _) => Install
    case Installed(_, _) => Replay
    case ReplayDone(_) => Unlock
  }

  function PartsLeft(at: Attacher): nat {
    match at
    case Free => 0
    case Locked(_) => 8
    case SeqLoaded(_, _) => 7
    case ScreenRead(_, _, _) => 6
    case StatusRead(_, _, _, _) => 5
    case SnapshotSent(_, _) => 4
    case CwdSent(_, _) => 3
    case Installed(_, _) => 2
    case ReplayDone(_) => 1
  }

  lemma {:induction false} PartIsEnabled(s: Shell, closed: set<Conn>, id: AttachId)
    requires Inv(s, closed) && !s.attacher.Free? && (s.attacher.Locked? ==> id !in s.clients)
    ensures var a := NextPart(s, id);
            && Enabled(s, a) && IsAttachPart(a)
            && PartsLeft(Apply(s, closed, a).attacher) == PartsLeft(s.attacher) - 1
            && !Apply(s, closed, a).attacher.Locked?
  {
    hide After, SendAll, EnteringInv, CleanupInv, ReaderInv;
  }

  /** From every reachable state the attach call that holds the lock can go on until it gives the lock back. */
  lemma {:induction false} AttachCanFinish(w: World, id: AttachId) returns (more: seq<Step>)
    requires Inv(w.shell, w.closed) && (w.shell.attacher.Locked? ==> id !in w.shell.clients)
    ensures IsRun(w, more) && |more| == PartsLeft(w.shell.attacher)
    ensures forall i | 0 <= i < |more| :: more[i].Act? && IsAttachPart(more[i].action)
    ensures RunFrom(w, more).shell.attacher.Free?
    decreases PartsLeft(w.shell.attacher)
  {
    more := [];
    if !w.shell.attacher.Free? {
      var a := NextPart(w.shell, id);
      PartIsEnabled(w.shell, w.closed, id);
      ActionKeepsInv(w.shell, w.closed, a);
      hide Inv, Apply, Enabled;
      var rest := AttachCanFinish(Next(w, Act(a)), id);
      more := [Act(a)] + rest;
      assert more[0] == Act(a) && more[1..] == rest;
    }
  }

  /** With the attach lock free, every thread in the middle of its work can take its next step. */
  lemma {:induction false} EveryThreadCanMove(s: Shell, closed: set<Conn>, caller: Caller, chunk: Chunk, cwd: nat)
    requires Inv(s, closed) && s.attacher.Free?
    ensures Enabled(s, match s.reader
                       case Waiting => TakeChunk(chunk)
                       case Numbered(_) => ProcessChunk
                       case Processed(_) => ScrollChunk
                       case Scrolled(_) => LogChunk
                       case Logged(_) => DeliverChunk)
    ensures !s.poller.Stopped? ==>
            Enabled(s, match s.poller
                       case Checked => PollCwd(cwd)
                       case Changed(_) => NotifyCwd
                       case _ => CheckStatus)
    ensures caller in s.callers && !s.callers[caller].Returned? ==>
            Enabled(s, match s.callers[caller]
                       case Owner(Removed) => MarkExited(caller)
                       case Owner(Marked) => TakeAttach(caller)
                       case Owner(Took(_)) => SendExited(caller)
                       case Owner(Told) => CloseMaster(caller)
                       case _ => RemoveFromMap(caller))
  {
    hide AttacherInv, RingInv, ClientInv, ReaderInv, CleanupInv;
    if caller in s.callers && s.callers[caller].Owner? {
      assert Owned(s.callers[caller]);
      assert OwnerFits(s, s.callers[caller]);
    }
  }
}
