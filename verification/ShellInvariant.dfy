/** What every step of the shell machine keeps. */
module ShellInvariant {
  import opened Bytes
  import opened Ascii
  import opened Limits
  import opened ShellProtocol

  // ------------------------------------------------------------------ the messages

  /**
   * A log starts with a Snapshot, ends at most once and then for good; its reader
   * outputs are start, start + 1, ...; at most one replay precedes them, of chunk `start`.
   */
  predicate WellSent(log: Log, start: nat, output: seq<Chunk>) {
    match log
    case Nothing => true
    case Sent(before, msg) =>
      && WellSent(before, start, output)
      && !Ended(before)
      && (before.Nothing? <==> msg.Snapshot?)
      && MsgFits(before, msg, start, output)
  }

  predicate MsgFits(before: Log, msg: Msg, start: nat, output: seq<Chunk>) {
    match msg
    case Snapshot(seqNo, _, screen) =>
      screen <= output && start - 1 <= |screen| <= start && start - 1 <= seqNo <= start
    case Output(seqNo, bytes) =>
      seqNo == start + SentCount(before) && 1 <= seqNo <= |output| && bytes == output[seqNo - 1]
    case Replayed(seqNo, bytes) =>
      && SentCount(before) == 0 && ReplayCount(before) == 0
      && SnapshotNumbered(before, start - 1)
      && seqNo == start && 1 <= seqNo <= |output| && IsSuffix(bytes, output[seqNo - 1])
    case _ => true
  }

  lemma {:induction false} WellSentGrows(log: Log, start: nat, output: seq<Chunk>, more: seq<Chunk>)
    requires WellSent(log, start, output)
    ensures WellSent(log, start, output + more)
  {
    if log.Sent? {
      WellSentGrows(log.before, start, output, more);
    }
  }

  /** What one more message changes of the readings of a log. */
  lemma {:induction false} LogGrows(log: Log, msg: Msg)
    requires log.Sent?
    ensures First(Sent(log, msg)) == First(log)
    ensures LastCwd(Sent(log, msg)) == if msg.CwdChanged? then Some(msg.cwd) else LastCwd(log)
    ensures SentCount(Sent(log, msg)) == SentCount(log) + if msg.Output? then 1 else 0
    ensures ReplayCount(Sent(log, msg)) == ReplayCount(log) + if msg.Replayed? then 1 else 0
  {
  }

  // ----------------------------------------------------------------- the invariant

  ghost predicate ReaderInv(s: Shell) {
    ReaderFits(s.reader, s.seqNo, s.output, s.terminal)
  }

  predicate ReaderFits(reader: Reader, seqNo: nat, output: seq<Chunk>, terminal: seq<Chunk>) {
    && |output| == seqNo
    && |terminal| == (if reader.Numbered? then seqNo - 1 else seqNo)
    && terminal <= output
    && (!reader.Waiting? ==> seqNo >= 1 && reader.bytes == output[seqNo - 1])
  }

  /** Chunks whose event has been appended. */
  function LoggedCount(s: Shell): int {
    if s.reader.Waiting? || s.reader.Logged? then s.seqNo else s.seqNo - 1
  }

  ghost predicate RingInv(s: Shell) {
    RingHolds(s.events, s.output, LoggedCount(s))
  }

  /** The ring holds ends of logged chunks, oldest first. */
  ghost predicate RingHolds(events: seq<Event>, output: seq<Chunk>, logged: int) {
    && Increasing(events)
    && forall i | 0 <= i < |events| :: EventFits(events[i], output, logged)
  }

  predicate EventFits(e: Event, output: seq<Chunk>, logged: int) {
    e.seqNo <= logged <= |output| && (e.seqNo >= 1 ==> IsSuffix(e.bytes, output[e.seqNo - 1]))
  }

  predicate Entering(s: Shell) {
    || s.attacher.SeqLoaded? || s.attacher.ScreenRead? || s.attacher.StatusRead?
    || s.attacher.SnapshotSent? || s.attacher.CwdSent?
  }

  /** The attach lock is held and the new client is not yet installed. */
  predicate Handover(s: Shell) {
    s.attacher.Locked? || Entering(s)
  }

  predicate ExitingStarted(s: Shell) {
    s.cleanup.Took? || s.cleanup.Told? || s.cleanup.Closed?
  }

  predicate CwdKnown(s: Shell, log: Log) {
    LastCwd(log) == Some(s.cwd) || s.poller == Changed(s.cwd)
  }

  ghost predicate AttacherInv(s: Shell, closed: set<Conn>) {
    && (Entering(s) || s.attacher.Installed? || s.attacher.ReplayDone? ==> s.attacher.id in s.clients)
    && (s.attacher.Installed? || s.attacher.ReplayDone? ==> s.attach == Some(s.attacher.id))
    && (Entering(s) ==> EnteringInv(s, closed, s.clients[s.attacher.id]))
    && (Entering(s) ==> s.attach != Some(s.attacher.id) && s.cleanup != Took(Some(s.attacher.id)))
    && (s.attacher.Installed? ==>
          var c := s.clients[s.attacher.id];
          SeqFits(s.attacher.seqNo, c.start, s) && SentCount(c.log) == 0 && ReplayCount(c.log) == 0
          && (c.log.Sent? ==> SnapshotNumbered(c.log, s.attacher.seqNo)))
  }

  predicate SeqFits(seqNo: nat, start: nat, s: Shell) {
    start == Delivered(s) + 1 && start - 1 <= seqNo <= start && seqNo <= s.seqNo
  }

  ghost predicate EnteringInv(s: Shell, closed: set<Conn>, c: Client)
    requires Entering(s)
  {
    && SeqFits(s.attacher.seqNo, c.start, s)
    && SentCount(c.log) == 0 && ReplayCount(c.log) == 0 && !Ended(c.log)
    && (c.log.Sent? ==> SnapshotNumbered(c.log, s.attacher.seqNo))
    && (s.attacher.SeqLoaded? || s.attacher.ScreenRead? || s.attacher.StatusRead? ==> c.log == Nothing)
    && (s.attacher.ScreenRead? || s.attacher.StatusRead? ==>
          s.attacher.screen <= s.output && c.start - 1 <= |s.attacher.screen| <= c.start)
    && (s.attacher.StatusRead? && ExitingStarted(s) ==> s.attacher.status == Exited)
    && (s.attacher.SnapshotSent? || s.attacher.CwdSent? ==>
          && (c.conn !in closed ==> c.log.Sent?)
          && (ExitingStarted(s) ==> !SaidRunning(c.log)))
    && (s.attacher.CwdSent? && c.conn !in closed ==> CwdKnown(s, c.log))
  }

  /** What holds of the client in the `attach` field. */
  ghost predicate CurrentInv(s: Shell, closed: set<Conn>, c: Client) {
    && (c.conn !in closed ==>
          c.log.Sent? && c.start + SentCount(c.log) == Delivered(s) + 1 && CwdKnown(s, c.log))
    && (Handover(s) && c.conn !in closed ==> Ended(c.log))
    && (!Handover(s) ==> !Ended(c.log))
    && (ExitingStarted(s) ==> !SaidRunning(c.log))
  }

  ghost predicate ClientInv(s: Shell, closed: set<Conn>, a: AttachId) {
    && a in s.clients
    && var c := s.clients[a];
    && c.start >= 1
    && WellSent(c.log, c.start, s.output)
    && (s.attach == Some(a) ==> CurrentInv(s, closed, c))
    && (s.cleanup == Took(Some(a)) ==> !Ended(c.log) && (c.conn !in closed ==> c.log.Sent?))
    && (|| s.attach == Some(a) || (Entering(s) && s.attacher.id == a) || Ended(c.log)
        || a in s.detached || c.conn in closed || s.cleanup == Took(Some(a)))
    && (c.log.Sent? && c.log.msg.ShellExited? ==> s.exitTold == Some(a))
  }

  ghost predicate CleanupInv(s: Shell) {
    && (s.cleanup.Marked? || ExitingStarted(s) ==> s.status == Exited)
    && s.marks == (if s.cleanup.Marked? || ExitingStarted(s) then 1 else 0)
    && s.closes == (if s.cleanup.Closed? then 1 else 0)
    && (s.masterOpen <==> !s.cleanup.Closed?)
    && (s.exitTold.Some? ==> (s.cleanup.Told? || s.cleanup.Closed?) && s.exitTold.value in s.clients)
    && (s.cleanup.Took? && s.cleanup.client.Some? ==>
          s.cleanup.client.value in s.clients && s.attach != s.cleanup.client)
    && (s.poller.Changed? ==> s.poller.cwd == s.cwd)
    && (s.attach.Some? ==> s.attach.value in s.clients)
  }

  /** The call found the shell in the map. */
  predicate Owned(at: CallerAt) {
    at.Owner? || at == Returned(true)
  }

  predicate HasOwner(s: Shell) {
    exists c | c in s.callers :: Owned(s.callers[c])
  }

  /** At most one call owns the cleanup, exactly when the shell has left the map, and it alone moves it on. */
  ghost predicate CallersInv(s: Shell) {
    && (forall c | c in s.callers && Owned(s.callers[c]) :: OwnerFits(s, s.callers[c]))
    && (forall c, d | c in s.callers && d in s.callers && Owned(s.callers[c]) && Owned(s.callers[d]) :: c == d)
    && (s.cleanup.Registered? || HasOwner(s))
  }

  predicate OwnerFits(s: Shell, at: CallerAt) {
    match at
    case Owner(stage) => s.cleanup == stage && (stage.Removed? || stage.Marked? || stage.Took? || stage.Told?)
    case _ => s.cleanup.Closed?
  }

  ghost predicate Core(s: Shell, closed: set<Conn>) {
    ReaderInv(s) && AttacherInv(s, closed) && CleanupInv(s)
  }

  ghost predicate Inv(s: Shell, closed: set<Conn>) {
    && Core(s, closed)
    && CallersInv(s)
    && RingInv(s)
    && forall a | a in s.clients :: ClientInv(s, closed, a)
  }

  lemma {:induction false} InitialInv(s: Shell, closed: set<Conn>)
    requires Initial(s)
    ensures Inv(s, closed)
  {
  }

  lemma {:induction false} CloseKeepsInv(s: Shell, closed: set<Conn>, conn: Conn)
    requires Inv(s, closed)
    ensures Inv(s, closed + {conn})
  {
  }

  // -------------------------------------------------------------- reader's actions

  lemma {:induction false} TakeChunkKeepsClient(s: Shell, closed: set<Conn>, bytes: Chunk, a: AttachId)
    requires Core(s, closed) && Enabled(s, TakeChunk(bytes)) && ClientInv(s, closed, a)
    ensures ClientInv(Apply(s, closed, TakeChunk(bytes)), closed, a)
  {
    WellSentGrows(s.clients[a].log, s.clients[a].start, s.output, [bytes]);
  }

  lemma {:induction false} TakeChunkKeepsShell(s: Shell, closed: set<Conn>, bytes: Chunk)
    requires Core(s, closed) && Enabled(s, TakeChunk(bytes))
    ensures Core(Apply(s, closed, TakeChunk(bytes)), closed)
  {
  }

  /** The reader's sections that touch neither the attach field nor a channel. */
  predicate IsStoring(a: Action) {
    a.ProcessChunk? || a.ScrollChunk? || a.LogChunk?
  }

  lemma {:induction false} StoringKeepsClient(s: Shell, closed: set<Conn>, act: Action, a: AttachId)
    requires IsStoring(act) && Core(s, closed) && Enabled(s, act) && ClientInv(s, closed, a)
    ensures ClientInv(Apply(s, closed, act), closed, a)
  {
    hide Appended, LastN, WellSent;
  }

  lemma {:induction false} StoringKeepsShell(s: Shell, closed: set<Conn>, act: Action)
    requires IsStoring(act) && Core(s, closed) && Enabled(s, act)
    ensures Core(Apply(s, closed, act), closed)
  {
    hide Appended, LastN, First, LastCwd, SentCount, ReplayCount, Ended;
  }

  lemma {:induction false} LogKeepsRing(cap: nat, events: seq<Event>, output: seq<Chunk>)
    requires output != [] && RingHolds(events, output, |output| - 1)
    ensures RingHolds(Appended(cap, events, |output|, output[|output| - 1]), output, |output|)
  {
    hide IsSuffix, Appended;
    var n, bytes := |output|, output[|output| - 1];
    var after := Appended(cap, events, n, bytes);
    var last := Truncate(Event(n, bytes), cap);
    LastNIsSuffix([], bytes, cap);
    assert [] + bytes == bytes;
    assert forall i | 0 <= i < |events| :: EventFits(events[i], output, n - 1);
    AppendKeepsIncreasing(cap, events, n, bytes);
    forall i | 0 <= i < |after|
      ensures EventFits(after[i], output, n)
    {
      if after[i] != last {
        var j :| 0 <= j < |events| && events[j] == after[i];
      }
    }
  }

  lemma {:induction false} GrowKeepsRing(events: seq<Event>, output: seq<Chunk>, logged: int, bytes: Chunk)
    requires RingHolds(events, output, logged)
    ensures RingHolds(events, output + [bytes], logged)
  {
    hide IsSuffix;
    forall i | 0 <= i < |events|
      ensures EventFits(events[i], output + [bytes], logged)
    {
      assert EventFits(events[i], output, logged);
    }
  }

  /** A client that nothing happens to, other than losing the attach field once it is deaf. */
  lemma {:induction false} BystanderKeeps(s: Shell, t: Shell, closed: set<Conn>, a: AttachId)
    requires ClientInv(s, closed, a)
    requires a in t.clients && t.clients[a] == s.clients[a] && t.attach != Some(a)
    requires s.attach == Some(a) ==> s.clients[a].conn in closed
    requires Arriving(s, a) ==> Arriving(t, a)
    requires t.output == s.output && t.detached == s.detached && t.cleanup == s.cleanup && t.exitTold == s.exitTold
    ensures ClientInv(t, closed, a)
  {
    hide WellSent, CurrentInv;
  }

  /** The attach call that drew `a` has not installed it yet. */
  predicate Arriving(s: Shell, a: AttachId) {
    Entering(s) && s.attacher.id == a
  }

  /** A client that nothing happens to while the attach call of another goes on. */
  lemma {:induction false} OnlookerKeeps(s: Shell, t: Shell, closed: set<Conn>, a: AttachId)
    requires ClientInv(s, closed, a)
    requires a in t.clients && t.clients[a] == s.clients[a]
    requires !Arriving(s, a) && Handover(t) == Handover(s)
    requires t == s.(attacher := t.attacher, clients := t.clients)
    ensures ClientInv(t, closed, a)
  {
    hide WellSent, First, SentCount, LastCwd, Ended, SaidRunning;
  }

  lemma {:induction false} DeliverKeepsOther(s: Shell, closed: set<Conn>, a: AttachId)
    requires Core(s, closed) && Enabled(s, DeliverChunk) && a in s.clients && ClientInv(s, closed, a)
    requires s.attach != Some(a) || s.clients[a].conn in closed
    ensures ClientInv(Deliver(s, closed), closed, a)
  {
    hide ReaderInv, AttacherInv, ClientInv;
    BystanderKeeps(s, Deliver(s, closed), closed, a);
  }

  lemma {:induction false} DeliverKeepsCurrent(s: Shell, closed: set<Conn>, a: AttachId)
    requires Core(s, closed) && Enabled(s, DeliverChunk) && ClientInv(s, closed, a)
    requires s.attach == Some(a) && s.clients[a].conn !in closed
    ensures ClientInv(Deliver(s, closed), closed, a)
  {
    hide AttacherInv, First, LastCwd, SentCount, ReplayCount, SnapshotNumbered;
    LogGrows(s.clients[a].log, Output(s.seqNo, s.reader.bytes));
  }

  lemma {:induction false} DeliverKeepsClient(s: Shell, closed: set<Conn>, a: AttachId)
    requires Core(s, closed) && Enabled(s, DeliverChunk) && a in s.clients && ClientInv(s, closed, a)
    ensures ClientInv(Apply(s, closed, DeliverChunk), closed, a)
  {
    hide Core, ClientInv, Deliver;
    if s.attach == Some(a) && s.clients[a].conn !in closed {
      DeliverKeepsCurrent(s, closed, a);
    } else {
      DeliverKeepsOther(s, closed, a);
    }
  }

  lemma {:induction false} DeliverKeepsShell(s: Shell, closed: set<Conn>)
    requires Core(s, closed) && Enabled(s, DeliverChunk)
    ensures Core(Apply(s, closed, DeliverChunk), closed)
  {
    hide Core, Deliver;
    DeliverKeepsCore(s, closed);
  }

  lemma {:induction false} DeliverKeepsCore(s: Shell, closed: set<Conn>)
    requires Core(s, closed) && s.reader.Logged? && s.attacher.Free?
    ensures Core(Deliver(s, closed), closed)
  {
    hide AttacherInv;
    IdleAttacher(Deliver(s, closed), closed);
  }

  lemma {:induction false} IdleAttacher(s: Shell, closed: set<Conn>)
    requires s.attacher.Free?
    ensures AttacherInv(s, closed)
  {
  }

  // ------------------------------------------------------------ an attach call

  lemma {:induction false} LockAttachKeepsCurrent(s: Shell, closed: set<Conn>, conn: Conn, steal: bool, a: AttachId)
    requires Core(s, closed) && Enabled(s, LockAttach(conn, steal))
    requires ClientInv(s, closed, a) && s.attach == Some(a)
    ensures ClientInv(Apply(s, closed, LockAttach(conn, steal)), closed, a)
  {
    hide ReaderInv, First, LastCwd, SentCount, ReplayCount, SnapshotNumbered, Reading, Cleaning, Polling;
    if s.clients[a].log.Sent? {
      LogGrows(s.clients[a].log, DetachedByAnother);
    }
  }

  lemma {:induction false} LockAttachKeepsClient(s: Shell, closed: set<Conn>, conn: Conn, steal: bool, a: AttachId)
    requires Core(s, closed) && Enabled(s, LockAttach(conn, steal)) && a in s.clients && ClientInv(s, closed, a)
    ensures ClientInv(Apply(s, closed, LockAttach(conn, steal)), closed, a)
  {
    hide Core, ClientInv;
    if s.attach == Some(a) {
      LockAttachKeepsCurrent(s, closed, conn, steal, a);
    } else {
      BystanderKeeps(s, Apply(s, closed, LockAttach(conn, steal)), closed, a);
    }
  }

  lemma {:induction false} LockAttachKeepsShell(s: Shell, closed: set<Conn>, conn: Conn, steal: bool)
    requires Core(s, closed) && Enabled(s, LockAttach(conn, steal))
    ensures Core(Apply(s, closed, LockAttach(conn, steal)), closed)
  {
    hide First, LastCwd, SentCount, ReplayCount, SnapshotNumbered, SaidRunning, Ended;
  }

  lemma {:induction false} LoadSeqKeepsClient(s: Shell, closed: set<Conn>, id: AttachId, a: AttachId)
    requires Core(s, closed) && (a in s.clients ==> ClientInv(s, closed, a))
    requires Enabled(s, LoadSeq(id)) && a in Apply(s, closed, LoadSeq(id)).clients
    ensures ClientInv(Apply(s, closed, LoadSeq(id)), closed, a)
  {
  }

  lemma {:induction false} LoadSeqKeepsShell(s: Shell, closed: set<Conn>, id: AttachId)
    requires Core(s, closed) && Enabled(s, LoadSeq(id))
    ensures Core(Apply(s, closed, LoadSeq(id)), closed)
  {
  }

  /** Sections outside the cleanup that neither send nor draw an id, the reader's apart. */
  predicate IsUnsent(act: Action) {
    || act.ReadScreen? || act.ReadStatus? || act.Install? || act.Unlock?
    || act.DetachClient? || act.CheckStatus?
  }

  lemma {:induction false} UnsentKeepsClient(s: Shell, closed: set<Conn>, act: Action, a: AttachId)
    requires IsUnsent(act) && Core(s, closed) && Enabled(s, act) && ClientInv(s, closed, a)
    ensures ClientInv(Apply(s, closed, act), closed, a)
  {
  }

  lemma {:induction false} UnsentKeepsShell(s: Shell, closed: set<Conn>, act: Action)
    requires IsUnsent(act) && Core(s, closed) && Enabled(s, act)
    ensures Core(Apply(s, closed, act), closed)
  {
  }

  lemma {:induction false} SendSnapshotKeepsNew(s: Shell, closed: set<Conn>, a: AttachId)
    requires Core(s, closed) && Enabled(s, SendSnapshot)
    requires ClientInv(s, closed, a) && s.attacher.id == a
    ensures ClientInv(Apply(s, closed, SendSnapshot), closed, a)
  {
    hide ReaderInv, CleanupInv, LastCwd, SaidRunning, Reading, Cleaning, Polling;
  }

  lemma {:induction false} SendSnapshotKeepsClient(s: Shell, closed: set<Conn>, a: AttachId)
    requires Core(s, closed) && Enabled(s, SendSnapshot) && a in s.clients && ClientInv(s, closed, a)
    ensures ClientInv(Apply(s, closed, SendSnapshot), closed, a)
  {
    hide Core, ClientInv;
    if s.attacher.id == a {
      SendSnapshotKeepsNew(s, closed, a);
    } else {
      OnlookerKeeps(s, Apply(s, closed, SendSnapshot), closed, a);
    }
  }

  lemma {:induction false} SendSnapshotKeepsAttacher(s: Shell, closed: set<Conn>)
    requires Core(s, closed) && Enabled(s, SendSnapshot)
    ensures AttacherInv(Apply(s, closed, SendSnapshot), closed)
  {
    hide Reading, Cleaning, Polling, CleanupInv;
  }

  lemma {:induction false} SendSnapshotKeepsShell(s: Shell, closed: set<Conn>)
    requires Core(s, closed) && Enabled(s, SendSnapshot)
    ensures Core(Apply(s, closed, SendSnapshot), closed)
  {
    hide AttacherInv, ReaderFits, Reading, Cleaning, Polling;
    SendSnapshotKeepsAttacher(s, closed);
  }

  lemma {:induction false} SendCwdKeepsClient(s: Shell, closed: set<Conn>, a: AttachId)
    requires Core(s, closed) && Enabled(s, SendCwd) && ClientInv(s, closed, a)
    ensures ClientInv(Apply(s, closed, SendCwd), closed, a)
  {
    hide ReaderInv, CleanupInv, Reading, Cleaning, Polling;
  }

  lemma {:induction false} SendCwdKeepsAttacher(s: Shell, closed: set<Conn>)
    requires Core(s, closed) && Enabled(s, SendCwd)
    ensures AttacherInv(Apply(s, closed, SendCwd), closed)
  {
    hide Reading, Cleaning, Polling, CleanupInv;
  }

  lemma {:induction false} SendCwdKeepsShell(s: Shell, closed: set<Conn>)
    requires Core(s, closed) && Enabled(s, SendCwd)
    ensures Core(Apply(s, closed, SendCwd), closed)
  {
    hide AttacherInv, ReaderFits, Reading, Cleaning, Polling;
    SendCwdKeepsAttacher(s, closed);
  }

  /** At most the chunk in flight is replayed, and only if it was not numbered before the snapshot. */
  lemma {:induction false} ReplayIsShort(s: Shell, seqNo: nat, start: nat)
    requires ReaderInv(s) && RingInv(s) && SeqFits(seqNo, start, s)
    ensures var replay := After(s.events, seqNo);
            replay == [] ||
            (|replay| == 1 && replay[0].seqNo == start == seqNo + 1 <= |s.output|
             && IsSuffix(replay[0].bytes, s.output[start - 1]))
  {
    hide After;
    AfterIsSuffix(s.events, seqNo);
    LastOnly(s.events, After(s.events, seqNo), seqNo);
  }

  lemma {:induction false} LastOnly(events: seq<Event>, replay: seq<Event>, seqNo: nat)
    requires Increasing(events) && forall i | 0 <= i < |events| :: events[i].seqNo <= seqNo + 1
    requires IsSuffix(replay, events) && forall e | e in replay :: e.seqNo > seqNo
    ensures |replay| <= 1
    ensures replay != [] ==> replay[0] == events[|events| - 1] && replay[0].seqNo == seqNo + 1
  {
    var n, m := |events|, |replay|;
    if m > 0 {
      assert replay[0] == events[n - m] && replay[m - 1] == events[n - 1];
      assert replay[0] in replay && replay[m - 1] in replay;
    }
  }

  /** The effect of the replay loop. */
  function Replaying(s: Shell, closed: set<Conn>, replay: seq<Event>): Shell
    requires s.attacher.Installed?
  {
    if replay == [] then s else Send(s, closed, s.attacher.id, Replayed(replay[0].seqNo, replay[0].bytes))
  }

  lemma {:induction false} SendAllShort(s: Shell, closed: set<Conn>, replay: seq<Event>)
    requires s.attacher.Installed? && |replay| <= 1
    ensures SendAll(s, closed, s.attacher.id, replay) == Replaying(s, closed, replay)
  {
    if replay != [] {
      assert replay[1..] == [];
    }
  }

  /** The replay loop sends nothing, or the chunk in flight. */
  predicate ReplayFits(s: Shell, replay: seq<Event>) {
    && s.attacher.Installed? && s.attacher.id in s.clients
    && (replay == [] ||
        (|replay| == 1 && replay[0].seqNo == s.clients[s.attacher.id].start == s.attacher.seqNo + 1 <= |s.output|
         && IsSuffix(replay[0].bytes, s.output[replay[0].seqNo - 1])))
  }

  function ReplayOver(s: Shell, closed: set<Conn>, replay: seq<Event>): Shell
    requires s.attacher.Installed?
  {
    Replaying(s, closed, replay).(attacher := ReplayDone(s.attacher.id))
  }

  lemma {:induction false} ReplayApplied(s: Shell, closed: set<Conn>)
    requires Core(s, closed) && RingInv(s) && Enabled(s, Replay)
    ensures var replay := After(s.events, s.attacher.seqNo);
            ReplayFits(s, replay) && Apply(s, closed, Replay) == ReplayOver(s, closed, replay)
  {
    hide RingInv, After, SendAll, CleanupInv;
    InstalledFits(s, closed);
    ReplayIsShort(s, s.attacher.seqNo, s.clients[s.attacher.id].start);
    SendAllShort(s, closed, After(s.events, s.attacher.seqNo));
  }

  lemma {:induction false} ShortReplayKeepsClient(s: Shell, closed: set<Conn>, replay: seq<Event>, a: AttachId)
    requires Core(s, closed) && ClientInv(s, closed, a) && ReplayFits(s, replay)
    ensures ClientInv(ReplayOver(s, closed, replay), closed, a)
  {
  }

  lemma {:induction false} ReplayKeepsClient(s: Shell, closed: set<Conn>, a: AttachId)
    requires Core(s, closed) && RingInv(s) && Enabled(s, Replay) && ClientInv(s, closed, a)
    ensures ClientInv(Apply(s, closed, Replay), closed, a)
  {
    hide Core, ClientInv, RingInv, Apply, ReplayOver, ReplayFits;
    ReplayApplied(s, closed);
    ShortReplayKeepsClient(s, closed, After(s.events, s.attacher.seqNo), a);
  }

  lemma {:induction false} ShortReplayKeepsShell(s: Shell, closed: set<Conn>, replay: seq<Event>)
    requires Core(s, closed) && ReplayFits(s, replay)
    ensures Core(ReplayOver(s, closed, replay), closed)
  {
    hide IsSuffix;
  }

  lemma {:induction false} ReplayKeepsShell(s: Shell, closed: set<Conn>)
    requires Core(s, closed) && RingInv(s) && Enabled(s, Replay)
    ensures Core(Apply(s, closed, Replay), closed)
  {
    hide Core, RingInv, Apply, ReplayOver, ReplayFits;
    ReplayApplied(s, closed);
    ShortReplayKeepsShell(s, closed, After(s.events, s.attacher.seqNo));
  }

  lemma {:induction false} InstalledFits(s: Shell, closed: set<Conn>)
    requires AttacherInv(s, closed) && s.attacher.Installed? && s.attacher.id in s.clients
    ensures SeqFits(s.attacher.seqNo, s.clients[s.attacher.id].start, s)
  {
  }

  // ------------------------------------------- detach, cleanup and the cwd poller

  // ------------------------------------------------------------------ cleanup calls

  /** A call that owns the cleanup is where the cleanup is. */
  lemma {:induction false} OwnerIsThere(s: Shell, c: Caller)
    requires CallersInv(s) && c in s.callers && s.callers[c].Owner?
    ensures s.cleanup == s.callers[c].stage
  {
    assert Owned(s.callers[c]);
  }

  lemma {:induction false} CallersFrame(s: Shell, t: Shell)
    requires CallersInv(s) && t.callers == s.callers && t.cleanup == s.cleanup
    ensures CallersInv(t)
  {
    if HasOwner(s) {
      var c :| c in s.callers && Owned(s.callers[c]);
      assert c in t.callers && Owned(t.callers[c]);
    }
  }

  /** A call that is not the owner begins, or returns empty-handed. */
  lemma {:induction false} OutsiderKeepsCallers(s: Shell, c: Caller, at: CallerAt)
    requires CallersInv(s) && !Owned(at) && (c in s.callers ==> !Owned(s.callers[c]))
    ensures CallersInv(s.(callers := s.callers[c := at]))
  {
    var t := s.(callers := s.callers[c := at]);
    if HasOwner(s) {
      var d :| d in s.callers && Owned(s.callers[d]);
      assert d in t.callers && Owned(t.callers[d]);
    }
  }

  /** The one owner moves the cleanup on, or a call becomes the owner while the shell is in the map. */
  lemma {:induction false} OwnerKeepsCallers(s: Shell, t: Shell, c: Caller, at: CallerAt)
    requires CallersInv(s) && Owned(at) && c in s.callers
    requires s.cleanup.Registered? || Owned(s.callers[c])
    requires t.callers == s.callers[c := at] && OwnerFits(t, at)
    ensures CallersInv(t)
  {
    forall d | d in t.callers && Owned(t.callers[d])
      ensures d == c
    {
      assert d != c ==> d in s.callers && Owned(s.callers[d]) && OwnerFits(s, s.callers[d]);
    }
    assert c in t.callers && Owned(t.callers[c]);
  }

  lemma {:induction false} CleanupKeepsCallers(s: Shell, closed: set<Conn>, act: Action)
    requires CallersInv(s) && Enabled(s, act) && IsCleanup(act)
    ensures CallersInv(Apply(s, closed, act))
  {
    hide CallersInv, HasOwner;
    var t := Apply(s, closed, act);
    var c := act.caller;
    if act.CallCleanup? || (act.RemoveFromMap? && !s.cleanup.Registered?) {
      OutsiderKeepsCallers(s, c, t.callers[c]);
    } else {
      OwnerKeepsCallers(s, t, c, t.callers[c]);
    }
  }

  /** The cleanup action of a caller, with the stage its caller is at. */
  predicate Fits(s: Shell, act: Action) {
    match act
    case MarkExited(_) => s.cleanup.Removed?
    case TakeAttach(_) => s.cleanup.Marked?
    case SendExited(c) => s.cleanup.Took? && c in s.callers && s.callers[c] == Owner(s.cleanup)
    case CloseMaster(_) => s.cleanup.Told?
    case _ => true
  }

  lemma {:induction false} OwnerFitsAction(s: Shell, act: Action)
    requires CallersInv(s) && Enabled(s, act)
    ensures Fits(s, act)
  {
    hide CallersInv;
    if IsCleanup(act) && act.caller in s.callers && s.callers[act.caller].Owner? {
      OwnerIsThere(s, act.caller);
    }
  }

  /** Cleanup actions that send nothing. */
  predicate IsSilent(act: Action) {
    IsCleanup(act) && !act.SendExited?
  }

  lemma {:induction false} SilentKeepsClient(s: Shell, closed: set<Conn>, act: Action, a: AttachId)
    requires IsSilent(act) && Core(s, closed) && Enabled(s, act) && Fits(s, act)
    requires ClientInv(s, closed, a)
    ensures ClientInv(Apply(s, closed, act), closed, a)
  {
    hide WellSent, First, LastCwd, SentCount, ReplayCount, SnapshotNumbered, MayCall, Reading, Attaching, Polling;
  }

  lemma {:induction false} SilentKeepsAttacher(s: Shell, closed: set<Conn>, act: Action)
    requires IsSilent(act) && Core(s, closed) && Enabled(s, act) && Fits(s, act)
    ensures AttacherInv(Apply(s, closed, act), closed)
  {
    hide First, LastCwd, SentCount, ReplayCount, SnapshotNumbered, SaidRunning, Ended, MayCall, ReaderFits;
  }

  lemma {:induction false} SilentKeepsShell(s: Shell, closed: set<Conn>, act: Action)
    requires IsSilent(act) && Core(s, closed) && Enabled(s, act) && Fits(s, act)
    ensures Core(Apply(s, closed, act), closed)
  {
    hide AttacherInv, ReaderFits, MayCall;
    SilentKeepsAttacher(s, closed, act);
  }

  lemma {:induction false} SendExitedKeepsClient(s: Shell, closed: set<Conn>, c: Caller, a: AttachId)
    requires Core(s, closed) && Enabled(s, SendExited(c)) && Fits(s, SendExited(c))
    requires ClientInv(s, closed, a)
    ensures ClientInv(Apply(s, closed, SendExited(c)), closed, a)
  {
    hide ReaderInv, AttacherInv, First, LastCwd, SentCount, ReplayCount, SnapshotNumbered;
  }

  lemma {:induction false} SendExitedKeepsShell(s: Shell, closed: set<Conn>, c: Caller)
    requires Core(s, closed) && Enabled(s, SendExited(c)) && Fits(s, SendExited(c))
    ensures Core(Apply(s, closed, SendExited(c)), closed)
  {
    hide First, LastCwd, SentCount, ReplayCount, SnapshotNumbered, SaidRunning, Ended;
    hide Reading, Attaching, Polling, Detaching, MayCall, ReaderFits;
  }

  lemma {:induction false} PollCwdKeepsClient(s: Shell, closed: set<Conn>, cwd: nat, a: AttachId)
    requires Core(s, closed) && Enabled(s, PollCwd(cwd)) && ClientInv(s, closed, a)
    ensures ClientInv(Apply(s, closed, PollCwd(cwd)), closed, a)
  {
    hide ReaderInv, AttacherInv, CleanupInv, WellSent, First, SentCount, ReplayCount, Ended, SaidRunning, LastCwd,
      SnapshotNumbered, Reading, Attaching, Cleaning, Detaching;
  }

  lemma {:induction false} PollCwdKeepsShell(s: Shell, closed: set<Conn>, cwd: nat)
    requires Core(s, closed) && Enabled(s, PollCwd(cwd))
    ensures Core(Apply(s, closed, PollCwd(cwd)), closed)
  {
    hide LastCwd, First, SentCount, ReplayCount, Ended, SaidRunning, SnapshotNumbered, AttacherInv;
    var t := Apply(s, closed, PollCwd(cwd));
    PollCwdKeepsAttacher(s, closed, t);
  }

  lemma {:induction false} PollCwdKeepsAttacher(s: Shell, closed: set<Conn>, t: Shell)
    requires AttacherInv(s, closed) && s.poller.Checked?
    requires t == s.(poller := Sleeping) || t == s.(cwd := t.cwd, poller := Changed(t.cwd))
    ensures AttacherInv(t, closed)
  {
    hide LastCwd, First, SentCount, ReplayCount, Ended, SaidRunning, SnapshotNumbered;
  }

  lemma {:induction false} NotifiedClient(s: Shell, closed: set<Conn>, a: AttachId, t: Shell)
    requires AttacherInv(s, closed) && CleanupInv(s) && s.poller.Changed? && s.attacher.Free?
    requires ClientInv(s, closed, a) && s.attach == Some(a) && s.clients[a].conn !in closed
    requires t == s.(poller := Sleeping,
                     clients := s.clients[a := s.clients[a].(log := Sent(s.clients[a].log, CwdChanged(s.cwd)))])
    ensures ClientInv(t, closed, a)
  {
  }

  lemma {:induction false} NotifyCwdKeepsClient(s: Shell, closed: set<Conn>, a: AttachId)
    requires Core(s, closed) && Enabled(s, NotifyCwd) && ClientInv(s, closed, a)
    ensures ClientInv(Apply(s, closed, NotifyCwd), closed, a)
  {
    hide RingInv, WellSent, LastCwd, First, SentCount, Ended, SaidRunning;
    if s.attach == Some(a) && s.clients[a].conn !in closed {
      NotifiedClient(s, closed, a, Apply(s, closed, NotifyCwd));
    }
  }

  lemma {:induction false} NotifyCwdKeepsShell(s: Shell, closed: set<Conn>)
    requires Core(s, closed) && Enabled(s, NotifyCwd)
    ensures Core(Apply(s, closed, NotifyCwd), closed)
  {
    hide AttacherInv, ReaderFits;
    IdleAttacher(Apply(s, closed, NotifyCwd), closed);
  }

  // -------------------------------------------------------------------------- runs

  lemma {:induction false} ActionKeepsClient(s: Shell, closed: set<Conn>, act: Action, a: AttachId)
    requires Core(s, closed) && CallersInv(s) && RingInv(s) && Enabled(s, act)
    requires a in Apply(s, closed, act).clients && (a in s.clients ==> ClientInv(s, closed, a))
    ensures ClientInv(Apply(s, closed, act), closed, a)
  {
    hide Core, ClientInv, RingInv, CallersInv, Apply, Enabled, Fits, Leaves;
    OwnerFitsAction(s, act);
    KnownBefore(s, closed, act, a);
    match act
    case TakeChunk(bytes) => TakeChunkKeepsClient(s, closed, bytes, a);
    case ProcessChunk => StoringKeepsClient(s, closed, act, a);
    case ScrollChunk => StoringKeepsClient(s, closed, act, a);
    case LogChunk => StoringKeepsClient(s, closed, act, a);
    case DeliverChunk => DeliverKeepsClient(s, closed, a);
    case LockAttach(conn, steal) => LockAttachKeepsClient(s, closed, conn, steal, a);
    case LoadSeq(id) => LoadSeqKeepsClient(s, closed, id, a);
    case ReadScreen => UnsentKeepsClient(s, closed, act, a);
    case ReadStatus => UnsentKeepsClient(s, closed, act, a);
    case SendSnapshot => SendSnapshotKeepsClient(s, closed, a);
    case SendCwd => SendCwdKeepsClient(s, closed, a);
    case Install => UnsentKeepsClient(s, closed, act, a);
    case Replay => ReplayKeepsClient(s, closed, a);
    case Unlock => UnsentKeepsClient(s, closed, act, a);
    case DetachClient(_) => UnsentKeepsClient(s, closed, act, a);
    case SendExited(c) => SendExitedKeepsClient(s, closed, c, a);
    case CheckStatus => UnsentKeepsClient(s, closed, act, a);
    case PollCwd(cwd) => PollCwdKeepsClient(s, closed, cwd, a);
    case NotifyCwd => NotifyCwdKeepsClient(s, closed, a);
    case _ => SilentKeepsClient(s, closed, act, a);
  }

  lemma {:induction false} ActionKeepsCore(s: Shell, closed: set<Conn>, act: Action)
    requires Core(s, closed) && CallersInv(s) && RingInv(s) && Enabled(s, act)
    ensures Core(Apply(s, closed, act), closed)
  {
    hide Core, RingInv, CallersInv, Enabled, Fits, Apply;
    OwnerFitsAction(s, act);
    match act
    case TakeChunk(bytes) => TakeChunkKeepsShell(s, closed, bytes);
    case ProcessChunk => StoringKeepsShell(s, closed, act);
    case ScrollChunk => StoringKeepsShell(s, closed, act);
    case LogChunk => StoringKeepsShell(s, closed, act);
    case DeliverChunk => DeliverKeepsShell(s, closed);
    case LockAttach(conn, steal) => LockAttachKeepsShell(s, closed, conn, steal);
    case LoadSeq(id) => LoadSeqKeepsShell(s, closed, id);
    case ReadScreen => UnsentKeepsShell(s, closed, act);
    case ReadStatus => UnsentKeepsShell(s, closed, act);
    case SendSnapshot => SendSnapshotKeepsShell(s, closed);
    case SendCwd => SendCwdKeepsShell(s, closed);
    case Install => UnsentKeepsShell(s, closed, act);
    case Replay => ReplayKeepsShell(s, closed);
    case Unlock => UnsentKeepsShell(s, closed, act);
    case DetachClient(_) => UnsentKeepsShell(s, closed, act);
    case SendExited(c) => SendExitedKeepsShell(s, closed, c);
    case CheckStatus => UnsentKeepsShell(s, closed, act);
    case PollCwd(cwd) => PollCwdKeepsShell(s, closed, cwd);
    case NotifyCwd => NotifyCwdKeepsShell(s, closed);
    case _ => SilentKeepsShell(s, closed, act);
  }

  /** What an action leaves alone. */
  predicate Leaves(s: Shell, act: Action, t: Shell) {
    && (!act.TakeChunk? && !act.LogChunk? ==>
          t.events == s.events && t.output == s.output && LoggedCount(t) == LoggedCount(s))
    && t.clients.Keys == s.clients.Keys + (if act.LoadSeq? then {act.id} else {})
    && (!IsCleanup(act) ==> t.callers == s.callers && t.cleanup == s.cleanup)
  }

  lemma {:induction false} AttachingLeaves(s: Shell, closed: set<Conn>, act: Action)
    requires Enabled(s, act) && IsAttachPart(act)
    ensures Leaves(s, act, Attaching(s, closed, act))
  {
    hide After, SendAll, Send;
    if act.LockAttach? && s.attach.Some? {
      SendLeaves(s, closed, s.attach.value, DetachedByAnother);
    } else if act.SendSnapshot? {
      SendLeaves(s, closed, s.attacher.id, Snapshot(s.attacher.seqNo, s.attacher.status, s.attacher.screen));
    } else if act.SendCwd? {
      SendLeaves(s, closed, s.attacher.id, CwdChanged(s.cwd));
    } else if act.Replay? {
      SendAllLeaves(s, closed, s.attacher.id, After(s.events, s.attacher.seqNo));
    }
  }

  lemma {:induction false} ActionLeaves(s: Shell, closed: set<Conn>, act: Action)
    requires Enabled(s, act)
    ensures Leaves(s, act, Apply(s, closed, act))
  {
    hide Attaching, Cleaning, Reading;
    if IsReading(act) {
      ReadingLeaves(s, closed, act);
    } else if IsAttachPart(act) {
      AttachingLeaves(s, closed, act);
    } else if IsCleanup(act) {
      CleaningLeaves(s, closed, act);
    }
  }

  lemma {:induction false} ReadingLeaves(s: Shell, closed: set<Conn>, act: Action)
    requires Enabled(s, act) && IsReading(act)
    ensures Leaves(s, act, Reading(s, closed, act))
  {
    hide Appended, LastN;
  }

  lemma {:induction false} CleaningLeaves(s: Shell, closed: set<Conn>, act: Action)
    requires Enabled(s, act) && IsCleanup(act)
    ensures Leaves(s, act, Cleaning(s, closed, act))
  {
  }

  lemma {:induction false} KnownBefore(s: Shell, closed: set<Conn>, act: Action, a: AttachId)
    requires Enabled(s, act) && a in Apply(s, closed, act).clients
    ensures a in s.clients || act == LoadSeq(a)
  {
    hide Apply, Enabled, LoggedCount;
    ActionLeaves(s, closed, act);
    assert a in Apply(s, closed, act).clients.Keys;
  }

  lemma {:induction false} ActionKeepsCallers(s: Shell, closed: set<Conn>, act: Action)
    requires CallersInv(s) && Enabled(s, act)
    ensures CallersInv(Apply(s, closed, act))
  {
    hide CallersInv, Apply, Enabled;
    ActionLeaves(s, closed, act);
    if IsCleanup(act) {
      CleanupKeepsCallers(s, closed, act);
    } else {
      CallersFrame(s, Apply(s, closed, act));
    }
  }

  lemma {:induction false} SendLeaves(s: Shell, closed: set<Conn>, id: AttachId, msg: Msg)
    ensures var t := Send(s, closed, id, msg); t == s.(clients := t.clients) && t.clients.Keys == s.clients.Keys
  {
  }

  /** The replay loop only changes logs. */
  lemma {:induction false} SendAllLeaves(s: Shell, closed: set<Conn>, id: AttachId, events: seq<Event>)
    ensures var t := SendAll(s, closed, id, events); t == s.(clients := t.clients) && t.clients.Keys == s.clients.Keys
    decreases |events|
  {
    if events != [] {
      SendAllLeaves(Send(s, closed, id, Replayed(events[0].seqNo, events[0].bytes)), closed, id, events[1..]);
    }
  }

  lemma {:induction false} ActionKeepsRing(s: Shell, closed: set<Conn>, act: Action)
    requires ReaderInv(s) && RingInv(s) && Enabled(s, act)
    ensures RingInv(Apply(s, closed, act))
  {
    hide RingHolds, Appended;
    if act.LogChunk? {
      LogKeepsRing(s.ringCap, s.events, s.output);
    } else if act.TakeChunk? {
      GrowKeepsRing(s.events, s.output, LoggedCount(s), act.bytes);
    } else {
      OthersKeepRing(s, closed, act);
    }
  }

  lemma {:induction false} OthersKeepRing(s: Shell, closed: set<Conn>, act: Action)
    requires RingInv(s) && Enabled(s, act) && !act.LogChunk? && !act.TakeChunk?
    ensures RingInv(Apply(s, closed, act))
  {
    hide RingHolds, Apply, Enabled, LoggedCount;
    ActionLeaves(s, closed, act);
  }

  lemma {:induction false} ActionKeepsInv(s: Shell, closed: set<Conn>, a: Action)
    requires Inv(s, closed) && Enabled(s, a)
    ensures Inv(Apply(s, closed, a), closed)
  {
    hide ReaderInv, AttacherInv, CleanupInv, ClientInv, RingInv, CallersInv, Apply, Enabled;
    forall x | x in Apply(s, closed, a).clients
      ensures ClientInv(Apply(s, closed, a), closed, x)
    {
      ActionKeepsClient(s, closed, a, x);
    }
    ActionKeepsCore(s, closed, a);
    ActionKeepsCallers(s, closed, a);
    ActionKeepsRing(s, closed, a);
  }

  lemma {:induction false} RunKeepsInv(w: World, steps: seq<Step>)
    requires Inv(w.shell, w.closed) && IsRun(w, steps)
    ensures Inv(RunFrom(w, steps).shell, RunFrom(w, steps).closed)
    decreases |steps|
  {
    hide Inv, Apply, Enabled;
    if steps != [] {
      match steps[0] {
        case Act(a) => ActionKeepsInv(w.shell, w.closed, a);
        case CloseChannel(conn) => CloseKeepsInv(w.shell, w.closed, conn);
      }
      RunKeepsInv(Next(w, steps[0]), steps[1..]);
    }
  }
}
