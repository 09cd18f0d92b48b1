/**
 * One shell of src/daemon.rs as a step machine. Every action is one lock section (or
 * one channel send) of the reader thread, an `attach` call, a `detach` call, any of the
 * threads that call `cleanup_shell`, or the cwd poller; the actions interleave freely.
 */
module ShellProtocol {
  import opened Bytes
  import opened Ascii
  import opened Limits

  type AttachId = nat
  type Conn = nat
  type Chunk = seq<byte>
  type Caller = nat

  datatype Status = Running | Exited

  /**
   * What the daemon sends on a client's channel. Output and Replayed are the same wire
   * message, sent by `record_output` and by the replay loop of `attach`. A screen is
   * the list of chunks the terminal had processed.
   */
  datatype Msg =
    | Snapshot(seqNo: nat, status: Status, screen: seq<Chunk>)
    | CwdChanged(cwd: nat)
    | Output(seqNo: nat, bytes: Chunk)
    | Replayed(seqNo: nat, bytes: Chunk)
    | DetachedByAnother
    | ShellExited

  datatype Log = Nothing | Sent(before: Log, msg: Msg)

  /** History of one attach id: its channel, the first seq the reader owes it, its messages. */
  datatype Client = Client(conn: Conn, start: nat, log: Log)

  datatype Reader =
    | Waiting
    | Numbered(bytes: Chunk)   // seq taken
    | Processed(bytes: Chunk)  // terminal updated
    | Scrolled(bytes: Chunk)   // scrollback updated
    | Logged(bytes: Chunk)     // event ring updated

  /** Progress of the `attach` call that holds the attach lock. */
  datatype Attacher =
    | Free
    | Locked(conn: Conn)
    | SeqLoaded(id: AttachId, seqNo: nat)
    | ScreenRead(id: AttachId, seqNo: nat, screen: seq<Chunk>)
    | StatusRead(id: AttachId, seqNo: nat, screen: seq<Chunk>, status: Status)
    | SnapshotSent(id: AttachId, seqNo: nat)
    | CwdSent(id: AttachId, seqNo: nat)
    | Installed(id: AttachId, seqNo: nat)
    | ReplayDone(id: AttachId)

  /** Whether the shell is still in the map, and if not, what has been done to it since. */
  datatype Cleanup = Registered | Removed | Marked | Took(client: Option<AttachId>) | Told | Closed

  /** Where a `cleanup_shell` call comes from. */
  datatype Entry = Kill | IdleSweep | DeadSweep | Waiter

  /** Progress of one `cleanup_shell` call; `owned` says whether it found the shell in the map. */
  datatype CallerAt = Called | Owner(stage: Cleanup) | Returned(owned: bool)

  datatype Poller = Sleeping | Checked | Changed(cwd: nat) | Stopped

  datatype Shell = Shell(
    scrollCap: nat,
    ringCap: nat,
    // fields of ShellState
    status: Status,
    cwd: nat,
    masterOpen: bool,
    seqNo: nat,
    terminal: seq<Chunk>,
    scroll: seq<byte>,
    events: seq<Event>,
    attach: Option<AttachId>,
    // threads
    reader: Reader,
    attacher: Attacher,
    cleanup: Cleanup,
    callers: map<Caller, CallerAt>,
    poller: Poller,
    // history
    output: seq<Chunk>,
    clients: map<AttachId, Client>,
    detached: set<AttachId>,
    marks: nat,
    closes: nat,
    exitTold: Option<AttachId>)

  datatype Action =
    | TakeChunk(bytes: Chunk) | ProcessChunk | ScrollChunk | LogChunk | DeliverChunk
    | LockAttach(conn: Conn, steal: bool) | LoadSeq(id: AttachId) | ReadScreen | ReadStatus
    | SendSnapshot | SendCwd | Install | Replay | Unlock
    | DetachClient(id: AttachId)
    | CallCleanup(caller: Caller, entry: Entry)
    | RemoveFromMap(caller: Caller) | MarkExited(caller: Caller) | TakeAttach(caller: Caller)
    | SendExited(caller: Caller) | CloseMaster(caller: Caller)
    | CheckStatus | PollCwd(cwd: nat) | NotifyCwd

  predicate IsAt(s: Shell, caller: Caller, at: CallerAt) {
    caller in s.callers && s.callers[caller] == at
  }

  /**
   * All callers but the child waiter first look the shell up in the map; `kill_idle_detached`
   * also sees that no client is attached.
   */
  predicate MayCall(s: Shell, caller: Caller, entry: Entry) {
    && caller !in s.callers
    && (!entry.Waiter? ==> s.cleanup.Registered?)
    && (entry.IdleSweep? ==> s.attacher.Free? && s.attach.None?)
  }

  predicate Enabled(s: Shell, a: Action) {
    match a
    case TakeChunk(_) => s.reader.Waiting?
    case ProcessChunk => s.reader.Numbered?
    case ScrollChunk => s.reader.Processed?
    case LogChunk => s.reader.Scrolled?
    case DeliverChunk => s.reader.Logged? && s.attacher.Free?
    case LockAttach(_, _) => s.attacher.Free?
    case LoadSeq(id) => s.attacher.Locked? && id !in s.clients
    case ReadScreen => s.attacher.SeqLoaded?
    case ReadStatus => s.attacher.ScreenRead?
    case SendSnapshot => s.attacher.StatusRead? && s.attacher.id in s.clients
    case SendCwd => s.attacher.SnapshotSent? && s.attacher.id in s.clients
    case Install => s.attacher.CwdSent?
    case Replay => s.attacher.Installed? && s.attacher.id in s.clients
    case Unlock => s.attacher.ReplayDone?
    case DetachClient(_) => s.attacher.Free?
    case CallCleanup(caller, entry) => MayCall(s, caller, entry)
    case RemoveFromMap(caller) => IsAt(s, caller, Called)
    case MarkExited(caller) => IsAt(s, caller, Owner(Removed))
    case TakeAttach(caller) => IsAt(s, caller, Owner(Marked)) && s.attacher.Free?
    case SendExited(caller) => caller in s.callers && s.callers[caller].Owner? && s.callers[caller].stage.Took?
    case CloseMaster(caller) => IsAt(s, caller, Owner(Told))
    case CheckStatus => s.poller.Sleeping?
    case PollCwd(_) => s.poller.Checked?
    case NotifyCwd => s.poller.Changed? && s.attacher.Free?
  }

  /** A send on a closed channel is lost. */
  function Send(s: Shell, closed: set<Conn>, id: AttachId, msg: Msg): Shell {
    if id !in s.clients || s.clients[id].conn in closed then s
    else s.(clients := s.clients[id := s.clients[id].(log := Sent(s.clients[id].log, msg))])
  }

  function SendAll(s: Shell, closed: set<Conn>, id: AttachId, events: seq<Event>): Shell
    decreases |events|
  {
    if events == [] then s
    else SendAll(Send(s, closed, id, Replayed(events[0].seqNo, events[0].bytes)), closed, id, events[1..])
  }

  predicate IsReading(a: Action) {
    a.TakeChunk? || a.ProcessChunk? || a.ScrollChunk? || a.LogChunk? || a.DeliverChunk?
  }

  predicate IsAttachPart(a: Action) {
    || a.LockAttach? || a.LoadSeq? || a.ReadScreen? || a.ReadStatus? || a.SendSnapshot?
    || a.SendCwd? || a.Install? || a.Replay? || a.Unlock?
  }

  predicate IsCleanup(a: Action) {
    a.CallCleanup? || a.RemoveFromMap? || a.MarkExited? || a.TakeAttach? || a.SendExited? || a.CloseMaster?
  }

  predicate IsPolling(a: Action) {
    a.CheckStatus? || a.PollCwd? || a.NotifyCwd?
  }

  /** The shell after an enabled action; any other leaves it alone. */
  function Apply(s: Shell, closed: set<Conn>, a: Action): Shell {
    if !Enabled(s, a) then s
    else if IsReading(a) then Reading(s, closed, a)
    else if IsAttachPart(a) then Attaching(s, closed, a)
    else if IsCleanup(a) then Cleaning(s, closed, a)
    else if IsPolling(a) then Polling(s, closed, a)
    else Detaching(s, a.id)
  }

  function Reading(s: Shell, closed: set<Conn>, a: Action): Shell
    requires Enabled(s, a) && IsReading(a)
  {
    match a
    case TakeChunk(bytes) =>
      s.(seqNo := s.seqNo + 1, output := s.output + [bytes], reader := Numbered(bytes))
    case ProcessChunk =>
      s.(terminal := s.terminal + [s.reader.bytes], reader := Processed(s.reader.bytes))
    case ScrollChunk =>
      s.(scroll := LastN(s.scroll + s.reader.bytes, s.scrollCap), reader := Scrolled(s.reader.bytes))
    case LogChunk =>
      s.(events := Appended(s.ringCap, s.events, s.seqNo, s.reader.bytes), reader := Logged(s.reader.bytes))
    case DeliverChunk => Deliver(s, closed)
  }

  function Attaching(s: Shell, closed: set<Conn>, a: Action): Shell
    requires Enabled(s, a) && IsAttachPart(a)
  {
    match a
    case LockAttach(conn, steal) =>
      if s.attach.Some? && !steal then s
      else if s.attach.Some? then Send(s, closed, s.attach.value, DetachedByAnother).(attacher := Locked(conn))
      else s.(attacher := Locked(conn))
    case LoadSeq(id) =>
      s.(clients := s.clients[id := Client(s.attacher.conn, Delivered(s) + 1, Nothing)],
         attacher := SeqLoaded(id, s.seqNo))
    case ReadScreen => s.(attacher := ScreenRead(s.attacher.id, s.attacher.seqNo, s.terminal))
    case ReadStatus =>
      s.(attacher := StatusRead(s.attacher.id, s.attacher.seqNo, s.attacher.screen, s.status))
    case SendSnapshot =>
      Send(s, closed, s.attacher.id, Snapshot(s.attacher.seqNo, s.attacher.status, s.attacher.screen))
        .(attacher := SnapshotSent(s.attacher.id, s.attacher.seqNo))
    case SendCwd =>
      Send(s, closed, s.attacher.id, CwdChanged(s.cwd)).(attacher := CwdSent(s.attacher.id, s.attacher.seqNo))
    case Install => s.(attach := Some(s.attacher.id), attacher := Installed(s.attacher.id, s.attacher.seqNo))
    case Replay =>
      SendAll(s, closed, s.attacher.id, After(s.events, s.attacher.seqNo))
        .(attacher := ReplayDone(s.attacher.id))
    case Unlock => s.(attacher := Free)
  }

  function Detaching(s: Shell, id: AttachId): Shell {
    if s.attach == Some(id) then s.(attach := None, detached := s.detached + {id}) else s
  }

  function Cleaning(s: Shell, closed: set<Conn>, a: Action): Shell
    requires Enabled(s, a) && IsCleanup(a)
  {
    match a
    case CallCleanup(caller, _) => s.(callers := s.callers[caller := Called])
    case RemoveFromMap(caller) =>
      if s.cleanup.Registered? then Own(s, caller, Removed) else s.(callers := s.callers[caller := Returned(false)])
    case MarkExited(caller) => Own(s, caller, Marked).(status := Exited, marks := s.marks + 1)
    case TakeAttach(caller) => Own(s, caller, Took(s.attach)).(attach := None)
    case SendExited(caller) => TellExited(Own(s, caller, Told), closed, s.callers[caller].stage.client)
    case CloseMaster(caller) =>
      s.(masterOpen := false, cleanup := Closed, closes := s.closes + 1,
         callers := s.callers[caller := Returned(true)])
  }

  function Polling(s: Shell, closed: set<Conn>, a: Action): Shell
    requires Enabled(s, a) && IsPolling(a)
  {
    match a
    case CheckStatus => s.(poller := if s.status == Running then Checked else Stopped)
    case PollCwd(cwd) => if s.cwd == cwd then s.(poller := Sleeping) else s.(cwd := cwd, poller := Changed(cwd))
    case NotifyCwd =>
      (if s.attach.Some? then Send(s, closed, s.attach.value, CwdChanged(s.poller.cwd)) else s)
        .(poller := Sleeping)
  }

  /** The last section of `record_output`; a failed send drops the client. */
  function Deliver(s: Shell, closed: set<Conn>): Shell
    requires s.reader.Logged?
  {
    if s.attach.None? || s.attach.value !in s.clients then s.(reader := Waiting)
    else if s.clients[s.attach.value].conn in closed then s.(attach := None, reader := Waiting)
    else Send(s, closed, s.attach.value, Output(s.seqNo, s.reader.bytes)).(reader := Waiting)
  }

  /** `caller` has brought the shell's cleanup to `stage`. */
  function Own(s: Shell, caller: Caller, stage: Cleanup): Shell {
    s.(cleanup := stage, callers := s.callers[caller := Owner(stage)])
  }

  function TellExited(s: Shell, closed: set<Conn>, client: Option<AttachId>): Shell {
    if client.None? then s else Send(s, closed, client.value, ShellExited).(exitTold := client)
  }

  /** Chunks whose `record_output` has finished. */
  function Delivered(s: Shell): nat {
    if s.reader.Waiting? || s.seqNo == 0 then s.seqNo else s.seqNo - 1
  }

  /**
   * A fresh or adopted shell. An adopted ring may hold one event numbered 0, and the status
   * is the persisted one.
   */
  predicate Initial(s: Shell) {
    && s.masterOpen && s.seqNo == 0 && s.terminal == []
    && |s.events| <= 1 && (forall i | 0 <= i < |s.events| :: s.events[i].seqNo == 0)
    && s.attach == None && s.reader == Waiting && s.attacher == Free
    && s.cleanup == Registered && s.callers == map[] && s.poller == Sleeping
    && s.output == [] && s.clients == map[] && s.detached == {}
    && s.marks == 0 && s.closes == 0 && s.exitTold == None
  }

  // ------------------------------------------------------------------------- runs

  datatype World = World(shell: Shell, closed: set<Conn>)

  /** Either an action of the daemon or a connection whose channel closes. */
  datatype Step = Act(action: Action) | CloseChannel(conn: Conn)

  predicate CanStep(w: World, step: Step) {
    step.Act? ==> Enabled(w.shell, step.action)
  }

  function Next(w: World, step: Step): World {
    match step
    case Act(a) => World(Apply(w.shell, w.closed, a), w.closed)
    case CloseChannel(conn) => World(w.shell, w.closed + {conn})
  }

  predicate IsRun(w: World, steps: seq<Step>)
    decreases |steps|
  {
    steps == [] || (CanStep(w, steps[0]) && IsRun(Next(w, steps[0]), steps[1..]))
  }

  function RunFrom(w: World, steps: seq<Step>): World
    decreases |steps|
  {
    if steps == [] then w else RunFrom(Next(w, steps[0]), steps[1..])
  }

  // ------------------------------------------------------------- reading the logs

  function SentCount(log: Log): nat {
    match log
    case Nothing => 0
    case Sent(before, msg) => SentCount(before) + if msg.Output? then 1 else 0
  }

  function ReplayCount(log: Log): nat {
    match log
    case Nothing => 0
    case Sent(before, msg) => ReplayCount(before) + if msg.Replayed? then 1 else 0
  }

  function First(log: Log): Option<Msg> {
    match log
    case Nothing => None
    case Sent(before, msg) => if before.Nothing? then Some(msg) else First(before)
  }

  function LastCwd(log: Log): Option<nat> {
    match log
    case Nothing => None
    case Sent(before, msg) => if msg.CwdChanged? then Some(msg.cwd) else LastCwd(before)
  }

  /** The last message says that nothing more will come. */
  predicate Ended(log: Log) {
    log.Sent? && (log.msg.DetachedByAnother? || log.msg.ShellExited?)
  }

  predicate SnapshotNumbered(log: Log, seqNo: int) {
    First(log).Some? && First(log).value.Snapshot? && First(log).value.seqNo == seqNo
  }

  predicate SaidRunning(log: Log) {
    First(log).Some? && First(log).value.Snapshot? && First(log).value.status == Running
  }
}
