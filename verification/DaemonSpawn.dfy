/**
 * The start-up protocol of src/daemon_spawn.rs and `run` in src/daemon.rs: any number
 * of clients and of starting daemons share one lock file and one socket path.
 */
module DaemonSpawn {
  import opened Ascii

  type Pid = nat

  /** How far a `connect_or_spawn` call has come; the lock is held from `Retry` to `Unlock`. */
  datatype ClientAt =
    | First
    | WantLock
    | Retry
    | Look
    | Unlink
    | Unlock
    | Spawn
    | Poll(left: nat)
    | Connected(daemon: Pid)
    | GaveUp

  /** How far a starting daemon has come; the lock is held from `Prepare` on. */
  datatype DaemonAt = TryLock | Prepare | LookForStale | UnlinkStale | Bind | Serve

  datatype Process = Client(client: ClientAt) | Daemon(daemon: DaemonAt) | Ended

  const POLLS: nat := 100

  /**
   * `holder` owns the lock on the lock file, `socket` is the process whose listener the
   * socket path was bound to, `files` are the daemons with shell files on disk.
   */
  datatype System = System(procs: map<Pid, Process>, holder: Option<Pid>, socket: Option<Pid>, files: set<Pid>)

  datatype Action =
    | Arrive(p: Pid)
    | Launch(p: Pid)
    | Ping(p: Pid, answered: bool)
    | TakeLock(p: Pid)
    | LookAtSocket(p: Pid)
    | RemoveSocket(p: Pid, removed: bool)
    | ReleaseLock(p: Pid)
    | SpawnDaemon(p: Pid, child: Option<Pid>)
    | TryTheLock(p: Pid)
    | StartupGc(p: Pid, cleans: bool)
    | BindSocket(p: Pid)
    | WriteFiles(p: Pid)
    | Stop(p: Pid)

  predicate Serves(s: System, d: Pid) {
    d in s.procs && s.procs[d] == Daemon(Serve)
  }

  /** Someone listens behind the socket path. */
  predicate Listening(s: System) {
    s.socket.Some? && Serves(s, s.socket.value)
  }

  predicate IsClientAt(s: System, p: Pid, at: ClientAt) {
    p in s.procs && s.procs[p] == Client(at)
  }

  predicate IsDaemonAt(s: System, p: Pid, at: DaemonAt) {
    p in s.procs && s.procs[p] == Daemon(at)
  }

  predicate Enabled(s: System, a: Action) {
    match a
    case Arrive(p) => p !in s.procs
    case Launch(p) => p !in s.procs
    case Ping(p, answered) =>
      && p in s.procs && s.procs[p].Client?
      && (s.procs[p].client.First? || s.procs[p].client.Retry? || s.procs[p].client.Poll?)
      && (answered ==> Listening(s))
    case TakeLock(p) => IsClientAt(s, p, WantLock) && s.holder.None?
    case LookAtSocket(p) => IsClientAt(s, p, Look) || IsDaemonAt(s, p, LookForStale)
    case RemoveSocket(p, _) => IsClientAt(s, p, Unlink) || IsDaemonAt(s, p, UnlinkStale)
    case ReleaseLock(p) => IsClientAt(s, p, Unlock)
    case SpawnDaemon(p, child) => IsClientAt(s, p, Spawn) && (child.Some? ==> child.value !in s.procs)
    case TryTheLock(p) => IsDaemonAt(s, p, TryLock)
    case StartupGc(p, _) => IsDaemonAt(s, p, Prepare)
    case BindSocket(p) => IsDaemonAt(s, p, Bind)
    case WriteFiles(p) => IsDaemonAt(s, p, Serve)
    case Stop(p) => p in s.procs && !s.procs[p].Ended?
  }

  function Put(s: System, p: Pid, process: Process): System {
    s.(procs := s.procs[p := process])
  }

  function FreedBy(s: System, p: Pid): Option<Pid> {
    if s.holder == Some(p) then None else s.holder
  }

  /** A ping succeeded, or it failed and the client moves on. */
  function Pinged(s: System, p: Pid, answered: bool): System
    requires Enabled(s, Ping(p, answered))
  {
    if answered then Put(s, p, Client(Connected(s.socket.value))).(holder := FreedBy(s, p))
    else
      match s.procs[p].client
      case First => Put(s, p, Client(WantLock))
      case Retry => Put(s, p, Client(Look))
      case Poll(left) => Put(s, p, Client(if left <= 1 then GaveUp else Poll(left - 1)))
      case _ => s
  }

  /** The system after an enabled action; any other leaves it alone. */
  function Apply(s: System, a: Action): System {
    if !Enabled(s, a) then s else
    match a
    case Arrive(p) => Put(s, p, Client(First))
    case Launch(p) => Put(s, p, Daemon(TryLock))
    case Ping(p, answered) => Pinged(s, p, answered)
    case TakeLock(p) => Put(s, p, Client(Retry)).(holder := Some(p))
    case LookAtSocket(p) =>
      Put(s, p,
          if s.procs[p].Client? then Client(if s.socket.Some? then Unlink else Unlock)
          else Daemon(if s.socket.Some? then UnlinkStale else Bind))
    case RemoveSocket(p, removed) =>
      Put(s, p, if s.procs[p].Client? then Client(Unlock) else Daemon(Bind))
      .(socket := if removed then None else s.socket)
    case ReleaseLock(p) => Put(s, p, Client(Spawn)).(holder := None)
    case SpawnDaemon(p, None) => Put(s, p, Client(GaveUp))
    case SpawnDaemon(p, Some(child)) => Put(Put(s, child, Daemon(TryLock)), p, Client(Poll(POLLS)))
    case TryTheLock(p) =>
      if s.holder.None? then Put(s, p, Daemon(Prepare)).(holder := Some(p)) else Put(s, p, Ended)
    case StartupGc(p, cleans) =>
      Put(s, p, Daemon(LookForStale)).(files := if cleans then {} else s.files)
    case BindSocket(p) =>
      if s.socket.None? then Put(s, p, Daemon(Serve)).(socket := Some(p))
      else Put(s, p, Ended).(holder := FreedBy(s, p))
    case WriteFiles(p) => s.(files := s.files + {p})
    case Stop(p) => Put(s, p, Ended).(holder := FreedBy(s, p))
  }

  // --------------------------------------------------------------------------- runs

  /** No process yet; a socket file of an earlier, dead daemon may be left over. */
  predicate Initial(s: System) {
    && s.holder.None?
    && (forall p | p in s.procs :: s.procs[p].Ended?)
    && (s.socket.Some? ==> s.socket.value in s.procs)
  }

  predicate IsRun(s: System, run: seq<Action>)
    decreases |run|
  {
    run == [] || (Enabled(s, run[0]) && IsRun(Apply(s, run[0]), run[1..]))
  }

  function After(s: System, run: seq<Action>): System
    decreases |run|
  {
    if run == [] then s else After(Apply(s, run[0]), run[1..])
  }

  predicate Holds(process: Process) {
    match process
    case Client(at) => at.Retry? || at.Look? || at.Unlink? || at.Unlock?
    case Daemon(at) => !at.TryLock?
    case Ended => false
  }

  ghost predicate LockInv(s: System) {
    && (forall p | p in s.procs && Holds(s.procs[p]) :: s.holder == Some(p))
    && (s.holder.Some? ==> s.holder.value in s.procs && Holds(s.procs[s.holder.value]))
  }

  ghost predicate SocketInv(s: System) {
    && (forall d | d in s.procs && Serves(s, d) :: s.socket == Some(d))
    && (s.socket.Some? ==>
          s.socket.value in s.procs && (Serves(s, s.socket.value) || s.procs[s.socket.value].Ended?))
  }

  ghost predicate Inv(s: System) {
    LockInv(s) && SocketInv(s)
  }

  lemma {:induction false} StepKeepsLockInv(s: System, a: Action)
    requires LockInv(s) && Enabled(s, a)
    ensures LockInv(Apply(s, a))
  {
  }

  lemma {:induction false} StepKeepsSocketInv(s: System, a: Action)
    requires Inv(s) && Enabled(s, a)
    ensures SocketInv(Apply(s, a))
  {
  }

  lemma {:induction false} RunKeepsInv(s: System, run: seq<Action>)
    requires Inv(s) && IsRun(s, run)
    ensures Inv(After(s, run))
    decreases |run|
  {
    hide LockInv, SocketInv, Enabled, Apply;
    if run != [] {
      StepKeepsLockInv(s, run[0]);
      StepKeepsSocketInv(s, run[0]);
      RunKeepsInv(Apply(s, run[0]), run[1..]);
    }
  }

  lemma {:induction false} ReachableInv(s: System, run: seq<Action>)
    requires Initial(s) && IsRun(s, run)
    ensures Inv(After(s, run))
  {
    hide IsRun, After;
    RunKeepsInv(s, run);
  }

  // --------------------------------------------------------------------- exclusivity

  /** In every reachable state at most one daemon serves, and the path names its listener. */
  lemma {:induction false} AtMostOneServes(s: System, run: seq<Action>, d: Pid, e: Pid)
    requires Initial(s) && IsRun(s, run)
    requires Serves(After(s, run), d) && Serves(After(s, run), e)
    ensures d == e && After(s, run).socket == Some(d) && After(s, run).holder == Some(d)
  {
    ReachableInv(s, run);
  }

  /** Steps that remove or replace the socket path or wipe the shell files. */
  predicate Destructive(a: Action) {
    a.RemoveSocket? || a.StartupGc? || a.BindSocket?
  }

  /** While a daemon serves, nobody is at an unlink, a start-up cleanup or a bind. */
  lemma {:induction false} NothingDestructiveWhileServing(s: System, run: seq<Action>, d: Pid, a: Action)
    requires Initial(s) && IsRun(s, run) && Serves(After(s, run), d) && Destructive(a)
    ensures !Enabled(After(s, run), a)
  {
    ReachableInv(s, run);
  }

  predicate Spares(run: seq<Action>, p: Pid) {
    forall i | 0 <= i < |run| :: run[i] != Stop(p)
  }

  lemma {:induction false} ServerSurvivesStep(s: System, a: Action, d: Pid)
    requires Inv(s) && Serves(s, d) && Enabled(s, a) && a != Stop(d)
    ensures Serves(Apply(s, a), d) && s.files <= Apply(s, a).files
  {
  }

  /**
   * Until it is stopped itself, a serving daemon keeps serving, keeps its socket path and
   * keeps every shell file, whatever clients and other daemons do meanwhile.
   */
  lemma {:induction false} ServerIsUndisturbed(s: System, run: seq<Action>, d: Pid)
    requires Inv(s) && Serves(s, d) && IsRun(s, run) && Spares(run, d)
    ensures Serves(After(s, run), d) && After(s, run).socket == Some(d)
    ensures s.files <= After(s, run).files
    decreases |run|
  {
    hide LockInv, Enabled, Apply;
    if run != [] {
      var a, next := run[0], Apply(s, run[0]);
      ServerSurvivesStep(s, a, d);
      StepKeepsLockInv(s, a);
      StepKeepsSocketInv(s, a);
      assert Spares(run[1..], d);
      ServerIsUndisturbed(next, run[1..], d);
    }
  }

  /** Every client whose ping is answered while `d` serves ends up connected to `d`. */
  lemma {:induction false} PingsReachTheServer(s: System, run: seq<Action>, d: Pid, c: Pid)
    requires Initial(s) && IsRun(s, run) && Serves(After(s, run), d) && Enabled(After(s, run), Ping(c, true))
    ensures IsClientAt(Apply(After(s, run), Ping(c, true)), c, Connected(d))
  {
    ReachableInv(s, run);
  }

  // ---------------------------------------------------------------- what start-up leaves

  /** Every attempt to remove the socket file succeeds, every start-up cleanup cleans. */
  predicate NothingFails(run: seq<Action>) {
    forall i | 0 <= i < |run| :: (run[i].RemoveSocket? ==> run[i].removed) && (run[i].StartupGc? ==> run[i].cleans)
  }

  /** Who is past its look at the socket path has it empty; who is past the cleanup has only own files. */
  ghost predicate CleanInv(s: System) {
    forall p | p in s.procs ::
      && (s.procs[p] == Client(Unlock) || s.procs[p] == Daemon(Bind) ==> s.socket.None?)
      && (s.procs[p].Daemon? && !s.procs[p].daemon.TryLock? && !s.procs[p].daemon.Prepare? ==> s.files <= {p})
  }

  lemma {:induction false} StepKeepsClean(s: System, a: Action)
    requires Inv(s) && CleanInv(s) && Enabled(s, a) && NothingFails([a])
    ensures CleanInv(Apply(s, a))
  {
    assert [a][0] == a;
  }

  lemma {:induction false} RunKeepsClean(s: System, run: seq<Action>)
    requires Inv(s) && CleanInv(s) && IsRun(s, run) && NothingFails(run)
    ensures CleanInv(After(s, run))
    decreases |run|
  {
    hide Inv, CleanInv, Enabled, Apply;
    if run != [] {
      assert [run[0]][0] == run[0];
      StepKeepsClean(s, run[0]);
      StepKeepsInv(s, run[0]);
      RunKeepsClean(Apply(s, run[0]), run[1..]);
    }
  }

  lemma {:induction false} StepKeepsInv(s: System, a: Action)
    requires Inv(s) && Enabled(s, a)
    ensures Inv(Apply(s, a))
  {
    StepKeepsLockInv(s, a);
    StepKeepsSocketInv(s, a);
  }

  /**
   * Unless removing the socket file fails, a client gives the lock back with the socket path empty,
   * and a daemon that comes to bind succeeds and serves.
   */
  lemma {:induction false} StaleSocketIsGone(s: System, run: seq<Action>, p: Pid)
    requires Initial(s) && IsRun(s, run) && NothingFails(run)
    ensures var t := After(s, run);
            && (IsClientAt(t, p, Unlock) ==> t.socket.None?)
            && (IsDaemonAt(t, p, Bind) ==> Serves(Apply(t, BindSocket(p)), p) && Listening(Apply(t, BindSocket(p))))
  {
    ReachableInv(s, run);
    RunKeepsClean(s, run);
    hide IsRun, After;
  }

  /** A bind succeeds exactly on an empty path; otherwise the daemon ends and the lock is free again. */
  lemma {:induction false} BindExactly(s: System, run: seq<Action>, d: Pid)
    requires Initial(s) && IsRun(s, run) && IsDaemonAt(After(s, run), d, Bind)
    ensures var t := After(s, run);
            var next := Apply(t, BindSocket(d));
            && (Serves(next, d) <==> t.socket.None?)
            && (Serves(next, d) ==> next.socket == Some(d) && next.holder == Some(d))
            && (!Serves(next, d) ==> next.procs[d].Ended? && next.holder.None? && next.socket == t.socket)
  {
    ReachableInv(s, run);
    hide IsRun, After;
  }

  /** The files on disk while a daemon serves are its own: those of earlier daemons are gone. */
  lemma {:induction false} ServingFilesAreOwn(s: System, run: seq<Action>, d: Pid)
    requires Initial(s) && IsRun(s, run) && NothingFails(run) && Serves(After(s, run), d)
    ensures After(s, run).files <= {d}
  {
    ReachableInv(s, run);
    RunKeepsClean(s, run);
  }

  /** What a serving daemon has written stays on disk until it is stopped. */
  lemma {:induction false} WrittenFilesStay(s: System, run: seq<Action>, d: Pid)
    requires Inv(s) && Serves(s, d) && IsRun(s, run) && Spares(run, d) && WriteFiles(d) in run
    ensures d in After(s, run).files
    decreases |run|
  {
    hide LockInv, SocketInv;
    ServerSurvivesStep(s, run[0], d);
    StepKeepsInv(s, run[0]);
    SparesRest(run, d);
    assert run == [run[0]] + run[1..];
    if run[0] == WriteFiles(d) {
      ServerIsUndisturbed(Apply(s, run[0]), run[1..], d);
    } else {
      WrittenFilesStay(Apply(s, run[0]), run[1..], d);
    }
  }

  // ------------------------------------------------------------------ waiting for a daemon

  /** The polls of `p` in the run that nobody answered. */
  function Unanswered(run: seq<Action>, p: Pid): nat {
    if run == [] then 0 else (if run[0] == Ping(p, false) then 1 else 0) + Unanswered(run[1..], p)
  }

  predicate Answered(run: seq<Action>, p: Pid) {
    Ping(p, true) in run
  }

  predicate IsDone(s: System, p: Pid) {
    p in s.procs && s.procs[p].Client? && (s.procs[p].client.Connected? || s.procs[p].client.GaveUp?)
  }

  lemma {:induction false} DoneStays(s: System, run: seq<Action>, p: Pid)
    requires IsDone(s, p) && IsRun(s, run) && Spares(run, p)
    ensures p in After(s, run).procs && After(s, run).procs[p] == s.procs[p]
    ensures Unanswered(run, p) == 0 && !Answered(run, p)
    decreases |run|
  {
    if run != [] {
      assert Spares(run[1..], p);
      DoneStays(Apply(s, run[0]), run[1..], p);
    }
  }

  /** What one step makes of a polling client. */
  lemma {:induction false} PollStep(s: System, a: Action, p: Pid, left: nat)
    requires IsClientAt(s, p, Poll(left)) && Enabled(s, a) && a != Stop(p)
    ensures p in Apply(s, a).procs
    ensures Apply(s, a).procs[p] ==
            if a == Ping(p, true) then Client(Connected(s.socket.value))
            else if a == Ping(p, false) then Client(if left <= 1 then GaveUp else Poll(left - 1))
            else Client(Poll(left))
  {
  }

  lemma {:induction false} PollsFrom(s: System, run: seq<Action>, p: Pid, left: nat)
    requires left > 0 && IsClientAt(s, p, Poll(left)) && IsRun(s, run) && Spares(run, p)
    ensures var t := After(s, run);
            && p in t.procs && t.procs[p].Client?
            && Unanswered(run, p) <= left
            && (Answered(run, p) ==> t.procs[p].client.Connected? && Unanswered(run, p) < left)
            && (!Answered(run, p) ==>
                  t.procs[p].client ==
                  if Unanswered(run, p) < left then Poll(left - Unanswered(run, p)) else GaveUp)
    decreases |run|
  {
    hide Enabled, Apply, Spares;
    if run != [] {
      var a, next, rest := run[0], Apply(s, run[0]), run[1..];
      SparesRest(run, p);
      PollStep(s, a, p, left);
      assert run == [a] + rest;
      if a == Ping(p, true) || (a == Ping(p, false) && left == 1) {
        DoneStays(next, rest, p);
      } else {
        PollsFrom(next, rest, p, if a == Ping(p, false) then left - 1 else left);
      }
    }
  }

  lemma {:induction false} SparesRest(run: seq<Action>, p: Pid)
    requires run != [] && Spares(run, p)
    ensures run[0] != Stop(p) && Spares(run[1..], p)
  {
  }

  /**
   * A client that has spawned a daemon keeps polling, whatever others do: it gives up exactly at its
   * hundredth unanswered poll, and until then an answer still connects it.
   */
  lemma {:induction false} GivesUpAfterHundredPolls(s: System, p: Pid, child: Pid, more: seq<Action>)
    requires Enabled(s, SpawnDaemon(p, Some(child)))
    requires IsRun(Apply(s, SpawnDaemon(p, Some(child))), more) && Spares(more, p)
    ensures var t := After(Apply(s, SpawnDaemon(p, Some(child))), more);
            && p in t.procs && t.procs[p].Client?
            && Unanswered(more, p) <= 100
            && (t.procs[p].client.Connected? <==> Answered(more, p))
            && (t.procs[p].client.GaveUp? <==> Unanswered(more, p) == 100)
            && (t.procs[p].client.Poll? <==> !Answered(more, p) && Unanswered(more, p) < 100)
  {
    hide IsRun, After, Spares;
    PollsFrom(Apply(s, SpawnDaemon(p, Some(child))), more, p, 100);
  }

  /** If the daemon cannot be spawned the client gives up at once. */
  lemma {:induction false} FailedSpawnGivesUp(s: System, p: Pid, more: seq<Action>)
    requires Enabled(s, SpawnDaemon(p, None))
    requires IsRun(Apply(s, SpawnDaemon(p, None)), more) && Spares(more, p)
    ensures IsClientAt(After(Apply(s, SpawnDaemon(p, None)), more), p, GaveUp)
  {
    hide IsRun, After, Spares;
    DoneStays(Apply(s, SpawnDaemon(p, None)), more, p);
  }

  /** Whenever a daemon serves before the hundredth poll, the next one can connect the client to it. */
  lemma {:induction false} PollCanStillConnect(s: System, run: seq<Action>, p: Pid, child: Pid,
                                               more: seq<Action>, d: Pid)
    requires Initial(s) && IsRun(s, run) && Enabled(After(s, run), SpawnDaemon(p, Some(child)))
    requires IsRun(Apply(After(s, run), SpawnDaemon(p, Some(child))), more) && Spares(more, p)
    requires !Answered(more, p) && Unanswered(more, p) < 100
    requires Serves(After(Apply(After(s, run), SpawnDaemon(p, Some(child))), more), d)
    ensures var t := After(Apply(After(s, run), SpawnDaemon(p, Some(child))), more);
            Enabled(t, Ping(p, true)) && IsClientAt(Apply(t, Ping(p, true)), p, Connected(d))
  {
    var spawned := Apply(After(s, run), SpawnDaemon(p, Some(child)));
    ReachableInv(s, run);
    StepKeepsInv(After(s, run), SpawnDaemon(p, Some(child)));
    RunKeepsInv(spawned, more);
    GivesUpAfterHundredPolls(After(s, run), p, child, more);
    hide IsRun, After, LockInv;
  }

  // ------------------------------------------------------------------- what is lacking

  /** The ping made while holding the spawn lock is never answered: a listener would hold it. */
  lemma {:induction false} SecondPingFails(s: System, run: seq<Action>, c: Pid)
    requires Initial(s) && IsRun(s, run) && IsClientAt(After(s, run), c, Retry)
    ensures !Listening(After(s, run)) && !Enabled(After(s, run), Ping(c, true))
  {
    ReachableInv(s, run);
  }

  lemma {:induction false} WaiterStaysStep(s: System, a: Action, d: Pid, c: Pid)
    requires Inv(s) && Serves(s, d) && IsClientAt(s, c, WantLock) && Enabled(s, a) && a != Stop(c)
    ensures IsClientAt(Apply(s, a), c, WantLock)
  {
  }

  /** A client that reached the lock waits for as long as the daemon serves. */
  lemma {:induction false} WaiterWaits(s: System, run: seq<Action>, d: Pid, c: Pid)
    requires Inv(s) && Serves(s, d) && IsClientAt(s, c, WantLock)
    requires IsRun(s, run) && Spares(run, d) && Spares(run, c)
    ensures IsClientAt(After(s, run), c, WantLock)
    decreases |run|
  {
    hide LockInv, SocketInv, Enabled, Apply, IsClientAt;
    if run != [] {
      var a, next := run[0], Apply(s, run[0]);
      WaiterStaysStep(s, a, d, c);
      ServerSurvivesStep(s, a, d);
      StepKeepsLockInv(s, a);
      StepKeepsSocketInv(s, a);
      assert Spares(run[1..], d) && Spares(run[1..], c);
      WaiterWaits(next, run[1..], d, c);
    }
  }

  const NOBODY: System := System(map[], None, None, {})

  lemma {:induction false} Then(s: System, run: seq<Action>, a: Action)
    requires IsRun(s, run) && Enabled(After(s, run), a)
    ensures IsRun(s, run + [a]) && After(s, run + [a]) == Apply(After(s, run), a)
    decreases |run|
  {
    hide Enabled, Apply;
    if run == [] {
      assert [] + [a] == [a] && [a][1..] == [];
      assert IsRun(Apply(s, a), []);
    } else {
      Then(Apply(s, run[0]), run[1..], a);
      assert (run + [a])[1..] == run[1..] + [a] && (run + [a])[0] == run[0];
    }
  }

  ghost predicate Reached(s: System, run: seq<Action>, t: System) {
    IsRun(s, run) && After(s, run) == t
  }

  lemma {:induction false} Go(s: System, run: seq<Action>, t: System, a: Action, u: System)
    requires Reached(s, run, t) && Enabled(t, a) && Apply(t, a) == u
    ensures Reached(s, run + [a], u)
  {
    hide IsRun, After, Enabled, Apply;
    Then(s, run, a);
  }

  predicate OwnSteps(run: seq<Action>, d: Pid) {
    forall i | 0 <= i < |run| :: run[i].p == d && !run[i].Stop?
  }

  lemma {:induction false} DaemonPrepares(s: System, d: Pid) returns (run: seq<Action>, t: System)
    requires s.holder.None? && IsDaemonAt(s, d, TryLock)
    ensures Reached(s, run, t) && OwnSteps(run, d)
    ensures t == s.(procs := s.procs[d := Daemon(LookForStale)], holder := Some(d))
  {
    hide IsRun, After;
    assert Reached(s, [], s) by { Nothing(s); }
    var u := Put(s, d, Daemon(Prepare)).(holder := Some(d));
    Go(s, [], s, TryTheLock(d), u);
    t := Put(u, d, Daemon(LookForStale));
    Go(s, [] + [TryTheLock(d)], u, StartupGc(d, false), t);
    run := [] + [TryTheLock(d)] + [StartupGc(d, false)];
    assert t.procs == s.procs[d := Daemon(LookForStale)];
  }

  lemma {:induction false} DaemonBinds(s: System, before: seq<Action>, t: System, d: Pid) returns (run: seq<Action>)
    requires Reached(s, before, t) && OwnSteps(before, d)
    requires IsDaemonAt(t, d, LookForStale) && t.holder == Some(d)
    ensures OwnSteps(run, d) && Reached(s, run, t.(procs := t.procs[d := Daemon(Serve)], socket := Some(d)))
  {
    hide Reached;
    var u := Put(t, d, Daemon(if t.socket.Some? then UnlinkStale else Bind));
    Go(s, before, t, LookAtSocket(d), u);
    run := before + [LookAtSocket(d)];
    if t.socket.Some? {
      var v := Put(u, d, Daemon(Bind)).(socket := None);
      Go(s, run, u, RemoveSocket(d, true), v);
      run := run + [RemoveSocket(d, true)];
      u := v;
    }
    Go(s, run, u, BindSocket(d), Put(u, d, Daemon(Serve)).(socket := Some(d)));
    run := run + [BindSocket(d)];
    assert Put(u, d, Daemon(Serve)).procs == t.procs[d := Daemon(Serve)];
  }

  /** With the lock free, a launched daemon that is left alone comes to serve. */
  lemma {:induction false} LockHolderComesUp(s: System, d: Pid) returns (run: seq<Action>)
    requires Inv(s) && s.holder.None? && IsDaemonAt(s, d, TryLock)
    ensures IsRun(s, run) && Serves(After(s, run), d)
    ensures After(s, run).procs == s.procs[d := Daemon(Serve)]
    ensures OwnSteps(run, d)
  {
    hide IsRun, After, Inv, OwnSteps;
    var t: System;
    run, t := DaemonPrepares(s, d);
    run := DaemonBinds(s, run, t, d);
    assert t.procs[d := Daemon(Serve)] == s.procs[d := Daemon(Serve)];
  }

  lemma {:induction false} Nothing(s: System)
    ensures Reached(s, [], s)
  {
  }

  lemma {:induction false} Join(s: System, a: seq<Action>, b: seq<Action>)
    requires IsRun(s, a) && IsRun(After(s, a), b)
    ensures IsRun(s, a + b) && After(s, a + b) == After(After(s, a), b)
    decreases |a|
  {
    hide Enabled, Apply;
    if a == [] {
      assert [] + b == b;
    } else {
      Join(Apply(s, a[0]), a[1..], b);
      assert (a + b)[1..] == a[1..] + b && (a + b)[0] == a[0];
    }
  }

  /** A client whose first ping failed can end up waiting for a lock that a serving daemon keeps. */
  lemma {:induction false} ClientCanWaitForServer() returns (run: seq<Action>)
    ensures Initial(NOBODY) && IsRun(NOBODY, run)
    ensures IsClientAt(After(NOBODY, run), 0, WantLock) && Serves(After(NOBODY, run), 1)
  {
    Nothing(NOBODY);
    hide IsRun, After;
    var t1 := NOBODY.(procs := map[0 := Client(First)]);
    Go(NOBODY, [], NOBODY, Arrive(0), t1);
    var t2 := NOBODY.(procs := map[0 := Client(WantLock)]);
    assert t1.procs[0 := Client(WantLock)] == t2.procs;
    Go(NOBODY, [] + [Arrive(0)], t1, Ping(0, false), t2);
    var t3 := NOBODY.(procs := map[0 := Client(WantLock), 1 := Daemon(TryLock)]);
    assert t2.procs[1 := Daemon(TryLock)] == t3.procs;
    run := [] + [Arrive(0)] + [Ping(0, false)] + [Launch(1)];
    Go(NOBODY, [] + [Arrive(0)] + [Ping(0, false)], t2, Launch(1), t3);
    var rest := LockHolderComesUp(t3, 1);
    Join(NOBODY, run, rest);
    run := run + rest;
  }

  function Lone(at: ClientAt, holder: Option<Pid>): System {
    System(map[0 := Client(at)], holder, None, {})
  }

  lemma {:induction false} LoneStep(run: seq<Action>, at: ClientAt, holder: Option<Pid>, a: Action,
                                    at': ClientAt, holder': Option<Pid>)
    requires Reached(NOBODY, run, Lone(at, holder))
    requires Enabled(Lone(at, holder), a) && Apply(Lone(at, holder), a) == Put(Lone(at, holder'), 0, Client(at'))
    ensures Reached(NOBODY, run + [a], Lone(at', holder'))
  {
    hide Reached, Enabled, Apply;
    assert Lone(at, holder').procs[0 := Client(at')] == Lone(at', holder').procs;
    Go(NOBODY, run, Lone(at, holder), a, Lone(at', holder'));
  }

  /** The first client finds nobody, takes and releases the lock and is about to spawn. */
  lemma {:induction false} FirstClientReadyToSpawn() returns (run: seq<Action>)
    ensures Reached(NOBODY, run, Lone(Spawn, None))
  {
    Nothing(NOBODY);
    hide Reached;
    assert NOBODY.procs[0 := Client(First)] == Lone(First, None).procs;
    Go(NOBODY, [], NOBODY, Arrive(0), Lone(First, None));
    run := [] + [Arrive(0)];
    LoneStep(run, First, None, Ping(0, false), WantLock, None);
    run := run + [Ping(0, false)];
    LoneStep(run, WantLock, None, TakeLock(0), Retry, Some(0));
    run := run + [TakeLock(0)];
    LoneStep(run, Retry, Some(0), Ping(0, false), Look, Some(0));
    run := run + [Ping(0, false)];
    LoneStep(run, Look, Some(0), LookAtSocket(0), Unlock, Some(0));
    run := run + [LookAtSocket(0)];
    LoneStep(run, Unlock, Some(0), ReleaseLock(0), Spawn, None);
    run := run + [ReleaseLock(0)];
  }

  function Rivals(second: ClientAt, daemon: Process, holder: Option<Pid>): System {
    System(map[0 := Client(Poll(POLLS)), 1 := Client(second), 2 := daemon], holder, None, {})
  }

  /**
   * A spawned daemon can give up with "already running" although no daemon exists: a second
   * client holds the lock just then. The client that spawned it is left polling.
   */
  lemma {:induction false} SpawnedDaemonCanBeTurnedAway() returns (run: seq<Action>)
    ensures Initial(NOBODY) && IsRun(NOBODY, run)
    ensures var s := After(NOBODY, run);
            && IsClientAt(s, 0, Poll(POLLS)) && IsClientAt(s, 1, Retry)
            && 2 in s.procs && s.procs[2].Ended?
            && forall p | p in s.procs :: !s.procs[p].Daemon?
  {
    run := FirstClientReadyToSpawn();
    hide IsRun, After;
    var t1 := System(map[0 := Client(Poll(POLLS)), 2 := Daemon(TryLock)], None, None, {});
    assert Lone(Spawn, None).procs[2 := Daemon(TryLock)][0 := Client(Poll(POLLS))] == t1.procs;
    Go(NOBODY, run, Lone(Spawn, None), SpawnDaemon(0, Some(2)), t1);
    run := run + [SpawnDaemon(0, Some(2))];
    var t2 := Rivals(First, Daemon(TryLock), None);
    assert t1.procs[1 := Client(First)] == t2.procs;
    Go(NOBODY, run, t1, Arrive(1), t2);
    run := run + [Arrive(1)];
    run := SecondClientLocksOut(run);
  }

  /**
   * A daemon at its `try_lock` is turned away exactly if some process is between taking the
   * lock and giving it up: a client in its locked section, or a daemon past its `try_lock`.
   */
  lemma {:induction false} TurnedAwayExactly(s: System, run: seq<Action>, d: Pid)
    requires Initial(s) && IsRun(s, run) && IsDaemonAt(After(s, run), d, TryLock)
    ensures var t := After(s, run);
            var next := Apply(t, TryTheLock(d)).procs[d];
            && (next.Ended? <==> exists p :: p in t.procs && Holds(t.procs[p]))
            && (!next.Ended? ==> next == Daemon(Prepare))
  {
    ReachableInv(s, run);
    hide IsRun, After;
  }

  /** Without another daemon it is turned away exactly if a client is in its locked section. */
  lemma {:induction false} OnlyDaemonTurnedAwayExactly(s: System, run: seq<Action>, d: Pid)
    requires Initial(s) && IsRun(s, run) && IsDaemonAt(After(s, run), d, TryLock)
    requires forall p | p in After(s, run).procs && p != d :: !After(s, run).procs[p].Daemon?
    ensures var t := After(s, run);
            Apply(t, TryTheLock(d)).procs[d].Ended? <==>
            exists p, at :: IsClientAt(t, p, at) && (at.Retry? || at.Look? || at.Unlink? || at.Unlock?)
  {
    TurnedAwayExactly(s, run, d);
    hide IsRun, After, Enabled;
    var t := After(s, run);
    forall p | p in t.procs && Holds(t.procs[p])
      ensures exists at :: IsClientAt(t, p, at) && (at.Retry? || at.Look? || at.Unlink? || at.Unlock?)
    {
      assert IsClientAt(t, p, t.procs[p].client);
    }
  }

  lemma {:induction false} SecondClientLocksOut(before: seq<Action>) returns (run: seq<Action>)
    requires Reached(NOBODY, before, Rivals(First, Daemon(TryLock), None))
    ensures Reached(NOBODY, run, Rivals(Retry, Ended, Some(1)))
  {
    hide Reached;
    var d := Daemon(TryLock);
    run := before;
    assert Rivals(First, d, None).procs[1 := Client(WantLock)] == Rivals(WantLock, d, None).procs;
    Go(NOBODY, run, Rivals(First, d, None), Ping(1, false), Rivals(WantLock, d, None));
    run := run + [Ping(1, false)];
    assert Rivals(WantLock, d, None).procs[1 := Client(Retry)] == Rivals(Retry, d, Some(1)).procs;
    Go(NOBODY, run, Rivals(WantLock, d, None), TakeLock(1), Rivals(Retry, d, Some(1)));
    run := run + [TakeLock(1)];
    assert Rivals(Retry, d, Some(1)).procs[2 := Ended] == Rivals(Retry, Ended, Some(1)).procs;
    Go(NOBODY, run, Rivals(Retry, d, Some(1)), TryTheLock(2), Rivals(Retry, Ended, Some(1)));
    run := run + [TryTheLock(2)];
  }
}
