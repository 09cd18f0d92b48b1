/**
 * The registry: any number of shells and of connection threads. A connection's
 * lookup, attach, scan and detach are separate steps; `state_for_attach` holds the
 * lock on the map of shells for its whole scan.
 */
module Registry {
  import opened Ascii
  import Limits
  import opened ShellProtocol
  import opened ShellInvariant

  type ShellId = nat

  datatype Phase = Serving | Exiting(todo: seq<AttachId>) | Gone

  datatype Work =
    | Idle
    | LookedUp(shell: ShellId)
    | Attaching(shell: ShellId)
    | Scanning(id: AttachId, left: set<ShellId>)
    | Detaching(shell: ShellId, id: AttachId)

  /** A connection: `attached` is the list `handle_client` keeps. */
  datatype Thread = Thread(phase: Phase, work: Work, attached: seq<AttachId>)

  datatype Draw = Draw(conn: Conn, shell: ShellId)

  datatype Sys = Sys(
    shells: map<ShellId, Shell>,
    closed: set<Conn>,
    threads: map<Conn, Thread>,
    mapLock: Option<Conn>,
    owners: map<AttachId, Draw>)

  datatype SysStep =
    | Create(shell: ShellId, state: Shell)
    | Connect(conn: Conn)
    | Background(shell: ShellId, action: Action)
    | Lookup(conn: Conn, shell: ShellId)
    | AttachPart(conn: Conn, shell: ShellId, action: Action)
    | StartScan(conn: Conn, id: AttachId)
    | ScanShell(conn: Conn, shell: ShellId)
    | EndScan(conn: Conn)
    | DetachFound(conn: Conn)
    | StartExit(conn: Conn)
    | FinishExit(conn: Conn)
    | LoseChannel(conn: Conn)

  predicate IsRegistered(y: Sys, shell: ShellId) {
    shell in y.shells && y.shells[shell].cleanup.Registered?
  }

  /** Actions of the reader, of cleanup calls and of the poller. */
  predicate IsBackground(a: Action) {
    IsReading(a) || IsCleanup(a) || IsPolling(a)
  }

  /** Actions under the lock of the map. */
  predicate UsesMap(a: Action) {
    a.RemoveFromMap? || (a.CallCleanup? && !a.entry.Waiter?)
  }

  predicate Works(y: Sys, conn: Conn, work: Work) {
    conn in y.threads && y.threads[conn].work == work
  }

  predicate CanDo(y: Sys, step: SysStep) {
    match step
    case Create(shell, state) => y.mapLock.None? && shell !in y.shells && Initial(state)
    case Connect(conn) => conn !in y.threads
    case Background(shell, a) =>
      && shell in y.shells && IsBackground(a) && Enabled(y.shells[shell], a)
      && (UsesMap(a) ==> y.mapLock.None?)
    case Lookup(conn, shell) =>
      Works(y, conn, Idle) && y.threads[conn].phase.Serving? && y.mapLock.None? && IsRegistered(y, shell)
    case AttachPart(conn, shell, a) =>
      && shell in y.shells && IsAttachPart(a) && Enabled(y.shells[shell], a)
      && (a.LockAttach? ==> a.conn == conn && Works(y, conn, LookedUp(shell)))
      && (!a.LockAttach? ==> Works(y, conn, Attaching(shell)))
      && (a.LoadSeq? ==> a.id !in y.owners)
    case StartScan(conn, id) =>
      && Works(y, conn, Idle) && y.mapLock.None?
      && (y.threads[conn].phase.Serving? ||
          (y.threads[conn].phase.Exiting? && y.threads[conn].phase.todo != [] && y.threads[conn].phase.todo[0] == id))
    case ScanShell(conn, shell) =>
      && conn in y.threads && y.threads[conn].work.Scanning? && shell in y.threads[conn].work.left
      && shell in y.shells && y.shells[shell].attacher.Free?
    case EndScan(conn) => conn in y.threads && y.threads[conn].work.Scanning? && y.threads[conn].work.left == {}
    case DetachFound(conn) =>
      && conn in y.threads && y.threads[conn].work.Detaching?
      && y.threads[conn].work.shell in y.shells && y.shells[y.threads[conn].work.shell].attacher.Free?
    case StartExit(conn) => Works(y, conn, Idle) && y.threads[conn].phase.Serving?
    case FinishExit(conn) => Works(y, conn, Idle) && y.threads[conn].phase == Exiting([])
    case LoseChannel(conn) => true
  }

  /** The thread after one `detach` call is over. */
  function DetachOver(t: Thread): Thread {
    var phase := if t.phase.Exiting? && t.phase.todo != [] then Exiting(t.phase.todo[1..]) else t.phase;
    t.(phase := phase, work := Idle)
  }

  function SetThread(y: Sys, conn: Conn, t: Thread): Sys {
    y.(threads := y.threads[conn := t])
  }

  function SetShell(y: Sys, shell: ShellId, s: Shell): Sys {
    y.(shells := y.shells[shell := s])
  }

  /** The registry after an enabled step; any other leaves it alone. */
  function Do(y: Sys, step: SysStep): Sys {
    if !CanDo(y, step) then y else
    match step
    case Create(shell, state) => SetShell(y, shell, state)
    case Connect(conn) => SetThread(y, conn, Thread(Serving, Idle, []))
    case Background(shell, a) => SetShell(y, shell, Apply(y.shells[shell], y.closed, a))
    case Lookup(conn, shell) => SetThread(y, conn, y.threads[conn].(work := LookedUp(shell)))
    case AttachPart(conn, shell, a) => Attach(y, conn, shell, a)
    case StartScan(conn, id) =>
      SetThread(y, conn, y.threads[conn].(work := Scanning(id, set x | x in y.shells && IsRegistered(y, x))))
        .(mapLock := Some(conn))
    case ScanShell(conn, shell) =>
      var t := y.threads[conn];
      if y.shells[shell].attach == Some(t.work.id) then
        SetThread(y, conn, t.(work := Detaching(shell, t.work.id))).(mapLock := None)
      else
        SetThread(y, conn, t.(work := Scanning(t.work.id, t.work.left - {shell})))
    case EndScan(conn) => SetThread(y, conn, DetachOver(y.threads[conn])).(mapLock := None)
    case DetachFound(conn) =>
      var w := y.threads[conn].work;
      SetThread(SetShell(y, w.shell, Apply(y.shells[w.shell], y.closed, DetachClient(w.id))), conn,
                DetachOver(y.threads[conn]))
    case StartExit(conn) => SetThread(y, conn, y.threads[conn].(phase := Exiting(y.threads[conn].attached)))
    case FinishExit(conn) =>
      SetThread(y, conn, y.threads[conn].(phase := Gone)).(closed := y.closed + {conn})
    case LoseChannel(conn) => y.(closed := y.closed + {conn})
  }

  function Attach(y: Sys, conn: Conn, shell: ShellId, a: Action): Sys
    requires CanDo(y, AttachPart(conn, shell, a))
  {
    var s, t := y.shells[shell], y.threads[conn];
    var s' := Apply(s, y.closed, a);
    // A refused attach and a finished one leave the thread idle.
    var work := if s'.attacher.Free? then Idle else Attaching(shell);
    var attached := if a.Unlock? then t.attached + [s.attacher.id] else t.attached;
    SetThread(SetShell(y, shell, s'), conn, t.(work := work, attached := attached))
      .(owners := if a.LoadSeq? then y.owners[a.id := Draw(conn, shell)] else y.owners)
  }

  const NewSys := Sys(map[], {}, map[], None, map[])

  predicate IsRun(y: Sys, steps: seq<SysStep>)
    decreases |steps|
  {
    steps == [] || (CanDo(y, steps[0]) && IsRun(Do(y, steps[0]), steps[1..]))
  }

  function RunFrom(y: Sys, steps: seq<SysStep>): Sys
    decreases |steps|
  {
    if steps == [] then y else RunFrom(Do(y, steps[0]), steps[1..])
  }

  // ----------------------------------------------------------------- the invariant

  /** The id that the attach call in progress has drawn. */
  function EnteringId(s: Shell): Option<AttachId> {
    if s.attacher.Free? || s.attacher.Locked? then None else Some(s.attacher.id)
  }

  predicate HeldBy(s: Shell, conn: Conn) {
    && !s.attacher.Free?
    && (s.attacher.Locked? ==> s.attacher.conn == conn)
    && (!s.attacher.Locked? ==> s.attacher.id in s.clients && s.clients[s.attacher.id].conn == conn)
  }

  /** No registered shell has `id` attached. */
  ghost predicate Unheld(y: Sys, id: AttachId) {
    forall x | IsRegistered(y, x) :: y.shells[x].attach != Some(id)
  }

  ghost predicate ShellsInv(y: Sys) {
    forall x | x in y.shells :: Inv(y.shells[x], y.closed)
  }

  ghost predicate OwnersInv(y: Sys) {
    && (forall x, id | x in y.shells && id in y.shells[x].clients ::
          id in y.owners && y.owners[id] == Draw(y.shells[x].clients[id].conn, x))
    && (forall id | id in y.owners :: y.owners[id].conn in y.threads && y.owners[id].shell in y.shells)
  }

  /** Every drawn id is in the list of its connection, or its attach is still running. */
  ghost predicate ListsInv(y: Sys) {
    && (forall id | id in y.owners :: Listed(y, id))
    && (forall c, id | c in y.threads && id in y.threads[c].attached :: id in y.owners && y.owners[id].conn == c)
  }

  ghost predicate LocksInv(y: Sys) {
    AttachersInv(y) && HeldLocksInv(y) && LookedUpInv(y)
  }

  ghost predicate AttachersInv(y: Sys) {
    forall c | c in y.threads && y.threads[c].work.Attaching? ::
      && y.threads[c].phase.Serving?
      && y.threads[c].work.shell in y.shells && HeldBy(y.shells[y.threads[c].work.shell], c)
  }

  ghost predicate HeldLocksInv(y: Sys) {
    forall x | x in y.shells && !y.shells[x].attacher.Free? :: exists c :: Works(y, c, Attaching(x))
  }

  ghost predicate LookedUpInv(y: Sys) {
    forall c | c in y.threads && y.threads[c].work.LookedUp? ::
      y.threads[c].phase.Serving? && y.threads[c].work.shell in y.shells
  }

  ghost predicate UnheldOutside(y: Sys, id: AttachId, some: set<ShellId>) {
    forall x | IsRegistered(y, x) && x !in some :: y.shells[x].attach != Some(id)
  }

  /** The exit loop works on the first id of what is left to do. */
  predicate InHand(t: Thread)
    requires t.work.Scanning? || t.work.Detaching?
  {
    t.phase.Exiting? && t.phase.todo != [] && t.work.id == t.phase.todo[0]
  }

  ghost predicate ThreadInv(y: Sys, c: Conn)
    requires c in y.threads
  {
    var t := y.threads[c];
    && (t.work.Scanning? ==> y.mapLock == Some(c))
    && (t.phase.Exiting? ==>
          && (forall id | id in t.phase.todo :: id in t.attached)
          && (forall id | id in t.attached :: id in t.phase.todo || Unheld(y, id))
          && (t.work.Scanning? ==> InHand(t) && UnheldOutside(y, t.work.id, t.work.left))
          && (t.work.Detaching? ==> InHand(t) && UnheldOutside(y, t.work.id, {t.work.shell})))
    && (t.phase.Gone? ==> t.work.Idle? && forall id | id in t.attached :: Unheld(y, id))
  }

  ghost predicate RegInv(y: Sys) {
    ShellsInv(y) && OwnersInv(y) && ListsInv(y) && LocksInv(y) && forall c | c in y.threads :: ThreadInv(y, c)
  }

  // ----------------------------------------------- what one action does to its shell

  /** How an action may change what the registry sees of a shell. */
  ghost predicate Effect(s: Shell, a: Action, t: Shell) {
    && (forall id | id in s.clients :: id in t.clients && t.clients[id].conn == s.clients[id].conn)
    && (forall id | id in t.clients :: id in s.clients || a == LoadSeq(id))
    && (t.attach == s.attach || t.attach == None ||
        (a.Install? && s.attacher.CwdSent? && t.attach == Some(s.attacher.id)))
    && (t.cleanup.Registered? ==> s.cleanup.Registered?)
    && (!IsAttachPart(a) ==> t.attacher == s.attacher)
  }

  lemma {:induction false} SendEffect(s: Shell, closed: set<Conn>, id: AttachId, msg: Msg)
    ensures var t := Send(s, closed, id, msg);
            && t.clients.Keys == s.clients.Keys
            && (forall x | x in s.clients :: t.clients[x].conn == s.clients[x].conn)
            && t.attach == s.attach && t.cleanup == s.cleanup
  {
  }

  lemma {:induction false} SendAllEffect(s: Shell, closed: set<Conn>, id: AttachId, events: seq<Limits.Event>)
    ensures var t := SendAll(s, closed, id, events);
            && t.clients.Keys == s.clients.Keys
            && (forall x | x in s.clients :: t.clients[x].conn == s.clients[x].conn)
            && t.attach == s.attach && t.cleanup == s.cleanup
    decreases |events|
  {
    if events != [] {
      SendAllEffect(Send(s, closed, id, Replayed(events[0].seqNo, events[0].bytes)), closed, id, events[1..]);
    }
  }

  lemma {:induction false} AttachEffect(s: Shell, closed: set<Conn>, a: Action)
    requires Enabled(s, a) && IsAttachPart(a)
    ensures Effect(s, a, Apply(s, closed, a))
  {
    hide Limits.After, SendAll, Send;
    if a.LockAttach? && s.attach.Some? {
      SendEffect(s, closed, s.attach.value, DetachedByAnother);
    } else if a.SendSnapshot? {
      SendEffect(s, closed, s.attacher.id, Snapshot(s.attacher.seqNo, s.attacher.status, s.attacher.screen));
    } else if a.SendCwd? {
      SendEffect(s, closed, s.attacher.id, CwdChanged(s.cwd));
    } else if a.Replay? {
      SendAllEffect(s, closed, s.attacher.id, Limits.After(s.events, s.attacher.seqNo));
    }
  }

  lemma {:induction false} ReadingEffect(s: Shell, closed: set<Conn>, a: Action)
    requires Enabled(s, a) && IsReading(a)
    ensures Effect(s, a, Apply(s, closed, a))
  {
    hide Limits.Appended, Cleaning, Polling;
  }

  lemma {:induction false} OtherEffect(s: Shell, closed: set<Conn>, a: Action)
    requires Enabled(s, a) && !IsAttachPart(a) && !IsReading(a)
    ensures Effect(s, a, Apply(s, closed, a))
  {
    hide Reading;
  }

  lemma {:induction false} ActionEffect(s: Shell, closed: set<Conn>, a: Action)
    requires Enabled(s, a)
    ensures Effect(s, a, Apply(s, closed, a))
  {
    hide Apply, Enabled, Effect;
    if IsAttachPart(a) {
      AttachEffect(s, closed, a);
    } else if IsReading(a) {
      ReadingEffect(s, closed, a);
    } else {
      OtherEffect(s, closed, a);
    }
  }

  /** How an attach call moves on. */
  ghost predicate Moves(s: Shell, a: Action, t: Shell) {
    && (a.LockAttach? ==> s.attacher == Free && (t.attacher == Free || t.attacher == Locked(a.conn)))
    && (a.LoadSeq? ==> s.attacher.Locked? && EnteringId(t) == Some(a.id))
    && (a.LoadSeq? ==> a.id in t.clients && t.clients[a.id].conn == s.attacher.conn)
    && (a.Unlock? ==> EnteringId(s).Some? && t.attacher == Free)
    && (!a.LockAttach? && !a.LoadSeq? && !a.Unlock? ==> EnteringId(s).Some? && EnteringId(t) == EnteringId(s))
  }

  lemma {:induction false} ActionMoves(s: Shell, closed: set<Conn>, a: Action)
    requires Enabled(s, a) && IsAttachPart(a)
    ensures Moves(s, a, Apply(s, closed, a))
  {
    if a.Replay? {
      hide SendAll;
    }
  }

  // ------------------------------------------------------------------- preservation

  lemma {:induction false} OwnerOfAttached(y: Sys, x: ShellId, id: AttachId)
    requires ShellsInv(y) && OwnersInv(y) && x in y.shells && y.shells[x].attach == Some(id)
    ensures id in y.shells[x].clients && id in y.owners && y.owners[id] == Draw(y.shells[x].clients[id].conn, x)
  {
    assert Inv(y.shells[x], y.closed);
  }

  lemma {:induction false} QuietOwners(y: Sys, x: ShellId, a: Action, t: Shell)
    requires OwnersInv(y) && x in y.shells && Effect(y.shells[x], a, t) && !a.LoadSeq?
    ensures OwnersInv(SetShell(y, x, t))
  {
    var z := SetShell(y, x, t);
    forall i, id | i in z.shells && id in z.shells[i].clients
      ensures id in z.owners && z.owners[id] == Draw(z.shells[i].clients[id].conn, i)
    {
      assert i in y.shells && id in y.shells[i].clients;
    }
  }

  lemma {:induction false} QuietLists(y: Sys, x: ShellId, t: Shell)
    requires ListsInv(y) && x in y.shells && EnteringId(t) == EnteringId(y.shells[x])
    ensures ListsInv(SetShell(y, x, t))
  {
  }

  lemma {:induction false} QuietLocks(y: Sys, x: ShellId, a: Action, t: Shell)
    requires LocksInv(y) && x in y.shells && Effect(y.shells[x], a, t) && t.attacher == y.shells[x].attacher
    ensures LocksInv(SetShell(y, x, t))
  {
    var z := SetShell(y, x, t);
    forall c | c in z.threads && z.threads[c].work.Attaching?
      ensures HeldBy(z.shells[z.threads[c].work.shell], c)
    {
      assert HeldBy(y.shells[z.threads[c].work.shell], c);
    }
    forall i | i in z.shells && !z.shells[i].attacher.Free?
      ensures exists c :: Works(z, c, Attaching(i))
    {
      var c :| Works(y, c, Attaching(i));
      assert Works(z, c, Attaching(i));
    }
  }

  /** Seen by the exit loops, a quiet shell only lets go of clients. */
  ghost predicate Fades(y: Sys, z: Sys) {
    z.threads == y.threads && z.mapLock == y.mapLock &&
    forall i | IsRegistered(z, i) ::
      IsRegistered(y, i) && (z.shells[i].attach == y.shells[i].attach || z.shells[i].attach == None)
  }

  lemma {:induction false} FadingKeepsThread(y: Sys, z: Sys, c: Conn)
    requires Fades(y, z) && c in y.threads && ThreadInv(y, c)
    ensures ThreadInv(z, c)
  {
    var t := y.threads[c];
    forall id | Unheld(y, id)
      ensures Unheld(z, id)
    {
    }
    forall id, some | UnheldOutside(y, id, some)
      ensures UnheldOutside(z, id, some)
    {
    }
  }

  lemma {:induction false} QuietFades(y: Sys, x: ShellId, a: Action, t: Shell)
    requires x in y.shells && Effect(y.shells[x], a, t) && !IsAttachPart(a)
    ensures Fades(y, SetShell(y, x, t))
  {
  }

  /** A background action or a detach: the registry sees at most a client leave. */
  lemma {:induction false} QuietShellKeepsInv(y: Sys, x: ShellId, a: Action)
    requires RegInv(y) && x in y.shells && Enabled(y.shells[x], a) && !IsAttachPart(a)
    ensures RegInv(SetShell(y, x, Apply(y.shells[x], y.closed, a)))
  {
    hide Inv, Apply, Enabled, ThreadInv, OwnersInv, ListsInv, LocksInv, Effect, Fades;
    var s := y.shells[x];
    var t := Apply(s, y.closed, a);
    var z := SetShell(y, x, t);
    ActionEffect(s, y.closed, a);
    ActionKeepsInv(s, y.closed, a);
    QuietKeepsAttacher(s, a, t);
    QuietOwners(y, x, a, t);
    QuietLists(y, x, t);
    QuietLocks(y, x, a, t);
    QuietFades(y, x, a, t);
    forall c | c in z.threads
      ensures ThreadInv(z, c)
    {
      FadingKeepsThread(y, z, c);
    }
  }

  lemma {:induction false} QuietKeepsAttacher(s: Shell, a: Action, t: Shell)
    requires Effect(s, a, t) && !IsAttachPart(a)
    ensures t.attacher == s.attacher && EnteringId(t) == EnteringId(s) && !a.LoadSeq?
  {
  }

  /** `Attach` with the new shell given. */
  function Moved(y: Sys, c: Conn, x: ShellId, a: Action, t: Shell): Sys
    requires x in y.shells && c in y.threads && (a.Unlock? ==> EnteringId(y.shells[x]).Some?)
  {
    var th := y.threads[c];
    var attached := if a.Unlock? then th.attached + [y.shells[x].attacher.id] else th.attached;
    SetThread(SetShell(y, x, t), c,
              th.(work := if t.attacher.Free? then Idle else Attaching(x), attached := attached))
      .(owners := if a.LoadSeq? then y.owners[a.id := Draw(c, x)] else y.owners)
  }

  /** What the registry knows when thread `c` takes step `a` of its attach on shell `x`. */
  ghost predicate Moving(y: Sys, c: Conn, x: ShellId, a: Action, t: Shell) {
    && x in y.shells && c in y.threads && IsAttachPart(a)
    && y.threads[c].phase.Serving?
    && Effect(y.shells[x], a, t) && Moves(y.shells[x], a, t)
    && (a.LockAttach? ==> a.conn == c && y.threads[c].work == LookedUp(x))
    && (!a.LockAttach? ==> y.threads[c].work == Attaching(x) && HeldBy(y.shells[x], c))
    && (a.LoadSeq? ==> a.id !in y.owners)
  }

  lemma {:induction false} MovedOwners(y: Sys, c: Conn, x: ShellId, a: Action, t: Shell)
    requires OwnersInv(y) && Moving(y, c, x, a, t)
    ensures OwnersInv(Moved(y, c, x, a, t))
  {
    var z := Moved(y, c, x, a, t);
    forall i, id | i in z.shells && id in z.shells[i].clients
      ensures id in z.owners && z.owners[id] == Draw(z.shells[i].clients[id].conn, i)
    {
      if i in y.shells && id in y.shells[i].clients {
        assert id in y.owners;
      }
    }
  }

  /** One drawn id is listed exactly when its attach is over. */
  ghost predicate Listed(y: Sys, id: AttachId)
    requires id in y.owners
  {
    var o := y.owners[id];
    o.conn in y.threads && o.shell in y.shells &&
    (id in y.threads[o.conn].attached <==> EnteringId(y.shells[o.shell]) != Some(id))
  }

  lemma {:induction false} MovedListed(y: Sys, c: Conn, x: ShellId, a: Action, t: Shell, id: AttachId)
    requires Moving(y, c, x, a, t) && id in y.owners && Listed(y, id)
    requires a.Unlock? ==> y.shells[x].attacher.id in y.owners && y.owners[y.shells[x].attacher.id] == Draw(c, x)
    ensures Listed(Moved(y, c, x, a, t), id)
  {
    hide Effect, HeldBy;
    var z := Moved(y, c, x, a, t);
    assert z.owners[id] == y.owners[id];
  }

  lemma {:induction false} MovedLists(y: Sys, c: Conn, x: ShellId, a: Action, t: Shell)
    requires OwnersInv(y) && ListsInv(y) && Moving(y, c, x, a, t)
    ensures ListsInv(Moved(y, c, x, a, t))
  {
    var z := Moved(y, c, x, a, t);
    hide OwnersInv, Moving, Moved, Listed;
    forall id | id in z.owners
      ensures Listed(z, id)
    {
      MovedOrNewListed(y, c, x, a, t, id);
    }
    MovedListsOwned(y, c, x, a, t);
  }

  lemma {:induction false} MovedOrNewListed(y: Sys, c: Conn, x: ShellId, a: Action, t: Shell, id: AttachId)
    requires OwnersInv(y) && ListsInv(y) && Moving(y, c, x, a, t) && id in Moved(y, c, x, a, t).owners
    ensures Listed(Moved(y, c, x, a, t), id)
  {
    if id in y.owners {
      assert Listed(y, id);
      MovedListed(y, c, x, a, t, id);
    }
  }

  lemma {:induction false} MovedListsOwned(y: Sys, c: Conn, x: ShellId, a: Action, t: Shell)
    requires OwnersInv(y) && ListsInv(y) && Moving(y, c, x, a, t)
    ensures var z := Moved(y, c, x, a, t);
            forall d, id | d in z.threads && id in z.threads[d].attached :: id in z.owners && z.owners[id].conn == d
  {
    var z := Moved(y, c, x, a, t);
    forall d, id | d in z.threads && id in z.threads[d].attached
      ensures id in z.owners && z.owners[id].conn == d
    {
      assert id in y.threads[d].attached || (d == c && a.Unlock? && id == y.shells[x].attacher.id);
    }
  }

  lemma {:induction false} MovedAttachers(y: Sys, c: Conn, x: ShellId, a: Action, t: Shell)
    requires AttachersInv(y) && Moving(y, c, x, a, t)
    ensures AttachersInv(Moved(y, c, x, a, t))
  {
    var z := Moved(y, c, x, a, t);
    forall d | d in z.threads && z.threads[d].work.Attaching?
      ensures z.threads[d].phase.Serving? && z.threads[d].work.shell in z.shells
      ensures HeldBy(z.shells[z.threads[d].work.shell], d)
    {
      if d != c {
        assert HeldBy(y.shells[y.threads[d].work.shell], d);
      }
    }
  }

  lemma {:induction false} MovedHeldLocks(y: Sys, c: Conn, x: ShellId, a: Action, t: Shell)
    requires HeldLocksInv(y) && Moving(y, c, x, a, t)
    ensures HeldLocksInv(Moved(y, c, x, a, t))
  {
    hide HeldBy;
    var z := Moved(y, c, x, a, t);
    forall i | i in z.shells && !z.shells[i].attacher.Free?
      ensures exists d :: Works(z, d, Attaching(i))
    {
      if i == x {
        assert Works(z, c, Attaching(x));
      } else {
        var d :| Works(y, d, Attaching(i));
        assert Works(z, d, Attaching(i));
      }
    }
  }

  lemma {:induction false} MovedLocks(y: Sys, c: Conn, x: ShellId, a: Action, t: Shell)
    requires LocksInv(y) && Moving(y, c, x, a, t)
    ensures LocksInv(Moved(y, c, x, a, t))
  {
    hide AttachersInv, HeldLocksInv, Effect, HeldBy;
    MovedAttachers(y, c, x, a, t);
    MovedHeldLocks(y, c, x, a, t);
  }

  /** A client that is just being installed is in no connection's list yet. */
  lemma {:induction false} EnteringIsUnlisted(y: Sys, x: ShellId, id: AttachId, d: Conn)
    requires OwnersInv(y) && ListsInv(y) && x in y.shells && d in y.threads
    requires EnteringId(y.shells[x]) == Some(id) && id in y.shells[x].clients
    ensures id !in y.threads[d].attached
  {
    assert Listed(y, id);
  }

  lemma {:induction false} MovedThread(y: Sys, c: Conn, x: ShellId, a: Action, t: Shell, d: Conn)
    requires OwnersInv(y) && ListsInv(y) && Moving(y, c, x, a, t)
    requires d in y.threads && ThreadInv(y, d)
    ensures ThreadInv(Moved(y, c, x, a, t), d)
  {
    if d != c {
      var z := Moved(y, c, x, a, t);
      var s := y.shells[x];
      if a.Install? {
        EnteringIsUnlisted(y, x, s.attacher.id, d);
      }
      forall id | id in y.threads[d].attached && Unheld(y, id)
        ensures Unheld(z, id)
      {
      }
      forall id, some | id in y.threads[d].attached && UnheldOutside(y, id, some)
        ensures UnheldOutside(z, id, some)
      {
      }
    }
  }

  lemma {:induction false} MovingHolds(y: Sys, c: Conn, x: ShellId, a: Action)
    requires RegInv(y) && CanDo(y, AttachPart(c, x, a))
    ensures var t := Apply(y.shells[x], y.closed, a);
            Moving(y, c, x, a, t) && Attach(y, c, x, a) == Moved(y, c, x, a, t)
  {
    hide Inv, Apply, Enabled, OwnersInv, ListsInv, ThreadInv, Effect;
    ActionEffect(y.shells[x], y.closed, a);
    ActionMoves(y.shells[x], y.closed, a);
  }

  lemma {:induction false} AttachPartKeepsInv(y: Sys, c: Conn, x: ShellId, a: Action)
    requires RegInv(y) && CanDo(y, AttachPart(c, x, a))
    ensures RegInv(Attach(y, c, x, a))
  {
    hide Inv, Apply, Enabled, OwnersInv, ListsInv, LocksInv, ThreadInv, Moving;
    var t := Apply(y.shells[x], y.closed, a);
    var z := Attach(y, c, x, a);
    MovingHolds(y, c, x, a);
    MovedOwners(y, c, x, a, t);
    MovedLists(y, c, x, a, t);
    MovedLocks(y, c, x, a, t);
    ActionKeepsInv(y.shells[x], y.closed, a);
    forall d | d in z.threads
      ensures ThreadInv(z, d)
    {
      MovedThread(y, c, x, a, t, d);
    }
  }

  // --------------------------------------------------------- steps of one connection

  /** Only thread `c` changes, its list stays, and it neither holds nor wants an attach lock. */
  ghost predicate Turns(y: Sys, c: Conn, z: Sys) {
    && c in y.threads && c in z.threads && z == y.(threads := y.threads[c := z.threads[c]], mapLock := z.mapLock)
    && z.threads[c].attached == y.threads[c].attached
    && !y.threads[c].work.Attaching? && !z.threads[c].work.Attaching?
    && (z.threads[c].work.LookedUp? ==> z.threads[c].phase.Serving? && z.threads[c].work.shell in z.shells)
    && (z.mapLock == y.mapLock || y.mapLock == None || y.mapLock == Some(c))
  }

  lemma {:induction false} TurnKeepsTables(y: Sys, c: Conn, z: Sys)
    requires OwnersInv(y) && ListsInv(y) && LocksInv(y) && Turns(y, c, z)
    ensures OwnersInv(z) && ListsInv(z) && LocksInv(z)
  {
    hide HeldLocksInv;
    TurnKeepsHeldLocks(y, c, z);
  }

  lemma {:induction false} TurnKeepsHeldLocks(y: Sys, c: Conn, z: Sys)
    requires HeldLocksInv(y) && Turns(y, c, z)
    ensures HeldLocksInv(z)
  {
    forall i | i in z.shells && !z.shells[i].attacher.Free?
      ensures exists d :: Works(z, d, Attaching(i))
    {
      var d :| Works(y, d, Attaching(i));
      assert Works(z, d, Attaching(i));
    }
  }

  lemma {:induction false} TurnKeepsOthers(y: Sys, c: Conn, z: Sys, d: Conn)
    requires Turns(y, c, z) && d in y.threads && d != c && ThreadInv(y, d)
    ensures ThreadInv(z, d)
  {
    var t := y.threads[d];
    forall id | Unheld(y, id)
      ensures Unheld(z, id)
    {
    }
    forall id, some | UnheldOutside(y, id, some)
      ensures UnheldOutside(z, id, some)
    {
    }
  }

  lemma {:induction false} TurnKeepsInv(y: Sys, c: Conn, z: Sys)
    requires RegInv(y) && Turns(y, c, z) && ThreadInv(z, c)
    ensures RegInv(z)
  {
    hide Inv, OwnersInv, ListsInv, LocksInv, ThreadInv;
    TurnKeepsTables(y, c, z);
    forall d | d in z.threads
      ensures ThreadInv(z, d)
    {
      if d != c {
        TurnKeepsOthers(y, c, z, d);
      }
    }
  }

  /** An id attached to `x` is attached to no other shell. */
  lemma {:induction false} FoundIsOnlyThere(y: Sys, x: ShellId, id: AttachId)
    requires ShellsInv(y) && OwnersInv(y) && x in y.shells && y.shells[x].attach == Some(id)
    ensures UnheldOutside(y, id, {x})
  {
    hide Inv;
    OwnerOfAttached(y, x, id);
    forall i | IsRegistered(y, i) && i != x
      ensures y.shells[i].attach != Some(id)
    {
      if y.shells[i].attach == Some(id) {
        OwnerOfAttached(y, i, id);
      }
    }
  }

  lemma {:induction false} LookupKeepsInv(y: Sys, c: Conn, x: ShellId)
    requires RegInv(y) && CanDo(y, Lookup(c, x))
    ensures RegInv(Do(y, Lookup(c, x)))
  {
    hide Inv, OwnersInv, ListsInv, LocksInv;
    assert ThreadInv(y, c);
    TurnKeepsInv(y, c, Do(y, Lookup(c, x)));
  }

  /** A turn changes no shell, so it changes nothing about who is held. */
  lemma {:induction false} SameShellsSameHeld(y: Sys, z: Sys)
    requires z.shells == y.shells
    ensures forall id :: Unheld(z, id) <==> Unheld(y, id)
    ensures forall id, some :: UnheldOutside(z, id, some) <==> UnheldOutside(y, id, some)
  {
    assert forall x :: IsRegistered(z, x) <==> IsRegistered(y, x);
  }

  lemma {:induction false} StartScanKeepsInv(y: Sys, c: Conn, id: AttachId)
    requires RegInv(y) && CanDo(y, StartScan(c, id))
    ensures RegInv(Do(y, StartScan(c, id)))
  {
    hide Inv, OwnersInv, ListsInv, LocksInv, Unheld;
    var z := Do(y, StartScan(c, id));
    assert ThreadInv(y, c);
    SameShellsSameHeld(y, z);
    TurnKeepsInv(y, c, z);
  }

  lemma {:induction false} ScanShellKeepsInv(y: Sys, c: Conn, x: ShellId)
    requires RegInv(y) && CanDo(y, ScanShell(c, x))
    ensures RegInv(Do(y, ScanShell(c, x)))
  {
    hide Inv, OwnersInv, ListsInv, LocksInv, Unheld;
    var z := Do(y, ScanShell(c, x));
    assert ThreadInv(y, c);
    SameShellsSameHeld(y, z);
    if y.shells[x].attach == Some(y.threads[c].work.id) {
      FoundIsOnlyThere(y, x, y.threads[c].work.id);
    }
    TurnKeepsInv(y, c, z);
  }

  lemma {:induction false} EndScanKeepsInv(y: Sys, c: Conn)
    requires RegInv(y) && CanDo(y, EndScan(c))
    ensures RegInv(Do(y, EndScan(c)))
  {
    hide Inv, OwnersInv, ListsInv, LocksInv;
    var z := Do(y, EndScan(c));
    assert ThreadInv(y, c);
    SameShellsSameHeld(y, z);
    OverKeepsThread(y, c, z);
    TurnKeepsInv(y, c, z);
  }

  /** The exit loop may go on once the id in hand is held by no registered shell. */
  lemma {:induction false} OverKeepsThread(y: Sys, c: Conn, z: Sys)
    requires c in y.threads && c in z.threads && ThreadInv(y, c)
    requires y.threads[c].work.Scanning? || y.threads[c].work.Detaching?
    requires z.threads[c] == DetachOver(y.threads[c])
    requires forall id | Unheld(y, id) :: Unheld(z, id)
    requires y.threads[c].phase.Exiting? ==> Unheld(z, y.threads[c].work.id)
    ensures ThreadInv(z, c)
  {
    hide Unheld, UnheldOutside;
    var t := y.threads[c];
    if t.phase.Exiting? {
      assert t.phase.todo == [t.phase.todo[0]] + t.phase.todo[1..];
    }
  }

  lemma {:induction false} DetachFoundKeepsInv(y: Sys, c: Conn)
    requires RegInv(y) && CanDo(y, DetachFound(c))
    ensures RegInv(Do(y, DetachFound(c)))
  {
    hide Inv, Apply, OwnersInv, ListsInv, LocksInv;
    var w := y.threads[c].work;
    assert ThreadInv(y, c);
    QuietShellKeepsInv(y, w.shell, DetachClient(w.id));
    var m := SetShell(y, w.shell, Apply(y.shells[w.shell], y.closed, DetachClient(w.id)));
    var z := SetThread(m, c, DetachOver(m.threads[c]));
    DetachLetsGo(y.shells[w.shell], y.closed, w.id);
    ActionEffect(y.shells[w.shell], y.closed, DetachClient(w.id));
    assert ThreadInv(m, c);
    SameShellsSameHeld(m, z);
    OverKeepsThread(m, c, z);
    TurnKeepsInv(m, c, z);
  }

  lemma {:induction false} DetachLetsGo(s: Shell, closed: set<Conn>, id: AttachId)
    requires Enabled(s, DetachClient(id))
    ensures Apply(s, closed, DetachClient(id)).attach != Some(id)
  {
  }

  lemma {:induction false} StartExitKeepsInv(y: Sys, c: Conn)
    requires RegInv(y) && CanDo(y, StartExit(c))
    ensures RegInv(Do(y, StartExit(c)))
  {
    hide Inv, OwnersInv, ListsInv, LocksInv;
    assert ThreadInv(y, c);
    TurnKeepsInv(y, c, Do(y, StartExit(c)));
  }

  lemma {:induction false} LoseChannelKeepsInv(y: Sys, c: Conn)
    requires RegInv(y)
    ensures RegInv(y.(closed := y.closed + {c}))
  {
    hide Inv, ThreadInv;
    var z := y.(closed := y.closed + {c});
    forall x | x in z.shells
      ensures Inv(z.shells[x], z.closed)
    {
      CloseKeepsInv(y.shells[x], y.closed, c);
    }
    forall d | d in z.threads
      ensures ThreadInv(z, d)
    {
      FadingKeepsThread(y, z, d);
    }
    assert forall x, d :: Works(z, d, Attaching(x)) <==> Works(y, d, Attaching(x));
  }

  lemma {:induction false} FinishExitKeepsInv(y: Sys, c: Conn)
    requires RegInv(y) && CanDo(y, FinishExit(c))
    ensures RegInv(Do(y, FinishExit(c)))
  {
    hide Inv, OwnersInv, ListsInv, LocksInv;
    var z := SetThread(y, c, y.threads[c].(phase := Gone));
    assert ThreadInv(y, c);
    SameShellsSameHeld(y, z);
    TurnKeepsInv(y, c, z);
    LoseChannelKeepsInv(z, c);
  }

  lemma {:induction false} ConnectKeepsInv(y: Sys, c: Conn)
    requires RegInv(y) && CanDo(y, Connect(c))
    ensures RegInv(Do(y, Connect(c)))
  {
    hide Inv, ThreadInv, Unheld, LocksInv;
    ConnectKeepsLocks(y, c);
    ConnectKeepsThreads(y, c);
  }

  lemma {:induction false} ConnectKeepsLocks(y: Sys, c: Conn)
    requires LocksInv(y) && CanDo(y, Connect(c))
    ensures LocksInv(Do(y, Connect(c)))
  {
    var z := Do(y, Connect(c));
    forall i | i in z.shells && !z.shells[i].attacher.Free?
      ensures exists d :: Works(z, d, Attaching(i))
    {
      var d :| Works(y, d, Attaching(i));
      assert Works(z, d, Attaching(i));
    }
  }

  lemma {:induction false} ConnectKeepsThreads(y: Sys, c: Conn)
    requires RegInv(y) && CanDo(y, Connect(c))
    ensures var z := Do(y, Connect(c)); forall d | d in z.threads :: ThreadInv(z, d)
  {
    hide Inv, OwnersInv, ListsInv, LocksInv;
    var z := Do(y, Connect(c));
    SameShellsSameHeld(y, z);
    forall d | d in z.threads
      ensures ThreadInv(z, d)
    {
      assert d != c ==> ThreadInv(y, d);
    }
  }

  lemma {:induction false} CreateKeepsInv(y: Sys, x: ShellId, s: Shell)
    requires RegInv(y) && CanDo(y, Create(x, s))
    ensures RegInv(Do(y, Create(x, s)))
  {
    hide Inv, ThreadInv, LocksInv;
    InitialInv(s, y.closed);
    CreateKeepsLocks(y, x, s);
    CreateKeepsThreads(y, x, s);
  }

  lemma {:induction false} CreateKeepsLocks(y: Sys, x: ShellId, s: Shell)
    requires LocksInv(y) && CanDo(y, Create(x, s))
    ensures LocksInv(Do(y, Create(x, s)))
  {
    var z := Do(y, Create(x, s));
    forall i | i in z.shells && !z.shells[i].attacher.Free?
      ensures exists d :: Works(z, d, Attaching(i))
    {
      var d :| Works(y, d, Attaching(i));
      assert Works(z, d, Attaching(i));
    }
  }

  lemma {:induction false} CreateKeepsThreads(y: Sys, x: ShellId, s: Shell)
    requires RegInv(y) && CanDo(y, Create(x, s))
    ensures var z := Do(y, Create(x, s)); forall d | d in z.threads :: ThreadInv(z, d)
  {
    hide Inv, OwnersInv, ListsInv, LocksInv;
    var z := Do(y, Create(x, s));
    assert forall i | IsRegistered(z, i) && i != x :: IsRegistered(y, i);
    forall d | d in z.threads
      ensures ThreadInv(z, d)
    {
      assert ThreadInv(y, d);
      assert forall id | Unheld(y, id) :: Unheld(z, id);
      assert forall id, some | UnheldOutside(y, id, some) :: UnheldOutside(z, id, some);
    }
  }

  lemma {:induction false} StepKeepsInv(y: Sys, step: SysStep)
    requires RegInv(y) && CanDo(y, step)
    ensures RegInv(Do(y, step))
  {
    hide RegInv;
    match step
    case Create(x, s) => CreateKeepsInv(y, x, s);
    case Connect(c) => ConnectKeepsInv(y, c);
    case Background(x, a) => QuietShellKeepsInv(y, x, a);
    case Lookup(c, x) => LookupKeepsInv(y, c, x);
    case AttachPart(c, x, a) => AttachPartKeepsInv(y, c, x, a);
    case StartScan(c, id) => StartScanKeepsInv(y, c, id);
    case ScanShell(c, x) => ScanShellKeepsInv(y, c, x);
    case EndScan(c) => EndScanKeepsInv(y, c);
    case DetachFound(c) => DetachFoundKeepsInv(y, c);
    case StartExit(c) => StartExitKeepsInv(y, c);
    case FinishExit(c) => FinishExitKeepsInv(y, c);
    case LoseChannel(c) => LoseChannelKeepsInv(y, c);
  }

  lemma {:induction false} RunKeepsRegInv(y: Sys, steps: seq<SysStep>)
    requires RegInv(y) && IsRun(y, steps)
    ensures RegInv(RunFrom(y, steps))
    decreases |steps|
  {
    hide RegInv, CanDo, Do;
    if steps != [] {
      StepKeepsInv(y, steps[0]);
      RunKeepsRegInv(Do(y, steps[0]), steps[1..]);
    }
  }

  lemma {:induction false} StartHoldsInv()
    ensures RegInv(NewSys)
  {
  }

  // -------------------------------------------------------------------- main results

  /** The single-shell results hold of every shell of every registry run. */
  lemma {:induction false} EveryShellKeepsItsInvariant(steps: seq<SysStep>, x: ShellId)
    requires IsRun(NewSys, steps) && x in RunFrom(NewSys, steps).shells
    ensures Inv(RunFrom(NewSys, steps).shells[x], RunFrom(NewSys, steps).closed)
  {
    hide Inv;
    StartHoldsInv();
    RunKeepsRegInv(NewSys, steps);
  }

  /** An attach id belongs to one shell and one connection, for ever. */
  lemma {:induction false} AttachIdsAreUnique(steps: seq<SysStep>, x1: ShellId, x2: ShellId, id: AttachId)
    requires IsRun(NewSys, steps)
    requires var y := RunFrom(NewSys, steps);
             x1 in y.shells && x2 in y.shells && id in y.shells[x1].clients && id in y.shells[x2].clients
    ensures x1 == x2
  {
    hide Inv;
    StartHoldsInv();
    RunKeepsRegInv(NewSys, steps);
    var y := RunFrom(NewSys, steps);
    assert y.owners[id] == Draw(y.shells[x1].clients[id].conn, x1);
  }

  /**
   * Once the exit loop of a connection is over, no shell in the map holds an attach that
   * the connection opened, then or later.
   */
  lemma {:induction false} GoneConnectionsHoldNothing(steps: seq<SysStep>, c: Conn, x: ShellId)
    requires IsRun(NewSys, steps)
    requires var y := RunFrom(NewSys, steps);
             c in y.threads && y.threads[c].phase.Gone? && IsRegistered(y, x) && y.shells[x].attach.Some?
    ensures var s := RunFrom(NewSys, steps).shells[x];
            s.attach.value in s.clients && s.clients[s.attach.value].conn != c
  {
    hide Inv;
    StartHoldsInv();
    RunKeepsRegInv(NewSys, steps);
    var y := RunFrom(NewSys, steps);
    var id := y.shells[x].attach.value;
    OwnerOfAttached(y, x, id);
    assert ThreadInv(y, c) && Listed(y, id);
    if y.shells[x].clients[id].conn == c {
      HeldThreadServes(y, x, c, id);
    }
  }

  lemma {:induction false} HeldThreadServes(y: Sys, x: ShellId, c: Conn, id: AttachId)
    requires LocksInv(y) && x in y.shells && EnteringId(y.shells[x]) == Some(id)
    requires id in y.shells[x].clients && y.shells[x].clients[id].conn == c
    ensures c in y.threads && y.threads[c].phase.Serving?
  {
    var d :| Works(y, d, Attaching(x));
    assert HeldBy(y.shells[x], d);
  }

  ghost predicate GoneClosed(y: Sys) {
    forall c | c in y.threads && y.threads[c].phase.Gone? :: c in y.closed
  }

  lemma {:induction false} StepKeepsGoneClosed(y: Sys, step: SysStep)
    requires GoneClosed(y) && CanDo(y, step)
    ensures GoneClosed(Do(y, step))
  {
    hide Apply, Enabled;
  }

  lemma {:induction false} RunKeepsGoneClosed(y: Sys, steps: seq<SysStep>)
    requires GoneClosed(y) && IsRun(y, steps)
    ensures GoneClosed(RunFrom(y, steps))
    decreases |steps|
  {
    hide GoneClosed, CanDo, Do;
    if steps != [] {
      StepKeepsGoneClosed(y, steps[0]);
      RunKeepsGoneClosed(Do(y, steps[0]), steps[1..]);
    }
  }

  /** Nothing that is sent reaches a connection whose thread is over. */
  lemma {:induction false} GoneConnectionsAreDeaf(steps: seq<SysStep>, c: Conn)
    requires IsRun(NewSys, steps) && c in RunFrom(NewSys, steps).threads
    ensures RunFrom(NewSys, steps).threads[c].phase.Gone? ==> c in RunFrom(NewSys, steps).closed
  {
    RunKeepsGoneClosed(NewSys, steps);
  }
}
