/**
 * Which locks each daemon operation takes, in which order and while holding which
 * others, and exactly which mixes of them can block one another for good.
 */
module LockOrder {
  import opened Ascii

  type ShellId = nat
  type ThreadId = nat

  datatype Field = Attach | Master | Terminal | Size | Scrollback | Events | Name | Status | Cwd

  datatype Lock = States | Of(shell: ShellId, field: Field)

  datatype Act = Acq(lock: Lock) | Rel(lock: Lock)

  /**
   * For each shell there are two orders of its locks: the one `attach` follows, with the
   * attach lock first, and the one `info` follows, with it last. An order is the set of
   * the shells whose attach lock comes last.
   */
  type Order = set<ShellId>

  const MAX_RANK: nat := 10

  function Rank(o: Order, lock: Lock): (r: nat)
    ensures r <= MAX_RANK
  {
    if lock.States? then 0
    else
      match lock.field
      case Attach => if lock.shell in o then 10 else 1
      case Master => 2
      case Terminal => 3
      case Size => 4
      case Scrollback => 5
      case Events => 6
      case Name => 7
      case Status => 8
      case Cwd => 9
  }

  // --------------------------------------------------------------------- operations

  datatype Operation =
    | Create(shell: ShellId)
    | Open(shell: ShellId, refused: bool, resized: bool)
    | Detach(scanned: seq<ShellId>, found: Option<ShellId>)
    | Input(scanned: seq<ShellId>, found: Option<ShellId>)
    | Resize(scanned: seq<ShellId>, found: Option<ShellId>, masterOpen: bool)
    | Rename(shell: ShellId)
    | Cleanup(shell: ShellId)
    | Kill(shell: ShellId)
    | KillIdle(scanned: seq<ShellId>, victims: seq<ShellId>)
    | Gc(dead: seq<ShellId>, pruned: seq<(ShellId, bool)>)
    | Record(shell: ShellId)
    | Poll(shell: ShellId)
    | Upgrade(shells: seq<ShellId>)
    | List(shells: seq<ShellId>)

  function Once(lock: Lock): seq<Act> {
    [Acq(lock), Rel(lock)]
  }

  function OnceEach(shell: ShellId, fields: seq<Field>): seq<Act> {
    if fields == [] then [] else Once(Of(shell, fields[0])) + OnceEach(shell, fields[1..])
  }

  function AttachCall(shell: ShellId, refused: bool, resized: bool): seq<Act> {
    if refused then Once(Of(shell, Attach))
    else
      [Acq(Of(shell, Attach))]
      + OnceEach(shell, if resized then [Master, Terminal, Size] else [Master])
      + OnceEach(shell, [Terminal, Name, Status, Cwd, Events])
      + [Rel(Of(shell, Attach))]
  }

  /** `state_for_attach` and the scan of `kill_idle_detached`. */
  function Scan(shells: seq<ShellId>): seq<Act> {
    [Acq(States)] + AttachOnce(shells) + [Rel(States)]
  }

  function AttachOnce(shells: seq<ShellId>): seq<Act> {
    if shells == [] then [] else Once(Of(shells[0], Attach)) + AttachOnce(shells[1..])
  }

  function CleanupCall(shell: ShellId): seq<Act> {
    Once(States) + OnceEach(shell, [Status, Attach, Master])
  }

  function Cleanups(shells: seq<ShellId>): seq<Act> {
    if shells == [] then [] else CleanupCall(shells[0]) + Cleanups(shells[1..])
  }

  /** `persist_metadata`: the guards of one struct expression live to its end. */
  function PersistMetadata(shell: ShellId): seq<Act> {
    Once(Of(shell, Size))
    + [Acq(Of(shell, Name)), Acq(Of(shell, Status)), Acq(Of(shell, Cwd)),
       Rel(Of(shell, Cwd)), Rel(Of(shell, Status)), Rel(Of(shell, Name))]
  }

  /** `info`: the same, but the last guard taken is that of `attach`. */
  function Info(shell: ShellId): seq<Act> {
    [Acq(Of(shell, Name)), Acq(Of(shell, Status)), Acq(Of(shell, Cwd)), Acq(Of(shell, Attach)),
     Rel(Of(shell, Attach)), Rel(Of(shell, Cwd)), Rel(Of(shell, Status)), Rel(Of(shell, Name))]
  }

  function Infos(shells: seq<ShellId>): seq<Act> {
    if shells == [] then [] else Info(shells[0]) + Infos(shells[1..])
  }

  /** `prune_storage_caps` on each shell: clear and persist the detached ones. */
  function Prunes(shells: seq<(ShellId, bool)>): seq<Act> {
    if shells == [] then []
    else
      Once(Of(shells[0].0, Attach))
      + (if shells[0].1 then []
         else OnceEach(shells[0].0, [Terminal, Scrollback, Events, Terminal, Scrollback, Events]))
      + Prunes(shells[1..])
  }

  function PersistAll(shells: seq<ShellId>): seq<Act> {
    if shells == [] then []
    else PersistMetadata(shells[0]) + OnceEach(shells[0], [Terminal, Scrollback, Events]) + PersistAll(shells[1..])
  }

  function Handoffs(shells: seq<ShellId>): seq<Act> {
    if shells == [] then [] else Once(Of(shells[0], Master)) + Handoffs(shells[1..])
  }

  function OnFound(found: Option<ShellId>, fields: seq<Field>): seq<Act> {
    if found.None? then [] else OnceEach(found.value, fields)
  }

  function Script(op: Operation): seq<Act> {
    match op
    case Create(x) => Once(States) + Once(States) + PersistMetadata(x)
    case Open(x, refused, resized) => Once(States) + AttachCall(x, refused, resized)
    case Detach(scanned, found) => Scan(scanned) + OnFound(found, [Attach])
    case Input(scanned, found) => Scan(scanned) + OnFound(found, [Master])
    case Resize(scanned, found, masterOpen) =>
      Scan(scanned) + OnFound(found, if masterOpen then [Master, Terminal, Size] else [Master])
    case Rename(x) => Once(States) + Once(Of(x, Name)) + PersistMetadata(x)
    case Cleanup(x) => CleanupCall(x)
    case Kill(x) => Once(States) + CleanupCall(x)
    case KillIdle(scanned, victims) => Scan(scanned) + Cleanups(victims)
    case Gc(dead, pruned) =>
      Once(States) + Cleanups(dead) + ([Acq(States)] + Prunes(pruned) + [Rel(States)]) + Once(States)
    case Record(x) => OnceEach(x, [Terminal, Scrollback, Events, Attach, Terminal, Scrollback, Events])
    case Poll(x) => OnceEach(x, [Status, Cwd, Attach])
    case Upgrade(shells) => Once(States) + PersistAll(shells) + Handoffs(shells)
    case List(shells) => [Acq(States)] + Infos(shells) + [Rel(States)]
  }

  // -------------------------------------------------------------------- lock order

  predicate Above(o: Order, lock: Lock, held: set<Lock>) {
    forall h | h in held :: Rank(o, h) < Rank(o, lock)
  }

  /** The locks held after `script`, if each lock was taken above all those held. */
  function HeldAfter(o: Order, script: seq<Act>, held: set<Lock>): Option<set<Lock>> {
    if script == [] then Some(held)
    else
      match script[0]
      case Acq(lock) => if Above(o, lock, held) then HeldAfter(o, script[1..], held + {lock}) else None
      case Rel(lock) => if lock in held then HeldAfter(o, script[1..], held - {lock}) else None
  }

  predicate Ordered(o: Order, script: seq<Act>, held: set<Lock>) {
    HeldAfter(o, script, held) == Some({})
  }

  lemma {:induction false} HeldAfterConcat(o: Order, a: seq<Act>, b: seq<Act>, held: set<Lock>)
    requires HeldAfter(o, a, held).Some?
    ensures HeldAfter(o, a + b, held) == HeldAfter(o, b, HeldAfter(o, a, held).value)
  {
    if a == [] {
      assert a + b == b;
    } else {
      assert (a + b)[1..] == a[1..] + b;
      HeldAfterConcat(o, a[1..], b, if a[0].Acq? then held + {a[0].lock} else held - {a[0].lock});
    }
  }

  /** A script that leaves the held locks as they were. */
  predicate Neutral(o: Order, script: seq<Act>, held: set<Lock>) {
    HeldAfter(o, script, held) == Some(held)
  }

  lemma {:induction false} NeutralConcat(o: Order, a: seq<Act>, b: seq<Act>, held: set<Lock>)
    requires Neutral(o, a, held) && Neutral(o, b, held)
    ensures Neutral(o, a + b, held)
  {
    HeldAfterConcat(o, a, b, held);
  }

  lemma {:induction false} Around(o: Order, lock: Lock, inner: seq<Act>, held: set<Lock>)
    requires Above(o, lock, held) && Neutral(o, inner, held + {lock})
    ensures Neutral(o, [Acq(lock)] + inner + [Rel(lock)], held)
  {
    var all := [Acq(lock)] + inner + [Rel(lock)];
    assert all[0] == Acq(lock) && all[1..] == inner + [Rel(lock)];
    HeldAfterConcat(o, inner, [Rel(lock)], held + {lock});
    assert [Rel(lock)][1..] == [];
    assert lock !in held;
    assert held + {lock} - {lock} == held;
  }

  lemma {:induction false} OnceIsNeutral(o: Order, lock: Lock, held: set<Lock>)
    requires Above(o, lock, held)
    ensures Neutral(o, Once(lock), held)
  {
    Around(o, lock, [], held);
    assert [Acq(lock)] + [] + [Rel(lock)] == Once(lock);
  }

  lemma {:induction false} OnceEachIsNeutral(o: Order, shell: ShellId, fields: seq<Field>, held: set<Lock>)
    requires forall i | 0 <= i < |fields| :: Above(o, Of(shell, fields[i]), held)
    ensures Neutral(o, OnceEach(shell, fields), held)
  {
    if fields != [] {
      OnceIsNeutral(o, Of(shell, fields[0]), held);
      OnceEachIsNeutral(o, shell, fields[1..], held);
      NeutralConcat(o, Once(Of(shell, fields[0])), OnceEach(shell, fields[1..]), held);
    }
  }

  lemma {:induction false} AttachOnceIsNeutral(o: Order, shells: seq<ShellId>)
    ensures Neutral(o, AttachOnce(shells), {States})
  {
    if shells != [] {
      OnceIsNeutral(o, Of(shells[0], Attach), {States});
      AttachOnceIsNeutral(o, shells[1..]);
      NeutralConcat(o, Once(Of(shells[0], Attach)), AttachOnce(shells[1..]), {States});
    }
  }

  lemma {:induction false} ScanIsNeutral(o: Order, shells: seq<ShellId>)
    ensures Neutral(o, Scan(shells), {})
  {
    AttachOnceIsNeutral(o, shells);
    assert {} + {States} == {States};
    Around(o, States, AttachOnce(shells), {});
  }

  lemma {:induction false} AttachCallIsNeutral(o: Order, x: ShellId, refused: bool, resized: bool)
    requires refused || x !in o
    ensures Neutral(o, AttachCall(x, refused, resized), {})
  {
    var lock := Of(x, Attach);
    if refused {
      OnceIsNeutral(o, lock, {});
    } else {
      var first := OnceEach(x, if resized then [Master, Terminal, Size] else [Master]);
      var second := OnceEach(x, [Terminal, Name, Status, Cwd, Events]);
      OnceEachIsNeutral(o, x, if resized then [Master, Terminal, Size] else [Master], {lock});
      OnceEachIsNeutral(o, x, [Terminal, Name, Status, Cwd, Events], {lock});
      NeutralConcat(o, first, second, {lock});
      assert {} + {lock} == {lock};
      Around(o, lock, first + second, {});
      assert [Acq(lock)] + first + second + [Rel(lock)] == [Acq(lock)] + (first + second) + [Rel(lock)];
    }
  }

  lemma {:induction false} PersistMetadataIsNeutral(o: Order, x: ShellId)
    ensures Neutral(o, PersistMetadata(x), {})
  {
    var n, s, c := Of(x, Name), Of(x, Status), Of(x, Cwd);
    OnceIsNeutral(o, c, {n, s});
    assert {n} + {s} == {n, s} && {} + {n} == {n};
    Around(o, s, Once(c), {n});
    Around(o, n, [Acq(s)] + Once(c) + [Rel(s)], {});
    var nested := [Acq(n)] + ([Acq(s)] + Once(c) + [Rel(s)]) + [Rel(n)];
    assert nested == [Acq(n), Acq(s), Acq(c), Rel(c), Rel(s), Rel(n)];
    OnceIsNeutral(o, Of(x, Size), {});
    NeutralConcat(o, Once(Of(x, Size)), nested, {});
  }

  lemma {:induction false} CleanupsAreNeutral(o: Order, shells: seq<ShellId>)
    ensures Neutral(o, Cleanups(shells), {})
  {
    if shells != [] {
      CleanupIsNeutral(o, shells[0]);
      CleanupsAreNeutral(o, shells[1..]);
      NeutralConcat(o, CleanupCall(shells[0]), Cleanups(shells[1..]), {});
    }
  }

  lemma {:induction false} CleanupIsNeutral(o: Order, x: ShellId)
    ensures Neutral(o, CleanupCall(x), {})
  {
    OnceIsNeutral(o, States, {});
    OnceEachIsNeutral(o, x, [Status, Attach, Master], {});
    NeutralConcat(o, Once(States), OnceEach(x, [Status, Attach, Master]), {});
  }

  lemma {:induction false} PrunesAreNeutral(o: Order, shells: seq<(ShellId, bool)>)
    ensures Neutral(o, Prunes(shells), {States})
  {
    if shells != [] {
      var x := shells[0].0;
      var fields := [Terminal, Scrollback, Events, Terminal, Scrollback, Events];
      var clear := if shells[0].1 then [] else OnceEach(x, fields);
      OnceIsNeutral(o, Of(x, Attach), {States});
      OnceEachIsNeutral(o, x, fields, {States});
      PrunesAreNeutral(o, shells[1..]);
      NeutralConcat(o, Once(Of(x, Attach)), clear, {States});
      NeutralConcat(o, Once(Of(x, Attach)) + clear, Prunes(shells[1..]), {States});
    }
  }

  lemma {:induction false} PersistAllIsNeutral(o: Order, shells: seq<ShellId>)
    ensures Neutral(o, PersistAll(shells), {})
  {
    if shells != [] {
      var files := OnceEach(shells[0], [Terminal, Scrollback, Events]);
      PersistMetadataIsNeutral(o, shells[0]);
      OnceEachIsNeutral(o, shells[0], [Terminal, Scrollback, Events], {});
      PersistAllIsNeutral(o, shells[1..]);
      NeutralConcat(o, PersistMetadata(shells[0]), files, {});
      NeutralConcat(o, PersistMetadata(shells[0]) + files, PersistAll(shells[1..]), {});
    }
  }

  lemma {:induction false} HandoffsAreNeutral(o: Order, shells: seq<ShellId>)
    ensures Neutral(o, Handoffs(shells), {})
  {
    if shells != [] {
      OnceIsNeutral(o, Of(shells[0], Master), {});
      HandoffsAreNeutral(o, shells[1..]);
      NeutralConcat(o, Once(Of(shells[0], Master)), Handoffs(shells[1..]), {});
    }
  }

  lemma {:induction false} OnFoundIsNeutral(o: Order, found: Option<ShellId>, fields: seq<Field>)
    ensures Neutral(o, OnFound(found, fields), {})
  {
    if found.Some? {
      OnceEachIsNeutral(o, found.value, fields, {});
    }
  }

  lemma {:induction false} GcIsNeutral(o: Order, dead: seq<ShellId>, pruned: seq<(ShellId, bool)>)
    ensures Neutral(o, Script(Gc(dead, pruned)), {})
  {
    var prune := [Acq(States)] + Prunes(pruned) + [Rel(States)];
    OnceIsNeutral(o, States, {});
    CleanupsAreNeutral(o, dead);
    PrunesAreNeutral(o, pruned);
    assert {} + {States} == {States};
    Around(o, States, Prunes(pruned), {});
    NeutralConcat(o, Once(States), Cleanups(dead), {});
    NeutralConcat(o, Once(States) + Cleanups(dead), prune, {});
    NeutralConcat(o, Once(States) + Cleanups(dead) + prune, Once(States), {});
  }

  lemma {:induction false} InfoIsNeutral(o: Order, x: ShellId)
    requires x in o
    ensures Neutral(o, Info(x), {States})
  {
    var n, s, c, a := Of(x, Name), Of(x, Status), Of(x, Cwd), Of(x, Attach);
    OnceIsNeutral(o, a, {States, n, s, c});
    assert {States} + {n} == {States, n} && {States, n} + {s} == {States, n, s};
    assert {States, n, s} + {c} == {States, n, s, c};
    Around(o, c, Once(a), {States, n, s});
    var inner := [Acq(c)] + Once(a) + [Rel(c)];
    Around(o, s, inner, {States, n});
    var middle := [Acq(s)] + inner + [Rel(s)];
    Around(o, n, middle, {States});
    assert Info(x) == [Acq(n)] + middle + [Rel(n)];
  }

  lemma {:induction false} InfosAreNeutral(o: Order, shells: seq<ShellId>)
    requires forall x | x in shells :: x in o
    ensures Neutral(o, Infos(shells), {States})
  {
    if shells != [] {
      InfoIsNeutral(o, shells[0]);
      InfosAreNeutral(o, shells[1..]);
      NeutralConcat(o, Info(shells[0]), Infos(shells[1..]), {States});
    }
  }

  lemma {:induction false} ListIsNeutral(o: Order, shells: seq<ShellId>)
    requires forall x | x in shells :: x in o
    ensures Neutral(o, Script(List(shells)), {})
  {
    InfosAreNeutral(o, shells);
    assert {} + {States} == {States};
    Around(o, States, Infos(shells), {});
  }

  /** `list` needs the attach lock of its shells last; an `attach` that goes through needs it first. */
  predicate Obeys(o: Order, op: Operation) {
    match op
    case List(shells) => forall x | x in shells :: x in o
    case Open(x, refused, _) => refused || x !in o
    case _ => true
  }

  /** An operation that obeys an order takes its locks in rising order and frees them all. */
  lemma {:induction false} OperationIsOrdered(o: Order, op: Operation)
    requires Obeys(o, op)
    ensures Ordered(o, Script(op), {})
  {
    hide Neutral, HeldAfter, Above;
    OnceIsNeutralAlone(o, States);
    match op
    case Create(x) =>
      PersistMetadataIsNeutral(o, x);
      NeutralConcat(o, Once(States), Once(States), {});
      NeutralConcat(o, Once(States) + Once(States), PersistMetadata(x), {});
    case Open(x, refused, resized) =>
      AttachCallIsNeutral(o, x, refused, resized);
      NeutralConcat(o, Once(States), AttachCall(x, refused, resized), {});
    case Detach(scanned, found) =>
      ScanThen(o, scanned, found, [Attach]);
    case Input(scanned, found) =>
      ScanThen(o, scanned, found, [Master]);
    case Resize(scanned, found, masterOpen) =>
      ScanThen(o, scanned, found, if masterOpen then [Master, Terminal, Size] else [Master]);
    case Rename(x) =>
      OnceIsNeutralAlone(o, Of(x, Name));
      PersistMetadataIsNeutral(o, x);
      NeutralConcat(o, Once(States), Once(Of(x, Name)), {});
      NeutralConcat(o, Once(States) + Once(Of(x, Name)), PersistMetadata(x), {});
    case Cleanup(x) =>
      CleanupIsNeutral(o, x);
    case Kill(x) =>
      CleanupIsNeutral(o, x);
      NeutralConcat(o, Once(States), CleanupCall(x), {});
    case KillIdle(scanned, victims) =>
      ScanIsNeutral(o, scanned);
      CleanupsAreNeutral(o, victims);
      NeutralConcat(o, Scan(scanned), Cleanups(victims), {});
    case Gc(dead, pruned) =>
      GcIsNeutral(o, dead, pruned);
    case Record(x) =>
      OnFoundIsNeutral(o, Some(x), [Terminal, Scrollback, Events, Attach, Terminal, Scrollback, Events]);
    case Poll(x) =>
      OnFoundIsNeutral(o, Some(x), [Status, Cwd, Attach]);
    case Upgrade(shells) =>
      PersistAllIsNeutral(o, shells);
      HandoffsAreNeutral(o, shells);
      NeutralConcat(o, Once(States), PersistAll(shells), {});
      NeutralConcat(o, Once(States) + PersistAll(shells), Handoffs(shells), {});
    case List(shells) =>
      ListIsNeutral(o, shells);
  }

  lemma {:induction false} OnceIsNeutralAlone(o: Order, lock: Lock)
    ensures Neutral(o, Once(lock), {})
  {
    OnceIsNeutral(o, lock, {});
  }

  lemma {:induction false} ScanThen(o: Order, scanned: seq<ShellId>, found: Option<ShellId>, fields: seq<Field>)
    ensures Neutral(o, Scan(scanned) + OnFound(found, fields), {})
  {
    ScanIsNeutral(o, scanned);
    OnFoundIsNeutral(o, found, fields);
    NeutralConcat(o, Scan(scanned), OnFound(found, fields), {});
  }

  // ------------------------------------------------------------------------ threads

  datatype Thread = Thread(todo: seq<Act>, held: set<Lock>)

  type Threads = map<ThreadId, Thread>

  datatype Move = Start(thread: ThreadId, op: Operation) | Advance(thread: ThreadId)

  predicate IsFree(ts: Threads, lock: Lock) {
    forall t | t in ts :: lock !in ts[t].held
  }

  /** A thread can move on unless it waits for a lock that is held. */
  predicate CanAdvance(ts: Threads, t: ThreadId) {
    t in ts && ts[t].todo != [] && (ts[t].todo[0].Acq? ==> IsFree(ts, ts[t].todo[0].lock))
  }

  predicate CanMove(ts: Threads, move: Move) {
    match move
    case Start(t, _) => t !in ts
    case Advance(t) => CanAdvance(ts, t)
  }

  /** The threads after a move that can be made; any other changes nothing. */
  function Moved(ts: Threads, move: Move): Threads {
    if !CanMove(ts, move) then ts else
    match move
    case Start(t, op) => ts[t := Thread(Script(op), {})]
    case Advance(t) =>
      var th := ts[t];
      var held := if th.todo[0].Acq? then th.held + {th.todo[0].lock} else th.held - {th.todo[0].lock};
      ts[t := Thread(th.todo[1..], held)]
  }

  predicate IsRun(ts: Threads, moves: seq<Move>)
    decreases |moves|
  {
    moves == [] || (CanMove(ts, moves[0]) && IsRun(Moved(ts, moves[0]), moves[1..]))
  }

  function RunFrom(ts: Threads, moves: seq<Move>): Threads
    decreases |moves|
  {
    if moves == [] then ts else RunFrom(Moved(ts, moves[0]), moves[1..])
  }

  ghost predicate Inv(o: Order, ts: Threads) {
    && (forall t | t in ts :: Ordered(o, ts[t].todo, ts[t].held))
    && (forall t, u, l | t in ts && u in ts && l in ts[t].held && l in ts[u].held :: t == u)
  }

  predicate AllObey(o: Order, moves: seq<Move>) {
    forall i | 0 <= i < |moves| :: moves[i].Start? ==> Obeys(o, moves[i].op)
  }

  lemma {:induction false} MoveKeepsInv(o: Order, ts: Threads, move: Move)
    requires Inv(o, ts) && CanMove(ts, move) && (move.Start? ==> Obeys(o, move.op))
    ensures Inv(o, Moved(ts, move))
  {
    if move.Start? {
      OperationIsOrdered(o, move.op);
      hide Script;
    }
  }

  lemma {:induction false} RunKeepsInv(o: Order, ts: Threads, moves: seq<Move>)
    requires Inv(o, ts) && IsRun(ts, moves) && AllObey(o, moves)
    ensures Inv(o, RunFrom(ts, moves))
    decreases |moves|
  {
    hide Inv, CanMove, Moved;
    if moves != [] {
      MoveKeepsInv(o, ts, moves[0]);
      RunKeepsInv(o, Moved(ts, moves[0]), moves[1..]);
    }
  }

  predicate WaitsFor(ts: Threads, t: ThreadId, u: ThreadId) {
    t in ts && u in ts && ts[t].todo != [] && ts[t].todo[0].Acq? && ts[t].todo[0].lock in ts[u].held
  }

  /** Along a chain of waiting threads the awaited lock rises, so no chain closes. */
  lemma {:induction false} WaitsRise(o: Order, ts: Threads, t: ThreadId, u: ThreadId)
    requires Inv(o, ts) && WaitsFor(ts, t, u)
    ensures ts[u].todo != []
    ensures ts[u].todo[0].Acq? ==> Rank(o, ts[t].todo[0].lock) < Rank(o, ts[u].todo[0].lock)
  {
    assert Ordered(o, ts[u].todo, ts[u].held);
  }

  /** Following the holders from any unfinished thread leads to one that can move. */
  lemma {:induction false} SomeoneCanAdvance(o: Order, ts: Threads, t: ThreadId) returns (u: ThreadId)
    requires Inv(o, ts) && t in ts && ts[t].todo != []
    ensures CanAdvance(ts, u)
    decreases if ts[t].todo[0].Acq? then MAX_RANK + 1 - Rank(o, ts[t].todo[0].lock) else 0
  {
    if CanAdvance(ts, t) {
      return t;
    }
    var holder :| holder in ts && ts[t].todo[0].lock in ts[holder].held;
    WaitsRise(o, ts, t, holder);
    u := SomeoneCanAdvance(o, ts, holder);
  }

  /**
   * No deadlock: whatever mix of operations obeying one order is started, in every
   * reachable state with unfinished work some thread can move.
   */
  lemma {:induction false} NeverStuck(o: Order, moves: seq<Move>, t: ThreadId)
    requires IsRun(map[], moves) && AllObey(o, moves)
    requires t in RunFrom(map[], moves) && RunFrom(map[], moves)[t].todo != []
    ensures exists u :: CanAdvance(RunFrom(map[], moves), u)
  {
    RunKeepsInv(o, map[], moves);
    var u := SomeoneCanAdvance(o, RunFrom(map[], moves), t);
  }

  ghost predicate Stuck(ts: Threads) {
    (exists t :: t in ts && ts[t].todo != []) && forall u :: !CanAdvance(ts, u)
  }

  // ---------------------------------------------------------------- list and attach

  function ListScript(x: ShellId): seq<Act> {
    [Acq(States), Acq(Of(x, Name)), Acq(Of(x, Status)), Acq(Of(x, Cwd))] + Blocked(x)
  }

  /** What `list` still has to do when it asks for `attach`. */
  function Blocked(x: ShellId): seq<Act> {
    [Acq(Of(x, Attach)), Rel(Of(x, Attach)), Rel(Of(x, Cwd)), Rel(Of(x, Status)), Rel(Of(x, Name)), Rel(States)]
  }

  lemma {:induction false} ListOfOne(x: ShellId)
    ensures Script(List([x])) == ListScript(x)
  {
    assert [x][1..] == [] && Infos([x]) == Info(x) + [];
  }

  /** `list` breaks the order that `attach` follows: it takes `attach` while holding name, status and cwd. */
  lemma {:induction false} ListIsNotOrdered(o: Order, x: ShellId)
    requires x !in o
    ensures !Ordered(o, Script(List([x])), {})
  {
    ListOfOne(x);
    var s := ListScript(x);
    var h := {States, Of(x, Name), Of(x, Status), Of(x, Cwd)};
    assert s[0..] == s;
    StepIn(o, s, {}, 0);
    assert {} + {States} == {States};
    StepIn(o, s, {States}, 1);
    StepIn(o, s, {States, Of(x, Name)}, 2);
    StepIn(o, s, {States, Of(x, Name), Of(x, Status)}, 3);
    assert {States} + {Of(x, Name)} == {States, Of(x, Name)};
    assert {States, Of(x, Name)} + {Of(x, Status)} == {States, Of(x, Name), Of(x, Status)};
    assert {States, Of(x, Name), Of(x, Status)} + {Of(x, Cwd)} == h;
    assert Of(x, Cwd) in h && !Above(o, Of(x, Attach), h);
    StepIn(o, s, h, 4);
  }

  lemma {:induction false} StepIn(o: Order, s: seq<Act>, held: set<Lock>, i: nat)
    requires i < |s| && s[i].Acq?
    ensures HeldAfter(o, s[i..], held) ==
            if Above(o, s[i].lock, held) then HeldAfter(o, s[i + 1..], held + {s[i].lock}) else None
  {
    assert s[i..][0] == s[i] && s[i..][1..] == s[i + 1..];
  }

  /** Some started `list` names `x`. */
  predicate ListedIn(moves: seq<Move>, x: ShellId) {
    exists i | 0 <= i < |moves| :: moves[i].Start? && moves[i].op.List? && x in moves[i].op.shells
  }

  /** Some started `attach` of `x` went through. */
  predicate AttachedIn(moves: seq<Move>, x: ShellId) {
    exists i | 0 <= i < |moves| ::
      moves[i].Start? && moves[i].op.Open? && moves[i].op.shell == x && !moves[i].op.refused
  }

  function Listed(moves: seq<Move>): (o: set<ShellId>)
    ensures forall x :: x in o <==> ListedIn(moves, x)
  {
    set i, x | 0 <= i < |moves| && moves[i].Start? && moves[i].op.List? && x in moves[i].op.shells :: x
  }

  /** A run can end in a deadlock only if it lists a shell that an `attach` of the run opens. */
  lemma {:induction false} StuckNeedsListedAttach(moves: seq<Move>) returns (x: ShellId)
    requires IsRun(map[], moves) && Stuck(RunFrom(map[], moves))
    ensures ListedIn(moves, x) && AttachedIn(moves, x)
  {
    hide IsRun, RunFrom, CanAdvance, ListedIn, AttachedIn;
    var o := Listed(moves);
    var t :| t in RunFrom(map[], moves) && RunFrom(map[], moves)[t].todo != [];
    if AllObey(o, moves) {
      NeverStuck(o, moves, t);
    }
    var i :| 0 <= i < |moves| && moves[i].Start? && !Obeys(o, moves[i].op);
    if moves[i].op.List? {
      ListsObey(moves, i);
    }
    x := moves[i].op.shell;
    AttachedThere(moves, i);
  }

  lemma {:induction false} AttachedThere(moves: seq<Move>, i: nat)
    requires i < |moves| && moves[i].Start? && moves[i].op.Open? && !moves[i].op.refused
    ensures AttachedIn(moves, moves[i].op.shell)
  {
  }

  lemma {:induction false} ListsObey(moves: seq<Move>, i: nat)
    requires i < |moves| && moves[i].Start? && moves[i].op.List?
    ensures Obeys(Listed(moves), moves[i].op)
  {
    hide Listed;
    forall x | x in moves[i].op.shells
      ensures x in Listed(moves)
    {
      assert ListedIn(moves, x);
    }
  }

  lemma {:induction false} Extend(ts: Threads, moves: seq<Move>, move: Move)
    requires IsRun(ts, moves) && CanMove(RunFrom(ts, moves), move)
    ensures IsRun(ts, moves + [move]) && RunFrom(ts, moves + [move]) == Moved(RunFrom(ts, moves), move)
    decreases |moves|
  {
    hide CanMove, Moved;
    if moves == [] {
      assert [] + [move] == [move] && [move][1..] == [];
      assert IsRun(Moved(ts, move), []);
    } else {
      Extend(Moved(ts, moves[0]), moves[1..], move);
      assert (moves + [move])[1..] == moves[1..] + [move] && (moves + [move])[0] == moves[0];
    }
  }

  ghost predicate StartsOnly(moves: seq<Move>, mix: set<Operation>) {
    forall i | 0 <= i < |moves| :: moves[i].Start? ==> moves[i].op in mix
  }

  ghost predicate Reached(moves: seq<Move>, ts: Threads, mix: set<Operation>) {
    IsRun(map[], moves) && RunFrom(map[], moves) == ts && StartsOnly(moves, mix)
  }

  lemma {:induction false} Go(moves: seq<Move>, ts: Threads, mix: set<Operation>, move: Move)
    requires Reached(moves, ts, mix) && CanMove(ts, move) && (move.Start? ==> move.op in mix)
    ensures Reached(moves + [move], Moved(ts, move), mix)
  {
    hide IsRun, RunFrom, CanMove, Moved;
    Extend(map[], moves, move);
  }

  /** The only thread takes a free lock and lets it go again. */
  lemma {:induction false} TakeAndDropAlone(moves: seq<Move>, mix: set<Operation>, lock: Lock, rest: seq<Act>,
                                            held: set<Lock>)
    requires Reached(moves, map[0 := Thread(Once(lock) + rest, held)], mix) && lock !in held
    ensures Reached(moves + [Advance(0)] + [Advance(0)], map[0 := Thread(rest, held)], mix)
  {
    assert Once(lock) + rest == [Acq(lock)] + ([Rel(lock)] + rest);
    TakeAlone(moves, mix, lock, [Rel(lock)] + rest, held);
    hide Reached;
    var ts: Threads := map[0 := Thread([Rel(lock)] + rest, held + {lock})];
    assert ([Rel(lock)] + rest)[1..] == rest && held + {lock} - {lock} == held;
    Go(moves + [Advance(0)], ts, mix, Advance(0));
    assert ts[0 := Thread(rest, held)] == map[0 := Thread(rest, held)];
  }

  lemma {:induction false} TakeAlone(moves: seq<Move>, mix: set<Operation>, lock: Lock, rest: seq<Act>, held: set<Lock>)
    requires Reached(moves, map[0 := Thread([Acq(lock)] + rest, held)], mix) && lock !in held
    ensures Reached(moves + [Advance(0)], map[0 := Thread(rest, held + {lock})], mix)
  {
    hide Reached;
    var ts: Threads := map[0 := Thread([Acq(lock)] + rest, held)];
    assert ([Acq(lock)] + rest)[1..] == rest;
    Go(moves, ts, mix, Advance(0));
    assert ts[0 := Thread(rest, held + {lock})] == map[0 := Thread(rest, held + {lock})];
  }

  lemma {:induction false} SectionsAlone(moves: seq<Move>, mix: set<Operation>, x: ShellId, fields: seq<Field>,
                                         rest: seq<Act>, held: set<Lock>) returns (longer: seq<Move>)
    requires Reached(moves, map[0 := Thread(OnceEach(x, fields) + rest, held)], mix)
    requires forall f | f in fields :: Of(x, f) !in held
    ensures Reached(longer, map[0 := Thread(rest, held)], mix)
    decreases |fields|
  {
    hide Reached, Once;
    if fields == [] {
      assert [] + rest == rest;
      return moves;
    }
    var lock, more := Of(x, fields[0]), OnceEach(x, fields[1..]) + rest;
    assert OnceEach(x, fields) + rest == Once(lock) + more;
    TakeAndDropAlone(moves, mix, lock, more, held);
    longer := SectionsAlone(moves + [Advance(0)] + [Advance(0)], mix, x, fields[1..], rest, held);
  }

  /** What an `attach` still has to do when it asks for `name`. */
  function Unfinished(x: ShellId): seq<Act> {
    OnceEach(x, [Name, Status, Cwd, Events]) + [Rel(Of(x, Attach))]
  }

  function Sizing(resized: bool): seq<Field> {
    if resized then [Master, Terminal, Size] else [Master]
  }

  lemma {:induction false} OpenScript(x: ShellId, resized: bool)
    ensures Script(Open(x, false, resized)) ==
            Once(States)
            + ([Acq(Of(x, Attach))] + (OnceEach(x, Sizing(resized)) + (OnceEach(x, [Terminal]) + Unfinished(x))))
  {
    hide Once;
    var first, rest := OnceEach(x, Sizing(resized)), OnceEach(x, [Name, Status, Cwd, Events]);
    assert [Terminal, Name, Status, Cwd, Events][1..] == [Name, Status, Cwd, Events] && [Terminal][1..] == [];
    assert OnceEach(x, [Terminal, Name, Status, Cwd, Events]) == Once(Of(x, Terminal)) + rest;
    assert OnceEach(x, [Terminal]) == Once(Of(x, Terminal)) + OnceEach(x, []);
  }

  lemma {:induction false} StartOne(op: Operation, mix: set<Operation>)
    requires op in mix
    ensures Reached([Start(0, op)], map[0 := Thread(Script(op), {})], mix)
  {
    hide Script;
    var m := [Start(0, op)];
    assert m[1..] == [];
    assert IsRun(Moved(map[], m[0]), []);
    assert RunFrom(map[], m) == Moved(map[], m[0]) == map[0 := Thread(Script(op), {})];
  }

  lemma {:induction false} AttachUpToName(x: ShellId, resized: bool, mix: set<Operation>) returns (moves: seq<Move>)
    requires Open(x, false, resized) in mix
    ensures Reached(moves, map[0 := Thread(Unfinished(x), {Of(x, Attach)})], mix)
  {
    hide Reached, Script, Once, OnceEach, Unfinished;
    var attach := Of(x, Attach);
    var r2 := OnceEach(x, [Terminal]) + Unfinished(x);
    var r1 := OnceEach(x, Sizing(resized)) + r2;
    StartOne(Open(x, false, resized), mix);
    OpenScript(x, resized);
    moves := [Start(0, Open(x, false, resized))];
    TakeAndDropAlone(moves, mix, States, [Acq(attach)] + r1, {});
    moves := moves + [Advance(0)] + [Advance(0)];
    TakeAlone(moves, mix, attach, r1, {});
    assert {} + {attach} == {attach};
    moves := SectionsAlone(moves + [Advance(0)], mix, x, Sizing(resized), r2, {attach});
    moves := SectionsAlone(moves, mix, x, [Terminal], Unfinished(x), {attach});
  }

  /** Beside a waiting thread `a`, thread 1 takes a lock. */
  lemma {:induction false} TakeBeside(moves: seq<Move>, mix: set<Operation>, a: Thread, lock: Lock, rest: seq<Act>,
                                      held: set<Lock>)
    requires Reached(moves, map[0 := a, 1 := Thread([Acq(lock)] + rest, held)], mix)
    requires lock !in held && lock !in a.held
    ensures Reached(moves + [Advance(1)], map[0 := a, 1 := Thread(rest, held + {lock})], mix)
  {
    hide Reached;
    var ts: Threads := map[0 := a, 1 := Thread([Acq(lock)] + rest, held)];
    assert ([Acq(lock)] + rest)[1..] == rest;
    Go(moves, ts, mix, Advance(1));
    assert ts[1 := Thread(rest, held + {lock})] == map[0 := a, 1 := Thread(rest, held + {lock})];
  }

  lemma {:induction false} DropBeside(moves: seq<Move>, mix: set<Operation>, a: Thread, lock: Lock, rest: seq<Act>,
                                      held: set<Lock>)
    requires Reached(moves, map[0 := a, 1 := Thread([Rel(lock)] + rest, held + {lock})], mix) && lock !in held
    ensures Reached(moves + [Advance(1)], map[0 := a, 1 := Thread(rest, held)], mix)
  {
    hide Reached;
    var ts: Threads := map[0 := a, 1 := Thread([Rel(lock)] + rest, held + {lock})];
    assert ([Rel(lock)] + rest)[1..] == rest && held + {lock} - {lock} == held;
    Go(moves, ts, mix, Advance(1));
    assert ts[1 := Thread(rest, held)] == map[0 := a, 1 := Thread(rest, held)];
  }

  function NameHeld(x: ShellId): set<Lock> {
    {States} + {Of(x, Name)}
  }

  function StatusHeld(x: ShellId): set<Lock> {
    NameHeld(x) + {Of(x, Status)}
  }

  /** What `info` holds when it asks for `attach`. */
  function InfoHeld(x: ShellId): set<Lock> {
    StatusHeld(x) + {Of(x, Cwd)}
  }

  /** What `info` still has to do when it holds `attach`. */
  function InfoTail(x: ShellId): seq<Act> {
    [Rel(Of(x, Attach))] + ([Rel(Of(x, Cwd))] + ([Rel(Of(x, Status))] + [Rel(Of(x, Name))]))
  }

  lemma {:induction false} InfoSplits(x: ShellId, rest: seq<Act>)
    ensures Info(x) + rest ==
            [Acq(Of(x, Name))]
            + ([Acq(Of(x, Status))] + ([Acq(Of(x, Cwd))] + ([Acq(Of(x, Attach))] + (InfoTail(x) + rest))))
    ensures InfoTail(x) + rest ==
            [Rel(Of(x, Attach))] + ([Rel(Of(x, Cwd))] + ([Rel(Of(x, Status))] + ([Rel(Of(x, Name))] + rest)))
  {
  }

  /** Beside `a`, an `info` gets as far as asking for `attach`. */
  lemma {:induction false} InfoUpToAttach(moves: seq<Move>, mix: set<Operation>, a: Thread, x: ShellId,
                                          y: ShellId, rest: seq<Act>)
    returns (longer: seq<Move>)
    requires Reached(moves, map[0 := a, 1 := Thread(Info(x) + rest, {States})], mix) && a.held == {Of(y, Attach)}
    ensures Reached(longer, map[0 := a, 1 := Thread([Acq(Of(x, Attach))] + (InfoTail(x) + rest), InfoHeld(x))], mix)
  {
    hide Reached, Info, InfoTail;
    InfoSplits(x, rest);
    var r3 := [Acq(Of(x, Attach))] + (InfoTail(x) + rest);
    var r2 := [Acq(Of(x, Cwd))] + r3;
    var r1 := [Acq(Of(x, Status))] + r2;
    TakeBeside(moves, mix, a, Of(x, Name), r1, {States});
    TakeBeside(moves + [Advance(1)], mix, a, Of(x, Status), r2, NameHeld(x));
    longer := moves + [Advance(1)] + [Advance(1)];
    TakeBeside(longer, mix, a, Of(x, Cwd), r3, StatusHeld(x));
    longer := longer + [Advance(1)];
  }

  /** Beside an `attach` of another shell, an `info` goes through. */
  lemma {:induction false} InfoPasses(moves: seq<Move>, mix: set<Operation>, a: Thread, x: ShellId, y: ShellId,
                                      rest: seq<Act>)
    returns (longer: seq<Move>)
    requires Reached(moves, map[0 := a, 1 := Thread(Info(x) + rest, {States})], mix)
    requires a.held == {Of(y, Attach)} && x != y
    ensures Reached(longer, map[0 := a, 1 := Thread(rest, {States})], mix)
  {
    longer := InfoUpToAttach(moves, mix, a, x, y, rest);
    InfoSplits(x, rest);
    hide Reached, InfoTail, Info;
    var r3 := [Rel(Of(x, Name))] + rest;
    var r2 := [Rel(Of(x, Status))] + r3;
    var r1 := [Rel(Of(x, Cwd))] + r2;
    TakeBeside(longer, mix, a, Of(x, Attach), InfoTail(x) + rest, InfoHeld(x));
    longer := longer + [Advance(1)];
    DropBeside(longer, mix, a, Of(x, Attach), r1, InfoHeld(x));
    longer := longer + [Advance(1)];
    DropBeside(longer, mix, a, Of(x, Cwd), r2, StatusHeld(x));
    longer := longer + [Advance(1)];
    DropBeside(longer, mix, a, Of(x, Status), r3, NameHeld(x));
    longer := longer + [Advance(1)];
    DropBeside(longer, mix, a, Of(x, Name), rest, {States});
    longer := longer + [Advance(1)];
  }

  /** Beside an `attach` of `x`, a `list` gets as far as asking for the attach lock of `x`. */
  lemma {:induction false} InfosUpToAttach(moves: seq<Move>, mix: set<Operation>, a: Thread, x: ShellId,
                                           shells: seq<ShellId>,
                                           tail: seq<Act>) returns (longer: seq<Move>, rest: seq<Act>)
    requires Reached(moves, map[0 := a, 1 := Thread(Infos(shells) + tail, {States})], mix)
    requires a.held == {Of(x, Attach)} && x in shells
    ensures Reached(longer, map[0 := a, 1 := Thread([Acq(Of(x, Attach))] + rest, InfoHeld(x))], mix)
    decreases |shells|
  {
    hide Reached, Info, InfoHeld;
    var more := Infos(shells[1..]) + tail;
    assert Infos(shells) + tail == Info(shells[0]) + more;
    if shells[0] == x {
      longer := InfoUpToAttach(moves, mix, a, x, x, more);
      rest := InfoTail(x) + more;
    } else {
      longer := InfoPasses(moves, mix, a, shells[0], x, more);
      longer, rest := InfosUpToAttach(longer, mix, a, x, shells[1..], tail);
    }
  }

  lemma {:induction false} StartSecond(moves: seq<Move>, mix: set<Operation>, a: Thread, op: Operation)
    requires Reached(moves, map[0 := a], mix) && op in mix
    ensures Reached(moves + [Start(1, op)], map[0 := a, 1 := Thread(Script(op), {})], mix)
  {
    hide Reached, Script;
    Go(moves, map[0 := a], mix, Start(1, op));
    assert map[0 := a][1 := Thread(Script(op), {})] == map[0 := a, 1 := Thread(Script(op), {})];
  }

  lemma {:induction false} ListUpToAttach(moves: seq<Move>, mix: set<Operation>, a: Thread, x: ShellId,
                                          shells: seq<ShellId>)
    returns (longer: seq<Move>, rest: seq<Act>)
    requires Reached(moves, map[0 := a], mix) && a.held == {Of(x, Attach)}
    requires x in shells && List(shells) in mix
    ensures Reached(longer, map[0 := a, 1 := Thread([Acq(Of(x, Attach))] + rest, InfoHeld(x))], mix)
  {
    hide Reached, Infos, InfoHeld;
    StartSecond(moves, mix, a, List(shells));
    longer := moves + [Start(1, List(shells))];
    var tail := Infos(shells) + [Rel(States)];
    assert Script(List(shells)) == [Acq(States)] + tail;
    TakeBeside(longer, mix, a, States, tail, {});
    assert {} + {States} == {States};
    longer, rest := InfosUpToAttach(longer + [Advance(1)], mix, a, x, shells, [Rel(States)]);
  }

  lemma {:induction false} EachWaits(ts: Threads, x: ShellId, rest: seq<Act>)
    requires ts == map[0 := Thread(Unfinished(x), {Of(x, Attach)}),
                       1 := Thread([Acq(Of(x, Attach))] + rest, InfoHeld(x))]
    ensures WaitsFor(ts, 0, 1) && WaitsFor(ts, 1, 0) && Stuck(ts)
  {
    UnfinishedStart(x);
    hide Unfinished;
  }

  lemma {:induction false} UnfinishedStart(x: ShellId)
    ensures Unfinished(x) != [] && Unfinished(x)[0] == Acq(Of(x, Name))
  {
  }

  /** An `attach` of `x` and any `list` that names `x` can come to wait for each other for ever. */
  lemma {:induction false} AttachAndListCanBlock(x: ShellId, resized: bool, shells: seq<ShellId>)
    returns (moves: seq<Move>)
    requires x in shells
    ensures IsRun(map[], moves) && StartsOnly(moves, {Open(x, false, resized), List(shells)})
    ensures var ts := RunFrom(map[], moves);
            0 in ts && 1 in ts && WaitsFor(ts, 0, 1) && WaitsFor(ts, 1, 0) && Stuck(ts)
  {
    hide Unfinished, IsRun, RunFrom, CanAdvance, InfoHeld, StartsOnly;
    var mix := {Open(x, false, resized), List(shells)};
    moves := AttachUpToName(x, resized, mix);
    var rest;
    moves, rest := ListUpToAttach(moves, mix, Thread(Unfinished(x), {Of(x, Attach)}), x, shells);
    EachWaits(RunFrom(map[], moves), x, rest);
  }

  /** Some run that starts only operations of `mix` ends in a deadlock. */
  ghost predicate CanDeadlock(mix: set<Operation>) {
    exists moves :: IsRun(map[], moves) && StartsOnly(moves, mix) && Stuck(RunFrom(map[], moves))
  }

  /** The mix lists a shell that an `attach` of the mix opens. */
  ghost predicate ListsAnAttached(mix: set<Operation>) {
    exists shells, x, resized :: x in shells && List(shells) in mix && Open(x, false, resized) in mix
  }

  /** Which operations can deadlock when any number of each may run at once. */
  lemma {:induction false} DeadlockExactly(mix: set<Operation>)
    ensures CanDeadlock(mix) <==> ListsAnAttached(mix)
  {
    hide IsRun, RunFrom, Stuck;
    if CanDeadlock(mix) {
      var moves :| IsRun(map[], moves) && StartsOnly(moves, mix) && Stuck(RunFrom(map[], moves));
      var x := StuckNeedsListedAttach(moves);
    }
    if ListsAnAttached(mix) {
      var shells, x, resized :| x in shells && List(shells) in mix && Open(x, false, resized) in mix;
      var moves := AttachAndListCanBlock(x, resized, shells);
      assert StartsOnly(moves, mix);
    }
  }
}
