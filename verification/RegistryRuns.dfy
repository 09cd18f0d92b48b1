/**
 * From the registry to its shells: every run of the registry is, for each shell, a run of
 * the single-shell machine; and what a connection that is gone can still hold.
 */
module RegistryRuns {
  import opened Ascii
  import opened ShellProtocol
  import opened ShellInvariant
  import ShellTheorems
  import ShellEnding
  import Registry

  function Seen(y: Registry.Sys, x: Registry.ShellId): World
    requires x in y.shells
  {
    World(y.shells[x], y.closed)
  }

  // --------------------------------------------------------------------- projection

  /** What one registry step does to shell `x`: nothing, or one step of the single-shell machine. */
  function Projected(y: Registry.Sys, step: Registry.SysStep, x: Registry.ShellId): seq<Step>
    requires Registry.CanDo(y, step)
  {
    match step
    case Background(shell, a) => if shell == x then [Act(a)] else []
    case AttachPart(_, shell, a) => if shell == x then [Act(a)] else []
    case DetachFound(conn) =>
      var w := y.threads[conn].work;
      if w.shell == x then [Act(DetachClient(w.id))] else []
    case FinishExit(conn) => [CloseChannel(conn)]
    case LoseChannel(conn) => [CloseChannel(conn)]
    case _ => []
  }

  lemma {:induction false} StepProjects(y: Registry.Sys, step: Registry.SysStep, x: Registry.ShellId)
    requires Registry.CanDo(y, step) && x in y.shells
    ensures var z := Registry.Do(y, step); var p := Projected(y, step, x);
            && x in z.shells && |p| <= 1
            && (p == [] ==> Seen(z, x) == Seen(y, x))
            && (p != [] ==> CanStep(Seen(y, x), p[0]) && Next(Seen(y, x), p[0]) == Seen(z, x))
  {
    hide Apply, Enabled;
    assert step.DetachFound? ==>
        var w := y.threads[step.conn].work; Enabled(y.shells[w.shell], DetachClient(w.id)) by {
      DetachEnabled();
    }
  }

  lemma {:induction false} DetachEnabled()
    ensures forall s: Shell, id :: Enabled(s, DetachClient(id)) <==> s.attacher.Free?
  {
  }

  lemma {:induction false} ProjectFrom(y: Registry.Sys, steps: seq<Registry.SysStep>, x: Registry.ShellId)
    returns (single: seq<Step>)
    requires Registry.IsRun(y, steps) && x in y.shells
    ensures x in Registry.RunFrom(y, steps).shells && IsRun(Seen(y, x), single)
    ensures RunFrom(Seen(y, x), single) == Seen(Registry.RunFrom(y, steps), x)
    decreases |steps|
  {
    hide Registry.CanDo, Registry.Do, CanStep, Next, Projected;
    if steps == [] {
      return [];
    }
    StepProjects(y, steps[0], x);
    var p := Projected(y, steps[0], x);
    var rest := ProjectFrom(Registry.Do(y, steps[0]), steps[1..], x);
    single := p + rest;
    if p == [] {
      assert single == rest;
    } else {
      assert single[0] == p[0] && single[1..] == rest;
    }
  }

  /** The single-shell theorems speak of every shell of every registry run. */
  lemma {:induction false} EveryShellRuns(y: Registry.Sys, steps: seq<Registry.SysStep>, x: Registry.ShellId)
    returns (init: World, single: seq<Step>)
    requires Registry.IsRun(y, steps) && x !in y.shells && x in Registry.RunFrom(y, steps).shells
    ensures ShellTheorems.Run(init, single)
    ensures ShellTheorems.Final(init, single) == Seen(Registry.RunFrom(y, steps), x)
    decreases |steps|
  {
    hide Registry.CanDo, Registry.Do, IsRun, RunFrom, Initial;
    var z := Registry.Do(y, steps[0]);
    if x in z.shells {
      CreatedFresh(y, steps[0], x);
      init := Seen(z, x);
      single := ProjectFrom(z, steps[1..], x);
    } else {
      init, single := EveryShellRuns(z, steps[1..], x);
    }
  }

  lemma {:induction false} CreatedFresh(y: Registry.Sys, step: Registry.SysStep, x: Registry.ShellId)
    requires Registry.CanDo(y, step) && x !in y.shells && x in Registry.Do(y, step).shells
    ensures Initial(Registry.Do(y, step).shells[x])
  {
    hide Apply, Initial;
  }

  // ------------------------------------------------------- attaches outside the map

  /** After `k` steps the cleanup of `x` had taken the attach field, and `id` was not drawn yet. */
  ghost predicate NotDrawnAtTake(y: Registry.Sys, steps: seq<Registry.SysStep>, k: nat, x: Registry.ShellId,
                                 id: AttachId) {
    && k <= |steps| && Registry.IsRun(y, steps[..k])
    && var z := Registry.RunFrom(y, steps[..k]);
       x in z.shells && ExitingStarted(z.shells[x]) && id !in z.shells[x].clients
  }

  lemma {:induction false} LaterStart(y: Registry.Sys, steps: seq<Registry.SysStep>, x: Registry.ShellId, id: AttachId)
    requires steps != [] && Registry.IsRun(y, steps)
    requires exists k: nat :: NotDrawnAtTake(Registry.Do(y, steps[0]), steps[1..], k, x, id)
    ensures exists k: nat :: NotDrawnAtTake(y, steps, k, x, id)
  {
    hide Registry.CanDo, Registry.Do;
    var k: nat :| NotDrawnAtTake(Registry.Do(y, steps[0]), steps[1..], k, x, id);
    assert steps[..k + 1][0] == steps[0] && steps[..k + 1][1..] == steps[1..][..k];
    assert NotDrawnAtTake(y, steps, k + 1, x, id);
  }

  lemma {:induction false} StartsLate(y: Registry.Sys, steps: seq<Registry.SysStep>, x: Registry.ShellId, id: AttachId)
    requires Registry.IsRun(y, steps) && x in y.shells && ExitingStarted(y.shells[x]) && id !in y.shells[x].clients
    ensures exists k: nat :: NotDrawnAtTake(y, steps, k, x, id)
  {
    assert steps[..0] == [] && Registry.IsRun(y, []);
    assert NotDrawnAtTake(y, steps, 0, x, id);
  }

  /** An action that starts the exit is a take, and draws no id. */
  lemma {:induction false} OnlyTakeStarts(s: Shell, closed: set<Conn>, a: Action)
    requires Enabled(s, a) && !ExitingStarted(s) && ExitingStarted(Apply(s, closed, a)) && CallersInv(s)
    ensures a.TakeAttach? && Apply(s, closed, a).clients == s.clients
  {
    OwnerFitsAction(s, a);
    ActionLeaves(s, closed, a);
    hide CallersInv, Attaching, Reading, Polling, Detaching;
  }

  /** Along a registry run the step that starts the exit of `x` settles every id drawn by then. */
  lemma {:induction false} TakeStepSettles(y: Registry.Sys, step: Registry.SysStep, x: Registry.ShellId, id: AttachId)
    requires Registry.CanDo(y, step) && x in y.shells && Inv(y.shells[x], y.closed)
    requires !ExitingStarted(y.shells[x])
    requires var z := Registry.Do(y, step); x in z.shells && ExitingStarted(z.shells[x]) && id in z.shells[x].clients
    ensures ShellEnding.Settled(Registry.Do(y, step).shells[x], Registry.Do(y, step).closed, id)
  {
    StepProjects(y, step, x);
    hide Inv, Apply, Enabled, Registry.CanDo, Registry.Do, ShellEnding.Settled, Projected;
    var p := Projected(y, step, x);
    SettledByStep(Seen(y, x), p[0], id);
  }

  lemma {:induction false} SettledByStep(w: World, step: Step, id: AttachId)
    requires Inv(w.shell, w.closed) && CanStep(w, step) && !ExitingStarted(w.shell)
    requires ExitingStarted(Next(w, step).shell) && id in Next(w, step).shell.clients
    ensures ShellEnding.Settled(Next(w, step).shell, Next(w, step).closed, id)
  {
    hide Core, RingInv, ClientInv, CallersInv, Apply, Enabled, ShellEnding.Settled;
    OnlyTakeStarts(w.shell, w.closed, step.action);
    ShellEnding.TakeSettles(w.shell, w.closed, step.action.caller, id);
  }

  lemma {:induction false} SettledStaysOut(y: Registry.Sys, steps: seq<Registry.SysStep>, x: Registry.ShellId,
                                           id: AttachId)
    requires Registry.IsRun(y, steps) && x in y.shells && Inv(y.shells[x], y.closed)
    requires ShellEnding.Settled(y.shells[x], y.closed, id)
    ensures var z := Registry.RunFrom(y, steps); x in z.shells && z.shells[x].attach != Some(id)
  {
    var single := ProjectFrom(y, steps, x);
    hide Registry.IsRun, Registry.RunFrom, IsRun, RunFrom, Inv;
    ShellEnding.RunKeepsSettled(Seen(y, x), single, id);
  }

  lemma {:induction false} HeldOrLate(y: Registry.Sys, steps: seq<Registry.SysStep>, x: Registry.ShellId, id: AttachId)
    requires Registry.RegInv(y) && Registry.IsRun(y, steps)
    requires x in y.shells ==> !ExitingStarted(y.shells[x])
    ensures var z := Registry.RunFrom(y, steps);
            x in z.shells && ExitingStarted(z.shells[x]) && z.shells[x].attach == Some(id) ==>
              exists k: nat :: NotDrawnAtTake(y, steps, k, x, id)
    decreases |steps|
  {
    hide Registry.CanDo, Registry.Do, Inv, NotDrawnAtTake, Registry.OwnersInv, Registry.ListsInv, Registry.LocksInv,
      Registry.ThreadInv, ShellEnding.Settled;
    if steps != [] {
      var z := Registry.Do(y, steps[0]);
      Registry.StepKeepsInv(y, steps[0]);
      if x !in z.shells || !ExitingStarted(z.shells[x]) {
        HeldOrLate(z, steps[1..], x, id);
        if exists k: nat :: NotDrawnAtTake(z, steps[1..], k, x, id) {
          LaterStart(y, steps, x, id);
        }
      } else if id !in z.shells[x].clients {
        StartsLate(z, steps[1..], x, id);
        LaterStart(y, steps, x, id);
      } else {
        ExitNeedsShell(y, steps[0], x);
        TakeStepSettles(y, steps[0], x, id);
        SettledStaysOut(z, steps[1..], x, id);
      }
    }
  }

  lemma {:induction false} ExitNeedsShell(y: Registry.Sys, step: Registry.SysStep, x: Registry.ShellId)
    requires Registry.CanDo(y, step)
    requires x in Registry.Do(y, step).shells && ExitingStarted(Registry.Do(y, step).shells[x])
    ensures x in y.shells
  {
    if x !in y.shells {
      CreatedFresh(y, step, x);
    }
  }

  /**
   * What a connection can hold after its exit loop, in full: nothing in the map; outside it,
   * an attach that a cleanup in progress is about to take, or one that was drawn after the
   * cleanup had taken the field.
   */
  lemma {:induction false} GoneConnectionsHoldOnlyLateAttaches(steps: seq<Registry.SysStep>, c: Conn,
                                                               x: Registry.ShellId)
    requires Registry.IsRun(Registry.NewSys, steps)
    requires var y := Registry.RunFrom(Registry.NewSys, steps);
             && c in y.threads && y.threads[c].phase.Gone? && x in y.shells && y.shells[x].attach.Some?
             && y.shells[x].attach.value in y.shells[x].clients
             && y.shells[x].clients[y.shells[x].attach.value].conn == c
    ensures var y := Registry.RunFrom(Registry.NewSys, steps); var s := y.shells[x];
            && !Registry.IsRegistered(y, x)
            && ((exists d :: IsAt(s, d, Owner(Removed)) || IsAt(s, d, Owner(Marked)))
                || exists k: nat :: NotDrawnAtTake(Registry.NewSys, steps, k, x, s.attach.value))
  {
    hide Registry.IsRun, Registry.RunFrom, Inv, Registry.RegInv, NotDrawnAtTake;
    var y := Registry.RunFrom(Registry.NewSys, steps);
    var s := y.shells[x];
    if Registry.IsRegistered(y, x) {
      Registry.GoneConnectionsHoldNothing(steps, c, x);
    }
    Registry.StartHoldsInv();
    HeldOrLate(Registry.NewSys, steps, x, s.attach.value);
    Registry.EveryShellKeepsItsInvariant(steps, x);
    if !ExitingStarted(s) {
      OwnerBeforeTake(s, y.closed);
    }
  }

  lemma {:induction false} OwnerBeforeTake(s: Shell, closed: set<Conn>)
    requires Inv(s, closed) && !s.cleanup.Registered? && !ExitingStarted(s)
    ensures exists d :: IsAt(s, d, Owner(Removed)) || IsAt(s, d, Owner(Marked))
  {
    hide Core, RingInv, ClientInv;
    var d :| d in s.callers && Owned(s.callers[d]);
    assert OwnerFits(s, s.callers[d]);
    assert IsAt(s, d, Owner(Removed)) || IsAt(s, d, Owner(Marked));
  }
}
