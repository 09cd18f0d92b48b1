/** A run that shows why "registered" is needed in GoneConnectionsHoldNothing. */
module RegistryWitness {
  import opened Ascii
  import opened ShellProtocol
  import Registry
  import ShellTheorems

  const Fresh := ShellTheorems.NewShell

  /** The shell after its cleanup, and then with client 7 of connection 0 installed. */
  const ClosedShell := Fresh.(
    status := Exited, masterOpen := false, cleanup := Closed, callers := map[3 := Returned(true)],
    marks := 1, closes := 1)
  const Greeting := Sent(Sent(Nothing, Snapshot(0, Exited, [])), CwdChanged(0))
  const HeldShell := ClosedShell.(attach := Some(7), clients := map[7 := Client(0, 1, Greeting)])

  function Table(s: Shell, t: Registry.Thread, owners: map<AttachId, Registry.Draw>): Registry.Sys {
    Registry.Sys(map[1 := s], {}, map[0 := t], None, owners)
  }

  predicate Reaches(steps: seq<Registry.SysStep>, y: Registry.Sys) {
    Registry.IsRun(Registry.NewSys, steps) && Registry.RunFrom(Registry.NewSys, steps) == y
  }

  lemma {:induction false} More(steps: seq<Registry.SysStep>, y: Registry.Sys, step: Registry.SysStep)
    returns (longer: seq<Registry.SysStep>, z: Registry.Sys)
    requires Reaches(steps, y) && Registry.CanDo(y, step)
    ensures z == Registry.Do(y, step) && Reaches(longer, z)
  {
    longer, z := steps + [step], Registry.Do(y, step);
    Extend(Registry.NewSys, steps, step);
  }

  lemma {:induction false} Extend(y: Registry.Sys, steps: seq<Registry.SysStep>, step: Registry.SysStep)
    requires Registry.IsRun(y, steps) && Registry.CanDo(Registry.RunFrom(y, steps), step)
    ensures Registry.IsRun(y, steps + [step])
    ensures Registry.RunFrom(y, steps + [step]) == Registry.Do(Registry.RunFrom(y, steps), step)
    decreases |steps|
  {
    hide Registry.CanDo, Registry.Do;
    if steps == [] {
      assert [] + [step] == [step] && [step][1..] == [];
      assert Registry.IsRun(Registry.Do(y, step), []);
    } else {
      Extend(Registry.Do(y, steps[0]), steps[1..], step);
      assert (steps + [step])[1..] == steps[1..] + [step] && (steps + [step])[0] == steps[0];
    }
  }

  lemma {:induction false} LookupFirst() returns (steps: seq<Registry.SysStep>)
    ensures Reaches(steps, Table(Fresh, Registry.Thread(Registry.Serving, Registry.LookedUp(1), []), map[]))
  {
    var y := Registry.NewSys;
    steps := [];
    assert Reaches(steps, y);
    hide Reaches;
    steps, y := More(steps, y, Registry.Create(1, Fresh));
    steps, y := More(steps, y, Registry.Connect(0));
    steps, y := More(steps, y, Registry.Lookup(0, 1));
  }

  lemma {:induction false} BackgroundOn(before: seq<Registry.SysStep>, s: Shell, t: Registry.Thread, a: Action)
    returns (steps: seq<Registry.SysStep>)
    requires Reaches(before, Table(s, t, map[]))
    requires Registry.IsBackground(a) && Enabled(s, a)
    ensures Reaches(steps, Table(Apply(s, {}, a), t, map[]))
  {
    hide Reaches, Apply, Enabled;
    var y := Table(s, t, map[]);
    steps, y := More(before, y, Registry.Background(1, a));
    assert y == Table(Apply(s, {}, a), t, map[]);
  }

  lemma {:induction false} CleanupInBetween(before: seq<Registry.SysStep>, t: Registry.Thread)
    returns (steps: seq<Registry.SysStep>)
    requires Reaches(before, Table(Fresh, t, map[]))
    ensures Reaches(steps, Table(ClosedShell, t, map[]))
  {
    hide Reaches;
    hide Reading, Attaching, Polling, Detaching;
    var s0 := Fresh.(callers := map[3 := Called]);
    steps := BackgroundOn(before, Fresh, t, CallCleanup(3, Waiter));
    steps := BackgroundOn(steps, s0, t, RemoveFromMap(3));
    assert s0.callers[3 := Owner(Removed)] == map[3 := Owner(Removed)];
    steps := CleanupGoesOn(steps, t);
  }

  lemma {:induction false} CleanupGoesOn(before: seq<Registry.SysStep>, t: Registry.Thread)
    returns (steps: seq<Registry.SysStep>)
    requires Reaches(before, Table(Going(Removed), t, map[]))
    ensures Reaches(steps, Table(ClosedShell, t, map[]))
  {
    hide Reaches, Apply, Enabled;
    MarkingAction();
    TakingAction();
    TellingAction();
    steps := BackgroundOn(before, Going(Removed), t, MarkExited(3));
    steps := BackgroundOn(steps, Gone(Marked), t, TakeAttach(3));
    steps := BackgroundOn(steps, Gone(Took(None)), t, SendExited(3));
    ClosingAction();
    steps := BackgroundOn(steps, Gone(Told), t, CloseMaster(3));
  }

  function Going(stage: Cleanup): Shell {
    Fresh.(cleanup := stage, callers := map[3 := Owner(stage)])
  }

  /** The shell once it is marked. */
  function Gone(stage: Cleanup): Shell {
    Going(stage).(status := Exited, marks := 1)
  }

  lemma {:induction false} MarkingAction()
    ensures Enabled(Going(Removed), MarkExited(3)) && Apply(Going(Removed), {}, MarkExited(3)) == Gone(Marked)
  {
    hide Reading, Attaching, Polling, Detaching;
    assert Going(Removed).callers[3 := Owner(Marked)] == map[3 := Owner(Marked)];
  }

  lemma {:induction false} TakingAction()
    ensures Enabled(Gone(Marked), TakeAttach(3)) && Apply(Gone(Marked), {}, TakeAttach(3)) == Gone(Took(None))
  {
    hide Reading, Attaching, Polling, Detaching;
    assert Gone(Marked).callers[3 := Owner(Took(None))] == map[3 := Owner(Took(None))];
  }

  lemma {:induction false} TellingAction()
    ensures Enabled(Gone(Took(None)), SendExited(3))
    ensures Apply(Gone(Took(None)), {}, SendExited(3)) == Gone(Told)
  {
    hide Reading, Attaching, Polling, Detaching;
    assert Gone(Took(None)).callers[3 := Owner(Told)] == map[3 := Owner(Told)];
  }

  lemma {:induction false} ClosingAction()
    ensures Enabled(Gone(Told), CloseMaster(3)) && Apply(Gone(Told), {}, CloseMaster(3)) == ClosedShell
  {
    hide Reading, Attaching, Polling, Detaching;
    assert Gone(Told).callers[3 := Returned(true)] == ClosedShell.callers;
  }

  const Read := ClosedShell.(clients := map[7 := Client(0, 1, Nothing)], attacher := StatusRead(7, 0, [], Exited))
  const Drawn := map[7 := Registry.Draw(0, 1)]

  function Busy(work: Registry.Work): Registry.Thread {
    Registry.Thread(Registry.Serving, work, [])
  }

  /** A part of the attach call after the id is drawn and before the lock is released. */
  lemma {:induction false} PartOn(before: seq<Registry.SysStep>, s: Shell, a: Action)
    returns (steps: seq<Registry.SysStep>)
    requires Reaches(before, Table(s, Busy(Registry.Attaching(1)), Drawn))
    requires IsAttachPart(a) && !a.LockAttach? && !a.LoadSeq? && !a.Unlock? && Enabled(s, a)
    requires !Apply(s, {}, a).attacher.Free?
    ensures Reaches(steps, Table(Apply(s, {}, a), Busy(Registry.Attaching(1)), Drawn))
  {
    hide Reaches, Apply, Enabled;
    var y := Table(s, Busy(Registry.Attaching(1)), Drawn);
    steps, y := More(before, y, Registry.AttachPart(0, 1, a));
    assert y == Table(Apply(s, {}, a), Busy(Registry.Attaching(1)), Drawn);
  }

  lemma {:induction false} LockOn(before: seq<Registry.SysStep>, s: Shell, t: Shell)
    returns (steps: seq<Registry.SysStep>)
    requires Reaches(before, Table(s, Busy(Registry.LookedUp(1)), map[]))
    requires Enabled(s, LockAttach(0, false)) && t == Apply(s, {}, LockAttach(0, false)) && t.attacher.Locked?
    requires Enabled(t, LoadSeq(7))
    requires !Apply(t, {}, LoadSeq(7)).attacher.Free?
    ensures Reaches(steps, Table(Apply(t, {}, LoadSeq(7)), Busy(Registry.Attaching(1)), Drawn))
  {
    hide Reaches, Apply, Enabled;
    var y := Table(s, Busy(Registry.LookedUp(1)), map[]);
    steps, y := More(before, y, Registry.AttachPart(0, 1, LockAttach(0, false)));
    assert y == Table(t, Busy(Registry.Attaching(1)), map[]);
    steps, y := More(steps, y, Registry.AttachPart(0, 1, LoadSeq(7)));
    assert y == Table(Apply(t, {}, LoadSeq(7)), Busy(Registry.Attaching(1)), Drawn);
  }

  lemma {:induction false} AttachReads(before: seq<Registry.SysStep>) returns (steps: seq<Registry.SysStep>)
    requires Reaches(before, Table(ClosedShell, Busy(Registry.LookedUp(1)), map[]))
    ensures Reaches(steps, Table(Read, Busy(Registry.Attaching(1)), Drawn))
  {
    hide Reaches;
    var s1 := ClosedShell.(attacher := Locked(0));
    var s2 := ClosedShell.(clients := map[7 := Client(0, 1, Nothing)], attacher := SeqLoaded(7, 0));
    var s3 := s2.(attacher := ScreenRead(7, 0, []));
    steps := LockOn(before, ClosedShell, s1);
    steps := PartOn(steps, s2, ReadScreen);
    steps := PartOn(steps, s3, ReadStatus);
  }

  const Shown := ClosedShell.(
    clients := map[7 := Client(0, 1, Sent(Nothing, Snapshot(0, Exited, [])))], attacher := SnapshotSent(7, 0))
  const GreetedShell := ClosedShell.(clients := map[7 := Client(0, 1, Greeting)], attacher := CwdSent(7, 0))

  lemma {:induction false} SnapshotAction()
    ensures Enabled(Read, SendSnapshot) && Apply(Read, {}, SendSnapshot) == Shown
  {
    hide Reading, Cleaning, Polling, Detaching;
    assert Apply(Read, {}, SendSnapshot).clients == Shown.clients;
  }

  lemma {:induction false} CwdAction()
    ensures Enabled(Shown, SendCwd) && Apply(Shown, {}, SendCwd) == GreetedShell
  {
    hide Reading, Cleaning, Polling, Detaching;
    assert Apply(Shown, {}, SendCwd).clients == GreetedShell.clients;
  }

  lemma {:induction false} InstallActions()
    ensures Enabled(GreetedShell, Install)
    ensures Apply(GreetedShell, {}, Install) == HeldShell.(attacher := Installed(7, 0))
    ensures Enabled(HeldShell.(attacher := Installed(7, 0)), Replay)
    ensures Apply(HeldShell.(attacher := Installed(7, 0)), {}, Replay) == HeldShell.(attacher := ReplayDone(7))
  {
    hide Reading, Cleaning, Polling, Detaching;
  }

  lemma {:induction false} AttachEnds(before: seq<Registry.SysStep>) returns (steps: seq<Registry.SysStep>)
    requires Reaches(before, Table(Read, Busy(Registry.Attaching(1)), Drawn))
    ensures Reaches(steps, Table(HeldShell, Registry.Thread(Registry.Serving, Registry.Idle, [7]), Drawn))
  {
    hide Reaches, Apply, Enabled;
    SnapshotAction();
    CwdAction();
    InstallActions();
    steps := PartOn(before, Read, SendSnapshot);
    steps := PartOn(steps, Shown, SendCwd);
    steps := PartOn(steps, GreetedShell, Install);
    steps := PartOn(steps, HeldShell.(attacher := Installed(7, 0)), Replay);
    steps := UnlockOn(steps);
  }

  lemma {:induction false} UnlockOn(before: seq<Registry.SysStep>) returns (steps: seq<Registry.SysStep>)
    requires Reaches(before, Table(HeldShell.(attacher := ReplayDone(7)), Busy(Registry.Attaching(1)), Drawn))
    ensures Reaches(steps, Table(HeldShell, Registry.Thread(Registry.Serving, Registry.Idle, [7]), Drawn))
  {
    hide Reaches;
    assert [] + [7] == [7];
    var y := Table(HeldShell.(attacher := ReplayDone(7)), Busy(Registry.Attaching(1)), Drawn);
    steps, y := More(before, y, Registry.AttachPart(0, 1, Unlock));
    assert y.shells == map[1 := HeldShell];
    assert y.threads == map[0 := Registry.Thread(Registry.Serving, Registry.Idle, [7])];
  }

  /**
   * A shell that left the map between lookup and attach keeps the client of a connection
   * that is gone: its exit loop scans the map and does not find the shell.
   */
  lemma {:induction false} UnregisteredShellKeepsClient() returns (steps: seq<Registry.SysStep>)
    ensures Registry.IsRun(Registry.NewSys, steps)
    ensures var y := Registry.RunFrom(Registry.NewSys, steps);
            && 0 in y.threads && y.threads[0].phase.Gone?
            && 1 in y.shells && y.shells[1].attach == Some(7)
            && 7 in y.shells[1].clients && y.shells[1].clients[7].conn == 0
  {
    var y;
    steps := LookupFirst();
    steps := CleanupInBetween(steps, Registry.Thread(Registry.Serving, Registry.LookedUp(1), []));
    steps := AttachReads(steps);
    steps := AttachEnds(steps);
    steps, y := ExitLoop(steps);
  }

  lemma {:induction false} ExitLoop(before: seq<Registry.SysStep>)
    returns (steps: seq<Registry.SysStep>, y: Registry.Sys)
    requires Reaches(before, Table(HeldShell, Registry.Thread(Registry.Serving, Registry.Idle, [7]), Drawn))
    ensures Reaches(steps, y)
    ensures 0 in y.threads && y.threads[0].phase.Gone? && y.shells == map[1 := HeldShell]
  {
    hide Reaches, Apply, Enabled;
    y := Table(HeldShell, Registry.Thread(Registry.Serving, Registry.Idle, [7]), Drawn);
    steps, y := More(before, y, Registry.StartExit(0));
    steps, y := More(steps, y, Registry.StartScan(0, 7));
    assert !Registry.IsRegistered(y, 1);
    steps, y := More(steps, y, Registry.EndScan(0));
    steps, y := More(steps, y, Registry.FinishExit(0));
  }
}
