/**
 * Who is told that a shell has exited. The dividing line is the moment the cleanup takes
 * the `attach` field: whoever attached before it is ended, whoever comes later is not told.
 */
module ShellEnding {
  import opened Ascii
  import opened Limits
  import opened ShellProtocol
  import opened ShellInvariant
  import opened ShellTheorems

  // ------------------------------------------------------------------- out for good

  /** The attach call in progress, if any, is not the one that drew `id`. */
  predicate NotArriving(s: Shell, id: AttachId) {
    s.attacher.Free? || s.attacher.Locked? || s.attacher.id != id
  }

  predicate Out(s: Shell, id: AttachId) {
    id in s.clients && s.attach != Some(id) && NotArriving(s, id)
  }

  lemma {:induction false} SendAllSpares(s: Shell, closed: set<Conn>, to: AttachId, events: seq<Event>, id: AttachId)
    requires id in s.clients && id != to
    ensures var t := SendAll(s, closed, to, events);
            id in t.clients && t.clients[id] == s.clients[id] && t == s.(clients := t.clients)
    decreases |events|
  {
    if events != [] {
      var next := Send(s, closed, to, Replayed(events[0].seqNo, events[0].bytes));
      SendAllSpares(next, closed, to, events[1..], id);
    }
  }

  /** Nothing happens to a client that is out, unless the cleanup has taken it along. */
  predicate Untouched(s: Shell, t: Shell, id: AttachId)
    requires id in s.clients
  {
    && Out(t, id) && s.detached <= t.detached
    && (t.clients[id] == s.clients[id] || s.cleanup == Took(Some(id)))
  }

  lemma {:induction false} AttachingKeepsOut(s: Shell, closed: set<Conn>, a: Action, id: AttachId)
    requires Out(s, id) && Enabled(s, a) && IsAttachPart(a)
    ensures Untouched(s, Attaching(s, closed, a), id) && Attaching(s, closed, a).cleanup == s.cleanup
  {
    hide SendAll, After;
    if a.Replay? {
      SendAllSpares(s, closed, s.attacher.id, After(s.events, s.attacher.seqNo), id);
    }
  }

  lemma {:induction false} CleaningKeepsOut(s: Shell, closed: set<Conn>, a: Action, id: AttachId)
    requires Out(s, id) && Enabled(s, a) && IsCleanup(a) && Fits(s, a)
    ensures Untouched(s, Cleaning(s, closed, a), id)
  {
  }

  lemma {:induction false} OthersKeepOut(s: Shell, closed: set<Conn>, a: Action, id: AttachId)
    requires Out(s, id) && Enabled(s, a) && !IsAttachPart(a) && !IsCleanup(a)
    ensures Untouched(s, Apply(s, closed, a), id) && Apply(s, closed, a).cleanup == s.cleanup
  {
    hide Appended, Attaching, Cleaning;
  }

  lemma {:induction false} ActionKeepsOut(s: Shell, closed: set<Conn>, a: Action, id: AttachId)
    requires CallersInv(s) && Out(s, id) && Enabled(s, a)
    ensures Untouched(s, Apply(s, closed, a), id)
    ensures !IsCleanup(a) ==> Apply(s, closed, a).cleanup == s.cleanup
  {
    hide CallersInv, Untouched, Enabled, Fits, Attaching, Cleaning, Reading, Polling, Detaching;
    OwnerFitsAction(s, a);
    if IsAttachPart(a) {
      AttachingKeepsOut(s, closed, a, id);
    } else if IsCleanup(a) {
      CleaningKeepsOut(s, closed, a, id);
    } else {
      OthersKeepOut(s, closed, a, id);
    }
  }

  lemma {:induction false} RunKeepsOut(w: World, more: seq<Step>, id: AttachId)
    requires Inv(w.shell, w.closed) && Out(w.shell, id) && IsRun(w, more)
    ensures Out(RunFrom(w, more).shell, id)
    decreases |more|
  {
    hide Core, RingInv, ClientInv, CallersInv, Apply, Enabled;
    if more != [] {
      NextKeepsInv(w, more[0]);
      if more[0].Act? {
        ActionKeepsOut(w.shell, w.closed, more[0].action, id);
      }
      RunKeepsOut(Next(w, more[0]), more[1..], id);
    }
  }

  lemma {:induction false} NextKeepsInv(w: World, step: Step)
    requires Inv(w.shell, w.closed) && CanStep(w, step)
    ensures Inv(Next(w, step).shell, Next(w, step).closed)
  {
    hide Inv, Apply, Enabled;
    match step
    case Act(a) => ActionKeepsInv(w.shell, w.closed, a);
    case CloseChannel(conn) => CloseKeepsInv(w.shell, w.closed, conn);
  }

  /** A client leaves the attach field for good. */
  lemma {:induction false} ActionKeepsOrDrops(s: Shell, closed: set<Conn>, a: Action, id: AttachId)
    requires Core(s, closed) && s.attach == Some(id) && Enabled(s, a)
    ensures Apply(s, closed, a).attach == Some(id) || Out(Apply(s, closed, a), id)
  {
    hide ReaderInv, EnteringInv, SendAll, After, Appended, SeqFits, SnapshotNumbered;
    if a.Replay? {
      SendAllLeaves(s, closed, s.attacher.id, After(s.events, s.attacher.seqNo));
    }
  }

  lemma {:induction false} RunKeepsOrDrops(w: World, more: seq<Step>, id: AttachId)
    requires Inv(w.shell, w.closed) && w.shell.attach == Some(id) && IsRun(w, more)
    ensures RunFrom(w, more).shell.attach == Some(id) || Out(RunFrom(w, more).shell, id)
    decreases |more|
  {
    hide Core, RingInv, ClientInv, CallersInv, Apply, Enabled, Out;
    if more != [] {
      NextKeepsInv(w, more[0]);
      if more[0].Act? {
        ActionKeepsOrDrops(w.shell, w.closed, more[0].action, id);
      }
      if Next(w, more[0]).shell.attach == Some(id) {
        RunKeepsOrDrops(Next(w, more[0]), more[1..], id);
      } else {
        RunKeepsOut(Next(w, more[0]), more[1..], id);
      }
    }
  }

  lemma {:induction false} OutIgnoresDetach(w: World, id: AttachId)
    requires Out(w.shell, id) && Enabled(w.shell, DetachClient(id))
    ensures Apply(w.shell, w.closed, DetachClient(id)) == w.shell
  {
  }

  /**
   * A client that has once left the attach field, for whatever reason and told of it or
   * not, is never in it again, and its `detach` changes nothing.
   */
  lemma {:induction false} StolenClientStaysOut(init: World, steps: seq<Step>, more: seq<Step>,
                                                later: seq<Step>, id: AttachId)
    requires Run(init, steps) && Final(init, steps).shell.attach == Some(id)
    requires IsRun(Final(init, steps), more)
    requires RunFrom(Final(init, steps), more).shell.attach != Some(id)
    requires IsRun(RunFrom(Final(init, steps), more), later)
    ensures var w := RunFrom(RunFrom(Final(init, steps), more), later);
            w.shell.attach != Some(id) &&
            (Enabled(w.shell, DetachClient(id)) ==> Apply(w.shell, w.closed, DetachClient(id)) == w.shell)
  {
    RunInv(init, steps);
    RunKeepsWorldInv(Final(init, steps), more);
    hide IsRun, RunFrom, Inv, Apply, Enabled;
    RunKeepsOrDrops(Final(init, steps), more, id);
    RunKeepsOut(RunFrom(Final(init, steps), more), later, id);
    var w := RunFrom(RunFrom(Final(init, steps), more), later);
    if Enabled(w.shell, DetachClient(id)) {
      OutIgnoresDetach(w, id);
    }
  }

  lemma {:induction false} RunKeepsWorldInv(w: World, more: seq<Step>)
    requires Inv(w.shell, w.closed) && IsRun(w, more)
    ensures Inv(RunFrom(w, more).shell, RunFrom(w, more).closed)
  {
    RunKeepsInv(w, more);
  }

  // ----------------------------------------------------------- present at the take

  /** `id` is out of the attach field for good, and ended, gone by itself, or about to be told. */
  predicate Settled(s: Shell, closed: set<Conn>, id: AttachId) {
    && Out(s, id)
    && (s.cleanup == Took(Some(id)) || Ended(s.clients[id].log) || id in s.detached || s.clients[id].conn in closed)
  }

  lemma {:induction false} TellingSettles(s: Shell, closed: set<Conn>, a: Action, id: AttachId)
    requires Settled(s, closed, id) && Enabled(s, a) && IsCleanup(a) && Fits(s, a) && s.cleanup == Took(Some(id))
    ensures Settled(Cleaning(s, closed, a), closed, id)
  {
  }

  lemma {:induction false} ActionKeepsSettled(s: Shell, closed: set<Conn>, a: Action, id: AttachId)
    requires CallersInv(s) && Settled(s, closed, id) && Enabled(s, a)
    ensures Settled(Apply(s, closed, a), closed, id)
  {
    hide CallersInv, Enabled, Fits, Attaching, Cleaning, Reading, Polling, Detaching;
    ActionKeepsOut(s, closed, a, id);
    OwnerFitsAction(s, a);
    if s.cleanup == Took(Some(id)) && IsCleanup(a) {
      TellingSettles(s, closed, a, id);
    }
  }

  lemma {:induction false} RunKeepsSettled(w: World, more: seq<Step>, id: AttachId)
    requires Inv(w.shell, w.closed) && Settled(w.shell, w.closed, id) && IsRun(w, more)
    ensures Settled(RunFrom(w, more).shell, RunFrom(w, more).closed, id)
    decreases |more|
  {
    hide Core, RingInv, ClientInv, CallersInv, Apply, Enabled;
    if more != [] {
      NextKeepsInv(w, more[0]);
      if more[0].Act? {
        ActionKeepsSettled(w.shell, w.closed, more[0].action, id);
      }
      RunKeepsSettled(Next(w, more[0]), more[1..], id);
    }
  }

  lemma {:induction false} TakeSettles(s: Shell, closed: set<Conn>, c: Caller, id: AttachId)
    requires Inv(s, closed) && Enabled(s, TakeAttach(c)) && id in s.clients
    ensures Settled(Apply(s, closed, TakeAttach(c)), closed, id)
  {
    hide RingInv, CallersInv;
    OwnerFitsAction(s, TakeAttach(c));
    assert ClientInv(s, closed, id);
  }

  /**
   * Every client that had drawn its id when the cleanup took the attach field is, once the
   * cleanup has gone on, ended, detached by its own client, or no longer listening.
   */
  lemma {:induction false} PresentAtExitIsEnded(init: World, steps: seq<Step>, c: Caller, more: seq<Step>, id: AttachId)
    requires Run(init, steps) && Enabled(Final(init, steps).shell, TakeAttach(c))
    requires id in Final(init, steps).shell.clients
    requires IsRun(Next(Final(init, steps), Act(TakeAttach(c))), more)
    ensures var w := RunFrom(Next(Final(init, steps), Act(TakeAttach(c))), more);
            w.shell.cleanup.Took? ||
            (id in w.shell.clients && (Ended(w.shell.clients[id].log) || id in w.shell.detached || !Listening(w, id)))
  {
    RunInv(init, steps);
    hide IsRun, RunFrom, Inv;
    var w := Final(init, steps);
    TakeSettles(w.shell, w.closed, c, id);
    ActionKeepsInv(w.shell, w.closed, TakeAttach(c));
    RunKeepsSettled(Next(w, Act(TakeAttach(c))), more, id);
  }

  // ------------------------------------------------------------------- coming later

  /** The exit message went, or is going, to `to` and nobody else. */
  predicate GoesTo(s: Shell, to: Option<AttachId>) {
    s.cleanup == Took(to) || ((s.cleanup.Told? || s.cleanup.Closed?) && s.exitTold == to)
  }

  lemma {:induction false} CleaningKeepsGoesTo(s: Shell, closed: set<Conn>, a: Action, to: Option<AttachId>)
    requires CleanupInv(s) && GoesTo(s, to) && Enabled(s, a) && IsCleanup(a) && Fits(s, a)
    ensures GoesTo(Cleaning(s, closed, a), to)
  {
  }

  lemma {:induction false} OthersKeepGoesTo(s: Shell, closed: set<Conn>, a: Action, to: Option<AttachId>)
    requires GoesTo(s, to) && Enabled(s, a) && !IsCleanup(a)
    ensures GoesTo(Apply(s, closed, a), to)
  {
    hide SendAll, After, Appended, Cleaning, Send;
    SendKeepsExit(s, closed);
    if a.Replay? {
      SendAllLeaves(s, closed, s.attacher.id, After(s.events, s.attacher.seqNo));
    }
  }

  lemma {:induction false} SendKeepsExit(s: Shell, closed: set<Conn>)
    ensures forall id, msg :: Send(s, closed, id, msg).cleanup == s.cleanup
                              && Send(s, closed, id, msg).exitTold == s.exitTold
  {
  }

  lemma {:induction false} ActionKeepsGoesTo(s: Shell, closed: set<Conn>, a: Action, to: Option<AttachId>)
    requires CleanupInv(s) && CallersInv(s) && GoesTo(s, to) && Enabled(s, a)
    ensures GoesTo(Apply(s, closed, a), to)
  {
    hide CleanupInv, CallersInv, GoesTo, Enabled, Fits, Attaching, Cleaning, Reading, Polling, Detaching;
    if IsCleanup(a) {
      OwnerFitsAction(s, a);
      CleaningKeepsGoesTo(s, closed, a, to);
    } else {
      OthersKeepGoesTo(s, closed, a, to);
    }
  }

  lemma {:induction false} RunKeepsGoesTo(w: World, more: seq<Step>, to: Option<AttachId>)
    requires Inv(w.shell, w.closed) && GoesTo(w.shell, to) && IsRun(w, more)
    ensures GoesTo(RunFrom(w, more).shell, to) && Inv(RunFrom(w, more).shell, RunFrom(w, more).closed)
    decreases |more|
  {
    hide RingInv, ClientInv, CallersInv, Apply, Enabled, ReaderInv, AttacherInv, CleanupInv;
    if more != [] {
      NextKeepsInv(w, more[0]);
      if more[0].Act? {
        ActionKeepsGoesTo(w.shell, w.closed, more[0].action, to);
      }
      RunKeepsGoesTo(Next(w, more[0]), more[1..], to);
    }
  }

  lemma {:induction false} ToldIsKnown(w: World, id: AttachId, to: Option<AttachId>)
    requires CleanupInv(w.shell) && ExitingStarted(w.shell) && id !in w.shell.clients
    requires to == if w.shell.cleanup.Took? then w.shell.cleanup.client else w.shell.exitTold
    ensures GoesTo(w.shell, to) && to != Some(id)
  {
  }

  /** A client that draws its id after the cleanup took the attach field is never told of the exit. */
  lemma {:induction false} LateAttachIsNeverTold(init: World, steps: seq<Step>, more: seq<Step>, id: AttachId)
    requires Run(init, steps) && ExitingStarted(Final(init, steps).shell)
    requires id !in Final(init, steps).shell.clients && IsRun(Final(init, steps), more)
    requires id in RunFrom(Final(init, steps), more).shell.clients
    ensures ExitCount(RunFrom(Final(init, steps), more).shell.clients[id].log) == 0
  {
    RunInv(init, steps);
    var w := Final(init, steps);
    var to := if w.shell.cleanup.Took? then w.shell.cleanup.client else w.shell.exitTold;
    ToldIsKnown(w, id, to);
    hide IsRun, RunFrom, Inv;
    RunKeepsGoesTo(w, more, to);
    NotTold(RunFrom(w, more), id, to);
  }

  lemma {:induction false} NotTold(w: World, id: AttachId, to: Option<AttachId>)
    requires Inv(w.shell, w.closed) && GoesTo(w.shell, to) && to != Some(id) && id in w.shell.clients
    ensures ExitCount(w.shell.clients[id].log) == 0
  {
    hide RingInv, AttacherInv, ReaderInv;
    assert ClientInv(w.shell, w.closed, id);
    ExitIsLast(w.shell.clients[id].log, w.shell.clients[id].start, w.shell.output);
  }
}
