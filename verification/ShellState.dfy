/**
 * `ShellState` itself. Run without interruption, each method is the chain of actions
 * that the step machine interleaves: the class is where the actions come from.
 */
module ShellState {
  import opened Bytes
  import opened Ascii
  import opened Limits
  import opened ShellProtocol

  /** `record_output`: the reader's five sections in a row. */
  function Recorded(s: Shell, closed: set<Conn>, bytes: Chunk): Shell
    requires s.reader.Waiting? && s.attacher.Free?
  {
    var s1 := Apply(s, closed, TakeChunk(bytes));
    var s2 := Apply(s1, closed, ProcessChunk);
    var s3 := Apply(s2, closed, ScrollChunk);
    var s4 := Apply(s3, closed, LogChunk);
    Apply(s4, closed, DeliverChunk)
  }

  /** `attach` up to what it reads for the snapshot. */
  function Entered(s: Shell, closed: set<Conn>, conn: Conn, steal: bool, id: AttachId): Shell
    requires s.reader.Waiting? && s.attacher.Free? && id !in s.clients && (s.attach.Some? ==> steal)
  {
    var s1 := Apply(s, closed, LockAttach(conn, steal));
    var s2 := Apply(s1, closed, LoadSeq(id));
    var s3 := Apply(s2, closed, ReadScreen);
    Apply(s3, closed, ReadStatus)
  }

  /** `attach` up to the installed client. */
  function Greeted(s: Shell, closed: set<Conn>, conn: Conn, steal: bool, id: AttachId): Shell
    requires s.reader.Waiting? && s.attacher.Free? && id !in s.clients && (s.attach.Some? ==> steal)
  {
    var s4 := Entered(s, closed, conn, steal, id);
    var s5 := Apply(s4, closed, SendSnapshot);
    var s6 := Apply(s5, closed, SendCwd);
    Apply(s6, closed, Install)
  }

  /** `attach` from the lock to its release. */
  function Attached(s: Shell, closed: set<Conn>, conn: Conn, steal: bool, id: AttachId): Shell
    requires s.reader.Waiting? && s.attacher.Free? && id !in s.clients && (s.attach.Some? ==> steal)
  {
    var t := Greeted(s, closed, conn, steal, id);
    Apply(Apply(t, closed, Replay), closed, Unlock)
  }

  /** `mark_exited`: status, then the attach field, then the message. */
  function Exiting(s: Shell, closed: set<Conn>, caller: Caller): Shell
    requires IsAt(s, caller, Owner(Removed)) && s.attacher.Free?
  {
    var s1 := Apply(s, closed, MarkExited(caller));
    var s2 := Apply(s1, closed, TakeAttach(caller));
    Apply(s2, closed, SendExited(caller))
  }

  function Sending(clients: map<AttachId, Client>, closed: set<Conn>, id: AttachId, msg: Msg): map<AttachId, Client> {
    if id !in clients || clients[id].conn in closed then clients
    else clients[id := clients[id].(log := Sent(clients[id].log, msg))]
  }

  /** A new client with the first two messages on its channel. */
  function Greeting(clients: map<AttachId, Client>, closed: set<Conn>, id: AttachId, client: Client,
                    first: Msg, second: Msg): map<AttachId, Client>
  {
    Sending(Sending(clients[id := client], closed, id, first), closed, id, second)
  }

  /** What of the step machine's state is history to the object. */
  datatype Past = Past(
    output: seq<Chunk>,
    detached: set<AttachId>,
    cleanup: Cleanup,
    callers: map<Caller, CallerAt>,
    poller: Poller,
    marks: nat,
    closes: nat,
    exitTold: Option<AttachId>)

  /** A grid has at least one row and one column. */
  function GridOf(size: (nat, nat)): (nat, nat) {
    (if size.0 == 0 then 1 else size.0, if size.1 == 0 then 1 else size.1)
  }

  class ShellState {
    var status: Status
    var cwd: nat
    var masterOpen: bool
    var seqNo: nat
    var terminal: seq<Chunk>
    const scrollback: BoundedBytes
    const events: EventRing
    var attach: Option<AttachId>
    var name: string
    // Rows and columns of the pty, and those of the terminal's grid.
    var size: (nat, nat)
    var grid: (nat, nat)
    // The channels handed to this shell, by attach id.
    var clients: map<AttachId, Client>
    // The name that each Snapshot carried.
    ghost var namesSent: map<AttachId, string>
    ghost var past: Past

    ghost predicate Valid()
      reads this, scrollback, events
    {
      && scrollback.Valid() && events.Valid()
      && (attach.Some? ==> attach.value in clients)
      && grid == GridOf(size)
    }

    /** The state between two calls: no section of this shell is in progress. */
    ghost function Abs(): Shell
      reads this, scrollback, events
    {
      Shell(scrollback.maxBytes, events.maxBytes, status, cwd, masterOpen, seqNo, terminal, scrollback.bytes,
            events.events, attach, Waiting, Free, past.cleanup, past.callers, past.poller, past.output, clients,
            past.detached, past.marks, past.closes, past.exitTold)
    }

    constructor (name: string, cwd: nat, size: (nat, nat), scrollCap: nat, ringCap: nat)
      ensures Valid() && Initial(Abs()) && fresh(scrollback) && fresh(events)
      ensures this.name == name && this.cwd == cwd && this.size == size
      ensures scrollback.maxBytes == scrollCap && events.maxBytes == ringCap
    {
      status, masterOpen, seqNo, terminal := Running, true, 0, [];
      this.name, this.cwd, namesSent := name, cwd, map[];
      this.size, grid := size, GridOf(size);
      scrollback := new BoundedBytes(scrollCap);
      events := new EventRing(ringCap);
      attach, clients := None, map[];
      past := Past([], {}, Registered, map[], Sleeping, 0, 0, None);
    }

    /** `tx.send`: false when the receiving end is gone. */
    method SendTo(id: AttachId, msg: Msg, closed: set<Conn>) returns (ok: bool)
      requires id in clients
      modifies this`clients
      ensures ok <==> old(clients)[id].conn !in closed
      ensures clients == Sending(old(clients), closed, id, msg) && id in clients
    {
      ok := clients[id].conn !in closed;
      if ok {
        clients := clients[id := clients[id].(log := Sent(clients[id].log, msg))];
      }
    }

    method RecordOutput(bytes: Chunk, closed: set<Conn>)
      requires Valid()
      modifies this`seqNo, this`terminal, this`attach, this`clients, this`past, scrollback, events
      ensures Valid() && Abs() == Recorded(old(Abs()), closed, bytes)
    {
      hide Recorded, Appended, LastN, Deliver;
      RecordedForm(Abs(), closed, bytes);
      ghost var s0 := Abs();
      seqNo := seqNo + 1;
      past := past.(output := past.output + [bytes]);
      terminal := terminal + [bytes];
      scrollback.Append(bytes);
      events.Append(seqNo, bytes);
      assert Abs().(reader := Logged(bytes)) == AllButDelivered(s0, bytes);
      DeliverOutput(bytes, closed);
    }

    /** The last section of `record_output`, under the attach lock. */
    method DeliverOutput(bytes: Chunk, closed: set<Conn>)
      requires Valid()
      modifies this`clients, this`attach
      ensures Valid() && Abs() == Deliver(old(Abs()).(reader := Logged(bytes)), closed)
    {
      hide Deliver, Sending;
      DeliverForm(Abs().(reader := Logged(bytes)), closed);
      if attach.Some? {
        var ok := SendTo(attach.value, Output(seqNo, bytes), closed);
        if !ok {
          attach := None;
        }
      }
    }

    /** `ptyTakesIt` is the answer of the resize call on the pty. */
    method Resize(cols: nat, rows: nat, ptyTakesIt: bool) returns (ok: bool)
      modifies this`size, this`grid
      ensures ok == (masterOpen && ptyTakesIt)
      ensures !ok ==> size == old(size) && grid == old(grid)
      ensures ok ==> size == (rows, cols) && 1 <= grid.0 <= rows + 1 && 1 <= grid.1 <= cols + 1
      ensures ok ==> (rows >= 1 ==> grid.0 == rows) && (cols >= 1 ==> grid.1 == cols)
      ensures ok ==> grid == GridOf(size)
    {
      if !masterOpen || !ptyTakesIt {
        return false;
      }
      grid := GridOf((rows, cols));
      size := (rows, cols);
      return true;
    }

    method Attach(cols: nat, rows: nat, ptyTakesIt: bool, conn: Conn, steal: bool, id: AttachId, closed: set<Conn>)
      returns (result: Option<AttachId>)
      requires Valid() && id !in clients
      modifies this`clients, this`attach, this`size, this`grid, this`namesSent
      ensures Valid()
      ensures result == if old(attach).Some? && !steal then None else Some(id)
      ensures Abs() == if result.None? then old(Abs()) else Attached(old(Abs()), closed, conn, steal, id)
      ensures size == if result.Some? && masterOpen && ptyTakesIt then (rows, cols) else old(size)
      ensures namesSent == if result.Some? then old(namesSent)[id := name] else old(namesSent)
    {
      hide Attached, After, SendAll, Greeting;
      ghost var s0 := Abs();
      if attach.Some? {
        if !steal {
          return None;
        }
        var _ := SendTo(attach.value, DetachedByAnother, closed);
      }
      var _ := Resize(cols, rows, ptyTakesIt);
      var seq0 := seqNo;
      Greet(conn, id, closed);
      AttachedForm(s0, closed, conn, steal, id);
      assert Abs() == GreetedForm(s0, closed, conn, id);
      ReplayEvents(id, After(events.events, seq0), closed);
      return Some(id);
    }

    /** The middle of `attach`: snapshot and cwd are sent, then the client is installed. */
    method Greet(conn: Conn, id: AttachId, closed: set<Conn>)
      requires id !in clients
      modifies this`clients, this`attach, this`namesSent
      ensures clients == Greeting(old(clients), closed, id, Client(conn, seqNo + 1, Nothing),
                                  Snapshot(seqNo, status, terminal), CwdChanged(cwd))
      ensures id in clients && attach == Some(id) && namesSent == old(namesSent)[id := name]
    {
      hide Sending;
      clients := clients[id := Client(conn, seqNo + 1, Nothing)];
      var seq0 := seqNo;
      var screen := terminal;
      var named := name;
      var shown := status;
      var _ := SendTo(id, Snapshot(seq0, shown, screen), closed);
      namesSent := namesSent[id := named];
      var _ := SendTo(id, CwdChanged(cwd), closed);
      attach := Some(id);
    }

    /** The loop over `events.after(seq)`. */
    method ReplayEvents(id: AttachId, replay: seq<Event>, closed: set<Conn>)
      requires id in clients
      modifies this`clients
      ensures Abs() == SendAll(old(Abs()), closed, id, replay) && id in clients
    {
      for i := 0 to |replay|
        invariant id in clients
        invariant SendAll(old(Abs()), closed, id, replay) == SendAll(Abs(), closed, id, replay[i..])
      {
        assert replay[i..][0] == replay[i] && replay[i..][1..] == replay[i + 1..];
        ghost var before := Abs();
        var _ := SendTo(id, Replayed(replay[i].seqNo, replay[i].bytes), closed);
        assert Abs() == Send(before, closed, id, Replayed(replay[i].seqNo, replay[i].bytes));
      }
    }

    method Detach(id: AttachId)
      requires Valid()
      modifies this`attach, this`past
      ensures Valid() && Abs() == Apply(old(Abs()), {}, DetachClient(id))
    {
      hide Reading, Attaching, Cleaning, Polling;
      if attach == Some(id) {
        attach := None;
        past := past.(detached := past.detached + {id});
      }
    }

    method MarkExited(closed: set<Conn>, ghost caller: Caller)
      requires Valid() && IsAt(Abs(), caller, Owner(Removed))
      modifies this`status, this`attach, this`clients, this`past
      ensures Valid() && Abs() == Exiting(old(Abs()), closed, caller)
    {
      hide Exiting, Sending;
      ExitingForm(Abs(), closed, caller);
      status := Exited;
      var taken := attach;
      attach := None;
      if taken.Some? {
        var _ := SendTo(taken.value, ShellExited, closed);
      }
      past := past.(marks := past.marks + 1, cleanup := Told, callers := past.callers[caller := Owner(Told)],
                    exitTold := if taken.Some? then taken else past.exitTold);
    }

    method CloseHandles(ghost caller: Caller)
      requires Valid() && IsAt(Abs(), caller, Owner(Told))
      modifies this`masterOpen, this`past
      ensures Valid() && Abs() == Apply(old(Abs()), {}, CloseMaster(caller))
    {
      hide Reading, Attaching, Detaching, Polling;
      masterOpen := false;
      past := past.(closes := past.closes + 1, cleanup := Closed, callers := past.callers[caller := Returned(true)]);
    }
  }

  // -------------------------------------------------- the chains in closed form

  function AllButDelivered(s: Shell, bytes: Chunk): Shell {
    s.(seqNo := s.seqNo + 1, output := s.output + [bytes], terminal := s.terminal + [bytes],
       scroll := LastN(s.scroll + bytes, s.scrollCap),
       events := Appended(s.ringCap, s.events, s.seqNo + 1, bytes), reader := Logged(bytes))
  }

  lemma {:induction false} RecordedForm(s: Shell, closed: set<Conn>, bytes: Chunk)
    requires s.reader.Waiting? && s.attacher.Free?
    ensures Recorded(s, closed, bytes) == Deliver(AllButDelivered(s, bytes), closed)
  {
    hide Appended, LastN, Deliver;
  }

  lemma {:induction false} DeliverForm(s: Shell, closed: set<Conn>)
    requires s.reader.Logged? && (s.attach.Some? ==> s.attach.value in s.clients)
    ensures Deliver(s, closed) ==
            s.(reader := Waiting,
               attach := if s.attach.Some? && s.clients[s.attach.value].conn in closed then None else s.attach,
               clients := if s.attach.None? then s.clients
                          else Sending(s.clients, closed, s.attach.value, Output(s.seqNo, s.reader.bytes)))
  {
  }

  /** `s` with its old client told and the new one greeted and installed. */
  function GreetedForm(s: Shell, closed: set<Conn>, conn: Conn, id: AttachId): Shell {
    var told := if s.attach.Some? then Sending(s.clients, closed, s.attach.value, DetachedByAnother) else s.clients;
    var client := Client(conn, Delivered(s) + 1, Nothing);
    s.(clients := Greeting(told, closed, id, client, Snapshot(s.seqNo, s.status, s.terminal), CwdChanged(s.cwd)),
       attach := Some(id))
  }

  lemma {:induction false} GreetedIsThere(s: Shell, closed: set<Conn>, conn: Conn, id: AttachId)
    ensures id in GreetedForm(s, closed, conn, id).clients
  {
  }

  lemma {:induction false} AttachedForm(s: Shell, closed: set<Conn>, conn: Conn, steal: bool, id: AttachId)
    requires s.reader.Waiting? && s.attacher.Free? && id !in s.clients && (s.attach.Some? ==> steal)
    ensures Attached(s, closed, conn, steal, id) ==
            SendAll(GreetedForm(s, closed, conn, id), closed, id, After(s.events, s.seqNo))
  {
    hide After, SendAll, Greeted, Sending;
    var g := GreetedForm(s, closed, conn, id);
    GreetedHasForm(s, closed, conn, steal, id);
    GreetedIsThere(s, closed, conn, id);
    SendAllIgnoresAttacher(g, closed, id, After(s.events, s.seqNo), Installed(id, s.seqNo));
    SendAllKeepsAttacher(g, closed, id, After(s.events, s.seqNo));
  }

  lemma {:induction false} EnteredHasForm(s: Shell, closed: set<Conn>, conn: Conn, steal: bool, id: AttachId)
    requires s.reader.Waiting? && s.attacher.Free? && id !in s.clients && (s.attach.Some? ==> steal)
    ensures var told := if s.attach.None? then s.clients
                        else Sending(s.clients, closed, s.attach.value, DetachedByAnother);
            && id !in told
            && Apply(s, closed, LockAttach(conn, steal)) == s.(clients := told, attacher := Locked(conn))
  {
  }

  lemma {:induction false} ReadHasForm(s: Shell, closed: set<Conn>, id: AttachId)
    requires s.attacher.Locked? && id !in s.clients
    ensures Apply(Apply(Apply(s, closed, LoadSeq(id)), closed, ReadScreen), closed, ReadStatus) ==
            s.(clients := s.clients[id := Client(s.attacher.conn, Delivered(s) + 1, Nothing)],
               attacher := StatusRead(id, s.seqNo, s.terminal, s.status))
  {
  }

  lemma {:induction false} SentHasForm(s: Shell, closed: set<Conn>, id: AttachId)
    requires s.attacher.StatusRead? && s.attacher.id == id && id in s.clients
    ensures var snapshot := Snapshot(s.attacher.seqNo, s.attacher.status, s.attacher.screen);
            var shown := Sending(s.clients, closed, id, snapshot);
            Apply(Apply(Apply(s, closed, SendSnapshot), closed, SendCwd), closed, Install) ==
            s.(clients := Sending(shown, closed, id, CwdChanged(s.cwd)), attach := Some(id),
               attacher := Installed(id, s.attacher.seqNo))
  {
  }

  lemma {:induction false} GreetedHasForm(s: Shell, closed: set<Conn>, conn: Conn, steal: bool, id: AttachId)
    requires s.reader.Waiting? && s.attacher.Free? && id !in s.clients && (s.attach.Some? ==> steal)
    ensures Greeted(s, closed, conn, steal, id) == GreetedForm(s, closed, conn, id).(attacher := Installed(id, s.seqNo))
  {
    hide Apply, Sending;
    EnteredHasForm(s, closed, conn, steal, id);
    var s1 := Apply(s, closed, LockAttach(conn, steal));
    ReadHasForm(s1, closed, id);
    var s2 := s1.(clients := s1.clients[id := Client(conn, Delivered(s) + 1, Nothing)],
                  attacher := StatusRead(id, s.seqNo, s.terminal, s.status));
    SentHasForm(s2, closed, id);
  }

  lemma {:induction false} SendAllKeepsAttacher(s: Shell, closed: set<Conn>, id: AttachId, replay: seq<Event>)
    ensures SendAll(s, closed, id, replay).attacher == s.attacher
    decreases |replay|
  {
    if replay != [] {
      SendAllKeepsAttacher(Send(s, closed, id, Replayed(replay[0].seqNo, replay[0].bytes)), closed, id, replay[1..]);
    }
  }

  lemma {:induction false} ExitingForm(s: Shell, closed: set<Conn>, caller: Caller)
    requires IsAt(s, caller, Owner(Removed)) && s.attacher.Free?
    ensures Exiting(s, closed, caller) ==
            s.(status := Exited, marks := s.marks + 1, attach := None, cleanup := Told,
               callers := s.callers[caller := Owner(Told)],
               clients := if s.attach.None? then s.clients else Sending(s.clients, closed, s.attach.value, ShellExited),
               exitTold := if s.attach.None? then s.exitTold else s.attach)
  {
    hide Reading, Attaching, Polling, Detaching;
  }

  lemma {:induction false} SendAllIgnoresAttacher(s: Shell, closed: set<Conn>, id: AttachId,
                                                  replay: seq<Event>, a: Attacher)
    ensures SendAll(s, closed, id, replay).(attacher := a) == SendAll(s.(attacher := a), closed, id, replay)
    decreases |replay|
  {
    if replay != [] {
      var next := Send(s, closed, id, Replayed(replay[0].seqNo, replay[0].bytes));
      SendAllIgnoresAttacher(next, closed, id, replay[1..], a);
    }
  }
}
