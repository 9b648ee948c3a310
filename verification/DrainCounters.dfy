/**
The decision epochs of a subject: within one child they only move forward, across its generations,
until an Unload of the subject is confirmed.

This needs one more thing of the callers: an Unload is recorded for the generation that is mirrored,
or while none is.
*/
module DrainCounters {
  import opened Basics
  import opened Drain
  import opened DrainInvariant
  import opened DrainProofs
  import opened DrainWorkerProofs
  import opened DrainRuns

  /* ---- the commands of a queue ---- */

  ghost function Commands(q: seq<Intent>): seq<Intent> {
    if q == [] then [] else (if q[0].job.Lifecycle? then [q[0]] else []) + Commands(q[1..])
  }

  lemma {:induction false} CommandsWithout(q: seq<Intent>, t: Target)
    ensures Commands(Without(q, t)) == Commands(q)
  {
    if q != [] {
      CommandsWithout(q[1..], t);
      assert ([q[0]] + Without(q[1..], t))[1..] == Without(q[1..], t);
    }
  }

  lemma {:induction false} CommandsAppend(q: seq<Intent>, x: Intent)
    ensures Commands(q + [x]) == Commands(q) + if x.job.Lifecycle? then [x] else []
  {
    if q == [] {
      assert q + [x] == [x] && [x][1..] == [];
    } else {
      CommandsAppend(q[1..], x);
      assert (q + [x])[1..] == q[1..] + [x];
    }
  }

  lemma {:induction false} CommandsReplace(q: seq<Intent>, k: nat, x: Intent)
    requires k < |q| && q[k].job.Install? && x.job.Install?
    ensures Commands(q[k := x]) == Commands(q)
  {
    if k == 0 {
      assert q[k := x][1..] == q[1..];
    } else {
      CommandsReplace(q[1..], k - 1, x);
      assert q[k := x][1..] == q[1..][k - 1 := x];
    }
  }

  /** Installs come and go without touching the commands. */
  lemma CommandsEnqueue(q: seq<Intent>, x: Intent)
    requires x.job.Install?
    ensures Commands(Enqueue(q, x)) == Commands(q)
  {
    var k := FirstInstall(q, x.target.subj);
    CommandsAppend(q, x);
    if k < |q| {
      CommandsReplace(q, k, x);
      CommandsWithout(q, q[k].target);
      CommandsAppend(Without(q, q[k].target), x);
    }
  }

  /** A replay consists of Registers. */
  lemma {:induction false} CommandsReplay(h: Shared, order: seq<Subject>)
    requires forall s <- order :: s in h.fences
    ensures forall i <- Commands(Replay(h, order)) :: i.job == Lifecycle(Register)
  {
    if order != [] {
      var n := |order| - 1;
      CommandsReplay(h, order[..n]);
      var x := Intent(Target(order[n], h.fences[order[n]]), Lifecycle(Register), h.current);
      CommandsAppend(Replay(h, order[..n]), x);
      if order[n] in h.snapshots {
        CommandsEnqueue(Replay(h, order[..n]) + [x], Intent(x.target, Install(h.snapshots[order[n]]), h.current));
      }
    }
  }

  lemma CommandsTail(q: seq<Intent>)
    requires q != []
    ensures if q[0].job.Lifecycle? then Commands(q) != [] && Commands(q)[0] == q[0] && Commands(q)[1..] == Commands(q[1..])
            else Commands(q) == Commands(q[1..])
  {
  }

  lemma {:induction false} CommandsHas(q: seq<Intent>, t: Target)
    requires Has(q, Unload, t)
    ensures Has(Commands(q), Unload, t)
  {
    if !IsCommand(q[0], Unload, t) { CommandsHas(q[1..], t); }
    CommandsTail(q);
  }

  /* ---- strangers ---- */

  /** A Register of the subject is still to come. */
  ghost predicate Later(c: seq<Intent>, s: Subject) {
    c != [] && ((c[0].job == Lifecycle(Register) && c[0].target.subj == s) || Later(c[1..], s))
  }

  /** The Unload of another generation of the subject. */
  ghost predicate Stranger(i: Intent, t: Target) {
    i.job == Lifecycle(Unload) && i.target.subj == t.subj && i.target != t
  }

  /** Every stranger is followed by a Register. */
  ghost predicate Followed(c: seq<Intent>, t: Target) {
    c == [] || ((Stranger(c[0], t) ==> Later(c[1..], t.subj)) && Followed(c[1..], t))
  }

  /** Every stranger is followed by a Register, or comes after the Unload of `t` itself. */
  ghost predicate Guarded(c: seq<Intent>, t: Target) {
    c == [] || IsCommand(c[0], Unload, t) || ((Stranger(c[0], t) ==> Later(c[1..], t.subj)) && Guarded(c[1..], t))
  }

  lemma {:induction false} FollowedGuarded(c: seq<Intent>, t: Target)
    requires Followed(c, t)
    ensures Guarded(c, t)
  {
    if c != [] { FollowedGuarded(c[1..], t); }
  }

  lemma {:induction false} LaterAppend(c: seq<Intent>, x: Intent, s: Subject)
    ensures Later(c + [x], s) <==> Later(c, s) || (x.job == Lifecycle(Register) && x.target.subj == s)
  {
    if c == [] {
      assert c + [x] == [x];
    } else {
      LaterAppend(c[1..], x, s);
      assert (c + [x])[1..] == c[1..] + [x];
    }
  }

  lemma {:induction false} FollowedAppend(c: seq<Intent>, x: Intent, t: Target)
    requires (Followed(c, t) && !Stranger(x, t)) || (x.job == Lifecycle(Register) && x.target.subj == t.subj)
    ensures Followed(c + [x], t)
  {
    if c == [] {
      assert c + [x] == [x] && [x][1..] == [];
    } else {
      FollowedAppend(c[1..], x, t);
      LaterAppend(c[1..], x, t.subj);
      assert (c + [x])[1..] == c[1..] + [x];
    }
  }

  lemma {:induction false} GuardedAppend(c: seq<Intent>, x: Intent, t: Target)
    requires Guarded(c, t) && (!Stranger(x, t) || Has(c, Unload, t))
    ensures Guarded(c + [x], t)
  {
    if c == [] {
      assert c + [x] == [x] && [x][1..] == [];
    } else if !IsCommand(c[0], Unload, t) {
      GuardedAppend(c[1..], x, t);
      LaterAppend(c[1..], x, t.subj);
      assert (c + [x])[1..] == c[1..] + [x];
    }
  }

  lemma {:induction false} RegistersFollowed(c: seq<Intent>, t: Target)
    requires forall i <- c :: i.job == Lifecycle(Register)
    ensures Followed(c, t)
  {
    if c != [] { RegistersFollowed(c[1..], t); }
  }

  lemma {:induction false} LaterReserves(q: seq<Intent>, s: Subject)
    requires Later(Commands(q), s)
    ensures exists i <- q :: i.target.subj == s && i.job == Lifecycle(Register)
  {
    if q != [] {
      CommandsTail(q);
      if !(q[0].job == Lifecycle(Register) && q[0].target.subj == s) {
        LaterReserves(q[1..], s);
        var i :| i in q[1..] && i.target.subj == s && i.job == Lifecycle(Register);
        assert i in q;
      }
    }
  }

  /* ---- the wire ---- */

  /** The counter of the last prepare for `s` in session `e`, unless an Unload of `s` was confirmed since. */
  ghost function LastCell(w: seq<Wire>, e: nat, s: Subject): Option<nat> {
    if w == [] then None
    else
      var x := w[|w| - 1];
      if x.session == e && x.target.subj == s && x.Receipt? && x.op == Unload && x.ok then None
      else if x.session == e && x.target.subj == s && x.Prepare? then Some(x.cell)
      else LastCell(w[..|w| - 1], e, s)
  }

  ghost predicate SameCell(w: seq<Wire>, x: Wire) {
    x.Prepare? ==> LastCell(w, x.session, x.target.subj) in {None, Some(x.cell)}
  }

  ghost predicate OneCell(w: seq<Wire>) {
    forall i :: 0 <= i < |w| ==> SameCell(w[..i], w[i])
  }

  lemma ReadCell(w: seq<Wire>, x: Wire)
    ensures forall e, s ::
        LastCell(w + [x], e, s) == (
        if x.session == e && x.target.subj == s && x.Receipt? && x.op == Unload && x.ok then None
        else if x.session == e && x.target.subj == s && x.Prepare? then Some(x.cell)
        else LastCell(w, e, s))
  {
    assert (w + [x])[..|w|] == w;
  }

  lemma OneCellAppend(w: seq<Wire>, x: Wire)
    requires OneCell(w) && SameCell(w, x)
    ensures OneCell(w + [x])
  {
    var v := w + [x];
    forall i | 0 <= i < |v| ensures SameCell(v[..i], v[i]) {
      assert v[..i] == if i < |w| then w[..i] else w;
    }
  }

  lemma {:induction false} QuietCell(w: seq<Wire>, e: nat, s: Subject)
    requires forall x <- w :: x.session != e
    ensures LastCell(w, e, s) == None
  {
    if w != [] {
      assert w[|w| - 1] in w;
      QuietCell(w[..|w| - 1], e, s);
    }
  }

  /* ---- the invariant ---- */

  /** Installers work through their subject's counter, and so did the last prepare. */
  ghost predicate CellsInv(owner: Option<nat>, counters: map<Subject, nat>, ins: map<Target, Installer>, wire: seq<Wire>) {
    && (forall t <- ins :: t.subj in counters && counters[t.subj] == ins[t].cell)
    && (owner.Some? ==> forall s :: LastCell(wire, owner.value, s).Some? ==>
          s in counters && LastCell(wire, owner.value, s) == Some(counters[s]))
    && OneCell(wire)
  }

  ghost predicate WorkerInv(w: Worker) {
    CellsInv(w.owner, w.counters, w.installers, w.wire)
  }

  ghost predicate FollowedInv(h: Shared) {
    forall t: Target :: Registered(h, t) ==> Followed(Commands(h.queue), t)
  }

  /** While an Unload is under way, every other installer of its subject has a Register coming. */
  ghost predicate GuardInv(c: seq<Intent>, w: Worker) {
    && (forall t: Target :: Held(w, t) ==> Guarded(c, t))
    && (w.busy.Commanding? && w.busy.op == Unload ==>
          forall t <- w.installers :: t.subj == w.busy.target.subj ==> Later(c, t.subj))
  }

  ghost predicate CounterRunInv(d: State) {
    && WorkerInv(d.wk) && FollowedInv(d.sh)
    && (d.sh.current.Some? && d.wk.owner == d.sh.current ==> GuardInv(Commands(d.sh.queue), d.wk))
  }

  /** An Unload is recorded for the mirrored generation, or while none is mirrored. */
  ghost predicate Tidy(h: Shared, e: Event) {
    e.Recorded? && e.op == Unload ==> e.t.subj !in h.fences || h.fences[e.t.subj] == e.t.fence
  }

  /* ---- handlers ---- */

  /** With the same commands and registrations, the order among the commands is as good as before. */
  lemma SameCommands(h: Shared, h': Shared, w: Worker)
    requires Commands(h'.queue) == Commands(h.queue) && h'.fences == h.fences && h'.current == h.current
    ensures CounterRunInv(State(h, w)) ==> CounterRunInv(State(h', w))
  {
    assert forall t: Target :: Registered(h', t) <==> Registered(h, t);
  }

  lemma RecordCommands(h: Shared, t: Target, op: Op)
    ensures Commands(Record(h, t, op).queue) == Commands(h.queue) + [Intent(t, Lifecycle(op), h.current)]
  {
    var x := Intent(t, Lifecycle(op), h.current);
    CommandsAppend(h.queue, x);
    CommandsWithout(h.queue, t);
    CommandsAppend(Without(h.queue, t), x);
    if t.subj in h.fences {
      var u := Target(t.subj, h.fences[t.subj]);
      CommandsWithout(h.queue, u);
      CommandsAppend(Without(h.queue, u), x);
    }
  }

  lemma RecordCounters(d: State, t: Target, op: Op)
    requires Inv(d) && CounterRunInv(d) && Tidy(d.sh, Recorded(t, op)) && Disciplined(d.sh, Recorded(t, op))
    ensures CounterRunInv(d.(sh := Record(d.sh, t, op)))
  {
    var h, w, x := d.sh, d.wk, Intent(t, Lifecycle(op), d.sh.current);
    var h', c := Record(h, t, op), Commands(h.queue);
    RecordCommands(h, t, op);
    forall u: Target | Registered(h', u) ensures Followed(c + [x], u) {
      FollowedAppend(c, x, u);
    }
    if h.current.Some? && w.owner == h.current {
      forall u: Target | Held(w, u) ensures Guarded(c + [x], u) {
        if Stranger(x, u) {
          assert !Registered(h, u);
          AheadHas(h.queue, u);
          CommandsHas(h.queue, u);
        }
        GuardedAppend(c, x, u);
      }
      forall s: Subject ensures Later(c, s) ==> Later(c + [x], s) { LaterAppend(c, x, s); }
    }
  }

  lemma PublishCounters(d: State, order: seq<Subject>)
    requires Inv(d) && CounterRunInv(d) && Enumerates(order, d.sh.fences.Keys)
    ensures CounterRunInv(d.(sh := Publish(d.sh, order)))
  {
    var h1 := d.sh.(current := Some(d.sh.nextSession), nextSession := d.sh.nextSession + 1);
    CommandsReplay(h1, order);
    forall t: Target ensures Followed(Commands(Publish(d.sh, order).queue), t) { RegistersFollowed(Commands(Replay(h1, order)), t); }
  }

  lemma HandlerCounters(d: State, e: Event)
    requires Inv(d) && CounterRunInv(d) && Enabled(d, e) && Disciplined(d.sh, e) && Tidy(d.sh, e)
    requires e.Recorded? || e.Retained? || e.Published? || e.Detached? || e.Rebinding?
    ensures CounterRunInv(Happen(d, e))
  {
    match e
    case Recorded(t, op) => RecordCounters(d, t, op);
    case Retained(t, snap) =>
      CommandsEnqueue(d.sh.queue, Intent(t, Install(snap), d.sh.current));
      SameCommands(d.sh, Retain(d.sh, t, snap), d.wk);
    case Published(order) => PublishCounters(d, order);
    case Detached(_) =>
    case Rebinding(s, on) => SameCommands(d.sh, SetRebind(d.sh, s, on), d.wk);
    hide Record, Publish, Inv;
  }

  /* ---- the worker ---- */

  /** A new child starts with nothing. */
  lemma AdoptCounters(d: State)
    requires Inv(d) && CounterRunInv(d) && d.wk.busy.Idle?
    ensures CounterRunInv(d.(wk := Adopt(d.wk, d.sh.current)))
  {
    var h, w := d.sh, d.wk;
    if w.owner != h.current && h.current.Some? {
      forall s: Subject ensures LastCell(w.wire, h.current.value, s) == None { QuietCell(w.wire, h.current.value, s); }
    }
  }

  /** What is left of the order once the head is gone, for a generation whose own Unload did not go with it. */
  lemma PopGuarded(c: seq<Intent>, t: Target, registered: bool)
    requires c != [] && Guarded(c, t) && (registered ==> Followed(c, t)) && (IsCommand(c[0], Unload, t) ==> registered)
    ensures Guarded(c[1..], t) && (Stranger(c[0], t) ==> Later(c[1..], t.subj))
  {
    if registered { FollowedGuarded(c[1..], t); }
  }

  lemma PopCounters(h: Shared, w: Worker, begins: bool)
    requires CounterRunInv(State(h, w)) && w.busy.Idle? && h.current.Some? && w.owner == h.current
    requires h.queue != [] && h.queue[0].job.Lifecycle? && (begins <==> StillWanted(h, h.queue[0]))
    ensures CounterRunInv(State(h.(queue := h.queue[1..]), if begins then Begin(w, h.queue[0], h.current.value) else w))
  {
    var c, i, h' := Commands(h.queue), h.queue[0], h.(queue := h.queue[1..]);
    var w' := if begins then Begin(w, i, h.current.value) else w;
    assert c[0] == i && c[1..] == Commands(h'.queue);
    forall t: Target | Registered(h', t) ensures Followed(c[1..], t) { assert Registered(h, t); }
    forall t: Target | Held(w', t) ensures Guarded(c[1..], t) && (Stranger(i, t) ==> Later(c[1..], t.subj)) {
      if Registered(h, t) { FollowedGuarded(c, t); }
      PopGuarded(c, t, Registered(h, t));
    }
  }

  lemma TakeCounters(d: State)
    requires Inv(d) && CounterRunInv(d) && d.wk.busy.Idle?
    ensures CounterRunInv(Take(d))
  {
    AdoptCounters(d);
    var h, w := d.sh, Adopt(d.wk, d.sh.current);
    if h.current.Some? && h.queue != [] {
      var i := h.queue[0];
      assert i in h.queue;
      assert i.epoch == h.current;
      var h1 := h.(queue := h.queue[1..]);
      CommandsWithout(h1.queue, i.target);
      if i.job.Lifecycle? {
        PopCounters(h, w, StillWanted(h, i));
        SameCommands(h1, h1.(queue := Without(h1.queue, i.target)), w);
      } else {
        SameCommands(h, h1, w);
        SameCommands(h1, h1.(queue := Without(h1.queue, i.target)), w);
        InstallCounters(h1, w, i);
      }
    }
    hide CounterRunInv, Inv;
  }

  lemma InstallCounters(h: Shared, w: Worker, i: Intent)
    requires CounterRunInv(State(h, w)) && w.busy.Idle? && h.current.Some? && w.owner == h.current && i.job.Install?
    ensures CounterRunInv(State(h, Begin(w, i, h.current.value)))
  {
    var w' := Begin(w, i, h.current.value);
    assert forall t :: Held(w', t) <==> Held(w, t);
  }

  /** A wire entry that is neither a prepare nor a confirmed Unload tells nothing about counters. */
  lemma WireCounters(w: Worker, x: Wire)
    requires WorkerInv(w) && !x.Prepare?
    ensures WorkerInv(w.(wire := w.wire + [x]))
  {
    ReadCell(w.wire, x);
    OneCellAppend(w.wire, x);
  }

  /** Nothing but the wire and what the worker is busy with changed, and it holds no more than before. */
  lemma SameHeld(d: State, w': Worker)
    requires CounterRunInv(d) && WorkerInv(w') && w'.owner == d.wk.owner
    requires forall t :: Held(w', t) ==> Held(d.wk, t)
    requires w'.busy.Commanding? && w'.busy.op == Unload ==>
      w'.installers == d.wk.installers && d.wk.busy.Commanding? && d.wk.busy.op == Unload && d.wk.busy.target == w'.busy.target
    ensures CounterRunInv(d.(wk := w'))
  {
  }

  lemma SendCounters(d: State)
    requires CounterRunInv(d) && d.wk.busy.Commanding?
    ensures CounterRunInv(d.(wk := OnWire(d.wk)))
  {
    WireCounters(d.wk, Command(d.wk));
    SameHeld(d, OnWire(d.wk));
  }

  lemma LaterReserved(h: Shared, s: Subject)
    requires QueueInv(h) && Later(Commands(h.queue), s)
    ensures Reserved(h, s)
  {
    LaterReserves(h.queue, s);
  }

  /** The counter goes only when no installer of the subject is left to use it. */
  lemma UnloadCounters(d: State, ok: bool)
    requires QueueInv(d.sh) && d.wk.busy.Commanding? && d.wk.busy.op == Unload && Live(d) && CountersInRange(d.wk)
    requires CounterRunInv(d) && d.wk.owner == Some(d.wk.busy.session)
    requires ok ==> LastCell(d.wk.wire, d.wk.busy.session, d.wk.busy.target.subj) == None
    ensures CounterRunInv(Concluded(d, ok, false)) && CounterRunInv(Concluded(d, ok, true))
  {
    var h, w, s := d.sh, d.wk, d.wk.busy.target.subj;
    var w' := Concluded(d, ok, false).wk;
    if ok && !Reserved(h, s) {
      forall t | t in w.installers ensures t.subj != s {
        if t.subj == s { LaterReserved(h, s); }
      }
    }
    SameHeld(d, w');
  }

  lemma RegisterCounters(d: State, ok: bool, built: bool)
    requires d.wk.busy.Commanding? && d.wk.busy.op == Register && CountersInRange(d.wk) && CounterRunInv(d)
    ensures CounterRunInv(Concluded(d, ok, built))
  {
    var h, w, t := d.sh, d.wk, d.wk.busy.target;
    var d' := Concluded(d, ok, built);
    CommandsWithout(h.queue, t);
    SameHeld(d, d'.wk);
    SameCommands(h, d'.sh, d'.wk);
  }

  lemma IdleCounters(d: State)
    requires CounterRunInv(d)
    ensures CounterRunInv(d.(wk := d.wk.(busy := Idle)))
  {
    SameHeld(d, d.wk.(busy := Idle));
  }

  lemma ConcludeCounters(d: State, ok: bool, built: bool)
    requires QueueInv(d.sh) && CounterRunInv(d) && d.wk.busy.Commanding? && CountersInRange(d.wk)
    requires d.wk.owner == Some(d.wk.busy.session)
    requires ok && d.wk.busy.op == Unload ==> LastCell(d.wk.wire, d.wk.busy.session, d.wk.busy.target.subj) == None
    ensures CounterRunInv(Concluded(d, ok, built))
  {
    hide CounterRunInv, QueueInv;
    if d.wk.busy.op == Register {
      RegisterCounters(d, ok, built);
    } else if Live(d) {
      UnloadCounters(d, ok);
    } else {
      IdleCounters(d);
    }
  }

  lemma ReceiveCounters(d: State, ok: bool)
    requires CounterRunInv(d) && d.wk.busy.Commanding?
    ensures CounterRunInv(d.(wk := Received(d.wk, ok)))
    ensures ok && d.wk.busy.op == Unload ==> LastCell(Received(d.wk, ok).wire, d.wk.busy.session, d.wk.busy.target.subj) == None
  {
    var x := Receipt(d.wk.busy.session, d.wk.lastSeq + 1, d.wk.busy.op, d.wk.busy.target, ok);
    WireCounters(d.wk, x);
    ReadCell(d.wk.wire, x);
    SameHeld(d, Received(d.wk, ok));
  }

  lemma AnswerCounters(d: State, ok: bool, built: bool)
    requires QueueInv(d.sh) && CounterRunInv(d) && d.wk.busy.Commanding? && CountersInRange(d.wk)
    requires d.wk.owner == Some(d.wk.busy.session)
    ensures CounterRunInv(Answer(d, ok, built))
  {
    hide CounterRunInv, QueueInv, Concluded;
    ReceiveCounters(d, ok);
    ConcludeCounters(d.(wk := Received(d.wk, ok)), ok, built);
  }

  lemma GiveUpCounters(d: State)
    requires QueueInv(d.sh) && CounterRunInv(d) && d.wk.busy.Commanding? && CountersInRange(d.wk)
    requires d.wk.owner == Some(d.wk.busy.session)
    ensures CounterRunInv(Concluded(d.(wk := GivenUp(d.wk)), false, false))
  {
    SameHeld(d, GivenUp(d.wk));
    hide CounterRunInv, QueueInv, Concluded;
    ConcludeCounters(d.(wk := GivenUp(d.wk)), false, false);
  }

  /* ---- installs ---- */

  lemma PreparedCells(w: Worker)
    requires WorkerInv(w) && InstallerInPlace(w) && w.owner == Some(w.busy.session)
    ensures WorkerInv(Prepared(w))
  {
    var t := w.busy.intent.target;
    var m := w.installers[t];
    var x := Prepare(w.busy.session, t, w.busy.ticket, m.cell, ToWire(m.base, m.local + 1));
    ReadCell(w.wire, x);
    OneCellAppend(w.wire, x);
  }

  lemma PrepareCounters(d: State)
    requires CounterRunInv(d) && InstallerInPlace(d.wk) && d.wk.owner == Some(d.wk.busy.session)
    ensures CounterRunInv(d.(wk := Prepared(d.wk)))
  {
    PreparedCells(d.wk);
    assert forall t :: Held(Prepared(d.wk), t) <==> Held(d.wk, t);
    SameHeld(d, Prepared(d.wk));
  }

  lemma TerminalCounters(d: State)
    requires CounterRunInv(d) && d.wk.busy.Installing?
    ensures CounterRunInv(Terminal(d))
  {
    var t := d.wk.busy.intent.target;
    CommandsWithout(d.sh.queue, t);
    SameHeld(d, Terminal(d).wk);
    SameCommands(d.sh, Terminal(d).sh, Terminal(d).wk);
  }

  lemma AbortCounters(d: State)
    requires CounterRunInv(d) && d.wk.busy.Installing?
    ensures CounterRunInv(AfterAbort(d))
  {
    SameHeld(d, AfterAbort(d).wk);
  }

  lemma ResolveCounters(d: State, how: Settlement, value: int)
    requires CounterRunInv(d) && d.wk.busy.Installing?
    ensures CounterRunInv(Resolve(d, how, value))
  {
    var b := d.wk.busy;
    var x := Settled(b.session, b.intent.target, b.ticket, value, how, SnapOf(b.intent));
    var d1 := d.(wk := d.wk.(wire := d.wk.wire + [x]));
    WireCounters(d.wk, x);
    SameHeld(d, d1.wk);
    match how
    case Committed => IdleCounters(d1);
    case Rejected => TerminalCounters(d1);
    case Aborted => AbortCounters(d1);
  }

  lemma ApplyCounters(d: State, a: Attempt)
    requires CounterRunInv(d) && InstallerInPlace(d.wk) && d.wk.owner == Some(d.wk.busy.session)
    ensures CounterRunInv(Apply(d, a))
  {
    hide CounterRunInv, Terminal, Resolve, AfterAbort;
    IdleCounters(d);
    AbortCounters(d);
    TerminalCounters(d);
    PrepareCounters(d);
    if a.Done? {
      var m := d.wk.installers[d.wk.busy.intent.target];
      ResolveCounters(d.(wk := Prepared(d.wk)), a.how, ToWire(m.base, m.local + 1));
    }
  }

  /* ---- runs ---- */

  lemma WorkerCounters(d: State, e: Event)
    requires Inv(d) && CounterRunInv(d) && Enabled(d, e) && InPlace(d, e)
    requires !(e.Recorded? || e.Retained? || e.Published? || e.Detached? || e.Rebinding?)
    ensures CounterRunInv(Happen(d, e))
  {
    match e
    case Taking => TakeCounters(d);
    case Sending(expired) =>
      SendCounters(d);
      GiveUpCounters(d);
    case Resending => SendCounters(d);
    case Answering(ok, built) => AnswerCounters(d, ok, built);
    case Abandoning => IdleCounters(d);
    case Applying(a) => ApplyCounters(d, a);
    case Reconciling(how) =>
      if how.Some? { ResolveCounters(d, how.value, ToWire(d.wk.installers[d.wk.busy.intent.target].base, d.wk.installers[d.wk.busy.intent.target].local)); }
    hide CounterRunInv, Take, Answer, Apply, Resolve, Concluded;
  }

  lemma StepCounters(d: State, e: Event)
    requires Inv(d) && CounterRunInv(d) && Tidy(d.sh, e)
    ensures CounterRunInv(Step(d, e))
  {
    if Enabled(d, e) && InPlace(d, e) && Disciplined(d.sh, e) {
      if e.Recorded? || e.Retained? || e.Published? || e.Detached? || e.Rebinding? { HandlerCounters(d, e); } else { WorkerCounters(d, e); }
    }
    hide CounterRunInv, Inv;
  }

  ghost predicate TidyRun(f: map<Subject, Fence>, es: seq<Event>) {
    es == [] || (TidyRun(f, es[..|es| - 1]) && Tidy(Run(f, es[..|es| - 1]).sh, es[|es| - 1]))
  }

  lemma {:induction false} RunCounters(f: map<Subject, Fence>, es: seq<Event>)
    requires TidyRun(f, es)
    ensures CounterRunInv(Run(f, es))
  {
    if es == [] {
      forall t: Target ensures Followed([], t) {}
    } else {
      RunCounters(f, es[..|es| - 1]);
      RunKeeps(f, es[..|es| - 1]);
      StepCounters(Run(f, es[..|es| - 1]), es[|es| - 1]);
      hide CounterRunInv, Inv, Step, Tidy;
    }
  }

  /** A confirmed Unload of the subject. */
  ghost predicate Forgets(x: Wire, e: nat, s: Subject) {
    x.Receipt? && x.session == e && x.op == Unload && x.ok && x.target.subj == s
  }

  lemma {:induction false} CellSince(w: seq<Wire>, a: nat, b: nat)
    requires OneCell(w) && a < b <= |w| && w[a].Prepare?
    requires forall m :: a < m < b ==> !Forgets(w[m], w[a].session, w[a].target.subj)
    ensures LastCell(w[..b], w[a].session, w[a].target.subj) == Some(w[a].cell)
  {
    assert w[..b][..b - 1] == w[..b - 1];
    if b > a + 1 {
      CellSince(w, a, b - 1);
      assert SameCell(w[..b - 1], w[b - 1]);
    }
  }

  /**
  Two prepares of one subject in one session either have a confirmed Unload of that subject between
  them, or the same counter and a strictly greater wire epoch, whatever generations they were for.
  */
  lemma SubjectEpochsIncrease(f: map<Subject, Fence>, es: seq<Event>, a: nat, b: nat)
    requires TidyRun(f, es)
    requires var w := Run(f, es).wk.wire;
      a < b < |w| && w[a].Prepare? && w[b].Prepare? && w[a].session == w[b].session && w[a].target.subj == w[b].target.subj
    ensures var w := Run(f, es).wk.wire;
      || (exists m :: a < m < b && Forgets(w[m], w[a].session, w[a].target.subj))
      || (w[a].cell == w[b].cell && w[a].value < w[b].value <= MAX_INT64)
  {
    RunCounters(f, es);
    var w := Run(f, es).wk.wire;
    if forall m :: a < m < b ==> !Forgets(w[m], w[a].session, w[a].target.subj) {
      CellSince(w, a, b);
      assert SameCell(w[..b], w[b]);
      EpochsIncrease(f, es, a, b);
    }
  }
}
