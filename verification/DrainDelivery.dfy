/**
Delivery: once the queue has drained, the child has the latest snapshot of every subject, except
those whose install was given up on a confirmed failure.
*/
module DrainDelivery {
  import opened Basics
  import opened Drain
  import opened DrainInvariant
  import opened DrainProofs
  import opened DrainWorkerProofs
  import opened DrainRuns

  /** The snapshot last committed for `t` in session `e`. */
  ghost function LastInstalled(w: seq<Wire>, e: nat, t: Target): Option<Snapshot> {
    if w == [] then None
    else
      var x := w[|w| - 1];
      if x.Settled? && x.session == e && x.target == t && x.how == Committed then Some(x.snap)
      else LastInstalled(w[..|w| - 1], e, t)
  }

  lemma ReadInstalled(w: seq<Wire>, x: Wire, e: nat, t: Target)
    ensures LastInstalled(w + [x], e, t) ==
            if x.Settled? && x.session == e && x.target == t && x.how == Committed then Some(x.snap) else LastInstalled(w, e, t)
  {
    assert (w + [x])[..|w|] == w;
  }

  ghost predicate HasInstall(q: seq<Intent>, t: Target, snap: Snapshot) {
    q != [] && ((q[0].target == t && q[0].job == Install(snap)) || HasInstall(q[1..], t, snap))
  }

  ghost predicate InFlight(busy: Busy, t: Target, snap: Snapshot) {
    busy.Installing? && busy.intent.target == t && busy.intent.job == Install(snap)
  }

  /** The snapshot is with the child, on its way, or on record as given up. */
  ghost predicate Delivered(q: seq<Intent>, w: Worker, e: nat, t: Target, snap: Snapshot) {
    HasInstall(q, t, snap) || InFlight(w.busy, t, snap) || LastInstalled(w.wire, e, t) == Some(snap) || (t, snap) in w.dropped
  }

  /** A queued install carries the retained snapshot of its subject. */
  ghost predicate Latest(q: seq<Intent>, snapshots: map<Subject, Snapshot>) {
    forall i <- q :: i.job.Install? ==> i.target.subj in snapshots && i.job.snap == snapshots[i.target.subj]
  }

  ghost predicate Kept(h: Shared, s: Subject) {
    s in h.snapshots && s in h.fences
  }

  /** An install in flight is for the retained snapshot, or its successor is queued or was given up. */
  ghost predicate NotOvertaken(h: Shared, w: Worker) {
    w.busy.Installing? && Kept(h, w.busy.intent.target.subj) && Registered(h, w.busy.intent.target) ==>
      var t := w.busy.intent.target;
      var snap := h.snapshots[t.subj];
      InFlight(w.busy, t, snap) || HasInstall(h.queue, t, snap) || (t, snap) in w.dropped
  }

  ghost predicate DeliveryInv(d: State) {
    var h, w := d.sh, d.wk;
    && Latest(h.queue, h.snapshots)
    && (w.busy.Installing? ==> w.busy.intent.job.Install?)
    && (h.current.Some? && w.owner == h.current ==> NotOvertaken(h, w))
    && (h.current.Some? && w.owner == h.current ==>
          forall s :: Kept(h, s) ==> Delivered(h.queue, w, h.current.value, Target(s, h.fences[s]), h.snapshots[s]))
    && (h.current.Some? && w.owner != h.current ==>
          forall s :: Kept(h, s) ==> HasInstall(h.queue, Target(s, h.fences[s]), h.snapshots[s]))
  }

  /* ---- queues ---- */

  lemma {:induction false} WithoutInstall(q: seq<Intent>, t: Target, u: Target, snap: Snapshot)
    requires HasInstall(q, u, snap)
    ensures if u == t then (t, snap) in Drops(q, t) else HasInstall(Without(q, t), u, snap)
  {
    if !(q[0].target == u && q[0].job == Install(snap)) { WithoutInstall(q[1..], t, u, snap); }
    assert ([q[0]] + Without(q[1..], t))[1..] == Without(q[1..], t);
  }

  lemma {:induction false} AppendInstall(q: seq<Intent>, x: Intent, t: Target, snap: Snapshot)
    ensures HasInstall(q + [x], t, snap) <==> HasInstall(q, t, snap) || (x.target == t && x.job == Install(snap))
  {
    if q == [] {
      assert q + [x] == [x] && [x][1..] == [];
    } else {
      AppendInstall(q[1..], x, t, snap);
      assert (q + [x])[1..] == q[1..] + [x];
    }
  }

  lemma {:induction false} ReplaceInstall(q: seq<Intent>, k: nat, x: Intent, t: Target, snap: Snapshot)
    requires k < |q| && ((HasInstall(q, t, snap) && q[k].target != t) || (x.target == t && x.job == Install(snap)))
    ensures HasInstall(q[k := x], t, snap)
  {
    if k == 0 {
      assert q[k := x][1..] == q[1..];
    } else {
      assert q[k := x][1..] == q[1..][k - 1 := x];
      if !(q[0].target == t && q[0].job == Install(snap)) { ReplaceInstall(q[1..], k - 1, x, t, snap); }
    }
  }

  /** Queueing an install never displaces another subject's. */
  lemma EnqueueInstall(q: seq<Intent>, next: Intent, t: Target, snap: Snapshot)
    requires next.job.Install?
    requires forall i <- q :: IsInstall(i, next.target.subj) ==> i.target == next.target && i.epoch == next.epoch
    requires (HasInstall(q, t, snap) && t.subj != next.target.subj) || (next.target == t && next.job == Install(snap))
    ensures HasInstall(Enqueue(q, next), t, snap)
  {
    var k := FirstInstall(q, next.target.subj);
    if k == |q| {
      AppendInstall(q, next, t, snap);
    } else {
      assert q[k] in q;
      ReplaceInstall(q, k, next, t, snap);
    }
  }

  /* ---- handlers ---- */

  lemma RecordDelivers(d: State, t: Target, op: Op)
    requires Inv(d) && DeliveryInv(d) && Disciplined(d.sh, Recorded(t, op))
    ensures DeliveryInv(d.(sh := Record(d.sh, t, op)))
  {
    var h, h', w := d.sh, Record(d.sh, t, op), d.wk;
    var x := Intent(t, Lifecycle(op), h.current);
    var q := if op == Unload then Without(h.queue, t) else h.queue;
    WithoutMembers(h.queue, t);
    assert h'.queue == q + [x];
    forall s, snap | s in h'.fences && HasInstall(h.queue, Target(s, h'.fences[s]), snap) && s in h'.snapshots
      ensures HasInstall(h'.queue, Target(s, h'.fences[s]), snap)
    {
      var u := Target(s, h'.fences[s]);
      assert Registered(h', u);
      if op == Unload { WithoutInstall(h.queue, t, u, snap); }
      AppendInstall(q, x, u, snap);
    }
    assert forall s :: Kept(h', s) ==> Kept(h, s) && h'.fences[s] == h.fences[s] && h'.snapshots[s] == h.snapshots[s];
    RecordLatest(h, t, op);
  }

  lemma RecordLatest(h: Shared, t: Target, op: Op)
    requires QueueInv(h) && Latest(h.queue, h.snapshots) && Disciplined(h, Recorded(t, op))
    ensures Latest(Record(h, t, op).queue, Record(h, t, op).snapshots)
  {
    var h' := Record(h, t, op);
    WithoutMembers(h.queue, t);
    forall i | i in h'.queue && i.job.Install?
      ensures i.target.subj in h'.snapshots && i.job.snap == h'.snapshots[i.target.subj]
    {
      assert i in h.queue;
      assert Registered(h, i.target);
    }
  }

  lemma RetainDelivers(d: State, t: Target, snap: Snapshot)
    requires Inv(d) && DeliveryInv(d)
    ensures DeliveryInv(d.(sh := Retain(d.sh, t, snap)))
  {
    var h, h', w := d.sh, Retain(d.sh, t, snap), d.wk;
    if h' != h {
      var next := Intent(t, Install(snap), h.current);
      EnqueueKeeps(h.queue, next);
      RetainLatest(h, t, snap);
      forall s | Kept(h', s)
        ensures (s == t.subj || HasInstall(h.queue, Target(s, h.fences[s]), h'.snapshots[s])) ==>
                HasInstall(h'.queue, Target(s, h'.fences[s]), h'.snapshots[s])
      {
        if s == t.subj || HasInstall(h.queue, Target(s, h.fences[s]), h'.snapshots[s]) {
          EnqueueInstall(h.queue, next, Target(s, h.fences[s]), h'.snapshots[s]);
        }
      }
      forall s | Kept(h', s) && s != t.subj ensures Kept(h, s) && h'.snapshots[s] == h.snapshots[s] {}
    }
  }

  lemma RetainLatest(h: Shared, t: Target, snap: Snapshot)
    requires QueueInv(h) && Latest(h.queue, h.snapshots) && Registered(h, t)
    ensures Latest(Enqueue(h.queue, Intent(t, Install(snap), h.current)), h.snapshots[t.subj := snap])
  {
    var next := Intent(t, Install(snap), h.current);
    EnqueueKeeps(h.queue, next);
    var q := Enqueue(h.queue, next);
    var k := FirstInstall(h.queue, t.subj);
    forall i | i in q && i.job.Install? && i != next ensures i.target.subj != t.subj {
      assert i in h.queue;
      if k < |h.queue| {
        assert q == h.queue[k := next];
        var j :| 0 <= j < |q| && q[j] == i;
        if j < k { OneEachApart(h.queue, j, k); } else { OneEachApart(h.queue, k, j); }
      }
    }
  }

  lemma {:induction false} ReplayDelivers(h: Shared, order: seq<Subject>)
    requires (forall s <- order :: s in h.fences) && NoRepeats(order)
    ensures Latest(Replay(h, order), h.snapshots)
    ensures forall s <- order :: s in h.snapshots ==> HasInstall(Replay(h, order), Target(s, h.fences[s]), h.snapshots[s])
    ensures forall i <- Replay(h, order) :: i.target.subj in order
  {
    if order != [] {
      var n := |order| - 1;
      var s := order[n];
      ReplayDelivers(h, order[..n]);
      assert order == order[..n] + [s];
      var q := Replay(h, order[..n]);
      var t := Target(s, h.fences[s]);
      var r := Intent(t, Lifecycle(Register), h.current);
      forall u, snap | HasInstall(q, u, snap) ensures HasInstall(q + [r], u, snap) { AppendInstall(q, r, u, snap); }
      if s in h.snapshots {
        var x := Intent(t, Install(h.snapshots[s]), h.current);
        ReplayKeeps(h, order[..n]);
        AppendOneEach(q, r);
        EnqueueKeeps(q + [r], x);
        forall v | v in order && v in h.snapshots ensures HasInstall(Replay(h, order), Target(v, h.fences[v]), h.snapshots[v]) {
          EnqueueInstall(q + [r], x, Target(v, h.fences[v]), h.snapshots[v]);
        }
      }
    }
  }

  lemma PublishDelivers(d: State, order: seq<Subject>)
    requires Inv(d) && DeliveryInv(d) && Enumerates(order, d.sh.fences.Keys)
    ensures DeliveryInv(d.(sh := Publish(d.sh, order)))
  {
    var h := d.sh;
    var h1 := h.(current := Some(h.nextSession), nextSession := h.nextSession + 1);
    ReplayDelivers(h1, order);
    assert d.wk.owner != h1.current;
    hide Inv, Replay;
  }

  /* ---- the worker ---- */

  /** The queue changed only by losing installs that are unregistered or on record as given up. */
  ghost predicate Loses(h: Shared, h': Shared, w: Worker, w': Worker) {
    && h'.fences == h.fences && h'.snapshots == h.snapshots && h'.current == h.current && w.dropped <= w'.dropped
    && (forall i <- h'.queue :: i in h.queue)
    && forall s, snap :: Kept(h, s) && HasInstall(h.queue, Target(s, h.fences[s]), snap) ==>
         HasInstall(h'.queue, Target(s, h.fences[s]), snap) || (Target(s, h.fences[s]), snap) in w'.dropped || InFlight(w'.busy, Target(s, h.fences[s]), snap)
  }

  lemma WithoutLoses(h: Shared, w: Worker, w': Worker, t: Target)
    requires w.dropped <= w'.dropped && (Registered(h, t) ==> Drops(h.queue, t) <= w'.dropped)
    ensures Loses(h, h.(queue := Without(h.queue, t)), w, w')
  {
    WithoutMembers(h.queue, t);
    forall s, snap | Kept(h, s) && HasInstall(h.queue, Target(s, h.fences[s]), snap)
      ensures HasInstall(Without(h.queue, t), Target(s, h.fences[s]), snap) || (Target(s, h.fences[s]), snap) in w'.dropped
    {
      WithoutInstall(h.queue, t, Target(s, h.fences[s]), snap);
    }
  }

  /** With no install in flight before or after, and the wire telling the same, losing installs is harmless. */
  lemma QuietDelivers(d: State, d': State)
    requires DeliveryInv(d) && Loses(d.sh, d'.sh, d.wk, d'.wk)
    requires !d.wk.busy.Installing? && d'.wk.owner == d.wk.owner
    requires d'.wk.busy.Installing? ==> d'.wk.busy.intent.job.Install? && NotOvertaken(d'.sh, d'.wk)
    requires d.sh.current.Some? && d.wk.owner == d.sh.current
    requires forall e, t :: LastInstalled(d'.wk.wire, e, t) == LastInstalled(d.wk.wire, e, t)
    ensures DeliveryInv(d')
  {
  }

  lemma AdoptDelivers(h: Shared, w: Worker)
    requires DeliveryInv(State(h, w)) && w.busy.Idle?
    ensures DeliveryInv(State(h, Adopt(w, h.current)))
  {
  }

  lemma PopInstall(h: Shared, w: Worker, e: nat)
    requires DeliveryInv(State(h, w)) && w.busy.Idle? && h.current == Some(e) && w.owner == h.current
    requires h.queue != [] && h.queue[0].job.Install? && Registered(h, h.queue[0].target)
    ensures DeliveryInv(State(h.(queue := h.queue[1..]), Begin(w, h.queue[0], e)))
  {
    var i := h.queue[0];
    assert i in h.queue;
    var h', w' := h.(queue := h.queue[1..]), Begin(w, i, e);
    assert Loses(h, h', w, w');
    QuietDelivers(State(h, w), State(h', w'));
  }

  lemma PopCommand(h: Shared, w: Worker, e: nat, begins: bool)
    requires DeliveryInv(State(h, w)) && w.busy.Idle? && h.current == Some(e) && w.owner == h.current
    requires h.queue != [] && h.queue[0].job.Lifecycle?
    ensures DeliveryInv(State(h.(queue := h.queue[1..]), if begins then Begin(w, h.queue[0], e) else w))
  {
    var h', w' := h.(queue := h.queue[1..]), if begins then Begin(w, h.queue[0], e) else w;
    assert Loses(h, h', w, w');
    QuietDelivers(State(h, w), State(h', w'));
  }

  lemma PopStale(h: Shared, w: Worker, e: nat)
    requires DeliveryInv(State(h, w)) && w.busy.Idle? && h.current == Some(e) && w.owner == h.current
    requires h.queue != [] && h.queue[0].job.Lifecycle? && !Registered(h, h.queue[0].target)
    ensures DeliveryInv(State(h.(queue := Without(h.queue[1..], h.queue[0].target)), w))
  {
    PopCommand(h, w, e, false);
    var h1 := h.(queue := h.queue[1..]);
    WithoutLoses(h1, w, w, h.queue[0].target);
    QuietDelivers(State(h1, w), State(h1.(queue := Without(h1.queue, h.queue[0].target)), w));
  }

  lemma TakeDelivers(d: State)
    requires Inv(d) && DeliveryInv(d) && d.wk.busy.Idle?
    ensures DeliveryInv(Take(d))
  {
    var h, w := d.sh, Adopt(d.wk, d.sh.current);
    AdoptDelivers(d.sh, d.wk);
    assert QueueInv(h);
    hide Inv, DeliveryInv, Begin;
    if h.current.Some? && h.queue != [] {
      var i := h.queue[0];
      assert i in h.queue;
      var e := h.current.value;
      if i.job.Install? { PopInstall(h, w, e); }
      else if StillWanted(h, i) { PopCommand(h, w, e, true); }
      else if i.job.op == Unload { PopCommand(h, w, e, false); }
      else { PopStale(h, w, e); }
    }
  }

  lemma ConcludedDelivers(d: State, ok: bool, built: bool)
    requires DeliveryInv(d) && d.wk.busy.Commanding? && CountersInRange(d.wk) && d.wk.owner == Some(d.wk.busy.session)
    ensures DeliveryInv(Concluded(d, ok, built))
  {
    var d' := Concluded(d, ok, built);
    if Live(d) {
      WithoutLoses(d.sh, d.wk, d'.wk.(dropped := d'.wk.dropped + Drops(d.sh.queue, d.wk.busy.target)), d.wk.busy.target);
      assert Loses(d.sh, d'.sh, d.wk, d'.wk);
      QuietDelivers(d, d');
    }
  }

  lemma AnswerDelivers(d: State, ok: bool, built: bool)
    requires Inv(d) && DeliveryInv(d) && d.wk.busy.Commanding? && d.wk.busy.sent && CountersInRange(d.wk)
    ensures DeliveryInv(Answer(d, ok, built))
  {
    var d1 := d.(wk := Received(d.wk, ok));
    forall e, t ensures LastInstalled(d1.wk.wire, e, t) == LastInstalled(d.wk.wire, e, t) {
      ReadInstalled(d.wk.wire, ReceiptOf(d.wk, ok), e, t);
    }
    assert d.wk.owner == Some(d.wk.busy.session);
    hide Inv;
    assert DeliveryInv(d1);
    ConcludedDelivers(d1, ok, built);
  }

  lemma SendDelivers(d: State, expired: bool)
    requires Inv(d) && DeliveryInv(d) && d.wk.busy.Commanding? && CountersInRange(d.wk)
    ensures DeliveryInv(Send(d, expired)) && DeliveryInv(d.(wk := OnWire(d.wk)))
  {
    var w' := OnWire(d.wk);
    forall e, t ensures LastInstalled(w'.wire, e, t) == LastInstalled(d.wk.wire, e, t) {
      ReadInstalled(d.wk.wire, Command(d.wk), e, t);
    }
    assert d.wk.owner == Some(d.wk.busy.session);
    hide Inv;
    var d1 := d.(wk := GivenUp(d.wk));
    assert DeliveryInv(d1);
    ConcludedDelivers(d1, false, false);
    hide Concluded;
  }

  /* ---- installs ---- */

  lemma {:induction false} QueuedSuccessor(q: seq<Intent>, snapshots: map<Subject, Snapshot>, i: Intent)
    requires Latest(q, snapshots) && i in q && i.job.Install?
    ensures i.target.subj in snapshots && HasInstall(q, i.target, snapshots[i.target.subj])
  {
    if q[0] != i {
      assert i in q[1..];
      QueuedSuccessor(q[1..], snapshots, i);
    }
  }

  /** An install is let go only for a successor, or for a generation that is no longer registered. */
  lemma LetGoDelivers(d: State)
    requires DeliveryInv(d) && d.wk.busy.Installing? && d.wk.owner == Some(d.wk.busy.session) && !MayRetry(d, d.wk.busy.intent)
    ensures DeliveryInv(d.(wk := d.wk.(busy := Idle)))
  {
    var i, h := d.wk.busy.intent, d.sh;
    if Live(d) && Registered(h, i.target) {
      var q :| q in h.queue && q.job.Install? && q.target == i.target && q.epoch == i.epoch;
      QueuedSuccessor(h.queue, h.snapshots, q);
    }
  }

  lemma AfterAbortDelivers(d: State)
    requires DeliveryInv(d) && d.wk.busy.Installing? && d.wk.owner == Some(d.wk.busy.session)
    ensures DeliveryInv(AfterAbort(d))
  {
    if !MayRetry(d, d.wk.busy.intent) { LetGoDelivers(d); }
  }

  lemma TerminalDelivers(d: State)
    requires DeliveryInv(d) && d.wk.busy.Installing? && d.wk.owner == Some(d.wk.busy.session)
    ensures DeliveryInv(Terminal(d))
  {
    var t, d' := d.wk.busy.intent.target, Terminal(d);
    WithoutMembers(d.sh.queue, t);
    if Live(d) { WithoutLoses(d.sh, d.wk, d'.wk, t); }
  }

  lemma PreparedDelivers(d: State)
    requires DeliveryInv(d) && InstallerInPlace(d.wk)
    ensures DeliveryInv(d.(wk := Prepared(d.wk)))
  {
    var w' := Prepared(d.wk);
    forall e, t ensures LastInstalled(w'.wire, e, t) == LastInstalled(d.wk.wire, e, t) {
      ReadInstalled(d.wk.wire, Preparing(d.wk), e, t);
    }
  }

  /** The verdict goes on the wire; a commit makes its snapshot the last installed one. */
  lemma SettledDelivers(d: State, x: Wire)
    requires DeliveryInv(d) && d.wk.busy.Installing? && d.wk.owner == Some(d.wk.busy.session)
    requires x.Settled? && x.session == d.wk.busy.session && x.target == d.wk.busy.intent.target && x.snap == SnapOf(d.wk.busy.intent)
    ensures var d1 := d.(wk := d.wk.(wire := d.wk.wire + [x]));
      && DeliveryInv(d1)
      && (x.how == Committed ==> DeliveryInv(d1.(wk := d1.wk.(busy := Idle))))
  {
    var w := d.wk;
    forall e, t ensures LastInstalled(w.wire + [x], e, t) ==
                        (if x.session == e && x.target == t && x.how == Committed then Some(x.snap) else LastInstalled(w.wire, e, t))
    {
      ReadInstalled(w.wire, x, e, t);
    }
  }

  lemma ResolveDelivers(d: State, how: Settlement, value: int)
    requires DeliveryInv(d) && d.wk.busy.Installing? && d.wk.owner == Some(d.wk.busy.session)
    ensures DeliveryInv(Resolve(d, how, value))
  {
    hide DeliveryInv;
    var x := Settled(d.wk.busy.session, d.wk.busy.intent.target, d.wk.busy.ticket, value, how, SnapOf(d.wk.busy.intent));
    SettledDelivers(d, x);
    var d1 := d.(wk := d.wk.(wire := d.wk.wire + [x]));
    if how == Rejected { TerminalDelivers(d1); }
    if how == Aborted { AfterAbortDelivers(d1); }
  }

  lemma ApplyDelivers(d: State, a: Attempt)
    requires DeliveryInv(d) && InstallerInPlace(d.wk) && d.wk.owner == Some(d.wk.busy.session)
    ensures DeliveryInv(Apply(d, a))
  {
    hide DeliveryInv;
    var m := d.wk.installers[d.wk.busy.intent.target];
    TerminalDelivers(d);
    AfterAbortDelivers(d);
    if !MayRetry(d, d.wk.busy.intent) { LetGoDelivers(d); }
    PreparedDelivers(d);
    if a.Done? { ResolveDelivers(d.(wk := Prepared(d.wk)), a.how, ToWire(m.base, m.local + 1)); }
  }

  /* ---- runs ---- */

  lemma HandlerDelivers(d: State, e: Event)
    requires Inv(d) && DeliveryInv(d) && Enabled(d, e) && Disciplined(d.sh, e)
    requires e.Recorded? || e.Retained? || e.Published? || e.Detached? || e.Rebinding?
    ensures DeliveryInv(Step(d, e))
  {
    match e
    case Recorded(t, op) => RecordDelivers(d, t, op);
    case Retained(t, snap) => RetainDelivers(d, t, snap);
    case Published(order) => PublishDelivers(d, order);
    case Detached(_) =>
    case Rebinding(s, on) => RebindDelivers(d, s, on);
    hide Inv, Record, Retain, Publish;
  }

  lemma RebindDelivers(d: State, s: Subject, on: bool)
    requires DeliveryInv(d)
    ensures DeliveryInv(d.(sh := SetRebind(d.sh, s, on)))
  {
    var h' := SetRebind(d.sh, s, on);
    assert forall u :: Kept(h', u) <==> Kept(d.sh, u);
  }

  lemma WorkerDelivers(d: State, e: Event)
    requires Inv(d) && DeliveryInv(d) && Enabled(d, e) && InPlace(d, e)
    requires !(e.Recorded? || e.Retained? || e.Published? || e.Detached? || e.Rebinding?)
    ensures DeliveryInv(Step(d, e))
  {
    assert !d.wk.busy.Idle? ==> d.wk.owner == Some(d.wk.busy.session);
    match e
    case Taking => TakeDelivers(d);
    case Sending(expired) => SendDelivers(d, expired);
    case Resending => ResendDelivers(d);
    case Answering(ok, built) => AnswerDelivers(d, ok, built);
    case Abandoning => AbandonDelivers(d);
    case Applying(a) => ApplyDelivers(d, a);
    case Reconciling(how) =>
      if how.Some? {
        var m := d.wk.installers[d.wk.busy.intent.target];
        ResolveDelivers(d, how.value, ToWire(m.base, m.local));
      }
    hide Inv, DeliveryInv, Take, Send, Answer, Apply, Resolve;
  }

  lemma ResendDelivers(d: State)
    requires Inv(d) && DeliveryInv(d) && d.wk.busy.Commanding?
    ensures DeliveryInv(Resend(d))
  {
    assert CountersInRange(d.wk);
    SendDelivers(d, false);
    hide Inv;
  }

  lemma AbandonDelivers(d: State)
    requires Inv(d) && DeliveryInv(d) && !Live(d)
    ensures DeliveryInv(Abandon(d))
  {
  }

  lemma {:induction false} RunDelivers(f: map<Subject, Fence>, es: seq<Event>)
    ensures Inv(Run(f, es)) && DeliveryInv(Run(f, es))
  {
    RunKeeps(f, es);
    if es != [] {
      var d, e := Run(f, es[..|es| - 1]), es[|es| - 1];
      RunDelivers(f, es[..|es| - 1]);
      hide Inv, DeliveryInv;
      if Enabled(d, e) && Disciplined(d.sh, e) && InPlace(d, e) {
        if e.Recorded? || e.Retained? || e.Published? || e.Detached? || e.Rebinding? { HandlerDelivers(d, e); } else { WorkerDelivers(d, e); }
      }
    }
  }

  /**
  Once the queue has drained, the last snapshot the child committed for a registered generation is
  the one retained for it, unless that very install was given up.
  */
  lemma {:induction false} SnapshotsArrive(f: map<Subject, Fence>, es: seq<Event>, s: Subject)
    requires Quiescent(Run(f, es)) && s in Run(f, es).sh.snapshots
    ensures var d := Run(f, es);
      && s in d.sh.fences
      && (LastInstalled(d.wk.wire, d.sh.current.value, Target(s, d.sh.fences[s])) == Some(d.sh.snapshots[s])
          || (Target(s, d.sh.fences[s]), d.sh.snapshots[s]) in d.wk.dropped)
  {
    RunDelivers(f, es);
    assert Kept(Run(f, es).sh, s);
  }
}
