/**
What holds over every run of the drain, however handlers, child restarts and answers interleave
with the worker.
*/
module DrainRuns {
  import opened Basics
  import opened Drain
  import opened DrainInvariant
  import opened DrainProofs
  import opened DrainWorkerProofs

  /** The books an event relies on are in place. */
  ghost predicate InPlace(d: State, e: Event) {
    && (e.Sending? || e.Answering? ==> CountersInRange(d.wk))
    && (e.Applying? || e.Reconciling? ==> InstallerInPlace(d.wk))
  }

  /** One event, whoever records it; an event that cannot happen changes nothing. */
  ghost function Happen(d: State, e: Event): State {
    if !(Enabled(d, e) && InPlace(d, e)) then d
    else
      match e
      case Recorded(t, op) => d.(sh := Record(d.sh, t, op))
      case Retained(t, snap) => d.(sh := Retain(d.sh, t, snap))
      case Published(order) => d.(sh := Publish(d.sh, order))
      case Detached(session) => d.(sh := Detach(d.sh, session))
      case Rebinding(s, on) => d.(sh := SetRebind(d.sh, s, on))
      case Taking => Take(d)
      case Sending(expired) => Send(d, expired)
      case Resending => Resend(d)
      case Answering(ok, built) => Answer(d, ok, built)
      case Abandoning => Abandon(d)
      case Applying(a) => Apply(d, a)
      case Reconciling(how) => Reconcile(d, how)
  }

  /** One event of a disciplined run. */
  ghost function Step(d: State, e: Event): State {
    if Disciplined(d.sh, e) then Happen(d, e) else d
  }

  ghost function Run(f: map<Subject, Fence>, es: seq<Event>): State {
    if es == [] then Init(f) else Step(Run(f, es[..|es| - 1]), es[|es| - 1])
  }

  lemma HandlerKeeps(d: State, e: Event)
    requires Inv(d) && (e.Recorded? || e.Retained? || e.Published? || e.Detached? || e.Rebinding?)
    ensures Inv(Step(d, e))
  {
    hide Inv;
    if Enabled(d, e) && Disciplined(d.sh, e) {
      match e
      case Recorded(t, op) => RecordKeeps(d, t, op);
      case Retained(t, snap) => RetainKeeps(d, t, snap);
      case Published(order) => PublishKeeps(d, order);
      case Detached(session) => DetachKeeps(d, session);
      case Rebinding(s, on) => RebindKeeps(d, s, on);
    }
  }

  lemma WorkerKeeps(d: State, e: Event)
    requires Inv(d) && Enabled(d, e) && InPlace(d, e)
    requires !(e.Recorded? || e.Retained? || e.Published? || e.Detached? || e.Rebinding?)
    ensures Inv(Step(d, e))
  {
    hide Inv;
    match e
    case Taking => TakeKeeps(d);
    case Sending(expired) => SendKeeps(d, expired);
    case Resending => SentKeeps(d);
    case Answering(ok, built) => AnswerKeeps(d, ok, built);
    case Abandoning => AbandonKeeps(d);
    case Applying(a) => ApplyKeeps(d, a);
    case Reconciling(how) => if how.Some? { ResolveKeeps(d, how.value); }
  }

  lemma StepKeeps(d: State, e: Event)
    requires Inv(d)
    ensures Inv(Step(d, e))
  {
    if e.Recorded? || e.Retained? || e.Published? || e.Detached? || e.Rebinding? {
      HandlerKeeps(d, e);
    } else if Enabled(d, e) && InPlace(d, e) {
      WorkerKeeps(d, e);
    }
  }

  lemma {:induction false} RunKeeps(f: map<Subject, Fence>, es: seq<Event>)
    ensures Inv(Run(f, es))
  {
    if es == [] {
      assert forall t: Target :: Unsettled([], 0, t) == {};
    } else {
      RunKeeps(f, es[..|es| - 1]);
      StepKeeps(Run(f, es[..|es| - 1]), es[|es| - 1]);
    }
  }

  /** In every reachable state the worker finds the counter or installer its next step needs. */
  lemma {:induction false} NeverMissing(f: map<Subject, Fence>, es: seq<Event>, e: Event)
    requires Enabled(Run(f, es), e)
    ensures InPlace(Run(f, es), e)
  {
    RunKeeps(f, es);
    if e.Applying? || e.Reconciling? { InFlightInPlace(Run(f, es)); }
  }

  /* ---- the queue ---- */

  lemma {:induction false} OneEachApart(q: seq<Intent>, i: nat, j: nat)
    requires OneInstallEach(q) && i < j < |q| && q[i].job.Install? && q[j].job.Install?
    ensures q[i].target.subj != q[j].target.subj
  {
    if i == 0 { assert q[j] in q[1..] by { assert q[1..][j - 1] == q[j]; } } else { OneEachApart(q[1..], i - 1, j - 1); }
  }

  lemma TakeQueue(d: State)
    requires QueueInv(d.sh) && d.wk.busy.Idle?
    ensures QueueInv(Take(d).sh)
  {
    if d.sh.queue != [] {
      var h := d.sh.(queue := d.sh.queue[1..]);
      assert forall i <- h.queue :: i in d.sh.queue;
      WithoutCarries(h, d.sh.queue[0].target);
    }
  }

  lemma WorkQueue(d: State, e: Event)
    requires QueueInv(d.sh) && Enabled(d, e) && InPlace(d, e)
    requires e.Sending? || e.Answering? || e.Applying? || e.Reconciling?
    ensures QueueInv(Happen(d, e).sh)
  {
    var t := if d.wk.busy.Commanding? then d.wk.busy.target else d.wk.busy.intent.target;
    WithoutCarries(d.sh, t);
    hide QueueInv, Without;
  }

  lemma HappenQueue(d: State, e: Event)
    requires QueueInv(d.sh)
    ensures QueueInv(Happen(d, e).sh)
  {
    if Enabled(d, e) && InPlace(d, e) {
      match e
      case Recorded(t, op) => RecordMembers(d.sh, t, op);
      case Retained(t, snap) => if Retain(d.sh, t, snap) != d.sh { RetainCarries(d.sh, t, snap); }
      case Published(order) => PublishQueue(d.sh, order);
      case Taking => TakeQueue(d);
      case Sending(_) => WorkQueue(d, e);
      case Answering(_, _) => WorkQueue(d, e);
      case Applying(_) => WorkQueue(d, e);
      case Reconciling(_) => WorkQueue(d, e);
      case _ =>
    }
    hide Record, Retain, Publish, Take;
  }

  /** A run in which anyone may record anything. */
  ghost function Loose(f: map<Subject, Fence>, es: seq<Event>): State {
    if es == [] then Init(f) else Happen(Loose(f, es[..|es| - 1]), es[|es| - 1])
  }

  lemma {:induction false} LooseQueue(f: map<Subject, Fence>, es: seq<Event>)
    ensures QueueInv(Loose(f, es).sh)
  {
    hide QueueInv, Happen;
    if es == [] {
      assert QueueInv(Init(f).sh) by { EmptyQueue(f); }
    } else {
      LooseQueue(f, es[..|es| - 1]);
      HappenQueue(Loose(f, es[..|es| - 1]), es[|es| - 1]);
    }
  }

  lemma EmptyQueue(f: map<Subject, Fence>)
    ensures QueueInv(Init(f).sh)
  {
  }

  /** Whatever is recorded, in whatever order. */
  lemma QueueTheorem(f: map<Subject, Fence>, es: seq<Event>)
    ensures var h := Loose(f, es).sh;
      && (forall i <- h.queue :: i.epoch == h.current)
      && (forall i <- h.queue :: i.job.Install? ==> i.target.subj in h.fences && h.fences[i.target.subj] == i.target.fence)
      && (forall i, j :: 0 <= i < j < |h.queue| && h.queue[i].job.Install? && h.queue[j].job.Install? ==>
            h.queue[i].target.subj != h.queue[j].target.subj)
      && h.snapshots.Keys <= h.fences.Keys && |h.snapshots| <= MAX_SUBJECTS
  {
    LooseQueue(f, es);
    var q := Loose(f, es).sh.queue;
    forall i, j | 0 <= i < j < |q| && q[i].job.Install? && q[j].job.Install? ensures q[i].target.subj != q[j].target.subj {
      OneEachApart(q, i, j);
    }
  }

  /** A queued install of another generation never reaches the coalescing step: that branch is dead. */
  lemma NoOtherGenerationQueued(f: map<Subject, Fence>, es: seq<Event>, t: Target, snap: Snapshot)
    requires Registered(Loose(f, es).sh, t)
    ensures var h := Loose(f, es).sh;
      var k := FirstInstall(h.queue, t.subj);
      k < |h.queue| ==> h.queue[k].target == t && h.queue[k].epoch == h.current
  {
    LooseQueue(f, es);
    var h := Loose(f, es).sh;
    var k := FirstInstall(h.queue, t.subj);
    if k < |h.queue| { assert h.queue[k] in h.queue; }
  }

  /* ---- the wire ---- */

  /** Entry `i` prepares an install: its target's Register was confirmed at some `j`, and no Unload was sent since. */
  ghost predicate AfterRegister(w: seq<Wire>, i: nat)
    requires i < |w| && w[i].Prepare?
  {
    exists j :: 0 <= j < i &&
      w[j].Receipt? && w[j].op == Register && w[j].ok && w[j].session == w[i].session && w[j].target == w[i].target &&
      forall k :: j < k < i && w[k].Sent? && w[k].session == w[i].session && w[k].target == w[i].target ==> w[k].op == Register
  }

  lemma {:induction false} KnownSince(w: seq<Wire>, n: nat, e: nat, t: Target) returns (j: nat)
    requires n <= |w| && Known(w[..n], e, t)
    ensures j < n && w[j].Receipt? && w[j].op == Register && w[j].ok && w[j].session == e && w[j].target == t
    ensures forall k :: j < k < n && w[k].Sent? && w[k].session == e && w[k].target == t ==> w[k].op == Register
  {
    var x := w[n - 1];
    assert w[..n][..n - 1] == w[..n - 1];
    if x.Receipt? && x.session == e && x.op == Register && x.target == t && x.ok { j := n - 1; } else { j := KnownSince(w, n - 1, e, t); }
  }

  lemma {:induction false} AnsweredBetween(w: seq<Wire>, a: nat, b: nat)
    requires a < b <= |w| && w[a].Sent? && w[a].seqno !in Unanswered(w[..b], w[a].session)
    ensures exists m :: a < m < b && w[m].Receipt? && w[m].session == w[a].session && w[m].seqno == w[a].seqno
  {
    assert w[..b][..b - 1] == w[..b - 1];
    var x := w[b - 1];
    if a == b - 1 || (x.Receipt? && x.session == w[a].session && x.seqno == w[a].seqno) {
    } else {
      AnsweredBetween(w, a, b - 1);
    }
  }

  lemma {:induction false} SettledBetween(w: seq<Wire>, a: nat, b: nat)
    requires a < b <= |w| && w[a].Prepare? && (w[a].ticket, w[a].value) !in Unsettled(w[..b], w[a].session, w[a].target)
    ensures exists m :: a < m < b && w[m].Settled? && w[m].ticket == w[a].ticket
  {
    assert w[..b][..b - 1] == w[..b - 1];
    var x := w[b - 1];
    if a == b - 1 || (x.Settled? && x.ticket == w[a].ticket) {
    } else {
      SettledBetween(w, a, b - 1);
    }
  }

  /** The last verdict on a ticket is the one `Verdict` reads. */
  lemma {:induction false} VerdictIsLast(w: seq<Wire>, m: nat, b: nat) returns (l: nat)
    requires m < b <= |w| && w[m].Settled?
    ensures m <= l < b && w[l].Settled? && w[l].ticket == w[m].ticket && Verdict(w[..b], w[m].ticket) == Some(w[l].how)
    ensures forall k :: l < k < b ==> !(w[k].Settled? && w[k].ticket == w[m].ticket)
  {
    assert w[..b][..b - 1] == w[..b - 1];
    if w[b - 1].Settled? && w[b - 1].ticket == w[m].ticket { l := b - 1; } else { l := VerdictIsLast(w, m, b - 1); }
  }

  lemma {:induction false} HighestBounds(w: seq<Wire>, a: nat, b: nat)
    requires a < b <= |w| && w[a].Prepare?
    ensures w[a].value <= Highest(w[..b], w[a].cell)
  {
    assert w[..b][..b - 1] == w[..b - 1];
    if a < b - 1 { HighestBounds(w, a, b - 1); }
  }

  lemma SafeAlways(f: map<Subject, Fence>, es: seq<Event>, i: nat)
    requires i < |Run(f, es).wk.wire|
    ensures MayFollow(Run(f, es).wk.wire[..i], Run(f, es).wk.wire[i])
  {
    assert Safe(Run(f, es).wk.wire) by { RunKeeps(f, es); }
  }

  /** An install goes out only to a target whose Register was confirmed and that was not unloaded since. */
  lemma InstallAfterRegister(f: map<Subject, Fence>, es: seq<Event>, i: nat)
    requires i < |Run(f, es).wk.wire| && Run(f, es).wk.wire[i].Prepare?
    ensures AfterRegister(Run(f, es).wk.wire, i)
  {
    SafeAlways(f, es, i);
    var w := Run(f, es).wk.wire;
    var j := KnownSince(w, i, w[i].session, w[i].target);
  }

  /** A different lifecycle command follows only once the previous one was answered. */
  lemma OneCommandAtATime(f: map<Subject, Fence>, es: seq<Event>, a: nat, b: nat)
    requires var w := Run(f, es).wk.wire;
      a < b < |w| && w[a].Sent? && w[b].Sent? && w[a].session == w[b].session && w[a].seqno != w[b].seqno
    ensures var w := Run(f, es).wk.wire;
      exists m :: a < m < b && w[m].Receipt? && w[m].session == w[a].session && w[m].seqno == w[a].seqno
  {
    SafeAlways(f, es, b);
    AnsweredBetween(Run(f, es).wk.wire, a, b);
  }

  /** One install intent is prepared again only after its last attempt was confirmed aborted. */
  lemma ReapplyAfterAbort(f: map<Subject, Fence>, es: seq<Event>, a: nat, b: nat)
    requires var w := Run(f, es).wk.wire; a < b < |w| && w[a].Prepare? && w[b].Prepare? && w[a].ticket == w[b].ticket
    ensures var w := Run(f, es).wk.wire;
      exists m :: a < m < b && w[m].Settled? && w[m].ticket == w[a].ticket && w[m].how == Aborted &&
        forall k :: m < k < b ==> !(w[k].Settled? && w[k].ticket == w[a].ticket)
  {
    var w := Run(f, es).wk.wire;
    SafeAlways(f, es, b);
    assert w[a] in w[..b];
    SettledBetween(w, a, b);
    var m :| a < m < b && w[m].Settled? && w[m].ticket == w[a].ticket;
    var l := VerdictIsLast(w, m, b);
  }

  /** Wire epochs given to prepare strictly increase per counter and fit 64 bits. */
  lemma EpochsIncrease(f: map<Subject, Fence>, es: seq<Event>, a: nat, b: nat)
    requires var w := Run(f, es).wk.wire; a < b < |w| && w[a].Prepare? && w[b].Prepare? && w[a].cell == w[b].cell
    ensures var w := Run(f, es).wk.wire; w[a].value < w[b].value <= MAX_INT64
  {
    SafeAlways(f, es, b);
    HighestBounds(Run(f, es).wk.wire, a, b);
  }

  /* ---- counters ---- */

  /** A subject's counter goes away only with its child, or on a confirmed Unload that nothing reserves it against. */
  lemma CounterDropped(d: State, e: Event, s: Subject)
    requires s in d.wk.counters && s !in Step(d, e).wk.counters
    ensures
      || (e.Taking? && d.wk.owner != d.sh.current)
      || (&& e.Answering? && e.ok && Live(d)
          && d.wk.busy.Commanding? && d.wk.busy.op == Unload && d.wk.busy.target.subj == s
          && s !in d.sh.fences && s !in d.sh.rebinds
          && forall i <- d.sh.queue :: i.target.subj == s && i.job == Lifecycle(Register) ==> i.epoch.Some? && i.epoch != d.sh.current)
  {
  }

  /** Coordinator-local and wire epochs name each other, with no overflow, for every epoch an installer has used. */
  lemma {:induction false} EpochsRoundTrip(f: map<Subject, Fence>, es: seq<Event>, t: Target, local: int, value: int)
    requires t in Run(f, es).wk.installers
    ensures var m := Run(f, es).wk.installers[t];
      && (1 <= local <= m.local ==> m.base < ToWire(m.base, local) <= MAX_INT64 && ToLocal(m.base, ToWire(m.base, local)) == local)
      && (m.base < value <= m.base + m.local ==>
            1 <= ToLocal(m.base, value) <= m.local && ToWire(m.base, ToLocal(m.base, value)) == value)
  {
    RunKeeps(f, es);
    var w := Run(f, es).wk;
    assert LevelWithCell(w.cells, w.installers[t], t.subj);
  }

  /* ---- convergence ---- */

  /** The worker has nothing left to do for the current child. */
  ghost predicate Quiescent(d: State) {
    d.sh.current.Some? && d.wk.owner == d.sh.current && d.wk.busy.Idle? && d.sh.queue == []
  }

  /**
  Once the queue has drained, the child knows exactly the registered generations, except those
  it rejected and those whose last Unload could not be sent.
  */
  lemma {:induction false} Converged(f: map<Subject, Fence>, es: seq<Event>, t: Target)
    requires Quiescent(Run(f, es))
    ensures var d := Run(f, es);
      && (Known(d.wk.wire, d.sh.current.value, t) ==> Registered(d.sh, t) || t in d.wk.unsent)
      && (Registered(d.sh, t) ==> Known(d.wk.wire, d.sh.current.value, t) || t in d.wk.retired)
  {
    RunKeeps(f, es);
    assert Converges(Run(f, es).sh, Run(f, es).wk, Run(f, es).sh.current.value, t);
  }
}
