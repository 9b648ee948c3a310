/**
The worker's own steps keep the invariant.
*/
module DrainWorkerProofs {
  import opened Basics
  import opened Drain
  import opened DrainInvariant
  import opened DrainProofs

  /* ---- one more entry on the wire ---- */

  lemma ReadKnown(w: seq<Wire>, x: Wire)
    ensures forall e, t ::
        Known(w + [x], e, t) == (
        if x.Receipt? && x.session == e && x.op == Register && x.target == t && x.ok then true
        else if x.Sent? && x.session == e && x.op == Unload && x.target == t then false
        else Known(w, e, t))
  {
    assert (w + [x])[..|w|] == w;
  }

  lemma ReadUnanswered(w: seq<Wire>, x: Wire)
    ensures forall e ::
        Unanswered(w + [x], e) == (
        if x.Sent? && x.session == e then Unanswered(w, e) + {x.seqno}
        else if x.Receipt? && x.session == e then Unanswered(w, e) - {x.seqno}
        else Unanswered(w, e))
  {
    assert (w + [x])[..|w|] == w;
  }

  lemma ReadUnsettled(w: seq<Wire>, x: Wire)
    ensures forall e, t ::
        Unsettled(w + [x], e, t) == (
        if x.Prepare? && x.session == e && x.target == t then Unsettled(w, e, t) + {(x.ticket, x.value)}
        else if x.Settled? && x.session == e && x.target == t then Unsettled(w, e, t) - {(x.ticket, x.value)}
        else Unsettled(w, e, t))
  {
    assert (w + [x])[..|w|] == w;
  }

  lemma ReadVerdict(w: seq<Wire>, x: Wire)
    ensures forall k :: Verdict(w + [x], k) == if x.Settled? && x.ticket == k then Some(x.how) else Verdict(w, k)
  {
    assert (w + [x])[..|w|] == w;
  }

  lemma ReadHighest(w: seq<Wire>, x: Wire)
    ensures forall c ::
        Highest(w + [x], c) == (
        if x.Prepare? && x.cell == c && x.value > Highest(w, c) then x.value else Highest(w, c))
  {
    assert (w + [x])[..|w|] == w;
  }

  /** A wire entry other than a prepare changes no counter. */
  lemma CounterAppend(counters: map<Subject, nat>, cells: seq<Cell>, ins: map<Target, Installer>, w: seq<Wire>, x: Wire)
    requires CounterInv(counters, cells, ins, w) && !x.Prepare?
    ensures CounterInv(counters, cells, ins, w + [x])
  {
    ReadHighest(w, x);
  }

  lemma InstallerAppend(o: Option<nat>, ins: map<Target, Installer>, retired: set<Target>, w: seq<Wire>, x: Wire)
    requires InstallerInv(o, ins, retired, w) && (x.Sent? && x.op == Unload ==> x.target !in ins)
    ensures InstallerInv(o, ins, retired, w + [x])
  {
    ReadKnown(w, x);
  }

  lemma InstallAppend(busy: Busy, n: nat, ins: map<Target, Installer>, w: seq<Wire>, x: Wire)
    requires InstallInv(busy, n, ins, w) && (x.Prepare? || x.Settled? ==> x.ticket < n)
    requires busy.Installing? && x.Settled? && x.ticket == busy.ticket ==> x.how == Aborted
    requires busy.Installing? && x.Prepare? && x.ticket == busy.ticket ==>
      x.session == busy.session && x.target == busy.intent.target
    ensures InstallInv(busy, n, ins, w + [x])
  {
    ReadVerdict(w, x);
  }

  lemma {:induction false} AheadHas(q: seq<Intent>, t: Target)
    requires UnloadAhead(q, t)
    ensures Has(q, Unload, t)
  {
    if !IsCommand(q[0], Unload, t) { AheadHas(q[1..], t); }
  }

  /** What was given up plays no part in the invariant. */
  lemma DroppedFrame(d: State, x: set<(Target, Snapshot)>)
    requires Inv(d)
    ensures Inv(d.(wk := d.wk.(dropped := x)))
  {
    var w' := d.wk.(dropped := x);
    assert forall t :: Held(w', t) <==> Held(d.wk, t);
    forall e, t: Target | Converges(d.sh, d.wk, e, t) ensures Converges(d.sh, w', e, t) {}
  }

  /* ---- taking the next intent ---- */

  /** Without its head, the queue still holds all other work. */
  lemma PopQueue(h: Shared)
    requires QueueInv(h) && h.queue != []
    ensures var h' := h.(queue := h.queue[1..]);
      && QueueInv(h')
      && (forall o, u :: Queued(h, o, u) && !IsCommand(h.queue[0], o, u) ==> Queued(h', o, u))
      && (forall u :: UnloadAhead(h.queue, u) && !IsCommand(h.queue[0], Unload, u) ==>
            UnloadAhead(h'.queue, u) && !IsInstall(h.queue[0], u.subj))
  {
    assert h.queue == [h.queue[0]] + h.queue[1..];
  }

  /** An intent that no longer applies is dropped. */
  lemma DropKeeps(h: Shared, w: Worker)
    requires Inv(State(h, w)) && w.owner == h.current && h.current.Some? && w.busy.Idle? && h.queue != []
    requires !StillWanted(h, h.queue[0]) || h.queue[0].job.Install?
    ensures Inv(State(h.(queue := h.queue[1..]), w))
  {
    var h' := h.(queue := h.queue[1..]);
    var i := h.queue[0];
    PopQueue(h);
    assert i in h.queue;
    assert AheadInv(h', w) by {
      forall t | Held(w, t) && !Registered(h', t) ensures UnloadAhead(h'.queue, t) {
        assert UnloadAhead(h.queue, t);
        assert !IsCommand(i, Unload, t);
      }
    }
    forall t: Target ensures Converges(h', w, h.current.value, t) {
      assert Converges(h, w, h.current.value, t);
    }
  }

  lemma BeginAhead(h: Shared, w: Worker, e: nat)
    requires QueueInv(h) && AheadInv(h, w) && w.busy.Idle? && h.queue != []
    requires StillWanted(h, h.queue[0]) && h.queue[0].job.Lifecycle?
    ensures AheadInv(h.(queue := h.queue[1..]), Begin(w, h.queue[0], e))
  {
    PopQueue(h);
    var h', w' := h.(queue := h.queue[1..]), Begin(w, h.queue[0], e);
    forall t | Held(w', t) && !Registered(h', t) ensures UnloadAhead(h'.queue, t) {
      assert Held(w, t);
    }
  }

  lemma BeginConverge(h: Shared, w: Worker, e: nat, t: Target)
    requires QueueInv(h) && Converges(h, w, e, t) && w.busy.Idle? && h.queue != []
    requires StillWanted(h, h.queue[0]) && h.queue[0].job.Lifecycle?
    ensures Converges(h.(queue := h.queue[1..]), Begin(w, h.queue[0], e), e, t)
  {
    PopQueue(h);
    var w' := Begin(w, h.queue[0], e);
    assert w'.wire == w.wire;
    assert IsCommand(h.queue[0], Register, t) ==> Underway(w', Register, t);
    assert IsCommand(h.queue[0], Unload, t) ==> Underway(w', Unload, t) && !w'.busy.sent;
  }

  lemma BeginLocal(w: Worker, i: Intent, e: nat)
    requires LocalInv(w) && AwaitInv(w, e) && w.busy.Idle? && i.job.Lifecycle?
    ensures LocalInv(Begin(w, i, e)) && AwaitInv(Begin(w, i, e), e)
  {
  }

  /** The head of the queue, still wanted, becomes the worker's job. */
  lemma BeginCommandKeeps(h: Shared, w: Worker)
    requires Inv(State(h, w)) && w.owner == h.current && h.current.Some? && w.busy.Idle? && h.queue != []
    requires StillWanted(h, h.queue[0]) && h.queue[0].job.Lifecycle?
    ensures Inv(State(h.(queue := h.queue[1..]), Begin(w, h.queue[0], h.current.value)))
  {
    var e := h.current.value;
    PopQueue(h);
    BeginAhead(h, w, e);
    forall t: Target ensures Converges(h.(queue := h.queue[1..]), Begin(w, h.queue[0], e), e, t) {
      BeginConverge(h, w, e, t);
    }
    BeginLocal(w, h.queue[0], e);
  }

  lemma BeginInstallKeeps(h: Shared, w: Worker)
    requires Inv(State(h, w)) && w.owner == h.current && h.current.Some? && w.busy.Idle? && h.queue != []
    requires h.queue[0].job.Install?
    ensures Inv(State(h.(queue := h.queue[1..]), Begin(w, h.queue[0], h.current.value)))
  {
    var h' := h.(queue := h.queue[1..]);
    var i := h.queue[0];
    var w' := Begin(w, i, h.current.value);
    DropKeeps(h, w);
    DroppedFrame(State(h', w), w.dropped + GivenUpSnaps(i));
    assert i in h.queue;
    NewTicket(w.wire, w.nextTicket);
    PopQueue(h);
    forall t | t in w.installers && t.subj == i.target.subj ensures t == i.target {
      assert Held(w, t);
      assert !UnloadAhead(h.queue, t);
    }
    assert forall t :: Held(w', t) <==> Held(w, t);
    forall t: Target ensures Converges(h', w', h.current.value, t) {
      assert Converges(h', w, h.current.value, t);
    }
  }

  lemma TakeKeeps(d: State)
    requires Inv(d) && d.wk.busy.Idle?
    ensures Inv(Take(d))
  {
    var h, w := d.sh, Adopt(d.wk, d.sh.current);
    AdoptKeeps(d.sh, d.wk);
    if h.current.Some? && h.queue != [] {
      var i := h.queue[0];
      assert i in h.queue;
      if i.job.Install? {
        BeginInstallKeeps(h, w);
      } else if StillWanted(h, i) {
        BeginCommandKeeps(h, w);
      } else {
        DropKeeps(h, w);
        var h1 := h.(queue := h.queue[1..]);
        WithoutCarries(h1, i.target);
        CarriesKeeps(h1, h1.(queue := Without(h1.queue, i.target)), w);
      }
    }
  }

  /* ---- lifecycle commands ---- */

  lemma SentAwaits(w: Worker)
    requires w.busy.Commanding? && AwaitInv(w, w.busy.session)
    ensures MayFollow(w.wire, Command(w)) && AwaitInv(OnWire(w), w.busy.session)
  {
    ReadUnanswered(w.wire, Command(w));
    ReadUnsettled(w.wire, Command(w));
  }

  lemma SentLocal(w: Worker)
    requires LocalInv(w) && w.busy.Commanding? && w.lastSeq < MAX_INT64 && MayFollow(w.wire, Command(w))
    ensures LocalInv(OnWire(w))
  {
    CounterAppend(w.counters, w.cells, w.installers, w.wire, Command(w));
    InstallerAppend(w.owner, w.installers, w.retired, w.wire, Command(w));
    InstallAppend(w.busy, w.nextTicket, w.installers, w.wire, Command(w));
    SafeAppend(w.wire, Command(w));
  }

  lemma SentKeeps(d: State)
    requires Inv(d) && d.wk.busy.Commanding? && (d.wk.busy.sent || d.wk.lastSeq < MAX_INT64)
    ensures Inv(d.(wk := OnWire(d.wk)))
  {
    var h, w, w' := d.sh, d.wk, OnWire(d.wk);
    SentAwaits(w);
    SentLocal(w);
    assert forall t :: Held(w', t) <==> Held(w, t);
    if h.current.Some? && w.owner == h.current {
      var e := h.current.value;
      ReadKnown(w.wire, Command(w));
      forall t: Target ensures Converges(h, w', e, t) {
        assert Converges(h, w, e, t);
        assert Underway(w', Register, t) <==> Underway(w, Register, t);
        assert Underway(w, Unload, t) ==> !Known(w'.wire, e, t);
        assert !Underway(w, Unload, t) ==> (t in w'.unsent <==> t in w.unsent);
      }
    }
  }

  lemma CounterKept(w: Worker, s: Subject)
    requires CounterInv(w.counters, w.cells, w.installers, w.wire)
    ensures var w' := WithCounter(w, s);
      CounterInv(w'.counters, w'.cells, w'.installers, w'.wire) && w'.cells[w'.counters[s]].subj == s
  {
    NewCell(w.wire, |w.cells|);
  }

  /** A newly built installer starts level with its subject's counter. */
  lemma BuiltLocal(w: Worker, t: Target)
    requires LocalInv(w) && w.busy.Idle? && w.owner.Some? && Known(w.wire, w.owner.value, t)
    requires t.subj in w.counters
    ensures var cell := w.counters[t.subj];
      cell < |w.cells| &&
      LocalInv(w.(retired := w.retired - {t}, installers := w.installers[t := Installer(w.cells[cell].value, 0, cell)]))
  {
  }

  /** The outcome of a command leaves the worker's own books in order. */
  lemma ConcludedLocal(d: State, ok: bool, built: bool)
    requires d.wk.busy.Commanding? && LocalInv(d.wk.(busy := Idle)) && d.wk.owner == Some(d.wk.busy.session)
    requires ok && d.wk.busy.op == Register ==> Known(d.wk.wire, d.wk.busy.session, d.wk.busy.target)
    ensures LocalInv(Concluded(d, ok, built).wk)
  {
    var w, t := d.wk.(busy := Idle), d.wk.busy.target;
    CounterKept(w, t.subj);
    if ok && d.wk.busy.op == Register && built {
      BuiltLocal(WithCounter(w, t.subj), t);
    }
  }

  lemma ConcludedAhead(d: State, ok: bool, built: bool)
    requires d.wk.busy.Commanding? && CountersInRange(d.wk) && QueueInv(d.sh) && AheadInv(d.sh, d.wk) && Live(d)
    ensures var d' := Concluded(d, ok, built);
      QueueInv(d'.sh) && Carries(d.sh, d'.sh) && AheadInv(d'.sh, d'.wk)
  {
    var d' := Concluded(d, ok, built);
    WithoutCarries(d.sh, d.wk.busy.target);
    forall t | Held(d'.wk, t) && !Registered(d'.sh, t) ensures UnloadAhead(d'.sh.queue, t) {
      assert Held(d.wk, t);
    }
  }

  /** What a conclusion leaves alone. */
  lemma ConcludedFrame(d: State, ok: bool, built: bool)
    requires d.wk.busy.Commanding? && CountersInRange(d.wk)
    ensures var d' := Concluded(d, ok, built);
      && d'.sh.current == d.sh.current && d'.sh.nextSession == d.sh.nextSession && (!Live(d) ==> d'.sh == d.sh)
      && d'.wk.owner == d.wk.owner && d'.wk.busy.Idle? && d'.wk.wire == d.wk.wire && d'.wk.unsent == d.wk.unsent
      && (forall t :: t != d.wk.busy.target ==> (t in d'.wk.retired <==> t in d.wk.retired))
      && (Live(d) && d.wk.busy.op == Register && !ok ==> d.wk.busy.target in d'.wk.retired)
  {
  }

  /** What the child knows after an answered command still differs from the registrations only by work to do. */
  lemma AnswerConverge(d: State, ok: bool, built: bool, e: nat, t: Target)
    requires d.wk.busy.Commanding? && d.wk.busy.sent && CountersInRange(d.wk) && Live(d) && e == d.wk.busy.session
    requires QueueInv(d.sh) && AheadInv(d.sh, d.wk) && Converges(d.sh, d.wk, e, t)
    ensures Converges(Answer(d, ok, built).sh, Answer(d, ok, built).wk, e, t)
  {
    var b := d.wk.busy;
    var d1 := d.(wk := Received(d.wk, ok));
    assert AheadInv(d.sh, d1.wk) by { assert forall u :: Held(d1.wk, u) <==> Held(d.wk, u); }
    ConcludedFrame(d1, ok, built);
    ConcludedAhead(d1, ok, built);
    ReadKnown(d.wk.wire, ReceiptOf(d.wk, ok));
    if t == b.target && b.op == Register && !Registered(d.sh, t) {
      assert Held(d.wk, t);
      AheadHas(d.sh.queue, t);
    }
  }

  function ReceiptOf(w: Worker, ok: bool): Wire
    requires w.busy.Commanding?
  {
    Receipt(w.busy.session, w.lastSeq + 1, w.busy.op, w.busy.target, ok)
  }

  lemma ReceiptAwaits(w: Worker, ok: bool)
    requires w.busy.Commanding? && w.busy.sent && AwaitInv(w, w.busy.session)
    ensures MayFollow(w.wire, ReceiptOf(w, ok)) && AwaitInv(Received(w, ok).(busy := Idle), w.busy.session)
    ensures ok && w.busy.op == Register ==> Known(Received(w, ok).wire, w.busy.session, w.busy.target)
  {
    ReadUnanswered(w.wire, ReceiptOf(w, ok));
    ReadUnsettled(w.wire, ReceiptOf(w, ok));
    ReadKnown(w.wire, ReceiptOf(w, ok));
  }

  /** The books once a receipt consumed the awaited sequence number. */
  lemma ReceiptLocal(w: Worker, ok: bool)
    requires LocalInv(w) && w.busy.Commanding? && w.busy.sent && MayFollow(w.wire, ReceiptOf(w, ok))
    ensures LocalInv(Received(w, ok).(busy := Idle))
  {
    CounterAppend(w.counters, w.cells, w.installers, w.wire, ReceiptOf(w, ok));
    InstallerAppend(w.owner, w.installers, w.retired, w.wire, ReceiptOf(w, ok));
    InstallAppend(Idle, w.nextTicket, w.installers, w.wire, ReceiptOf(w, ok));
    SafeAppend(w.wire, ReceiptOf(w, ok));
  }

  /** With nothing in flight, installers come and go without anything becoming awaited. */
  lemma ConcludedAwaits(d: State, ok: bool, built: bool)
    requires d.wk.busy.Commanding? && CountersInRange(d.wk)
    requires AwaitInv(d.wk.(busy := Idle), d.wk.busy.session)
    ensures AwaitInv(Concluded(d, ok, built).wk, d.wk.busy.session)
  {
  }

  lemma AnswerLocal(d: State, ok: bool, built: bool)
    requires LocalInv(d.wk) && d.wk.busy.Commanding? && d.wk.busy.sent
    requires d.wk.owner == Some(d.wk.busy.session) && AwaitInv(d.wk, d.wk.busy.session)
    ensures CountersInRange(d.wk)
    ensures LocalInv(Answer(d, ok, built).wk) && AwaitInv(Answer(d, ok, built).wk, d.wk.busy.session)
  {
    ReceiptAwaits(d.wk, ok);
    ReceiptLocal(d.wk, ok);
    ConcludedLocal(d.(wk := Received(d.wk, ok)), ok, built);
    ConcludedAwaits(d.(wk := Received(d.wk, ok)), ok, built);
  }

  lemma AnswerAhead(d: State, ok: bool, built: bool)
    requires d.wk.busy.Commanding? && CountersInRange(d.wk) && QueueInv(d.sh) && AheadInv(d.sh, d.wk) && Live(d)
    ensures QueueInv(Answer(d, ok, built).sh) && AheadInv(Answer(d, ok, built).sh, Answer(d, ok, built).wk)
  {
    var d1 := d.(wk := Received(d.wk, ok));
    assert forall t :: Held(d1.wk, t) <==> Held(d.wk, t);
    ConcludedAhead(d1, ok, built);
  }

  lemma AnswerKeeps(d: State, ok: bool, built: bool)
    requires Inv(d) && d.wk.busy.Commanding? && d.wk.busy.sent
    ensures CountersInRange(d.wk) && Inv(Answer(d, ok, built))
  {
    AnswerLocal(d, ok, built);
    ConcludedFrame(d.(wk := Received(d.wk, ok)), ok, built);
    if Live(d) {
      AnswerAhead(d, ok, built);
      forall t: Target ensures Converges(Answer(d, ok, built).sh, Answer(d, ok, built).wk, d.wk.busy.session, t) {
        AnswerConverge(d, ok, built, d.wk.busy.session, t);
      }
    }
  }

  /** A command given up before it was sent: an Unload leaves its target known, and on record as such. */
  lemma GivenUpConverge(d: State, e: nat, t: Target)
    requires d.wk.busy.Commanding? && CountersInRange(d.wk) && Live(d) && e == d.wk.busy.session
    requires QueueInv(d.sh) && AheadInv(d.sh, d.wk) && Converges(d.sh, d.wk, e, t)
    ensures var d' := Concluded(d.(wk := GivenUp(d.wk)), false, false); Converges(d'.sh, d'.wk, e, t)
  {
    var d1 := d.(wk := GivenUp(d.wk));
    assert AheadInv(d.sh, d1.wk) by { assert forall u :: Held(d1.wk, u) <==> Held(d.wk, u); }
    ConcludedFrame(d1, false, false);
    ConcludedAhead(d1, false, false);
  }

  lemma GivenUpKeeps(d: State)
    requires Inv(d) && d.wk.busy.Commanding? && !d.wk.busy.sent && Live(d)
    ensures CountersInRange(d.wk) && Inv(Concluded(d.(wk := GivenUp(d.wk)), false, false))
  {
    var d1 := d.(wk := GivenUp(d.wk));
    var d' := Concluded(d1, false, false);
    assert forall u :: Held(d1.wk, u) <==> Held(d.wk, u);
    ConcludedLocal(d1, false, false);
    ConcludedAwaits(d1, false, false);
    ConcludedFrame(d1, false, false);
    ConcludedAhead(d1, false, false);
    forall t: Target ensures Converges(d'.sh, d'.wk, d.wk.busy.session, t) {
      GivenUpConverge(d, d.wk.busy.session, t);
    }
  }

  lemma SendKeeps(d: State, expired: bool)
    requires Inv(d) && d.wk.busy.Commanding? && !d.wk.busy.sent && Live(d) && CountersInRange(d.wk)
    ensures Inv(Send(d, expired))
  {
    if expired || d.wk.lastSeq == MAX_INT64 { GivenUpKeeps(d); } else { SentKeeps(d); }
  }

  lemma AbandonKeeps(d: State)
    requires Inv(d) && !Live(d)
    ensures Inv(Abandon(d))
  {
  }

  /* ---- installs ---- */

  /** The install ends and its target keeps its installer. */
  lemma FinishKeeps(d: State)
    requires Inv(d) && d.wk.busy.Installing? && !d.wk.busy.phase.Outstanding?
    ensures Inv(d.(wk := d.wk.(busy := Idle))) && Inv(d.(wk := d.wk.(busy := d.wk.busy.(phase := Again))))
  {
    var w1, w2 := d.wk.(busy := Idle), d.wk.(busy := d.wk.busy.(phase := Again));
    assert forall t :: (Held(w1, t) <==> Held(d.wk, t)) && (Held(w2, t) <==> Held(d.wk, t));
    forall e, t: Target | Converges(d.sh, d.wk, e, t) ensures Converges(d.sh, w1, e, t) && Converges(d.sh, w2, e, t) {}
    assert forall e, t: Target :: Converges(d.sh, d.wk, e, t) ==> Converges(d.sh, w1, e, t) && Converges(d.sh, w2, e, t);
  }

  lemma RetireLocal(w: Worker, t: Target)
    requires LocalInv(w) && w.busy.Idle?
    ensures var w' := w.(installers := w.installers - {t}, retired := w.retired + {t});
      LocalInv(w') && forall e :: AwaitInv(w, e) ==> AwaitInv(w', e)
  {
  }

  /** With nothing in flight, a target may be retired and its queued install dropped. */
  lemma RetireKeeps(d: State, t: Target, drop: bool, x: set<(Target, Snapshot)>)
    requires Inv(d) && d.wk.busy.Idle?
    ensures Inv(State(if drop then d.sh.(queue := Without(d.sh.queue, t)) else d.sh,
                      d.wk.(installers := d.wk.installers - {t}, retired := d.wk.retired + {t}, dropped := x)))
  {
    hide QueueInv, LocalInv, AwaitInv;
    var h' := if drop then d.sh.(queue := Without(d.sh.queue, t)) else d.sh;
    var w' := d.wk.(installers := d.wk.installers - {t}, retired := d.wk.retired + {t});
    RetireLocal(d.wk, t);
    WithoutCarries(d.sh, t);
    CarriesKeeps(d.sh, h', w');
    assert forall u :: Held(w', u) ==> Held(d.wk, u);
    forall e, u: Target | Converges(d.sh, d.wk, e, u) ensures Converges(d.sh, w', e, u) {}
    assert Inv(State(h', w'));
    DroppedFrame(State(h', w'), x);
  }

  lemma TerminalKeeps(d: State)
    requires Inv(d) && d.wk.busy.Installing? && !d.wk.busy.phase.Outstanding?
    ensures Inv(Terminal(d))
  {
    hide Inv;
    FinishKeeps(d);
    RetireKeeps(d.(wk := d.wk.(busy := Idle)), d.wk.busy.intent.target, Live(d), Terminal(d).wk.dropped);
  }

  lemma AfterAbortKeeps(d: State)
    requires Inv(d) && d.wk.busy.Installing? && !d.wk.busy.phase.Outstanding?
    ensures Inv(AfterAbort(d))
  {
    FinishKeeps(d);
  }

  /** Allocating the next epoch keeps every installer level with its counter: only this one shares the cell. */
  lemma PreparedCounters(w: Worker)
    requires LocalInv(w) && InstallerInPlace(w)
    requires var m := w.installers[w.busy.intent.target]; m.local + 1 <= MAX_INT64 - m.base
    ensures var w' := Prepared(w); CounterInv(w'.counters, w'.cells, w'.installers, w'.wire)
  {
    var t := w.busy.intent.target;
    var m := w.installers[t];
    ReadHighest(w.wire, Prepare(w.busy.session, t, w.busy.ticket, m.cell, ToWire(m.base, m.local + 1)));
  }

  function Preparing(w: Worker): Wire
    requires InstallerInPlace(w)
  {
    var m := w.installers[w.busy.intent.target];
    Prepare(w.busy.session, w.busy.intent.target, w.busy.ticket, m.cell, ToWire(m.base, m.local + 1))
  }

  lemma PreparedSafe(w: Worker)
    requires LocalInv(w) && InstallerInPlace(w) && !w.busy.phase.Outstanding?
    requires w.owner == Some(w.busy.session) && AwaitInv(w, w.busy.session)
    requires var m := w.installers[w.busy.intent.target]; m.local + 1 <= MAX_INT64 - m.base
    ensures Safe(Prepared(w).wire)
  {
    var t := w.busy.intent.target;
    assert Unsettled(w.wire, w.busy.session, t) == InDoubt(w.busy, w.installers, t);
    assert LevelWithCell(w.cells, w.installers[t], t.subj);
    SafeAppend(w.wire, Preparing(w));
  }

  lemma PreparedAwaits(w: Worker)
    requires InstallerInPlace(w) && !w.busy.phase.Outstanding? && AwaitInv(w, w.busy.session)
    ensures AwaitInv(Prepared(w), w.busy.session)
  {
    var w' := Prepared(w);
    ReadUnanswered(w.wire, Preparing(w));
    ReadUnsettled(w.wire, Preparing(w));
    forall t: Target ensures Unsettled(w'.wire, w.busy.session, t) == InDoubt(w'.busy, w'.installers, t) {
      assert Unsettled(w.wire, w.busy.session, t) == InDoubt(w.busy, w.installers, t) == {};
    }
  }

  lemma PreparedLocal(w: Worker)
    requires LocalInv(w) && InstallerInPlace(w) && !w.busy.phase.Outstanding?
    requires w.owner == Some(w.busy.session) && AwaitInv(w, w.busy.session)
    requires var m := w.installers[w.busy.intent.target]; m.local + 1 <= MAX_INT64 - m.base
    ensures LocalInv(Prepared(w))
  {
    PreparedSafe(w);
    PreparedCounters(w);
    InstallerAppend(w.owner, w.installers, w.retired, w.wire, Preparing(w));
    InstallAppend(w.busy, w.nextTicket, w.installers, w.wire, Preparing(w));
  }

  lemma PreparedKeeps(d: State)
    requires Inv(d) && InstallerInPlace(d.wk) && !d.wk.busy.phase.Outstanding? && Live(d)
    requires var m := d.wk.installers[d.wk.busy.intent.target]; m.local + 1 <= MAX_INT64 - m.base
    ensures Inv(d.(wk := Prepared(d.wk)))
  {
    var w, w' := d.wk, Prepared(d.wk);
    PreparedLocal(w);
    PreparedAwaits(w);
    ReadKnown(w.wire, Preparing(w));
    assert forall t :: Held(w', t) <==> Held(w, t);
    forall e, t: Target | Converges(d.sh, w, e, t) ensures Converges(d.sh, w', e, t) {}
  }

  function Settling(w: Worker, how: Settlement): Wire
    requires InstallerInPlace(w)
  {
    var m := w.installers[w.busy.intent.target];
    Settled(w.busy.session, w.busy.intent.target, w.busy.ticket, ToWire(m.base, m.local), how, SnapOf(w.busy.intent))
  }

  lemma SettledAwaits(w: Worker, how: Settlement, b: Busy)
    requires InstallerInPlace(w) && w.busy.phase.Outstanding? && AwaitInv(w, w.busy.session)
    requires b == Idle || b == w.busy.(phase := Again)
    ensures MayFollow(w.wire, Settling(w, how))
    ensures AwaitInv(w.(busy := b, wire := w.wire + [Settling(w, how)]), w.busy.session)
  {
    var x := Settling(w, how);
    ReadUnanswered(w.wire, x);
    ReadUnsettled(w.wire, x);
    assert Unsettled(w.wire, w.busy.session, x.target) == InDoubt(w.busy, w.installers, x.target);
    forall t: Target ensures Unsettled(w.wire + [x], w.busy.session, t) == {} {
      assert Unsettled(w.wire, w.busy.session, t) == InDoubt(w.busy, w.installers, t);
    }
  }

  lemma SettledLocal(w: Worker, how: Settlement, b: Busy)
    requires LocalInv(w) && InstallerInPlace(w) && MayFollow(w.wire, Settling(w, how))
    requires b == Idle || (b == w.busy.(phase := Again) && how == Aborted)
    ensures LocalInv(w.(busy := b, wire := w.wire + [Settling(w, how)]))
  {
    var x := Settling(w, how);
    CounterAppend(w.counters, w.cells, w.installers, w.wire, x);
    InstallerAppend(w.owner, w.installers, w.retired, w.wire, x);
    InstallAppend(b, w.nextTicket, w.installers, w.wire, x);
    SafeAppend(w.wire, x);
  }

  /** Settling the outstanding attempt; only an aborted one leaves the install in flight. */
  lemma SettledKeeps(d: State, how: Settlement, b: Busy)
    requires Inv(d) && InstallerInPlace(d.wk) && d.wk.busy.phase.Outstanding?
    requires b == Idle || (b == d.wk.busy.(phase := Again) && how == Aborted)
    ensures Inv(d.(wk := d.wk.(busy := b, wire := d.wk.wire + [Settling(d.wk, how)])))
  {
    var w := d.wk;
    var w' := w.(busy := b, wire := w.wire + [Settling(w, how)]);
    SettledAwaits(w, how, b);
    SettledLocal(w, how, b);
    ReadKnown(w.wire, Settling(w, how));
    assert forall t :: Held(w', t) <==> Held(w, t);
    forall e, t: Target | Converges(d.sh, w, e, t) ensures Converges(d.sh, w', e, t) {}
  }

  lemma ResolveKeeps(d: State, how: Settlement)
    requires Inv(d) && InstallerInPlace(d.wk) && d.wk.busy.phase.Outstanding?
    ensures var m := d.wk.installers[d.wk.busy.intent.target]; Inv(Resolve(d, how, ToWire(m.base, m.local)))
  {
    SettledKeeps(d, how, Idle);
    match how
    case Committed =>
    case Aborted => SettledKeeps(d, Aborted, d.wk.busy.(phase := Again));
    case Rejected =>
      var w1 := d.wk.(busy := Idle, wire := d.wk.wire + [Settling(d.wk, Rejected)]);
      RetireKeeps(d.(wk := w1), d.wk.busy.intent.target, Live(d), Terminal(d).wk.dropped);
  }

  lemma SubmitKeeps(d: State, a: Attempt)
    requires Inv(d) && InstallerInPlace(d.wk) && !d.wk.busy.phase.Outstanding? && Live(d) && (a.Done? || a.Unresolved?)
    requires var m := d.wk.installers[d.wk.busy.intent.target]; m.local + 1 <= MAX_INT64 - m.base
    ensures var m := d.wk.installers[d.wk.busy.intent.target];
      var d1 := d.(wk := Prepared(d.wk));
      Inv(if a.Done? then Resolve(d1, a.how, ToWire(m.base, m.local + 1)) else d1)
  {
    hide Inv;
    PreparedKeeps(d);
    if a.Done? { ResolveKeeps(d.(wk := Prepared(d.wk)), a.how); }
  }

  lemma ApplyKeeps(d: State, a: Attempt)
    requires Inv(d) && InstallerInPlace(d.wk) && !d.wk.busy.phase.Outstanding? && Live(d)
    ensures Inv(Apply(d, a))
  {
    hide Inv;
    var m := d.wk.installers[d.wk.busy.intent.target];
    if d.wk.busy.phase.Again? && !MayRetry(d, d.wk.busy.intent) {
      FinishKeeps(d);
    } else if a.Invalid? || m.local == MAX_INT64 {
      TerminalKeeps(d);
    } else if a.NotSent? {
      AfterAbortKeeps(d);
    } else if m.local + 1 > MAX_INT64 - m.base {
      TerminalKeeps(d);
    } else {
      SubmitKeeps(d, a);
    }
  }

  /** Every install in flight has its installer and counter. */
  lemma InFlightInPlace(d: State)
    requires Inv(d) && d.wk.busy.Installing?
    ensures InstallerInPlace(d.wk)
  {
    assert LevelWithCell(d.wk.cells, d.wk.installers[d.wk.busy.intent.target], d.wk.busy.intent.target.subj);
  }
}
