/**
Every run of the drain keeps the invariant.
*/
module DrainProofs {
  import opened Basics
  import opened Drain
  import opened DrainInvariant

  /* ---- queues ---- */

  lemma {:induction false} WithoutMembers(q: seq<Intent>, t: Target)
    ensures forall i :: i in Without(q, t) <==> i in q && !(i.job.Install? && i.target == t)
  {
    if q != [] {
      WithoutMembers(q[1..], t);
      assert q == [q[0]] + q[1..];
    }
  }

  lemma {:induction false} WithoutOneEach(q: seq<Intent>, t: Target)
    requires OneInstallEach(q)
    ensures OneInstallEach(Without(q, t))
  {
    if q != [] {
      WithoutOneEach(q[1..], t);
      WithoutMembers(q[1..], t);
      assert ([q[0]] + Without(q[1..], t))[1..] == Without(q[1..], t);
    }
  }

  lemma {:induction false} WithoutAhead(q: seq<Intent>, t: Target, u: Target)
    requires UnloadAhead(q, u)
    ensures UnloadAhead(Without(q, t), u)
  {
    if !IsCommand(q[0], Unload, u) { WithoutAhead(q[1..], t, u); }
    assert ([q[0]] + Without(q[1..], t))[1..] == Without(q[1..], t);
  }

  lemma {:induction false} WithoutHas(q: seq<Intent>, t: Target, o: Op, u: Target)
    ensures Has(Without(q, t), o, u) <==> Has(q, o, u)
  {
    if q != [] {
      WithoutHas(q[1..], t, o, u);
      assert ([q[0]] + Without(q[1..], t))[1..] == Without(q[1..], t);
    }
  }

  lemma {:induction false} AppendHas(q: seq<Intent>, x: Intent, o: Op, u: Target)
    ensures Has(q + [x], o, u) <==> Has(q, o, u) || IsCommand(x, o, u)
  {
    if q == [] {
      assert q + [x] == [x] && [x][1..] == [];
    } else {
      AppendHas(q[1..], x, o, u);
      assert (q + [x])[1..] == q[1..] + [x];
    }
  }

  lemma {:induction false} ReplaceHas(q: seq<Intent>, k: nat, x: Intent, o: Op, u: Target)
    requires k < |q| && q[k].job.Install? && x.job.Install?
    ensures Has(q[k := x], o, u) <==> Has(q, o, u)
  {
    if k == 0 {
      assert q[k := x][1..] == q[1..];
    } else {
      ReplaceHas(q[1..], k - 1, x, o, u);
      assert q[k := x][1..] == q[1..][k - 1 := x];
    }
  }

  lemma {:induction false} AppendOneEach(q: seq<Intent>, x: Intent)
    requires OneInstallEach(q)
    requires x.job.Install? ==> forall i <- q :: !IsInstall(i, x.target.subj)
    ensures OneInstallEach(q + [x])
  {
    if q == [] {
      assert [x][1..] == [];
    } else {
      AppendOneEach(q[1..], x);
      assert (q + [x])[1..] == q[1..] + [x];
      assert q[0] in q;
      assert forall i <- q[1..] + [x] :: i in q[1..] || i == x;
    }
  }

  lemma {:induction false} AppendAhead(q: seq<Intent>, x: Intent, u: Target)
    requires UnloadAhead(q, u)
    ensures UnloadAhead(q + [x], u)
  {
    assert (q + [x])[1..] == q[1..] + [x];
    if !IsCommand(q[0], Unload, u) { AppendAhead(q[1..], x, u); }
  }

  lemma {:induction false} AppendUnloadAhead(q: seq<Intent>, x: Intent, u: Target)
    requires IsCommand(x, Unload, u)
    requires forall i <- q :: !IsInstall(i, u.subj)
    ensures UnloadAhead(q + [x], u)
  {
    if q != [] {
      AppendUnloadAhead(q[1..], x, u);
      assert (q + [x])[1..] == q[1..] + [x];
    }
  }

  lemma {:induction false} ReplaceOneEach(q: seq<Intent>, k: nat, x: Intent)
    requires OneInstallEach(q) && k < |q| && IsInstall(q[k], x.target.subj) && x.job.Install?
    ensures OneInstallEach(q[k := x])
  {
    if k == 0 {
      assert q[k := x][1..] == q[1..];
    } else {
      ReplaceOneEach(q[1..], k - 1, x);
      assert q[k := x][1..] == q[1..][k - 1 := x];
      forall i | i in q[1..][k - 1 := x] && q[0].job.Install? ensures !IsInstall(i, q[0].target.subj) {
        assert q[k] in q[1..] by { assert q[1..][k - 1] == q[k]; }
      }
    }
  }

  lemma {:induction false} ReplaceAhead(q: seq<Intent>, k: nat, x: Intent, u: Target)
    requires UnloadAhead(q, u) && k < |q| && q[k].job.Install? && x.job.Install? && x.target.subj == q[k].target.subj
    ensures UnloadAhead(q[k := x], u)
  {
    if k == 0 {
      assert q[k := x][1..] == q[1..];
    } else {
      assert q[k := x][1..] == q[1..][k - 1 := x];
      if !IsCommand(q[0], Unload, u) { ReplaceAhead(q[1..], k - 1, x, u); }
    }
  }

  /** Work already queued is still queued, with unloads still ahead of installs. */
  ghost predicate CarriesOver(q: seq<Intent>, q': seq<Intent>) {
    && (forall o, u :: Has(q, o, u) ==> Has(q', o, u))
    && (forall u :: UnloadAhead(q, u) ==> UnloadAhead(q', u))
  }

  lemma AppendCarries(q: seq<Intent>, x: Intent)
    ensures CarriesOver(q, q + [x])
    ensures forall o, u :: IsCommand(x, o, u) ==> Has(q + [x], o, u)
  {
    forall o, u ensures Has(q + [x], o, u) <==> Has(q, o, u) || IsCommand(x, o, u) { AppendHas(q, x, o, u); }
    forall u | UnloadAhead(q, u) ensures UnloadAhead(q + [x], u) { AppendAhead(q, x, u); }
  }

  lemma ReplaceCarries(q: seq<Intent>, k: nat, x: Intent)
    requires k < |q| && q[k].job.Install? && x.job.Install? && x.target.subj == q[k].target.subj
    ensures CarriesOver(q, q[k := x])
  {
    forall o, u ensures Has(q[k := x], o, u) <==> Has(q, o, u) { ReplaceHas(q, k, x, o, u); }
    forall u | UnloadAhead(q, u) ensures UnloadAhead(q[k := x], u) { ReplaceAhead(q, k, x, u); }
  }

  lemma DropCarries(q: seq<Intent>, t: Target)
    ensures CarriesOver(q, Without(q, t))
  {
    forall o, u ensures Has(Without(q, t), o, u) <==> Has(q, o, u) { WithoutHas(q, t, o, u); }
    forall u | UnloadAhead(q, u) ensures UnloadAhead(Without(q, t), u) { WithoutAhead(q, t, u); }
  }

  /** Queueing an install, given that queued installs of its subject are for its generation. */
  lemma EnqueueKeeps(q: seq<Intent>, next: Intent)
    requires OneInstallEach(q) && next.job.Install?
    requires forall i <- q :: IsInstall(i, next.target.subj) ==> i.target == next.target && i.epoch == next.epoch
    ensures OneInstallEach(Enqueue(q, next))
    ensures forall i <- Enqueue(q, next) :: i in q || i == next
    ensures CarriesOver(q, Enqueue(q, next))
  {
    var k := FirstInstall(q, next.target.subj);
    if k == |q| {
      assert forall i <- q :: !IsInstall(i, next.target.subj);
      AppendOneEach(q, next);
      AppendCarries(q, next);
    } else {
      assert q[k] in q;
      ReplaceOneEach(q, k, next);
      ReplaceCarries(q, k, next);
    }
  }

  /** What one more replayed subject adds. */
  lemma ReplayOne(q: seq<Intent>, t: Target, snap: Option<Snapshot>, e: Option<nat>) returns (q': seq<Intent>)
    requires OneInstallEach(q) && forall i <- q :: i.target.subj != t.subj
    ensures var r := q + [Intent(t, Lifecycle(Register), e)];
      q' == if snap.Some? then Enqueue(r, Intent(t, Install(snap.value), e)) else r
    ensures OneInstallEach(q') && CarriesOver(q, q') && Has(q', Register, t)
    ensures forall i <- q' :: i in q || (i.target == t && i.epoch == e)
  {
    var x := Intent(t, Lifecycle(Register), e);
    q' := q + [x];
    AppendOneEach(q, x);
    AppendCarries(q, x);
    assert IsCommand(x, Register, t);
    if snap.Some? {
      var n := Intent(t, Install(snap.value), e);
      assert forall i <- q' :: !IsInstall(i, t.subj);
      EnqueueKeeps(q', n);
      q' := Enqueue(q', n);
    }
  }

  lemma {:induction false} ReplayKeeps(h: Shared, order: seq<Subject>)
    requires (forall s <- order :: s in h.fences) && NoRepeats(order)
    ensures var q := Replay(h, order);
      && (forall i <- q :: i.epoch == h.current && i.target.subj in order && Registered(h, i.target))
      && OneInstallEach(q)
      && (forall s <- order :: Has(q, Register, Target(s, h.fences[s])))
  {
    if order != [] {
      var n := |order| - 1;
      var s := order[n];
      ReplayKeeps(h, order[..n]);
      assert order == order[..n] + [s];
      var q := ReplayOne(Replay(h, order[..n]), Target(s, h.fences[s]),
                         if s in h.snapshots then Some(h.snapshots[s]) else None, h.current);
      assert q == Replay(h, order);
      hide OneInstallEach, Has, UnloadAhead;
      forall r | r in order ensures Has(q, Register, Target(r, h.fences[r])) {
        assert r == s || r in order[..n];
      }
    }
  }

  /* ---- readings of the wire ---- */

  lemma {:induction false} QuietSession(w: seq<Wire>, e: nat, t: Target)
    requires forall x <- w :: x.session != e
    ensures !Known(w, e, t) && Unanswered(w, e) == {} && Unsettled(w, e, t) == {}
  {
    if w != [] {
      assert w[|w| - 1] in w;
      QuietSession(w[..|w| - 1], e, t);
    }
  }

  lemma {:induction false} NewTicket(w: seq<Wire>, k: nat)
    requires forall x <- w :: x.Settled? ==> x.ticket < k
    ensures Verdict(w, k) == None
  {
    if w != [] {
      assert w[|w| - 1] in w;
      NewTicket(w[..|w| - 1], k);
    }
  }

  lemma {:induction false} NewCell(w: seq<Wire>, c: nat)
    requires forall x <- w :: x.Prepare? ==> x.cell < c
    ensures Highest(w, c) == 0
  {
    if w != [] {
      assert w[|w| - 1] in w;
      NewCell(w[..|w| - 1], c);
    }
  }

  lemma {:induction false} SafeAppend(w: seq<Wire>, x: Wire)
    requires Safe(w) && MayFollow(w, x)
    ensures Safe(w + [x])
  {
    var v := w + [x];
    forall i | 0 <= i < |v| ensures MayFollow(v[..i], v[i]) {
      assert v[..i] == if i < |w| then w[..i] else w;
    }
  }

  /* ---- steps ---- */

  /** A Register is recorded only once the previous generation's Unload was. */
  ghost predicate Disciplined(h: Shared, e: Event) {
    e.Recorded? && e.op == Register ==> e.t.subj !in h.fences || h.fences[e.t.subj] == e.t.fence
  }

  lemma RecordMembers(h: Shared, t: Target, op: Op)
    requires QueueInv(h)
    ensures QueueInv(Record(h, t, op))
  {
    var x := Intent(t, Lifecycle(op), h.current);
    var stale := t.subj in h.fences && h.fences[t.subj] != t.fence;
    if op == Unload || stale {
      var u := if op == Unload then t else Target(t.subj, h.fences[t.subj]);
      WithoutMembers(h.queue, u);
      WithoutOneEach(h.queue, u);
      AppendOneEach(Without(h.queue, u), x);
    } else {
      AppendOneEach(h.queue, x);
    }
  }

  /** Recording an intent queues it behind all earlier work; an Unload goes behind no install of its subject. */
  lemma RecordQueue(h: Shared, t: Target, op: Op)
    requires QueueInv(h) && Disciplined(h, Recorded(t, op))
    ensures var h' := Record(h, t, op);
      && CarriesOver(h.queue, h'.queue) && Queued(h', op, t)
      && (op == Unload && Registered(h, t) ==> UnloadAhead(h'.queue, t))
  {
    var x := Intent(t, Lifecycle(op), h.current);
    assert IsCommand(x, op, t);
    if op == Unload {
      WithoutMembers(h.queue, t);
      DropCarries(h.queue, t);
      AppendCarries(Without(h.queue, t), x);
      if Registered(h, t) { AppendUnloadAhead(Without(h.queue, t), x, t); }
    } else {
      AppendCarries(h.queue, x);
    }
  }

  lemma RecordAhead(h: Shared, w: Worker, t: Target, op: Op)
    requires QueueInv(h) && Disciplined(h, Recorded(t, op)) && AheadInv(h, w)
    ensures AheadInv(Record(h, t, op), w)
  {
    RecordQueue(h, t, op);
    var h' := Record(h, t, op);
    forall u | Held(w, u) && !Registered(h', u) ensures UnloadAhead(h'.queue, u) {
      assert !Registered(h, u) || (op == Unload && u == t);
    }
  }

  lemma RecordConverge(h: Shared, w: Worker, t: Target, op: Op, e: nat, u: Target)
    requires QueueInv(h) && Disciplined(h, Recorded(t, op)) && Converges(h, w, e, u)
    ensures Converges(Record(h, t, op), w, e, u)
  {
    hide QueueInv;
    RecordQueue(h, t, op);
    assert u != t ==> (Registered(Record(h, t, op), u) <==> Registered(h, u));
  }

  lemma RecordReplay(h: Shared, t: Target, op: Op)
    requires QueueInv(h) && Disciplined(h, Recorded(t, op)) && ReplayInv(h)
    ensures ReplayInv(Record(h, t, op))
  {
    RecordQueue(h, t, op);
    var h' := Record(h, t, op);
    forall u: Target | Registered(h', u) ensures Queued(h', Register, u) {
      assert u != t ==> Registered(h, u);
    }
  }

  lemma RecordKeeps(d: State, t: Target, op: Op)
    requires Inv(d) && Disciplined(d.sh, Recorded(t, op))
    ensures Inv(d.(sh := Record(d.sh, t, op)))
  {
    var h, w := d.sh, d.wk;
    hide QueueInv, LocalInv, AwaitInv, Converges;
    RecordMembers(h, t, op);
    if h.current.Some? {
      if w.owner == h.current { RecordAhead(h, w, t, op); } else { RecordReplay(h, t, op); }
      if w.owner == h.current {
        forall u: Target ensures Converges(Record(h, t, op), w, h.current.value, u) {
          RecordConverge(h, w, t, op, h.current.value, u);
        }
      }
    }
  }

  ghost predicate Carries(h: Shared, h': Shared) {
    h.fences == h'.fences && CarriesOver(h.queue, h'.queue)
  }

  lemma CarriesKeeps(h: Shared, h': Shared, w: Worker)
    requires Carries(h, h')
    ensures AheadInv(h, w) ==> AheadInv(h', w)
    ensures forall e :: ConvergeInv(h, w, e) ==> ConvergeInv(h', w, e)
    ensures ReplayInv(h) ==> ReplayInv(h')
  {
    forall e, t: Target | ConvergeInv(h, w, e) ensures Converges(h', w, e, t) { assert Converges(h, w, e, t); }
    assert forall t: Target :: Registered(h', t) <==> Registered(h, t);
  }

  /** Removing installs of one target leaves all lifecycle work as it was. */
  lemma WithoutCarries(h: Shared, t: Target)
    requires QueueInv(h)
    ensures var h' := h.(queue := Without(h.queue, t)); QueueInv(h') && Carries(h, h')
  {
    WithoutMembers(h.queue, t);
    WithoutOneEach(h.queue, t);
    DropCarries(h.queue, t);
  }

  lemma RetainCarries(h: Shared, t: Target, snap: Snapshot)
    requires QueueInv(h) && Registered(h, t) && (t.subj in h.snapshots || |h.snapshots| < MAX_SUBJECTS)
    ensures QueueInv(Retain(h, t, snap)) && Carries(h, Retain(h, t, snap))
  {
    EnqueueKeeps(h.queue, Intent(t, Install(snap), h.current));
    if t.subj in h.snapshots { assert Retain(h, t, snap).snapshots.Keys == h.snapshots.Keys; }
  }

  lemma RetainKeeps(d: State, t: Target, snap: Snapshot)
    requires Inv(d)
    ensures Inv(d.(sh := Retain(d.sh, t, snap)))
  {
    var h' := Retain(d.sh, t, snap);
    if h' != d.sh {
      RetainCarries(d.sh, t, snap);
      CarriesKeeps(d.sh, h', d.wk);
    }
  }

  lemma PublishQueue(h: Shared, order: seq<Subject>)
    requires QueueInv(h) && Enumerates(order, h.fences.Keys)
    ensures QueueInv(Publish(h, order)) && ReplayInv(Publish(h, order))
  {
    ReplayKeeps(h.(current := Some(h.nextSession), nextSession := h.nextSession + 1), order);
  }

  lemma PublishKeeps(d: State, order: seq<Subject>)
    requires Inv(d) && Enumerates(order, d.sh.fences.Keys)
    ensures Inv(d.(sh := Publish(d.sh, order)))
  {
    PublishQueue(d.sh, order);
  }

  lemma DetachKeeps(d: State, session: nat)
    requires Inv(d)
    ensures Inv(d.(sh := Detach(d.sh, session)))
  {
  }

  lemma RebindKeeps(d: State, s: Subject, on: bool)
    requires Inv(d)
    ensures Inv(d.(sh := SetRebind(d.sh, s, on)))
  {
    CarriesKeeps(d.sh, SetRebind(d.sh, s, on), d.wk);
  }

  /* ---- the worker ---- */

  lemma AdoptKeeps(h: Shared, w: Worker)
    requires Inv(State(h, w)) && w.busy.Idle?
    ensures Inv(State(h, Adopt(w, h.current)))
  {
    var w' := Adopt(w, h.current);
    if w.owner != h.current && h.current.Some? {
      var e := h.current.value;
      forall t: Target ensures !Known(w.wire, e, t) && Unanswered(w.wire, e) == {} && Unsettled(w.wire, e, t) == {} {
        QuietSession(w.wire, e, t);
      }
      assert AwaitInv(w', e) by { QuietSession(w.wire, e, Target("", Fence("", ""))); }
      assert ConvergeInv(h, w', e) by {
        forall t: Target ensures Converges(h, w', e, t) {}
      }
    }
  }
}
