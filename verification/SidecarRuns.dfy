/**
What holds over every run of the sidecar.
*/
module SidecarRuns {
  import opened Basics
  import opened Sidecar
  import opened SidecarProofs

  /* ---- the invariant ---- */

  /** Readiness means an owned, live child whose receiver enforces exactly the current Vault and policy epoch. */
  predicate Agreed(sv: Server, lf: Life) {
    && sv.reason.NoReason? && !lf.stopping
    && lf.running == Some(lf.currentGen) && lf.session == lf.running && lf.currentGen !in lf.exited
    && lf.currentGen in lf.receivers
    && lf.receivers[lf.currentGen] == Receiver(Some(Identity(sv.vault, sv.base.epoch)), false)
  }

  predicate HasTicket(a: Attempt) {
    a.Captured? || a.Launched? || a.Bootstrapped?
  }

  predicate HoldsChild(a: Attempt) {
    a.Launched? || a.Bootstrapped?
  }

  /** The mutation tag identifies the Vault a ticket captured. */
  predicate TicketInv(vault: Vault, nextId: nat, a: Attempt) {
    && vault.tag < nextId
    && (HasTicket(a) ==> a.ticket.vault.tag < nextId && (a.ticket.vault.tag == vault.tag ==> a.ticket.vault == vault))
  }

  /** A bootstrapped attempt's receiver confirmed what its ticket captured. */
  predicate BootstrapInv(a: Attempt, receivers: map<nat, Receiver>) {
    a.Bootstrapped? ==>
      a.gen in receivers && receivers[a.gen] == Receiver(Some(Identity(a.ticket.vault, a.ticket.base.epoch)), false)
  }

  /** Generations only grow; the attempt holds the newest one, newer than the published child. */
  predicate AttemptGen(a: Attempt, launchGen: nat, nextGen: nat, currentGen: nat) {
    && (a.NoAttempt? <==> launchGen == 0)
    && (!a.NoAttempt? ==> a.gen == launchGen == nextGen && currentGen < launchGen)
    && currentGen <= nextGen
  }

  /** Generations in use were started, and none ahead of its turn. */
  ghost predicate SpawnGen(spawned: seq<nat>, nextGen: nat, a: Attempt, running: Option<nat>, currentGen: nat) {
    && (forall g <- spawned :: 0 < g <= nextGen)
    && (a.Starting? || a.Captured? ==> a.gen !in spawned)
    && (HoldsChild(a) ==> a.gen in spawned)
    && (running.Some? ==> running.value == currentGen && currentGen in spawned)
  }

  /** An exit is recorded once its child was started, and before publication it is remembered. */
  ghost predicate ExitGen(exited: set<nat>, armed: set<nat>, spawned: seq<nat>, launchGen: nat, launchExited: bool) {
    (forall g <- exited :: g in spawned) && (launchGen in exited ==> launchExited) && armed <= exited
  }

  ghost predicate Increasing(q: seq<nat>) {
    |q| <= 1 || (q[|q| - 2] < q[|q| - 1] && Increasing(q[..|q| - 1]))
  }

  ghost predicate HistoryInv(spawned: seq<nat>, published: seq<nat>, currentGen: nat) {
    Increasing(spawned) && Increasing(published) && forall g <- published :: g <= currentGen
  }

  ghost function Held(running: Option<nat>, a: Attempt): multiset<nat> {
    multiset(Released(running)) + (if HoldsChild(a) then multiset{a.gen} else multiset{})
  }

  /** Every child ever started is held by exactly one owner, or was given up exactly once. */
  ghost predicate OwnInv(spawned: seq<nat>, released: seq<nat>, running: Option<nat>, a: Attempt) {
    multiset(spawned) == multiset(released) + Held(running, a)
  }

  ghost predicate LifeInv(lf: Life) {
    && AttemptGen(lf.attempt, lf.launchGen, lf.nextGen, lf.currentGen)
    && SpawnGen(lf.spawned, lf.nextGen, lf.attempt, lf.running, lf.currentGen)
    && ExitGen(lf.exited, lf.armed, lf.spawned, lf.launchGen, lf.launchExited)
    && HistoryInv(lf.spawned, lf.published, lf.currentGen)
    && OwnInv(lf.spawned, lf.released, lf.running, lf.attempt)
  }

  /** Without recovery, file, kernel and proxy carry the published base. */
  predicate HealthInv(cfg: Config, sv: Server, start: State) {
    sv.reason.NoReason? ==>
      && (cfg.hasNft ==> sv.kernel == sv.base.inputs)
      && sv.proxyUser == sv.base.inputs.user && sv.proxyAlways == sv.base.inputs.always
      && (cfg.hasFile ==>
            sv.disk == Some(sv.base.inputs.user) ||
            (sv.disk == start.sv.disk && sv.base.inputs.user == start.sv.base.inputs.user))
  }

  ghost predicate Inv(s: State, start: State) {
    && (s.ready ==> Agreed(s.sv, s.lf))
    && TicketInv(s.sv.vault, s.sv.nextId, s.lf.attempt)
    && BootstrapInv(s.lf.attempt, s.lf.receivers)
    && LifeInv(s.lf)
    && HealthInv(s.cfg, s.sv, start)
  }

  /** A start of the sidecar: no child yet, kernel and proxy loaded with the initial policy. */
  ghost predicate Fresh(start: State) {
    exists cfg, inputs, disk, revision :: start == Init(cfg, inputs, disk, revision)
  }

  /* ---- the life of children ---- */

  lemma AppendIncreasing(q: seq<nat>, g: nat)
    requires Increasing(q) && forall x <- q :: x < g
    ensures Increasing(q + [g])
  {
    assert (q + [g])[..|q|] == q;
    if q != [] { assert q[|q| - 1] in q; }
  }

  lemma StartLife(lf: Life)
    requires LifeInv(lf)
    ensures LifeInv(StartLaunch(lf))
  {
  }

  lemma ForgetLife(lf: Life)
    requires LifeInv(lf) && !HoldsChild(lf.attempt)
    ensures LifeInv(Forgotten(lf))
  {
  }

  lemma SpawnLife(lf: Life)
    requires LifeInv(lf) && lf.attempt.Captured?
    ensures LifeInv(Spawn(lf, true))
  {
    AppendIncreasing(lf.spawned, lf.attempt.gen);
  }

  lemma BootstrapLife(lf: Life)
    requires LifeInv(lf) && lf.attempt.Launched?
    ensures LifeInv(Bootstrap(lf))
  {
  }

  lemma DiscardLife(lf: Life)
    requires LifeInv(lf) && HoldsChild(lf.attempt)
    ensures LifeInv(Discard(lf))
  {
  }

  /** The published child is given up exactly once. */
  lemma ReleaseLife(lf: Life, stopping: bool)
    requires LifeInv(lf)
    ensures LifeInv(lf.(stopping := stopping, running := None, session := None, released := lf.released + Released(lf.running)))
  {
  }

  lemma PublishLife(lf: Life)
    requires LifeInv(lf) && lf.attempt.Bootstrapped? && lf.running.None?
    ensures var g := lf.attempt.gen;
      LifeInv(lf.(running := Some(g), session := Some(g), currentGen := g, pending := None, launchGen := 0,
                  attempt := NoAttempt, published := lf.published + [g]))
  {
    AppendIncreasing(lf.published, lf.attempt.gen);
  }

  lemma NewerThanCurrent(lf: Life)
    requires LifeInv(lf)
    ensures !lf.attempt.NoAttempt? ==> lf.attempt.gen > lf.currentGen
  {
  }

  lemma ExitLife(lf: Life, g: nat, armed: set<nat>)
    requires LifeInv(lf) && g in lf.spawned && armed <= lf.exited + {g}
    ensures LifeInv(lf.(exited := lf.exited + {g}, launchExited := lf.launchExited || lf.launchGen == g, armed := armed))
  {
  }

  lemma DisarmLife(lf: Life, g: nat)
    requires LifeInv(lf)
    ensures LifeInv(lf.(armed := lf.armed - {g})) && lf.armed <= lf.exited
  {
  }

  lemma LaunchKeeps(s: State, start: State, ev: Event)
    requires Inv(s, start) && Enabled(s, ev)
    requires ev.Launching? || ev.Capturing? || ev.Spawning? || ev.Bootstrapping? || ev.Discarding? || ev.Forgetting?
    ensures Inv(Step(s, ev), start)
  {
    hide LifeInv, HealthInv;
    var lf := s.lf;
    NewerThanCurrent(lf);
    match ev
    case Launching => StartLife(lf);
    case Capturing(_) => ForgetLife(lf); CaptureLife(s);
    case Spawning(ok) => if ok { SpawnLife(lf); } else { ForgetLife(lf); }
    case Bootstrapping => BootstrapLife(lf);
    case Discarding => DiscardLife(lf);
    case Forgetting => ForgetLife(lf);
  }

  lemma CaptureLife(s: State)
    requires LifeInv(s.lf) && s.lf.attempt.Starting?
    ensures LifeInv(Capture(s, true).lf)
  {
    assert Held(s.lf.running, Capture(s, true).lf.attempt) == Held(s.lf.running, s.lf.attempt);
  }

  lemma PublishKeeps(s: State, start: State, cancelled: bool)
    requires Inv(s, start) && s.lf.attempt.Bootstrapped?
    ensures Inv(Publish(s, cancelled), start)
  {
    if s.lf.running.None? { PublishLife(s.lf); }
  }

  lemma ExitKeeps(s: State, start: State, ev: Event)
    requires Inv(s, start) && Enabled(s, ev) && (ev.Exiting? || ev.ExitLatching?)
    ensures Inv(Step(s, ev), start)
  {
    hide LifeInv, HealthInv;
    DisarmLife(s.lf, ev.g);
    if ev.Exiting? {
      ExitLife(s.lf, ev.g, s.lf.armed);
      ExitLife(s.lf, ev.g, s.lf.armed + {ev.g});
    }
    LatchHealth(Step(s, ev), s, start);
  }

  lemma CloseKeeps(s: State, start: State, ev: Event)
    requires Inv(s, start) && Enabled(s, ev) && (ev.Closing? || ev.CleanupFailing? || ev.ShuttingDown?)
    ensures Inv(Step(s, ev), start)
  {
    hide LifeInv, HealthInv;
    ReleaseLife(s.lf, s.lf.stopping);
    ReleaseLife(s.lf, true);
    LatchHealth(Step(s, ev), s, start);
  }

  /** Latching, or moving tickets on, is no claim of health. */
  lemma LatchHealth(s': State, s: State, start: State)
    requires HealthInv(s.cfg, s.sv, start) && s'.cfg == s.cfg
    requires s'.sv == s.sv.(reason := s'.sv.reason, identity := s'.sv.identity, nextId := s'.sv.nextId)
    requires s'.sv.reason.NoReason? ==> s.sv.reason.NoReason?
    ensures HealthInv(s'.cfg, s'.sv, start)
  {
  }

  /* ---- live changes ---- */

  lemma ReceiversLife(lf: Life, receivers: map<nat, Receiver>)
    requires LifeInv(lf)
    ensures LifeInv(lf.(receivers := receivers))
  {
  }

  lemma OtherReceiversKept(lf: Life, lf': Life)
    requires LifeInv(lf) && OtherReceivers(lf, lf') && lf'.attempt == lf.attempt && BootstrapInv(lf.attempt, lf.receivers)
    requires lf.session.Some? ==> lf.session == Some(lf.currentGen)
    ensures BootstrapInv(lf'.attempt, lf'.receivers)
  {
    NewerThanCurrent(lf);
  }

  lemma ContainedKeeps(s: State, s': State, start: State)
    requires Inv(s, start) && Contained(s, s') && SessionReady(s)
    ensures Inv(s', start)
  {
    hide LifeInv;
    ReleaseLife(s.lf, s.lf.stopping);
    ReceiversLife(s.lf.(running := None, session := None, released := s.lf.released + Released(s.lf.running)), s'.lf.receivers);
    OtherReceiversKept(s.lf, s'.lf);
  }

  lemma OldKeeps(s: State, s': State, start: State)
    requires Inv(s, start) && AllOld(s, s')
    ensures Inv(s', start)
  {
    hide LifeInv;
  }

  /** The chain's own outcome, before anything is published. */
  lemma ChainKeeps(s: State, start: State, inputs: Inputs, persist: bool, e: Effects)
    requires Inv(s, start) && Honest(e)
    ensures var (s1, r) := Effect(s, inputs, persist, e);
      if r.Refused? then Inv(s1, start)
      else SessionReady(s) && AllNew(s, s1, inputs, persist, r.base) && LifeInv(s1.lf) && BootstrapInv(s1.lf.attempt, s1.lf.receivers)
  {
    if SessionReady(s) {
      ChainIsAtomic(s, inputs, persist, e);
      var (s1, r) := Effect(s, inputs, persist, e);
      if r.Refused? {
        if AllOld(s, s1) { OldKeeps(s, s1, start); } else { ContainedKeeps(s, s1, start); }
      } else {
        ReceiversLife(s.lf, s1.lf.receivers);
        OtherReceiversKept(s.lf, s1.lf);
      }
    }
  }

  lemma CommitKeeps(s: State, start: State, user: Policy, e: Effects)
    requires Inv(s, start) && Honest(e)
    ensures Inv(CommitPolicy(s, user, e), start)
  {
    hide LifeInv;
    var (s1, r) := Effect(s, Inputs(user, s.sv.base.inputs.always), true, e);
    ChainKeeps(s, start, Inputs(user, s.sv.base.inputs.always), true, e);
  }

  lemma ReloadKeeps(s: State, start: State, always: string, e: Effects)
    requires Inv(s, start) && Honest(e)
    ensures Inv(ReloadAlways(s, always, e), start)
  {
    hide LifeInv;
    var (s1, r) := Effect(s, Inputs(s.sv.base.inputs.user, always), false, e);
    ChainKeeps(s, start, Inputs(s.sv.base.inputs.user, always), false, e);
  }

  lemma VaultKeeps(s: State, start: State, revision: int, e: VaultEffects)
    requires Inv(s, start)
    ensures Inv(MutateVault(s, revision, e), start)
  {
    hide LifeInv;
    var s' := MutateVault(s, revision, e);
    if SessionReady(s) {
      VaultIsAtomic(s, revision, e);
      hide MutateVault;
      if Contained(s, s') {
        ContainedKeeps(s, s', start);
      } else if s' != s {
        ReceiversLife(s.lf, s'.lf.receivers);
        OtherReceiversKept(s.lf, s'.lf);
      }
    }
  }

  lemma StepKeeps(s: State, start: State, ev: Event)
    requires Inv(s, start)
    ensures Inv(Step(s, ev), start)
  {
    hide Inv;
    if Enabled(s, ev) {
      match ev
      case Publishing(cancelled) => PublishKeeps(s, start, cancelled);
      case Exiting(_) => ExitKeeps(s, start, ev);
      case ExitLatching(_) => ExitKeeps(s, start, ev);
      case Closing(_, _) => CloseKeeps(s, start, ev);
      case CleanupFailing => CloseKeeps(s, start, ev);
      case ShuttingDown => CloseKeeps(s, start, ev);
      case Committing(user, e) => CommitKeeps(s, start, user, e);
      case Reloading(always, e) => ReloadKeeps(s, start, always, e);
      case Mutating(revision, e) => VaultKeeps(s, start, revision, e);
      case _ => LaunchKeeps(s, start, ev);
    }
  }

  lemma {:induction false} RunKeeps(start: State, evs: seq<Event>)
    requires Fresh(start)
    ensures Inv(Run(start, evs), start)
  {
    if evs != [] {
      RunKeeps(start, evs[..|evs| - 1]);
      StepKeeps(Run(start, evs[..|evs| - 1]), start, evs[|evs| - 1]);
    }
  }

  /* ---- what runs guarantee ---- */

  /** Whenever the gate is ready, the receiver's last confirmed identity is the current Vault and policy epoch. */
  lemma ReadinessAgreement(start: State, evs: seq<Event>)
    requires Fresh(start) && Run(start, evs).ready
    ensures var s := Run(start, evs);
      && s.sv.reason.NoReason? && s.lf.session.Some? && s.lf.running == s.lf.session
      && s.lf.session.value in s.lf.receivers
      && s.lf.receivers[s.lf.session.value] == Receiver(Some(Identity(s.sv.vault, s.sv.base.epoch)), false)
      && s.lf.session.value !in s.lf.exited
  {
    RunKeeps(start, evs);
  }

  /** Without recovery, the kernel, the proxy and the file all carry the published base: no mixed state is healthy. */
  lemma HealthyMeansAgreed(start: State, evs: seq<Event>)
    requires Fresh(start) && Run(start, evs).sv.reason.NoReason?
    ensures var s := Run(start, evs);
      && (s.cfg.hasNft ==> s.sv.kernel == s.sv.base.inputs)
      && s.sv.proxyUser == s.sv.base.inputs.user && s.sv.proxyAlways == s.sv.base.inputs.always
      && (s.cfg.hasFile ==>
            s.sv.disk == Some(s.sv.base.inputs.user) ||
            (s.sv.disk == start.sv.disk && s.sv.base.inputs.user == start.sv.base.inputs.user))
  {
    RunKeeps(start, evs);
  }

  /** A policy change by a user ends published everywhere, with nothing changed, or contained. */
  lemma CommitIsAtomic(start: State, evs: seq<Event>, user: Policy, e: Effects)
    requires Fresh(start) && Honest(e) && Run(start, evs).sv.reason.NoReason?
    ensures var s, s' := Run(start, evs), CommitPolicy(Run(start, evs), user, e);
      || (&& s'.ready && s'.sv.reason.NoReason? && s'.sv.base.epoch == s.sv.base.epoch + 1
          && s'.sv.base.inputs == Inputs(user, s.sv.base.inputs.always) && s'.sv.proxyUser == user
          && (s.cfg.hasFile ==> s'.sv.disk == Some(user)) && (s.cfg.hasNft ==> s'.sv.kernel == s'.sv.base.inputs)
          && s'.lf.session.Some? && s'.lf.session.value in s'.lf.receivers
          && s'.lf.receivers[s'.lf.session.value].confirmed == Some(Identity(s.sv.vault, s'.sv.base.epoch)))
      || AllOld(s, s')
      || Contained(s, s')
  {
    ChainIsAtomic(Run(start, evs), Inputs(user, Run(start, evs).sv.base.inputs.always), true, e);
  }

  lemma StepSticks(s: State, ev: Event)
    requires !s.sv.reason.NoReason? && !s.ready
    ensures Step(s, ev).sv.reason == s.sv.reason && !Step(s, ev).ready
  {
    if ev.Committing? { ChainNeedsSession(s, Inputs(ev.user, s.sv.base.inputs.always), true, ev.effects); }
    if ev.Reloading? { ChainNeedsSession(s, Inputs(s.sv.base.inputs.user, ev.always), false, ev.effects); }
  }

  lemma {:induction false} RunSplits(s: State, before: seq<Event>, after: seq<Event>)
    ensures Run(s, before + after) == Run(Run(s, before), after)
  {
    if after == [] {
      assert before + after == before;
    } else {
      var n := |after| - 1;
      RunSplits(s, before, after[..n]);
      assert (before + after)[..|before| + n] == before + after[..n];
    }
  }

  lemma {:induction false} LatchedSticks(s: State, evs: seq<Event>)
    requires !s.sv.reason.NoReason? && !s.ready
    ensures Run(s, evs).sv.reason == s.sv.reason && !Run(s, evs).ready
  {
    if evs != [] {
      LatchedSticks(s, evs[..|evs| - 1]);
      StepSticks(Run(s, evs[..|evs| - 1]), evs[|evs| - 1]);
    }
  }

  /** Once recovery latches, nothing clears it, rewrites its reason or makes the gate ready again. */
  lemma RecoveryIsOneWay(start: State, before: seq<Event>, after: seq<Event>)
    requires Fresh(start) && !Run(start, before).sv.reason.NoReason?
    ensures var s := Run(start, before + after); s.sv.reason == Run(start, before).sv.reason && !s.ready
  {
    RunKeeps(start, before);
    RunSplits(start, before, after);
    LatchedSticks(Run(start, before), after);
  }

  /** Every child started is owned by exactly one of the pending attempt, the published slot or teardown. */
  lemma OneOwnerEach(start: State, evs: seq<Event>, g: nat)
    requires Fresh(start)
    ensures var lf := Run(start, evs).lf;
      var owners := (if lf.running == Some(g) then 1 else 0) + (if HoldsChild(lf.attempt) && lf.attempt.gen == g then 1 else 0)
                    + multiset(lf.released)[g];
      owners == if g in lf.spawned then 1 else 0
  {
    RunKeeps(start, evs);
    var lf := Run(start, evs).lf;
    IncreasingOnce(lf.spawned, g);
    assert multiset(lf.spawned)[g] == multiset(lf.released)[g] + Held(lf.running, lf.attempt)[g];
  }

  lemma {:induction false} IncreasingBelow(q: seq<nat>, i: nat)
    requires Increasing(q) && i < |q|
    ensures q[i] <= q[|q| - 1] && (i < |q| - 1 ==> q[i] < q[|q| - 1])
  {
    if i < |q| - 1 { IncreasingBelow(q[..|q| - 1], i); }
  }

  lemma {:induction false} IncreasingOnce(q: seq<nat>, g: nat)
    requires Increasing(q)
    ensures multiset(q)[g] == if g in q then 1 else 0
  {
    if q != [] {
      var n := |q| - 1;
      assert q == q[..n] + [q[n]];
      IncreasingOnce(q[..n], g);
      if g in q[..n] {
        var i :| 0 <= i < n && q[i] == g;
        IncreasingBelow(q, i);
      }
    }
  }

  lemma {:induction false} IncreasingPairs(q: seq<nat>, i: nat, j: nat)
    requires Increasing(q) && i < j < |q|
    ensures q[i] < q[j]
  {
    if j == |q| - 1 { IncreasingBelow(q, i); } else { IncreasingPairs(q[..|q| - 1], i, j); }
  }

  /** Published generations strictly increase. */
  lemma PublishedIncrease(start: State, evs: seq<Event>, i: nat, j: nat)
    requires Fresh(start) && i < j < |Run(start, evs).lf.published|
    ensures Run(start, evs).lf.published[i] < Run(start, evs).lf.published[j]
  {
    RunKeeps(start, evs);
    IncreasingPairs(Run(start, evs).lf.published, i, j);
  }

  /** A child whose exit was recorded is never published afterwards. */
  lemma ExitedNeverPublished(start: State, evs: seq<Event>, cancelled: bool)
    requires Fresh(start) && Run(start, evs).lf.attempt.Bootstrapped?
    requires Run(start, evs).lf.attempt.gen in Run(start, evs).lf.exited
    ensures Publish(Run(start, evs), cancelled) == Run(start, evs)
  {
    RunKeeps(start, evs);
  }

  /**
  While a child is published, the exit of another generation touches neither it nor its session,
  readiness, tickets nor recovery, in any of the three sections an exit goes through; only its own
  exit takes it down.
  */
  lemma StaleExitHarmless(start: State, evs: seq<Event>, ev: Event)
    requires Fresh(start) && Run(start, evs).lf.running.Some? && Enabled(Run(start, evs), ev)
    requires ev.Exiting? || ev.ExitLatching? || ev.Closing?
    ensures var s, s' := Run(start, evs), Step(Run(start, evs), ev);
      if ev.g != s.lf.running.value then
        && s'.sv == s.sv && s'.ready == s.ready
        && s'.lf == s.lf.(exited := s'.lf.exited, launchExited := s'.lf.launchExited, armed := s'.lf.armed)
        && (ev.Closing? ==> s' == s)
      else
        && ev.g in s'.lf.exited && !s'.ready
        && (ev.Closing? ==> s'.lf.running.None?) && (ev.ExitLatching? && !s.lf.stopping ==> !s'.sv.reason.NoReason?)
  {
    RunKeeps(start, evs);
  }
}
