/**
The live revision transaction of the sidecar, together with the launch and publication of the
child process that enforces it.

Both the policy barrier and the process lease are held through a live mutation, so a mutation is
one step whose file, kernel and receiver outcomes are inputs. Launching a child is not: it runs
unlocked between its own critical sections, and everything may interleave with it.
*/
module Sidecar {
  import opened Basics

  type Policy = string

  /** The user policy with the always-rules laid over it. */
  datatype Inputs = Inputs(user: Policy, always: string)

  /** An immutable baseline; `handle` stands for its address, which no other baseline shares. */
  datatype Base = Base(handle: nat, inputs: Inputs, epoch: int)

  /** The Store's contents; `tag` is its private mutation identity. */
  datatype Vault = Vault(revision: int, tag: nat)

  /** What a receiver confirms it is enforcing. */
  datatype Identity = Identity(vault: Vault, policyEpoch: int)

  datatype Receiver = Receiver(confirmed: Option<Identity>, uncertain: bool)

  datatype Reason = NoReason | EffectsUnknown | CleanupFailed | OtherReason

  /** What a bootstrap captured; it may be published only if nothing moved since. */
  datatype Ticket = Ticket(identity: nat, base: Base, vault: Vault)

  /** The unpublished launch, owned by its caller. */
  datatype Attempt =
    | NoAttempt
    | Starting(gen: nat)
    | Captured(gen: nat, ticket: Ticket)
    | Launched(gen: nat, ticket: Ticket)
    | Bootstrapped(gen: nat, ticket: Ticket)
    | Discarded(gen: nat)

  datatype Config = Config(hasFile: bool, hasNft: bool, hasQuarantine: bool)

  /** Guarded by the policy barrier, with the file and kernel rules it owns. */
  datatype Server = Server(
    base: Base,
    identity: nat,
    nextId: nat,
    reason: Reason,
    vault: Vault,
    disk: Option<Policy>,
    kernel: Inputs,
    proxyUser: Policy,
    proxyAlways: string
  )

  /**
  Guarded by the process lease. `exited` are the generations whose exit was recorded and `armed`
  those whose exit may still latch recovery. `spawned`, `published` and `released` are the history
  of children started, published and given up (stopped, or already reaped).
  */
  datatype Life = Life(
    running: Option<nat>,
    session: Option<nat>,
    currentGen: nat,
    nextGen: nat,
    launchGen: nat,
    launchExited: bool,
    pending: Option<nat>,
    stopping: bool,
    attempt: Attempt,
    receivers: map<nat, Receiver>,
    exited: set<nat>,
    armed: set<nat>,
    spawned: seq<nat>,
    published: seq<nat>,
    released: seq<nat>
  )

  datatype State = State(cfg: Config, sv: Server, lf: Life, ready: bool)

  function Init(cfg: Config, inputs: Inputs, disk: Option<Policy>, revision: int): State {
    State(cfg,
          Server(Base(0, inputs, 0), 1, 2, NoReason, Vault(revision, 0), disk, inputs, inputs.user, inputs.always),
          Life(None, None, 0, 0, 0, false, None, false, NoAttempt, map[], {}, {}, [], [], []),
          false)
  }

  /* ---- recovery ---- */

  /** Every outstanding ticket becomes stale. */
  function Invalidated(sv: Server): Server {
    sv.(identity := sv.nextId, nextId := sv.nextId + 1)
  }

  /** The first reason sticks. */
  function Latch(s: State, why: Reason): State {
    s.(sv := Invalidated(s.sv.(reason := if s.sv.reason.NoReason? then why else s.sv.reason)), ready := false)
  }

  function Released(o: Option<nat>): seq<nat> {
    if o.Some? then [o.value] else []
  }

  /** Latch recovery, then stop the exact child and close its session. */
  function Detach(s: State): State {
    var s1 := if s.sv.reason.NoReason? then Latch(s, EffectsUnknown) else s;
    s1.(ready := false,
        lf := s1.lf.(running := None, session := None, released := s1.lf.released + Released(s1.lf.running)))
  }

  /* ---- the effects of a live policy change ---- */

  datatype FileState = Unchanged | Committed | Unknown

  /** One call of the file store: its classification, its error, and whether the new image is in place. */
  datatype Write = Write(state: FileState, failed: bool, landed: bool)

  /** A clean commit is in place; a failure before any rename is not. */
  predicate HonestWrite(w: Write) {
    && (w.state.Committed? && !w.failed ==> w.landed)
    && (w.state.Unchanged? && w.failed ==> !w.landed)
  }

  datatype NftOutcome = Applied | Failed(noEffect: bool, landed: bool)

  datatype UpdateOutcome = Confirmed | Rejected | Lost

  /** How a session answers an update; `exact` is whether the identity it names is the frozen attempt's. */
  datatype Reply = Accepted(exact: bool) | Unsure(exact: bool) | Declined | Broken

  /** How one reconciliation of the recorded attempt ends. */
  datatype Reconciled = Active | Inactive | Fatal | Again

  /** An attempt in doubt is resolved only by reconciling it; running out of time loses it. */
  function Resolve(rs: seq<Reconciled>): UpdateOutcome {
    if rs == [] then Lost
    else
      match rs[0]
      case Active => Confirmed
      case Inactive => Rejected
      case Fatal => Lost
      case Again => Resolve(rs[1..])
  }

  function Verdict(reply: Reply, rs: seq<Reconciled>): UpdateOutcome {
    match reply
    case Declined => Rejected
    case Broken => Lost
    case Accepted(exact) => if exact then Confirmed else Lost
    case Unsure(exact) => if exact then Resolve(rs) else Lost
  }

  datatype Effects = Effects(
    notReady: bool,           // cancelled or shutting down at the first check
    candidate: bool,          // the candidate was prepared and validated
    config: bool,             // the session's configuration is usable
    fits: bool,               // the payload is within the session's limit
    cancelledFirst: bool,
    image: bool,              // the file's previous image could be captured
    save: Write,
    cancelledSecond: bool,
    nft: NftOutcome,
    cancelledThird: bool,
    reply: Reply,
    reconciled: seq<Reconciled>,
    stillValid: bool,         // the defensive recheck after the receiver confirmed
    restore: Write            // the one restore of the previous image this call may make
  )

  predicate Honest(e: Effects) {
    HonestWrite(e.save) && HonestWrite(e.restore) && (e.nft.Failed? && e.nft.noEffect ==> !e.nft.landed)
  }

  /** Did the restore confirm the exact previous image, durably? */
  predicate Restores(w: Write) {
    w.state.Committed? && !w.failed
  }

  function Restored(s: State, persisted: bool, image: Option<Policy>, w: Write): State {
    if persisted && w.landed then s.(sv := s.sv.(disk := image)) else s
  }

  predicate SessionReady(s: State) {
    s.sv.reason.NoReason? && !s.lf.stopping && s.lf.running.Some? && s.lf.session.Some? && s.ready
  }

  datatype Outcome = Done(base: Base) | Refused

  /** Undo the file where it was written, and detach unless the undo is confirmed. */
  function Undo(s: State, persisted: bool, image: Option<Policy>, w: Write): State {
    var s1 := Restored(s, persisted, image, w);
    if !persisted || Restores(w) then s1 else Detach(s1)
  }

  /** The fixed effect chain: file, kernel, receiver; the caller publishes the returned base. */
  function Effect(s: State, inputs: Inputs, persist: bool, e: Effects): (State, Outcome) {
    var persisted := persist && s.cfg.hasFile;
    var image := s.sv.disk;
    if !SessionReady(s) || e.notReady || !e.candidate || s.sv.base.epoch == MAX_INT64 then (s, Refused)
    else if !e.config then (Detach(s), Refused)
    else if !e.fits || e.cancelledFirst then (s, Refused)
    else if persisted && !e.image then (s, Refused)
    else if persisted && !(e.save.state.Committed? && !e.save.failed) then
      (Unsaved(s, inputs, e), Refused)
    else
      var s1 := if persisted then s.(sv := Invalidated(s.sv.(disk := Some(inputs.user)))) else s;
      if e.cancelledSecond then (Undo(s1, persisted, image, e.restore), Refused)
      else KernelEffect(s1, inputs, persisted, image, e)
  }

  /** A failed save: retryable only when the store says that nothing was attempted. */
  function Unsaved(s: State, inputs: Inputs, e: Effects): State {
    if e.save.state.Unchanged? && e.save.failed then s
    else
      var s1 := Latch(if e.save.landed then s.(sv := s.sv.(disk := Some(inputs.user))) else s, EffectsUnknown);
      Detach(Restored(s1, true, s.sv.disk, e.restore))
  }

  function KernelEffect(s: State, inputs: Inputs, persisted: bool, image: Option<Policy>, e: Effects): (State, Outcome) {
    if !s.cfg.hasNft then
      if e.cancelledThird then (Undo(s, persisted, image, e.restore), Refused)
      else ReceiverEffect(s, inputs, persisted, image, e)
    else
      var s1 := s.(sv := Invalidated(s.sv));
      if e.nft.Failed? then (KernelFailed(s1, inputs, persisted, image, e), Refused)
      else
        var s2 := s1.(sv := s1.sv.(kernel := inputs));
        if e.cancelledThird then (Detach(s2), Refused)
        else ReceiverEffect(s2, inputs, persisted, image, e)
  }

  /** Only a failure without effect, with the file put back, leaves the sidecar healthy. */
  function KernelFailed(s: State, inputs: Inputs, persisted: bool, image: Option<Policy>, e: Effects): State
    requires e.nft.Failed?
  {
    var s1 := if e.nft.landed then s.(sv := s.sv.(kernel := inputs)) else s;
    var s2 := if e.nft.noEffect then s1 else Latch(s1, EffectsUnknown);
    var s3 := Restored(s2, persisted, image, e.restore);
    var s4 := if persisted && !Restores(e.restore) && s3.sv.reason.NoReason? then Latch(s3, EffectsUnknown) else s3;
    if s4.sv.reason.NoReason? then s4 else Detach(s4)
  }

  function ReceiverEffect(s: State, inputs: Inputs, persisted: bool, image: Option<Policy>, e: Effects): (State, Outcome) {
    var next := Base(s.sv.nextId, inputs, s.sv.base.epoch + 1);
    match Verdict(e.reply, e.reconciled)
    case Rejected =>
      if s.cfg.hasNft then (Detach(s), Refused) else (Undo(s, persisted, image, e.restore), Refused)
    case Lost => (Detach(Uncertain(s)), Refused)
    case Confirmed =>
      var s1 := Confirms(s, Identity(s.sv.vault, next.epoch));
      if !e.stillValid then (Detach(s1), Refused)
      else (s1.(sv := s1.sv.(nextId := s1.sv.nextId + 1)), Done(next))
  }

  function Confirms(s: State, id: Identity): State {
    if s.lf.session.None? then s
    else s.(lf := s.lf.(receivers := s.lf.receivers[s.lf.session.value := Receiver(Some(id), false)]))
  }

  function Uncertain(s: State): State {
    if s.lf.session.None? then s
    else
      var g := s.lf.session.value;
      var before := if g in s.lf.receivers then s.lf.receivers[g].confirmed else None;
      s.(lf := s.lf.(receivers := s.lf.receivers[g := Receiver(before, true)]))
  }

  /** A user policy change: persisted, and published to the proxy and the base. */
  function CommitPolicy(s: State, user: Policy, e: Effects): State {
    var (s1, r) := Effect(s, Inputs(user, s.sv.base.inputs.always), true, e);
    if r.Done? then s1.(sv := Invalidated(s1.sv.(proxyUser := user, base := r.base))) else s1
  }

  /** Reloaded always-rules: same chain without the file. */
  function ReloadAlways(s: State, always: string, e: Effects): State {
    var (s1, r) := Effect(s, Inputs(s.sv.base.inputs.user, always), false, e);
    if r.Done? then s1.(sv := Invalidated(s1.sv.(proxyAlways := always, base := r.base))) else s1
  }

  datatype VaultEffects = VaultEffects(
    notReady: bool, candidate: bool, config: bool, fits: bool, cancelled: bool, reply: Reply, reconciled: seq<Reconciled>,
    commits: bool)

  /** A live Vault change: receiver first, then the public Store. */
  function MutateVault(s: State, revision: int, e: VaultEffects): State {
    if !SessionReady(s) || e.notReady || !e.candidate then s
    else if !e.config then Detach(s)
    else if !e.fits || e.cancelled then s
    else
      match Verdict(e.reply, e.reconciled)
      case Rejected => s
      case Lost => Detach(Uncertain(s))
      case Confirmed =>
        var next := Vault(revision, s.sv.nextId);
        var s1 := Confirms(s, Identity(next, s.sv.base.epoch));
        if e.commits then s1.(sv := s1.sv.(vault := next, nextId := s1.sv.nextId + 1)) else Detach(s1)
  }

  /* ---- launch and publication ---- */

  /** Reserve a generation; refused while stopping or while an attempt is outstanding. */
  function StartLaunch(lf: Life): Life {
    if lf.stopping || lf.launchGen != 0 then lf
    else lf.(nextGen := lf.nextGen + 1, launchGen := lf.nextGen + 1, launchExited := false, attempt := Starting(lf.nextGen + 1))
  }

  /** Capture under the policy barrier; refused in recovery. */
  function Capture(s: State, ok: bool): State
    requires s.lf.attempt.Starting?
  {
    if !ok || !s.sv.reason.NoReason? then s.(lf := Forgotten(s.lf))
    else s.(lf := s.lf.(attempt := Captured(s.lf.attempt.gen, Ticket(s.sv.identity, s.sv.base, s.sv.vault))))
  }

  /** Start the child with a fresh session of its own. */
  function Spawn(lf: Life, ok: bool): Life
    requires lf.attempt.Captured?
  {
    var g := lf.attempt.gen;
    if !ok then Forgotten(lf)
    else lf.(attempt := Launched(g, lf.attempt.ticket), spawned := lf.spawned + [g],
             receivers := lf.receivers[g := Receiver(None, false)])
  }

  /** The receiver confirmed the captured snapshot; the result is now pending publication. */
  function Bootstrap(lf: Life): Life
    requires lf.attempt.Launched?
  {
    var g, t := lf.attempt.gen, lf.attempt.ticket;
    lf.(attempt := Bootstrapped(g, t), pending := Some(g),
        receivers := lf.receivers[g := Receiver(Some(Identity(t.vault, t.base.epoch)), false)])
  }

  /** The attempt's child is stopped by its owner. */
  function Discard(lf: Life): Life
    requires lf.attempt.Launched? || lf.attempt.Bootstrapped?
  {
    lf.(attempt := Discarded(lf.attempt.gen), released := lf.released + [lf.attempt.gen])
  }

  /** The reservation is given back. */
  function Forgotten(lf: Life): Life {
    lf.(attempt := NoAttempt, pending := None, launchGen := 0)
  }

  predicate TicketValid(sv: Server, t: Ticket) {
    sv.reason.NoReason? && t.identity == sv.identity && t.base == sv.base && t.vault.tag == sv.vault.tag
  }

  /** The sole readiness publication: validation and transfer of the child are one step. */
  function Publish(s: State, cancelled: bool): State
    requires s.lf.attempt.Bootstrapped?
  {
    var g := s.lf.attempt.gen;
    if !TicketValid(s.sv, s.lf.attempt.ticket) || cancelled || s.lf.stopping then s
    else if s.lf.pending != Some(g) || s.lf.launchGen != g || s.lf.running.Some? then s
    else if s.lf.launchExited then s
    else
      s.(lf := s.lf.(running := Some(g), session := Some(g), currentGen := g, pending := None, launchGen := 0,
                     attempt := NoAttempt, published := s.lf.published + [g]),
         ready := true)
  }

  /** First critical section of an exit: it is serialized with publication. */
  function RecordExit(s: State, g: nat): State {
    var lf := s.lf.(exited := s.lf.exited + {g}, launchExited := s.lf.launchExited || s.lf.launchGen == g);
    if s.lf.currentGen != g then s.(lf := lf)
    else
      s.(lf := if !lf.stopping && lf.running.Some? && s.cfg.hasQuarantine then lf.(armed := lf.armed + {g}) else lf, ready := false)
  }

  /** Second critical section: the exit of a child still owned latches recovery. */
  function LatchExit(s: State, g: nat): State {
    var s1 := s.(lf := s.lf.(armed := s.lf.armed - {g}));
    if !s.lf.stopping && s.lf.running.Some? && s.lf.currentGen == g then Latch(s1, OtherReason) else s1
  }

  /** The watcher takes the exited child out of the published slot. */
  function CloseSession(s: State, g: nat, closes: bool): State {
    if s.lf.currentGen != g then s
    else
      var s1 := s.(lf := s.lf.(running := None, session := None, released := s.lf.released + Released(s.lf.running)), ready := false);
      if s.lf.session.Some? && !closes then Latch(s1, CleanupFailed) else s1
  }

  /** Shutdown claims the published child exactly once. */
  function Shutdown(s: State): State {
    s.(lf := s.lf.(stopping := true, running := None, session := None, released := s.lf.released + Released(s.lf.running)), ready := false)
  }

  /* ---- runs ---- */

  datatype Event =
    | Launching
    | Capturing(ok: bool)
    | Spawning(ok: bool)
    | Bootstrapping
    | Discarding
    | Forgetting
    | Publishing(cancelled: bool)
    | Exiting(g: nat)
    | ExitLatching(g: nat)
    | Closing(g: nat, closes: bool)
    | CleanupFailing            // an unpublished session could not be closed
    | ShuttingDown
    | Committing(user: Policy, effects: Effects)
    | Reloading(always: string, effects: Effects)
    | Mutating(revision: int, vaultEffects: VaultEffects)

  predicate Enabled(s: State, ev: Event) {
    match ev
    case Capturing(_) => s.lf.attempt.Starting?
    case Spawning(_) => s.lf.attempt.Captured?
    case Bootstrapping => s.lf.attempt.Launched?
    case Discarding => s.lf.attempt.Launched? || s.lf.attempt.Bootstrapped?
    case Forgetting => s.lf.attempt.Discarded?
    case Publishing(_) => s.lf.attempt.Bootstrapped?
    case Exiting(g) => g in s.lf.spawned && g !in s.lf.exited
    case ExitLatching(g) => g in s.lf.armed
    case Closing(g, _) => g in s.lf.exited
    case Committing(_, e) => Honest(e)
    case Reloading(_, e) => Honest(e)
    case _ => true
  }

  function Step(s: State, ev: Event): State {
    if !Enabled(s, ev) then s
    else
      match ev
      case Launching => s.(lf := StartLaunch(s.lf))
      case Capturing(ok) => Capture(s, ok)
      case Spawning(ok) => s.(lf := Spawn(s.lf, ok))
      case Bootstrapping => s.(lf := Bootstrap(s.lf))
      case Discarding => s.(lf := Discard(s.lf))
      case Forgetting => s.(lf := Forgotten(s.lf))
      case Publishing(cancelled) => Publish(s, cancelled)
      case Exiting(g) => RecordExit(s, g)
      case ExitLatching(g) => LatchExit(s, g)
      case Closing(g, closes) => CloseSession(s, g, closes)
      case CleanupFailing => Latch(s, CleanupFailed)
      case ShuttingDown => Shutdown(s)
      case Committing(user, e) => CommitPolicy(s, user, e)
      case Reloading(always, e) => ReloadAlways(s, always, e)
      case Mutating(revision, e) => MutateVault(s, revision, e)
  }

  function Run(s: State, evs: seq<Event>): State {
    if evs == [] then s else Step(Run(s, evs[..|evs| - 1]), evs[|evs| - 1])
  }
}
