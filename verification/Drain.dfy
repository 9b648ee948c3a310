/**
The subject drain worker: a FIFO of lifecycle and install intents played against a restartable
child process.

Handlers change the shared part of the state in single critical sections. The worker owns the
rest and interleaves with them between its own steps. Everything it puts on the wire, and every
answer it accepts, is appended to `wire`.
*/
module Drain {
  import opened Basics

  const MAX_SUBJECTS: nat := 4096

  /** The (subject, generation) a child is told about. The source hashes the fence; the hash is taken to be injective. */
  datatype Target = Target(subj: Subject, fence: Fence)

  datatype Snapshot = Snapshot(payload: string, vaultRevision: int, policyEpoch: int)

  datatype Op = Register | Unload
  datatype Job = Lifecycle(op: Op) | Install(snap: Snapshot)
  datatype Intent = Intent(target: Target, job: Job, epoch: Option<nat>)

  /** A coordinator with its transport: wire epochs are `base + local`, mirrored into the shared counter `cell`. */
  datatype Installer = Installer(base: int, local: int, cell: nat)

  /** A per-subject decision-epoch counter, shared by the generations of that subject. */
  datatype Cell = Cell(subj: Subject, value: int)

  /** How far an install attempt got: `Ready` to apply, `Outstanding` on the wire, or free to apply `Again`. */
  datatype Phase = Ready | Outstanding | Again

  datatype Busy =
    | Idle
    | Commanding(op: Op, target: Target, session: nat, sent: bool)
    | Installing(intent: Intent, session: nat, ticket: nat, phase: Phase)

  datatype Settlement = Committed | Aborted | Rejected

  datatype Wire =
    | Sent(session: nat, seqno: int, op: Op, target: Target)
    | Receipt(session: nat, seqno: int, op: Op, target: Target, ok: bool)
    | Prepare(session: nat, target: Target, ticket: nat, cell: nat, value: int)
    | Settled(session: nat, target: Target, ticket: nat, value: int, how: Settlement, snap: Snapshot)

  /** Guarded by the server lock. `rebinds` are the subjects with an unfinished registration intent. */
  datatype Shared = Shared(
    current: Option<nat>,
    queue: seq<Intent>,
    snapshots: map<Subject, Snapshot>,
    fences: map<Subject, Fence>,
    rebinds: set<Subject>,
    nextSession: nat
  )

  /**
  Local to the worker goroutine, with the wire it produces. Two records are kept for the proofs:
  `unsent` are the targets whose last Unload was given up before it reached the wire, and `dropped`
  the snapshots whose install was given up.
  */
  datatype Worker = Worker(
    owner: Option<nat>,
    installers: map<Target, Installer>,
    retired: set<Target>,
    unsent: set<Target>,
    dropped: set<(Target, Snapshot)>,
    counters: map<Subject, nat>,
    cells: seq<Cell>,
    lastSeq: int,
    nextTicket: nat,
    busy: Busy,
    wire: seq<Wire>
  )

  datatype State = State(sh: Shared, wk: Worker)

  /** A drain starts with no child, mirroring the fences published so far. */
  function Init(fences: map<Subject, Fence>): State {
    State(Shared(None, [], map[], fences, {}, 0), Worker(None, map[], {}, {}, {}, map[], [], 0, 0, Idle, []))
  }

  /* ---- what handlers do under the server lock ---- */

  predicate IsInstall(i: Intent, s: Subject) {
    i.job.Install? && i.target.subj == s
  }

  predicate IsCommand(i: Intent, op: Op, t: Target) {
    i.job == Lifecycle(op) && i.target == t
  }

  predicate Registered(h: Shared, t: Target) {
    t.subj in h.fences && h.fences[t.subj] == t.fence
  }

  /** An intent is acted on only while it still describes the registered fences. */
  predicate StillWanted(h: Shared, i: Intent) {
    if i.job == Lifecycle(Unload) then !Registered(h, i.target) else Registered(h, i.target)
  }

  /** The queue without the installs for `t`. */
  function Without(q: seq<Intent>, t: Target): seq<Intent> {
    if q == [] then []
    else if q[0].job.Install? && q[0].target == t then Without(q[1..], t)
    else [q[0]] + Without(q[1..], t)
  }

  /** The snapshots that removing the installs for `t` gives up. */
  function Drops(q: seq<Intent>, t: Target): set<(Target, Snapshot)> {
    if q == [] then {}
    else if q[0].job.Install? && q[0].target == t then {(t, q[0].job.snap)} + Drops(q[1..], t)
    else Drops(q[1..], t)
  }

  /** The position of the first queued install for `s`, or the queue's length. */
  function FirstInstall(q: seq<Intent>, s: Subject): (k: nat)
    ensures k <= |q|
    ensures k < |q| ==> IsInstall(q[k], s)
    ensures forall j :: 0 <= j < k ==> !IsInstall(q[j], s)
  {
    if q == [] || IsInstall(q[0], s) then 0 else 1 + FirstInstall(q[1..], s)
  }

  /** A newer snapshot of the same generation replaces the queued one in place; otherwise it goes to the back. */
  function Enqueue(q: seq<Intent>, next: Intent): seq<Intent> {
    var k := FirstInstall(q, next.target.subj);
    if k == |q| then q + [next]
    else if q[k].target == next.target && q[k].epoch == next.epoch then q[k := next]
    else Without(q, q[k].target) + [next]
  }

  function Record(h: Shared, t: Target, op: Op): Shared {
    var stale := t.subj in h.fences && h.fences[t.subj] != t.fence;
    var h1 :=
      if op == Unload then
        if Registered(h, t) then
          h.(queue := Without(h.queue, t), fences := h.fences - {t.subj}, snapshots := h.snapshots - {t.subj})
        else
          h.(queue := Without(h.queue, t))
      else if stale then
        h.(queue := Without(h.queue, Target(t.subj, h.fences[t.subj])),
           snapshots := h.snapshots - {t.subj}, fences := h.fences[t.subj := t.fence])
      else
        h.(fences := h.fences[t.subj := t.fence]);
    h1.(queue := h1.queue + [Intent(t, Lifecycle(op), h1.current)])
  }

  /** Retain a committed snapshot for replay and queue its install; refused for a stale fence or over the cap. */
  function Retain(h: Shared, t: Target, snap: Snapshot): Shared {
    if !Registered(h, t) then h
    else if t.subj !in h.snapshots && |h.snapshots| >= MAX_SUBJECTS then h
    else h.(snapshots := h.snapshots[t.subj := snap],
            queue := Enqueue(h.queue, Intent(t, Install(snap), h.current)))
  }

  /** Registers, each followed by its retained snapshot, for the subjects in `order`. */
  function Replay(h: Shared, order: seq<Subject>): seq<Intent>
    requires forall s <- order :: s in h.fences
  {
    if order == [] then []
    else
      var s := order[|order| - 1];
      var t := Target(s, h.fences[s]);
      var q := Replay(h, order[..|order| - 1]) + [Intent(t, Lifecycle(Register), h.current)];
      if s in h.snapshots then Enqueue(q, Intent(t, Install(h.snapshots[s]), h.current)) else q
  }

  /** A fresh child: its own epoch, and a queue that replays everything registered into it. */
  function Publish(h: Shared, order: seq<Subject>): Shared
    requires forall s <- order :: s in h.fences
  {
    var h1 := h.(current := Some(h.nextSession), nextSession := h.nextSession + 1);
    h1.(queue := Replay(h1, order))
  }

  /** A child that was replaced in the meantime no longer detaches anything. */
  function Detach(h: Shared, session: nat): Shared {
    if h.current != Some(session) then h else h.(current := None, queue := [])
  }

  function SetRebind(h: Shared, s: Subject, on: bool): Shared {
    h.(rebinds := if on then h.rebinds + {s} else h.rebinds - {s})
  }

  /* ---- the worker's steps ---- */

  /** Forget everything learnt from a child that is no longer the current one. */
  function Adopt(w: Worker, current: Option<nat>): Worker {
    if w.owner == current then w
    else w.(owner := current, installers := map[], retired := {}, unsent := {}, dropped := {}, counters := map[], lastSeq := 0)
  }

  /** Pop the next intent and decide, under the lock, whether it still applies. */
  function Take(d: State): State
    requires d.wk.busy.Idle?
  {
    var h, w := d.sh, Adopt(d.wk, d.sh.current);
    if h.current.None? || h.queue == [] then State(h, w)
    else
      var i := h.queue[0];
      var valid := StillWanted(h, i) && (i.epoch.None? || i.epoch == h.current);
      var h1 := h.(queue := if !valid && i.job != Lifecycle(Unload) then Without(h.queue[1..], i.target) else h.queue[1..]);
      State(h1, if valid then Begin(w, i, h.current.value) else w)
  }

  /** Start on a valid intent. An Unload closes the installer of its target before it is sent. */
  function Begin(w: Worker, i: Intent, session: nat): Worker {
    match i.job
    case Install(snap) =>
      if i.target in w.installers && i.target !in w.retired then
        w.(busy := Installing(i, session, w.nextTicket, Ready), nextTicket := w.nextTicket + 1)
      else w.(dropped := w.dropped + {(i.target, snap)})
    case Lifecycle(op) =>
      var w1 := w.(busy := Commanding(op, i.target, session, false));
      if op == Unload then w1.(installers := w1.installers - {i.target}, retired := w1.retired - {i.target}) else w1
  }

  /** The worker's current job is for the current child. */
  predicate Live(d: State) {
    !d.wk.busy.Idle? && d.sh.current == Some(d.wk.busy.session)
  }

  /** A registration, a rebind token or a queued Register keeps a subject's counter. */
  predicate Reserved(h: Shared, s: Subject) {
    s in h.fences || s in h.rebinds ||
    exists i <- h.queue :: i.target.subj == s && i.job == Lifecycle(Register) && (i.epoch.None? || i.epoch == h.current)
  }

  predicate CountersInRange(w: Worker) {
    forall s <- w.counters :: w.counters[s] < |w.cells|
  }

  /** The subject's counter is kept across its generations and started at zero. */
  function WithCounter(w: Worker, s: Subject): (w': Worker)
    requires CountersInRange(w)
    ensures CountersInRange(w') && s in w'.counters
  {
    if s in w.counters then w
    else w.(cells := w.cells + [Cell(s, 0)], counters := w.counters[s := |w.cells|])
  }

  /** What the worker does once the outcome of a lifecycle command is known. */
  function Concluded(d: State, ok: bool, built: bool): State
    requires d.wk.busy.Commanding? && CountersInRange(d.wk)
  {
    var t := d.wk.busy.target;
    var h, w := d.sh, d.wk.(busy := Idle);
    if !Live(d) then State(h, w)
    else if d.wk.busy.op == Unload then
      State(h, if ok && !Reserved(h, t.subj) then w.(counters := w.counters - {t.subj}) else w)
    else if !ok then
      State(h.(queue := Without(h.queue, t)),
            w.(installers := w.installers - {t}, retired := w.retired + {t}, dropped := w.dropped + Drops(h.queue, t)))
    else if t in w.installers then State(h, w)
    else
      var w1 := WithCounter(w, t.subj);
      var cell := w1.counters[t.subj];
      if built then
        State(h, w1.(retired := w.retired - {t}, installers := w.installers[t := Installer(w1.cells[cell].value, 0, cell)]))
      else
        State(h.(queue := if Registered(h, t) then Without(h.queue, t) else h.queue),
              w1.(retired := w.retired + {t}, dropped := if Registered(h, t) then w.dropped + Drops(h.queue, t) else w.dropped))
  }

  function Command(w: Worker): Wire
    requires w.busy.Commanding?
  {
    Sent(w.busy.session, w.lastSeq + 1, w.busy.op, w.busy.target)
  }

  /** Put the taken command on the wire under the next sequence number. */
  function OnWire(w: Worker): Worker
    requires w.busy.Commanding?
  {
    w.(busy := w.busy.(sent := true), wire := w.wire + [Command(w)],
       unsent := if w.busy.op == Unload then w.unsent - {w.busy.target} else w.unsent)
  }

  /** A used-up sequence, or a context that ended first, fails the command before it is sent. */
  function GivenUp(w: Worker): Worker
    requires w.busy.Commanding?
  {
    w.(unsent := if w.busy.op == Unload then w.unsent + {w.busy.target} else w.unsent)
  }

  function Send(d: State, expired: bool): State
    requires d.wk.busy.Commanding? && CountersInRange(d.wk)
  {
    if expired || d.wk.lastSeq == MAX_INT64 then Concluded(d.(wk := GivenUp(d.wk)), false, false)
    else d.(wk := OnWire(d.wk))
  }

  /** Reconciling an unanswered command may put the same frozen command on the wire again. */
  function Resend(d: State): State
    requires d.wk.busy.Commanding?
  {
    d.(wk := OnWire(d.wk))
  }

  /** A matching receipt consumes the sequence number, whatever its verdict. */
  function Received(w: Worker, ok: bool): Worker
    requires w.busy.Commanding?
  {
    w.(lastSeq := w.lastSeq + 1, wire := w.wire + [Receipt(w.busy.session, w.lastSeq + 1, w.busy.op, w.busy.target, ok)])
  }

  function Answer(d: State, ok: bool, built: bool): State
    requires d.wk.busy.Commanding? && CountersInRange(d.wk)
  {
    Concluded(d.(wk := Received(d.wk, ok)), ok, built)
  }

  /** The child was replaced or the drain is shutting down: drop whatever was in flight. */
  function Abandon(d: State): State {
    d.(wk := d.wk.(busy := Idle))
  }

  datatype Attempt =
    | Invalid                     // refused by the coordinator before anything was allocated
    | NotSent                     // the context ended before anything was allocated
    | Done(how: Settlement)       // resolved within this call
    | Unresolved                  // only reconciliation of this exact attempt may follow

  /** A further apply is allowed while the intent is wanted and no successor is queued for its generation. */
  predicate MayRetry(d: State, i: Intent) {
    Live(d) && Registered(d.sh, i.target) &&
    !exists q <- d.sh.queue :: q.job.Install? && q.target == i.target && q.epoch == i.epoch
  }

  function GivenUpSnaps(i: Intent): set<(Target, Snapshot)> {
    if i.job.Install? then {(i.target, i.job.snap)} else {}
  }

  function SnapOf(i: Intent): Snapshot {
    if i.job.Install? then i.job.snap else Snapshot("", 0, 0)
  }

  /** A confirmed rejection retires the target until a newly confirmed Register. */
  function Terminal(d: State): State
    requires d.wk.busy.Installing?
  {
    var t := d.wk.busy.intent.target;
    State(if Live(d) then d.sh.(queue := Without(d.sh.queue, t)) else d.sh,
          d.wk.(busy := Idle, installers := d.wk.installers - {t}, retired := d.wk.retired + {t},
                dropped := d.wk.dropped + GivenUpSnaps(d.wk.busy.intent) + if Live(d) then Drops(d.sh.queue, t) else {}))
  }

  function AfterAbort(d: State): State
    requires d.wk.busy.Installing?
  {
    d.(wk := d.wk.(busy := if MayRetry(d, d.wk.busy.intent) then d.wk.busy.(phase := Again) else Idle))
  }

  function Resolve(d: State, how: Settlement, value: int): State
    requires d.wk.busy.Installing?
  {
    var b := d.wk.busy;
    var d1 := d.(wk := d.wk.(wire := d.wk.wire + [Settled(b.session, b.intent.target, b.ticket, value, how, SnapOf(b.intent))]));
    match how
    case Committed => d1.(wk := d1.wk.(busy := Idle))
    case Rejected => Terminal(d1)
    case Aborted => AfterAbort(d1)
  }

  /** The wire epoch of a coordinator-local epoch, and back. */
  function ToWire(base: int, local: int): int { base + local }
  function ToLocal(base: int, value: int): int { if value <= base then 0 else value - base }

  predicate InstallerInPlace(w: Worker) {
    w.busy.Installing? && w.busy.intent.target in w.installers && w.installers[w.busy.intent.target].cell < |w.cells|
  }

  /** Allocate the next epoch, mirror it into the counter and put the prepare on the wire. */
  function Prepared(w: Worker): Worker
    requires InstallerInPlace(w)
  {
    var t := w.busy.intent.target;
    var m := w.installers[t];
    var value := ToWire(m.base, m.local + 1);
    w.(installers := w.installers[t := m.(local := m.local + 1)],
       cells := w.cells[m.cell := w.cells[m.cell].(value := value)],
       busy := w.busy.(phase := Outstanding),
       wire := w.wire + [Prepare(w.busy.session, t, w.busy.ticket, m.cell, value)])
  }

  function Apply(d: State, a: Attempt): State
    requires InstallerInPlace(d.wk)
  {
    var m := d.wk.installers[d.wk.busy.intent.target];
    if d.wk.busy.phase.Again? && !MayRetry(d, d.wk.busy.intent) then d.(wk := d.wk.(busy := Idle))
    else if a.Invalid? || m.local == MAX_INT64 then Terminal(d)
    else if a.NotSent? then AfterAbort(d)
    else if m.local + 1 > MAX_INT64 - m.base then Terminal(d)
    else
      var d1 := d.(wk := Prepared(d.wk));
      if a.Done? then Resolve(d1, a.how, ToWire(m.base, m.local + 1)) else d1
  }

  /** Resolve the one outstanding attempt; `None` leaves it outstanding. */
  function Reconcile(d: State, how: Option<Settlement>): State
    requires InstallerInPlace(d.wk)
  {
    var m := d.wk.installers[d.wk.busy.intent.target];
    if how.None? then d else Resolve(d, how.value, ToWire(m.base, m.local))
  }

  /* ---- runs ---- */

  datatype Event =
    | Recorded(t: Target, op: Op)
    | Retained(t: Target, snap: Snapshot)
    | Published(order: seq<Subject>)
    | Detached(session: nat)
    | Rebinding(s: Subject, on: bool)
    | Taking
    | Sending(expired: bool)
    | Resending
    | Answering(ok: bool, built: bool)
    | Abandoning
    | Applying(a: Attempt)
    | Reconciling(how: Option<Settlement>)

  /** When an event can happen. */
  ghost predicate Enabled(d: State, e: Event) {
    match e
    case Recorded(_, _) => true
    case Retained(_, _) => true
    case Published(order) => Enumerates(order, d.sh.fences.Keys)
    case Detached(_) => true
    case Rebinding(_, _) => true
    case Taking => d.wk.busy.Idle?
    case Sending(_) => d.wk.busy.Commanding? && !d.wk.busy.sent && Live(d)
    case Resending => d.wk.busy.Commanding? && d.wk.busy.sent
    case Answering(_, _) => d.wk.busy.Commanding? && d.wk.busy.sent
    case Abandoning => !d.wk.busy.Idle? && !Live(d)
    case Applying(_) => d.wk.busy.Installing? && !d.wk.busy.phase.Outstanding? && Live(d)
    case Reconciling(_) => d.wk.busy.Installing? && d.wk.busy.phase.Outstanding?
  }

  ghost predicate Enumerates(order: seq<Subject>, keys: set<Subject>) {
    (forall s <- order :: s in keys) && (forall s <- keys :: s in order) && NoRepeats(order)
  }

  ghost predicate NoRepeats(order: seq<Subject>) {
    order == [] || (order[|order| - 1] !in order[..|order| - 1] && NoRepeats(order[..|order| - 1]))
  }
}
