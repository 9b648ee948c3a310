/**
What the wire may look like, and the invariant that ties the worker's bookkeeping to it.
*/
module DrainInvariant {
  import opened Basics
  import opened Drain

  /* ---- reading the wire ---- */

  /** In session `e`, target `t` has a confirmed Register and no Unload was sent since. */
  ghost predicate Known(w: seq<Wire>, e: nat, t: Target) {
    if w == [] then false
    else
      var x := w[|w| - 1];
      if x.Receipt? && x.session == e && x.op == Register && x.target == t && x.ok then true
      else if x.Sent? && x.session == e && x.op == Unload && x.target == t then false
      else Known(w[..|w| - 1], e, t)
  }

  /** The lifecycle commands of session `e` that were sent and not yet answered. */
  ghost function Unanswered(w: seq<Wire>, e: nat): set<int> {
    if w == [] then {}
    else
      var x := w[|w| - 1];
      var r := Unanswered(w[..|w| - 1], e);
      if x.Sent? && x.session == e then r + {x.seqno}
      else if x.Receipt? && x.session == e then r - {x.seqno}
      else r
  }

  /** The (ticket, wire epoch) attempts prepared for `t` in session `e` whose fate is not settled. */
  ghost function Unsettled(w: seq<Wire>, e: nat, t: Target): set<(nat, int)> {
    if w == [] then {}
    else
      var x := w[|w| - 1];
      var r := Unsettled(w[..|w| - 1], e, t);
      if x.Prepare? && x.session == e && x.target == t then r + {(x.ticket, x.value)}
      else if x.Settled? && x.session == e && x.target == t then r - {(x.ticket, x.value)}
      else r
  }

  /** How the last settled attempt of one install intent ended. */
  ghost function Verdict(w: seq<Wire>, ticket: nat): Option<Settlement> {
    if w == [] then None
    else if w[|w| - 1].Settled? && w[|w| - 1].ticket == ticket then Some(w[|w| - 1].how)
    else Verdict(w[..|w| - 1], ticket)
  }

  /** A ticket belongs to one target in one session. */
  ghost predicate TicketOf(w: seq<Wire>, ticket: nat, e: nat, t: Target) {
    forall x <- w :: x.Prepare? && x.ticket == ticket ==> x.session == e && x.target == t
  }

  /** The highest wire epoch prepared through one counter. */
  ghost function Highest(w: seq<Wire>, cell: nat): int {
    if w == [] then 0
    else
      var r := Highest(w[..|w| - 1], cell);
      var x := w[|w| - 1];
      if x.Prepare? && x.cell == cell && x.value > r then x.value else r
  }

  /** `x` may follow `w`. */
  ghost predicate MayFollow(w: seq<Wire>, x: Wire) {
    match x
    case Sent(e, n, _, _) => Unanswered(w, e) <= {n}
    case Receipt(e, n, _, _, _) => Unanswered(w, e) == {n}
    case Prepare(e, t, k, c, v) =>
      && Known(w, e, t)
      && Unsettled(w, e, t) == {}
      && Verdict(w, k) in {None, Some(Aborted)}
      && TicketOf(w, k, e, t)
      && Highest(w, c) < v <= MAX_INT64
    case Settled(e, t, k, v, _, _) => (k, v) in Unsettled(w, e, t)
  }

  ghost predicate Safe(w: seq<Wire>) {
    forall i :: 0 <= i < |w| ==> MayFollow(w[..i], w[i])
  }

  /* ---- the invariant ---- */

  ghost predicate OneInstallEach(q: seq<Intent>) {
    q == [] || (OneInstallEach(q[1..]) && (q[0].job.Install? ==> forall i <- q[1..] :: !IsInstall(i, q[0].target.subj)))
  }

  /** Every queued intent is for the current child; installs are for registered generations, one per subject. */
  ghost predicate QueueInv(h: Shared) {
    && (forall i <- h.queue :: i.epoch == h.current)
    && (forall i <- h.queue :: i.job.Install? ==> Registered(h, i.target))
    && OneInstallEach(h.queue)
    && h.snapshots.Keys <= h.fences.Keys
    && |h.snapshots| <= MAX_SUBJECTS
  }

  /** Sessions are never reused, and the wire of a child the worker has not adopted yet is empty. */
  ghost predicate SessionInv(current: Option<nat>, next: nat, w: Worker) {
    && (current.Some? ==> current.value < next)
    && (w.owner.Some? ==> w.owner.value < next)
    && (forall x <- w.wire :: x.session < next)
    && (current.Some? && w.owner != current ==> forall x <- w.wire :: x.session != current.value)
    && (!w.busy.Idle? ==> w.owner == Some(w.busy.session))
  }

  /** Counters hold the highest epoch they ever put on the wire, and every installer is level with its counter. */
  ghost predicate CounterInv(counters: map<Subject, nat>, cells: seq<Cell>, ins: map<Target, Installer>, wire: seq<Wire>) {
    && (forall s <- counters :: counters[s] < |cells| && cells[counters[s]].subj == s)
    && (forall c :: 0 <= c < |cells| ==> 0 <= cells[c].value == Highest(wire, c) <= MAX_INT64)
    && (forall x <- wire :: x.Prepare? ==> x.cell < |cells|)
    && (forall t <- ins :: LevelWithCell(cells, ins[t], t.subj))
  }

  ghost predicate LevelWithCell(cells: seq<Cell>, m: Installer, s: Subject) {
    m.cell < |cells| && 0 <= m.base && 0 <= m.local && cells[m.cell] == Cell(s, m.base + m.local)
  }

  /** Only known, unretired targets have installers. */
  ghost predicate InstallerInv(owner: Option<nat>, ins: map<Target, Installer>, retired: set<Target>, wire: seq<Wire>) {
    forall t <- ins :: owner.Some? && Known(wire, owner.value, t) && t !in retired
  }

  /** A command in flight fits the sequence, and an Unload in flight has no installer left. */
  ghost predicate CommandInv(busy: Busy, lastSeq: int, ins: map<Target, Installer>) {
    && 0 <= lastSeq <= MAX_INT64
    && (busy.Commanding? && busy.sent ==> lastSeq < MAX_INT64)
    && (busy.Commanding? && busy.op == Unload ==> busy.target !in ins)
  }

  /** An install in flight is for the only installer of its subject, and was not decided otherwise than aborted. */
  ghost predicate InstallInv(busy: Busy, nextTicket: nat, ins: map<Target, Installer>, wire: seq<Wire>) {
    && (forall x <- wire :: x.Prepare? || x.Settled? ==> x.ticket < nextTicket)
    && (busy.Installing? ==>
          && busy.intent.target in ins
          && (forall t <- ins :: t.subj == busy.intent.target.subj ==> t == busy.intent.target)
          && busy.ticket < nextTicket
          && TicketOf(wire, busy.ticket, busy.session, busy.intent.target)
          && Verdict(wire, busy.ticket) in {None, Some(Aborted)})
  }

  /** The sequence number the worker is waiting on. */
  ghost function Awaited(busy: Busy, lastSeq: int): set<int> {
    if busy.Commanding? && busy.sent then {lastSeq + 1} else {}
  }

  /** The one attempt the worker is waiting on. */
  ghost function InDoubt(busy: Busy, ins: map<Target, Installer>, t: Target): set<(nat, int)> {
    if busy.Installing? && busy.phase.Outstanding? && busy.intent.target == t && t in ins
    then {(busy.ticket, ins[t].base + ins[t].local)} else {}
  }

  /** While the worker follows the current child, it waits for exactly what its bookkeeping says. */
  ghost predicate AwaitInv(w: Worker, e: nat) {
    && Unanswered(w.wire, e) == Awaited(w.busy, w.lastSeq)
    && forall t: Target :: Unsettled(w.wire, e, t) == InDoubt(w.busy, w.installers, t)
  }

  /** An Unload of `t` is queued, ahead of every queued install of its subject. */
  ghost predicate UnloadAhead(q: seq<Intent>, t: Target) {
    q != [] && (IsCommand(q[0], Unload, t) || (!IsInstall(q[0], t.subj) && UnloadAhead(q[1..], t)))
  }

  /** Targets the worker may still install for. */
  ghost predicate Held(w: Worker, t: Target) {
    t in w.installers || (w.busy.Commanding? && w.busy.op == Register && w.busy.target == t)
  }

  /** A generation that is no longer registered is unloaded before its subject installs anything else. */
  ghost predicate AheadInv(h: Shared, w: Worker) {
    forall t :: Held(w, t) && !Registered(h, t) ==> UnloadAhead(h.queue, t)
  }

  /** A command is somewhere in the queue. */
  ghost predicate Has(q: seq<Intent>, op: Op, t: Target) {
    q != [] && (IsCommand(q[0], op, t) || Has(q[1..], op, t))
  }

  ghost predicate Queued(h: Shared, op: Op, t: Target) {
    Has(h.queue, op, t)
  }

  ghost predicate Underway(w: Worker, op: Op, t: Target) {
    w.busy.Commanding? && w.busy.op == op && w.busy.target == t
  }

  /** What the child knows differs from what is registered only by work still to do. */
  ghost predicate Converges(h: Shared, w: Worker, e: nat, t: Target) {
    && (Registered(h, t) ==>
          || Queued(h, Register, t)
          || (!Underway(w, Unload, t) && (Known(w.wire, e, t) || Underway(w, Register, t) || t in w.retired)))
    && (Known(w.wire, e, t) && !Registered(h, t) ==>
          Queued(h, Unload, t) || (Underway(w, Unload, t) && !w.busy.sent) || t in w.unsent)
  }

  ghost predicate ConvergeInv(h: Shared, w: Worker, e: nat) {
    forall t: Target :: Converges(h, w, e, t)
  }

  /** A child that was published but not adopted yet has been told nothing. */
  ghost predicate ReplayInv(h: Shared) {
    forall t: Target :: Registered(h, t) ==> Queued(h, Register, t)
  }

  /** What holds of the worker alone. */
  ghost predicate LocalInv(w: Worker) {
    && Safe(w.wire)
    && CounterInv(w.counters, w.cells, w.installers, w.wire)
    && InstallerInv(w.owner, w.installers, w.retired, w.wire)
    && CommandInv(w.busy, w.lastSeq, w.installers)
    && InstallInv(w.busy, w.nextTicket, w.installers, w.wire)
  }

  ghost predicate Inv(d: State) {
    var h, w := d.sh, d.wk;
    && QueueInv(h)
    && SessionInv(h.current, h.nextSession, w)
    && LocalInv(w)
    && (w.owner.Some? && (w.owner == h.current || !w.busy.Idle?) ==> AwaitInv(w, w.owner.value))
    && (h.current.Some? && w.owner == h.current ==> AheadInv(h, w) && ConvergeInv(h, w, h.current.value))
    && (h.current.Some? && w.owner != h.current ==> ReplayInv(h))
  }
}
