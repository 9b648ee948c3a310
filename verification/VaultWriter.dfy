/**
The strict owner record and the conditional vault writer of Actions v2, for one subject.

The owner lock serializes actions and initializations with each other and with state writes, so
each request is one step. Owner and vault files are written atomically; a write that was not
confirmed may or may not have landed.
*/
module VaultWriter {
  import opened Basics
  import opened PolicyFiles
  import opened VaultFiles

  const MAX_UINT64: int := 0xffff_ffff_ffff_ffff

  datatype Phase = Active | Retiring | Retired

  function Rank(p: Phase): int {
    match p case Active => 0 case Retiring => 1 case Retired => 2
  }

  datatype Contract = Contract(initialization: string, lineage: string)

  /** A durable owner is named by its full identity; `fence` is the part the runtime registers. */
  datatype Owner = Owner(id: string, fence: Fence)

  datatype OwnerRecord = OwnerRecord(owner: Owner, phase: Phase, contract: Option<Contract>)

  /** What is remembered of the verified file. */
  datatype Slice = Slice(fence: Fence, unknown: bool, protected: bool, verified: bool, sealed: bool, meta: VaultImage)

  datatype Op = SetOp | HookOp | RemoveOp

  /** An action handed to the policy plane, and the durable record under which it was handed over. */
  datatype Dispatch = Dispatch(op: Op, record: Option<OwnerRecord>)

  datatype State = State(
    record: Option<OwnerRecord>,
    file: VaultImage,
    slice: Option<Slice>,
    live: Option<Owner>,         // the owner registered in this process
    published: Option<Fence>,
    latched: bool,
    dispatched: seq<Dispatch>
  )

  function Start(): State { State(None, NoFile, None, None, None, false, []) }

  /* ---- the owner record ---- */

  function Saved(record: Option<OwnerRecord>, next: OwnerRecord, w: Write): Option<OwnerRecord> {
    if w.landed then Some(next) else record
  }

  /** Rewrite the record with a new phase, keeping owner and contract. */
  function WithPhase(record: Option<OwnerRecord>, owner: Owner, phase: Phase): OwnerRecord {
    if record.Some? then record.value.(phase := phase) else OwnerRecord(owner, phase, None)
  }

  datatype ActionOracle = ActionOracle(
    readable: bool,            // the owner record could be read
    clean: bool,               // no live or persistent state without an owner
    save: Write,               // the phase written before the dispatch
    vaultReadable: bool,
    unlink: Unlink,            // removal of the writer's vault file
    reloads: bool,             // the dispatched SET got as far as reloading the vault
    dispatches: bool,          // the policy plane acknowledged
    final: Write               // the retired phase
  )

  predicate HonestAction(o: ActionOracle) {
    HonestSave(o.save) && HonestSave(o.final)
  }

  /** Who may act: a record only for its own owner, and after `active` only to be removed. */
  predicate Admitted(record: Option<OwnerRecord>, op: Op, owner: Owner, clean: bool) {
    if record.None? then op != HookOp && clean
    else record.value.owner == owner && (record.value.phase.Active? || op == RemoveOp)
  }

  /** The file is the one this contract and owner wrote. */
  predicate WriterFile(file: VaultImage, record: OwnerRecord) {
    file.V2? && record.contract == Some(Contract(file.initialization, file.lineage)) && file.fence == record.owner.fence
  }

  /** Remove the credential bytes before the record retires. */
  function RetireVault(st: State, o: ActionOracle): (State, bool)
    requires st.record.Some?
  {
    if st.latched || !o.vaultReadable then (st, false)
    else if st.file.NoFile? then (st.(slice := None), true)
    else if !WriterFile(st.file, st.record.value) then (st, false)
    else if o.unlink.Removed? then (st.(file := NoFile, slice := None), true)
    else if o.unlink.NotTried? then (st, false)
    else (st.(file := if o.unlink.landed then NoFile else st.file, latched := true), false)
  }

  function Hand(st: State, op: Op): State {
    st.(dispatched := st.dispatched + [Dispatch(op, st.record)])
  }

  function Act(st: State, op: Op, owner: Owner, o: ActionOracle): State {
    if !o.readable || !Admitted(st.record, op, owner, o.clean) then st
    else
      match op
      case HookOp => Hand(st, HookOp)
      case SetOp =>
        var st1 := st.(record := Saved(st.record, WithPhase(st.record, owner, Active), o.save));
        if !Confirmed(o.save) then st1
        else
          var st2 := Hand(if o.reloads then Reloaded(st1, owner) else st1, SetOp);
          if o.dispatches then st2.(live := Some(owner), published := Some(owner.fence)) else st2
      case RemoveOp => Remove(st, owner, o)
  }

  /** The strict reload never infers anything from the file: a contract awaits verification. */
  function Reloaded(st: State, owner: Owner): State {
    if st.record.None? || st.record.value.contract.None? then st
    else if st.slice.Some? && st.slice.value.fence == owner.fence && st.slice.value.verified then st
    else st.(slice := Some(Slice(owner.fence, true, true, false, false, NoFile)))
  }

  function Remove(st: State, owner: Owner, o: ActionOracle): State {
    if st.record.Some? && st.record.value.phase.Retired? then st
    else
      var st1 := st.(record := Saved(st.record, WithPhase(st.record, owner, Retiring), o.save));
      if !Confirmed(o.save) then st1
      else if st.record.None? then
        st1.(record := Saved(st1.record, WithPhase(st1.record, owner, Retired), o.final))
      else
        var r := if st.record.value.contract.Some? then RetireVault(st1, o) else (st1, true);
        if !r.1 then r.0
        else
          var st2 := Hand(r.0, RemoveOp);
          if !o.dispatches then st2
          else
            var st3 := st2.(record := Saved(st2.record, WithPhase(st2.record, owner, Retired), o.final), published := None, slice := None);
            if Confirmed(o.final) && st3.live == Some(owner) then st3.(live := None) else st3
  }

  /* ---- initialization ---- */

  datatype InitOracle = InitOracle(
    blocked: bool,             // rebinding, sealed, or a wrong handler incarnation
    emptySource: bool,         // the vault file could be read, and no live credentials exist
    ownerSave: Write, vaultSave: Write, rollback: Write,
    readable: bool, accepts: bool
  )

  predicate HonestInit(o: InitOracle) {
    HonestSave(o.ownerSave) && HonestSave(o.vaultSave) && HonestSave(o.rollback)
  }

  function Unverified(f: Fence): Slice { Slice(f, true, true, false, false, NoFile) }

  /** The caller is the live owner and the durable record is active and its own. */
  predicate WriterAllowed(st: State, owner: Owner) {
    st.live == Some(owner) && st.record.Some? && st.record.value.phase.Active? && st.record.value.owner == owner
  }

  function Initialize(st: State, owner: Owner, c: Contract, grant: bool, o: InitOracle): (State, bool) {
    if !WriterAllowed(st, owner) || st.latched || o.blocked || st.published != Some(owner.fence) then (st, false)
    else if !grant then
      if st.record.value.contract != Some(c) then (st, false) else Verify(st, owner, o)
    else if st.record.value.contract.Some? || !o.emptySource || !st.file.NoFile? then (st, false)
    else
      var before := st.record;
      var st1 := st.(record := Saved(before, before.value.(contract := Some(c)), o.ownerSave));
      if !Confirmed(o.ownerSave) then (st1.(latched := st.latched || !o.ownerSave.state.Unchanged?), false)
      else
        var image := V2(owner.fence, EmptyState, c.lineage, c.initialization, 1, 0);
        var st2 := st1.(file := if o.vaultSave.landed then image else st1.file);
        if Confirmed(o.vaultSave) then Verify(st2, owner, o)
        else if !o.vaultSave.state.Unchanged? then (st2.(latched := true, slice := Some(Unverified(owner.fence))), false)
        else
          var st3 := st2.(record := Saved(st2.record, before.value, o.rollback));
          if Confirmed(o.rollback) then (st3, false)
          else (st3.(latched := st.latched || !o.rollback.state.Unchanged?, slice := Some(Unverified(owner.fence))), false)
  }

  /** Adopt exactly the file that the contract and the owner name. */
  function Verify(st: State, owner: Owner, o: InitOracle): (State, bool)
    requires st.record.Some?
  {
    var st1 := st.(slice := Some(Unverified(owner.fence)));
    if !o.readable || !WriterFile(st.file, st.record.value) || (st.file.state.ActiveState? && !o.accepts) then (st1, false)
    else (st.(slice := Some(Slice(owner.fence, false, true, true, false, st.file))), true)
  }

  /* ---- conditional mutation ---- */

  datatype Token = Token(lineage: string, seqno: int)

  datatype Mutation = Create | Replace | DeleteVault

  datatype MutateOracle = MutateOracle(
    blocked: bool,
    readable: bool,
    prepares: bool,            // the candidate is valid and renders
    rev: int,                  // the public revision of the candidate
    save: Write, applies: bool, restore: Write
  )

  function NextFile(v: VaultImage, m: Mutation, rev: int): VaultImage
    requires v.V2?
  {
    if m.DeleteVault? then v.(seqno := v.seqno + 1, state := DeletedState, rev := 0)
    else v.(seqno := v.seqno + 1, state := ActiveState, rev := rev)
  }

  function Mutate(st: State, owner: Owner, expected: Token, m: Mutation, o: MutateOracle): (State, bool) {
    if !WriterAllowed(st, owner) || st.record.value.contract.None? then (st, false)
    else if st.slice.None? || !st.slice.value.verified || st.slice.value.unknown || st.slice.value.sealed || st.latched || o.blocked then (st, false)
    else
      var s := st.slice.value;
      if !o.readable || !WriterFile(st.file, st.record.value) || st.file != s.meta then
        (st.(slice := Some(s.(verified := false, unknown := true))), false)
      else if expected != Token(st.file.lineage, st.file.seqno) then (st, false)
      else if st.file.seqno == MAX_UINT64 || (m.Replace? && st.file.rev == MAX_INT64) || !o.prepares then (st, false)
      else
        var next := NextFile(st.file, m, o.rev);
        if NoEffect(o.save) then (st, false)
        else
          var st1 := st.(file := if o.save.landed then next else st.file);
          var back := st1.(file := if o.restore.landed then st.file else st1.file);
          if !Confirmed(o.save) then (back.(latched := true), false)
          else if o.applies then (st1.(slice := Some(s.(meta := next))), true)
          else (back.(latched := !Confirmed(o.restore)), false)
  }

  /** A verified slice does not outlive an owner record that cannot be read. */
  function LoseOwner(st: State, owner: Owner): State {
    if st.live == Some(owner) && st.slice.Some? && st.slice.value.fence == owner.fence && st.published == Some(owner.fence) && st.slice.value.verified
    then st.(slice := Some(st.slice.value.(verified := false, unknown := true))) else st
  }

  /** A v1 relay write, open only while no contract selects the conditional writer. */
  function RelayV1(st: State, owner: Owner, image: VaultImage): State {
    if WriterAllowed(st, owner) && st.record.value.contract.None? && (image.V1? || image.NoFile?) && !st.latched && Version(st.file) < VERSION_2
    then st.(file := image) else st
  }

  /* ---- runs ---- */

  datatype Event =
    | Acting(op: Op, owner: Owner, action: ActionOracle)
    | Initializing(owner: Owner, c: Contract, grant: bool, init: InitOracle)
    | Mutating(owner: Owner, expected: Token, m: Mutation, mutate: MutateOracle)
    | LosingOwner(owner: Owner)
    | Relaying(owner: Owner, image: VaultImage)
    | Restarting

  predicate Enabled(e: Event) {
    match e
    case Acting(_, _, o) => HonestAction(o)
    case Initializing(_, _, _, o) => HonestInit(o)
    case Mutating(_, _, _, o) => HonestSave(o.save) && HonestSave(o.restore)
    case _ => true
  }

  function Step(st: State, e: Event): State {
    if !Enabled(e) then st
    else
      match e
      case Acting(op, owner, o) => Act(st, op, owner, o)
      case Initializing(owner, c, grant, o) => Initialize(st, owner, c, grant, o).0
      case Mutating(owner, expected, m, o) => Mutate(st, owner, expected, m, o).0
      case LosingOwner(owner) => LoseOwner(st, owner)
      case Relaying(owner, image) => RelayV1(st, owner, image)
      case Restarting => State(st.record, st.file, None, None, None, false, st.dispatched)
  }

  function Run(es: seq<Event>): State {
    if es == [] then Start() else Step(Run(es[..|es| - 1]), es[|es| - 1])
  }
}
