/**
Owner records only move forward, contracts are kept, and every acknowledged vault mutation
replaces exactly the state it was conditioned on.
*/
module VaultWriterProofs {
  import opened Basics
  import opened PolicyFiles
  import opened VaultFiles
  import opened VaultWriter

  /* ---- the invariant ---- */

  /** A v2 file is the one its record's contract and owner name. */
  predicate FileInv(record: Option<OwnerRecord>, file: VaultImage) {
    && (file.V2? ==> record.Some? && WriterFile(file, record.value) && 1 <= file.seqno <= MAX_UINT64)
    && (record.Some? && record.value.phase.Retired? && record.value.contract.Some? ==> file.NoFile?)
  }

  /** A verified slice remembers a v2 file; a protected one is unknown or verified. */
  predicate SliceInv(slice: Option<Slice>) {
    slice.Some? ==>
      && (slice.value.verified ==> slice.value.meta.V2? && !slice.value.unknown)
      && (slice.value.protected ==> slice.value.unknown || slice.value.meta.V2?)
  }

  /** Actions are handed over under a durable record; REMOVE while it is retiring, the others while it is active. */
  predicate DispatchInv(log: seq<Dispatch>) {
    forall d <- log :: d.record.Some? && d.record.value.phase == if d.op.RemoveOp? then Retiring else Active
  }

  predicate Inv(st: State) {
    FileInv(st.record, st.file) && SliceInv(st.slice) && DispatchInv(st.dispatched)
  }

  lemma RemoveKeeps(st: State, owner: Owner, o: ActionOracle)
    requires Inv(st) && HonestAction(o) && Admitted(st.record, RemoveOp, owner, o.clean)
    ensures Inv(Remove(st, owner, o))
  {
    RemoveHands(st, owner, o);
    hide DispatchInv;
  }

  lemma RemoveHands(st: State, owner: Owner, o: ActionOracle)
    requires DispatchInv(st.dispatched) && HonestAction(o)
    ensures DispatchInv(Remove(st, owner, o).dispatched)
  {
    var d := Dispatch(RemoveOp, Some(WithPhase(st.record, owner, Retiring)));
    assert DispatchInv(st.dispatched + [d]);
    hide DispatchInv;
  }

  lemma ActKeeps(st: State, op: Op, owner: Owner, o: ActionOracle)
    requires Inv(st) && HonestAction(o)
    ensures Inv(Act(st, op, owner, o))
  {
    if op.RemoveOp? && o.readable && Admitted(st.record, op, owner, o.clean) { RemoveKeeps(st, owner, o); }
    hide Remove;
  }

  lemma InitializeKeeps(st: State, owner: Owner, c: Contract, grant: bool, o: InitOracle)
    requires Inv(st) && HonestInit(o)
    ensures Inv(Initialize(st, owner, c, grant, o).0)
  {
  }

  lemma MutateKeeps(st: State, owner: Owner, expected: Token, m: Mutation, o: MutateOracle)
    requires Inv(st) && HonestSave(o.save) && HonestSave(o.restore)
    ensures Inv(Mutate(st, owner, expected, m, o).0)
  {
  }

  lemma StepKeeps(st: State, e: Event)
    requires Inv(st)
    ensures Inv(Step(st, e))
  {
    hide Act, Initialize, Mutate;
    match e
    case Acting(op, owner, o) => if HonestAction(o) { ActKeeps(st, op, owner, o); }
    case Initializing(owner, c, grant, o) => if HonestInit(o) { InitializeKeeps(st, owner, c, grant, o); }
    case Mutating(owner, expected, m, o) => if HonestSave(o.save) && HonestSave(o.restore) { MutateKeeps(st, owner, expected, m, o); }
    case _ =>
  }

  lemma {:induction false} RunKeeps(es: seq<Event>)
    ensures Inv(Run(es))
  {
    if es != [] {
      RunKeeps(es[..|es| - 1]);
      StepKeeps(Run(es[..|es| - 1]), es[|es| - 1]);
    }
  }

  /* ---- the owner record over runs ---- */

  /** The record may appear; after that its owner and contract stay and its phase only moves forward. */
  predicate Advances(r: Option<OwnerRecord>, r': Option<OwnerRecord>) {
    r.Some? ==>
      && r'.Some? && r'.value.owner == r.value.owner
      && Rank(r.value.phase) <= Rank(r'.value.phase)
      && (r.value.contract.Some? ==> r'.value.contract == r.value.contract)
  }

  lemma ActAdvances(st: State, op: Op, owner: Owner, o: ActionOracle)
    ensures Advances(st.record, Act(st, op, owner, o).record)
  {
  }

  lemma InitializeAdvances(st: State, owner: Owner, c: Contract, grant: bool, o: InitOracle)
    ensures Advances(st.record, Initialize(st, owner, c, grant, o).0.record)
  {
  }

  lemma StepAdvances(st: State, e: Event)
    ensures Advances(st.record, Step(st, e).record)
  {
    match e
    case Acting(op, owner, o) => ActAdvances(st, op, owner, o);
    case Initializing(owner, c, grant, o) => InitializeAdvances(st, owner, c, grant, o);
    case _ =>
    hide Act, Initialize;
  }

  lemma {:induction false} RunSplits(before: seq<Event>, after: seq<Event>)
    ensures Advances(Run(before).record, Run(before + after).record)
  {
    hide Step;
    if after == [] {
      assert before + after == before;
    } else {
      var n := |after| - 1;
      RunSplits(before, after[..n]);
      assert (before + after)[..|before| + n] == before + after[..n];
      StepAdvances(Run(before + after[..n]), after[n]);
    }
  }

  /** A durable owner never changes and its phase only moves from active to retiring to retired. */
  lemma OwnerIsForever(before: seq<Event>, after: seq<Event>)
    requires Run(before).record.Some?
    ensures var r, r' := Run(before).record.value, Run(before + after).record;
      r'.Some? && r'.value.owner == r.owner && Rank(r.phase) <= Rank(r'.value.phase)
  {
    RunSplits(before, after);
  }

  /** Once an initialization grant is durable it stays, so no second fresh initialization is ever admitted. */
  lemma GrantConsumedOnce(before: seq<Event>, after: seq<Event>, owner: Owner, c: Contract, o: InitOracle)
    requires Run(before).record.Some? && Run(before).record.value.contract.Some?
    ensures var st := Run(before + after);
      && st.record.Some? && st.record.value.contract == Run(before).record.value.contract
      && Initialize(st, owner, c, true, o) == (st, false)
  {
    RunSplits(before, after);
  }

  /**
  A consumed grant becomes available again exactly when no file was published and the rollback of the
  owner record landed; a rollback that landed without being confirmed latches recovery.
  */
  lemma GrantReturned(st: State, owner: Owner, c: Contract, o: InitOracle)
    requires HonestInit(o) && WriterAllowed(st, owner) && !st.latched && !o.blocked && st.published == Some(owner.fence)
    requires st.record.value.contract.None? && o.emptySource && st.file.NoFile? && Confirmed(o.ownerSave)
    ensures var r := Initialize(st, owner, c, true, o).0;
      && r.record.Some?
      && (r.record.value.contract.None? <==> o.vaultSave.state.Unchanged? && o.rollback.landed)
      && (r.record.value.contract.None? ==> r.file.NoFile? && (Confirmed(o.rollback) || r.latched))
  {
  }

  /** Every action of a run was dispatched under a durable record in the phase that admits it. */
  lemma DispatchedUnderOwner(es: seq<Event>, i: nat)
    requires i < |Run(es).dispatched|
    ensures var d := Run(es).dispatched[i];
      d.record.Some? && d.record.value.phase == if d.op.RemoveOp? then Retiring else Active
  {
    RunKeeps(es);
    assert Run(es).dispatched[i] in Run(es).dispatched;
  }

  lemma StepDispatches(st: State, e: Event)
    ensures var log, log' := st.dispatched, Step(st, e).dispatched;
      || log' == log
      || (|log'| == |log| + 1 && log'[..|log|] == log &&
          (st.record.Some? && !st.record.value.phase.Active? ==> log'[|log|].op.RemoveOp?))
  {
    match e
    case Acting(op, owner, o) => ActDispatches(st, op, owner, o);
    case _ =>
    hide Act;
  }

  lemma ActDispatches(st: State, op: Op, owner: Owner, o: ActionOracle)
    ensures var log, log' := st.dispatched, Act(st, op, owner, o).dispatched;
      log' == log || exists d :: log' == log + [d] && (st.record.Some? && !st.record.value.phase.Active? ==> d.op.RemoveOp?)
  {
  }

  /** Once the durable record has left `active`, whatever runs, nothing but REMOVE is dispatched. */
  lemma {:induction false} OnlyRemoveAfterActive(before: seq<Event>, after: seq<Event>)
    requires Run(before).record.Some? && !Run(before).record.value.phase.Active?
    ensures var log, log' := Run(before).dispatched, Run(before + after).dispatched;
      |log| <= |log'| && log'[..|log|] == log && forall i :: |log| <= i < |log'| ==> log'[i].op.RemoveOp?
  {
    hide Step;
    if after == [] {
      assert before + after == before;
    } else {
      var n := |after| - 1;
      OnlyRemoveAfterActive(before, after[..n]);
      RunSplits(before, after[..n]);
      assert (before + after)[..|before| + n] == before + after[..n];
      StepDispatches(Run(before + after[..n]), after[n]);
    }
  }

  /** A retired record that ever had a contract has no vault file left. */
  lemma RetiredLeavesNoVault(es: seq<Event>)
    requires var r := Run(es).record; r.Some? && r.value.phase.Retired? && r.value.contract.Some?
    ensures Run(es).file.NoFile?
  {
    RunKeeps(es);
  }

  /** A published v2 file has a matching owner and contract, in every reachable state. */
  lemma PublishedFileHasContract(es: seq<Event>)
    requires Run(es).file.V2?
    ensures var st := Run(es);
      && st.record.Some? && st.record.value.owner.fence == st.file.fence
      && st.record.value.contract == Some(Contract(st.file.initialization, st.file.lineage))
  {
    RunKeeps(es);
  }

  /* ---- a grant that was returned ---- */

  const OWNER := Owner("owner-1", Fence("runtime-1", "attachment-1"))
  const WRITTEN := Write(Committed, false, true, true, false)
  const FAILED := Write(Unchanged, true, false, false, false)
  const TORN := Write(Unknown, true, true, true, false)
  const BINDS := Acting(SetOp, OWNER, ActionOracle(true, true, WRITTEN, true, Removed, true, true, WRITTEN))
  const GRANTS := InitOracle(false, true, WRITTEN, WRITTEN, WRITTEN, true, true)

  /** The owner record was rolled back, which nothing confirmed; the process restarts and its owner binds again. */
  function Regranted(): State {
    var first := Initializing(OWNER, Contract("init-1", "lineage-1"), true, GRANTS.(vaultSave := FAILED, rollback := TORN));
    Step(Step(Step(Step(Start(), BINDS), first), Restarting), BINDS)
  }

  /** The rollback was never confirmed, yet a second fresh initialization is granted, under another contract. */
  lemma UnconfirmedRollbackRegrants()
    ensures var c := Contract("init-2", "lineage-2");
      var r := Initialize(Regranted(), OWNER, c, true, GRANTS);
      r.1 && r.0.record.Some? && r.0.record.value.contract == Some(c)
  {
    var first := Initializing(OWNER, Contract("init-1", "lineage-1"), true, GRANTS.(vaultSave := FAILED, rollback := TORN));
    var a := Step(Start(), BINDS);
    assert a.record == Some(OwnerRecord(OWNER, Active, None)) && a.live == Some(OWNER) && a.published == Some(OWNER.fence);
    var b := Step(a, first);
    assert b.record == a.record && b.file.NoFile? && b.latched;
  }

  /* ---- conditional mutation ---- */

  /** An acknowledged mutation named the exact current state and moves it on by one, without wrapping. */
  lemma MutationIsConditional(es: seq<Event>, owner: Owner, expected: Token, m: Mutation, o: MutateOracle)
    requires HonestSave(o.save) && HonestSave(o.restore) && Mutate(Run(es), owner, expected, m, o).1
    ensures var st, st' := Run(es), Mutate(Run(es), owner, expected, m, o).0;
      && st.file.V2? && expected == Token(st.file.lineage, st.file.seqno)
      && st'.file.V2? && st'.file.lineage == st.file.lineage && st'.file.initialization == st.file.initialization
      && st'.file.seqno == st.file.seqno + 1 <= MAX_UINT64
      && st'.slice.Some? && st'.slice.value.meta == st'.file && st'.record == st.record && !st'.latched
  {
    RunKeeps(es);
  }

  /** Without the latch, a mutation that is not acknowledged leaves the file as it was. */
  lemma RefusedMutationKeepsFile(st: State, owner: Owner, expected: Token, m: Mutation, o: MutateOracle)
    requires HonestSave(o.save) && HonestSave(o.restore) && !Mutate(st, owner, expected, m, o).1
    requires !Mutate(st, owner, expected, m, o).0.latched
    ensures Mutate(st, owner, expected, m, o).0.file == st.file
  {
  }

  /** Within one lineage the sequence never goes back, whatever succeeds, fails, restarts or is retried. */
  predicate NotBehind(v: VaultImage, v': VaultImage) {
    v.V2? && v'.V2? ==> v'.lineage == v.lineage && v'.initialization == v.initialization && v.seqno <= v'.seqno
  }

  lemma StepSequence(st: State, e: Event)
    requires Inv(st)
    ensures NotBehind(st.file, Step(st, e).file)
    ensures st.record.Some? && st.record.value.contract.Some? && !st.file.V2? ==> !Step(st, e).file.V2?
  {
  }

  /** As long as a v2 file is there it keeps its lineage, and its sequence never goes back. */
  lemma {:induction false} SequenceOverRuns(before: seq<Event>, after: seq<Event>)
    requires Run(before).file.V2?
    ensures var v, v' := Run(before).file, Run(before + after).file;
      v'.V2? ==> v'.lineage == v.lineage && v'.initialization == v.initialization && v.seqno <= v'.seqno
    ensures Run(before + after).record.Some? && Run(before + after).record.value.contract.Some?
  {
    PublishedFileHasContract(before);
    RunSplits(before, after);
    if after == [] {
      assert before + after == before;
    } else {
      var n := |after| - 1;
      SequenceOverRuns(before, after[..n]);
      assert (before + after)[..|before| + n] == before + after[..n];
      RunKeeps(before + after[..n]);
      StepSequence(Run(before + after[..n]), after[n]);
    }
  }

  /** Two acknowledged mutations never name the same token. */
  lemma TokensAreSpent(before: seq<Event>, owner: Owner, expected: Token, m: Mutation, o: MutateOracle,
                       after: seq<Event>, owner': Owner, m': Mutation, o': MutateOracle)
    requires HonestSave(o.save) && HonestSave(o.restore) && Mutate(Run(before), owner, expected, m, o).1
    ensures !Mutate(Run(before + [Mutating(owner, expected, m, o)] + after), owner', expected, m', o').1
  {
    var mid := before + [Mutating(owner, expected, m, o)];
    assert mid[..|mid| - 1] == before;
    MutationIsConditional(before, owner, expected, m, o);
    SequenceOverRuns(mid, after);
  }
}
