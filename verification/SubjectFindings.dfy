/**
Where the policy server falls short of its own description, each with the exact condition.
*/
module SubjectFindings {
  import opened Basics
  import opened PolicyFiles
  import opened SubjectPlane
  import opened SubjectRecord
  import opened SubjectCrash
  import opened SubjectSeal
  import SubjectRebind

  /* ---- a failed import can drop the live record ---- */

  /** An import reached the durable write on a subject that has a record but no published fence. */
  predicate LandsUnderRecord(st: State, f: Fence, rev: int, o: WriteOracle) {
    && st.s.token.None? && st.s.fence.None? && st.s.entry.Some? && !Superseded(st.s, f, rev, o.compares)
    && o.encodes && o.snapshots && Confirmed(o.save)
  }

  /** A failed import without the latch leaves the record alone exactly when it did not land under one. */
  lemma FailedImportKeepsRecord(st: State, f: Fence, rev: int, pol: Pol, o: WriteOracle)
    requires HonestWrite(o) && !Import(st, f, rev, pol, o).ack && !Import(st, f, rev, pol, o).st.latched
    ensures Import(st, f, rev, pol, o).st.s.entry == st.s.entry <==> !LandsUnderRecord(st, f, rev, o)
  {
  }

  /* ---- a removed policy can come back ---- */

  /** A failed clear latches exactly when it went as far as a tombstone write that may have touched the file. */
  lemma ClearLatchesExactly(s: Slot, o: SetOracle)
    requires !ClearRecord(s, false, o).ack
    ensures ClearRecord(s, false, o).st.latched <==>
              s.entry.Some? && o.encodes && s.entry.value.rev < MAX_INT64 && o.snapshots && !NoEffect(o.save)
    ensures !ClearRecord(s, false, o).st.latched ==> ClearRecord(s, false, o).st.s.disk == Purged(s.disk, o.clear)
    ensures ClearRecord(s, false, o).st.s.entry.None?
  {
    hide Purged;
  }

  /** The slot whose record a removal goes on to clear. */
  function BeforeClear(st: State, b: Binding, o: SetOracle): Slot
    requires Admissible(st.s, b, o)
  {
    PublishFence(Register(SubjectRebind.BeforeRegister(st, b, o), b.fence, Attachment(st.s, b).value.ip, o).s, b.fence)
  }

  /** The removal got as far as clearing the record, and that failed. */
  predicate FailsToClear(st: State, b: Binding, o: SetOracle) {
    && b.removal && Admissible(st.s, b, o)
    && Cleanup(st.s.(token := Intent(st.s, b.fence, Attachment(st.s, b).value)), o).ok
    && Register(SubjectRebind.BeforeRegister(st, b, o), b.fence, Attachment(st.s, b).value.ip, o).ok
    && !ClearRecord(BeforeClear(st, b, o).(pending := None), st.latched, o).ack
  }

  lemma FailedClear(st: State, b: Binding, o: SetOracle)
    requires SubjectRebind.Inv(st.s) && st.s.removing.None? && b.fence != NO_FENCE && FailsToClear(st, b, o)
    ensures Set(st, b, o) == ClearRecord(BeforeClear(st, b, o).(pending := None), st.latched, o)
    ensures Unrecorded(Set(st, b, o).st.s, b.fence)
  {
    var att := Attachment(st.s, b).value;
    SubjectRebind.BeforeRegisterCleaned(st, b, o);
    SubjectRebind.RegisterKeeps(SubjectRebind.BeforeRegister(st, b, o), b.fence, att, o);
    hide Cleanup, Register, Intent, Attachment, Commits, Purged;
  }

  /** One removal of a sequence of attempts. */
  datatype Attempt = Attempt(b: Binding, o: SetOracle)

  function Attempted(st: State, rs: seq<Attempt>): State {
    if rs == [] then st else Set(Attempted(st, rs[..|rs| - 1]), rs[|rs| - 1].b, rs[|rs| - 1].o).st
  }

  /** Every one of them got as far as clearing the record, failed to, and did not latch. */
  predicate AllFail(st: State, f: Fence, rs: seq<Attempt>) {
    rs == [] ||
    var before, r := Attempted(st, rs[..|rs| - 1]), rs[|rs| - 1];
    && AllFail(st, f, rs[..|rs| - 1])
    && r.b.fence == f && Enabled(before, Setting(r.b, r.o)) && FailsToClear(before, r.b, r.o) && !Attempted(st, rs).latched
  }

  predicate AllKeep(rs: seq<Attempt>) {
    rs == [] || (AllKeep(rs[..|rs| - 1]) && KeepsFile(rs[|rs| - 1].o.clear.unlink))
  }

  /** A removal that failed to clear leaves the file exactly when its unlink did, and then the next one finds it the same way. */
  lemma FailureLeaves(st: State, b: Binding, o: SetOracle)
    requires SubjectRebind.Inv(st.s) && Enabled(st, Setting(b, o)) && FailsToClear(st, b, o) && !Set(st, b, o).st.latched
    ensures Unrecorded(Set(st, b, o).st.s, b.fence) && !st.latched
    ensures Set(st, b, o).st.s.disk.file == if KeepsFile(o.clear.unlink) then BeforeClear(st, b, o).disk.file else Absent
  {
    FailedClear(st, b, o);
    assert !st.latched by { hide Set, Commits; }
    ClearLatchesExactly(BeforeClear(st, b, o).(pending := None), o);
    hide Set, ClearRecord, BeforeClear, Admissible, Unrecorded;
  }

  /** Without a record in memory a further attempt finds the file its predecessor left. */
  lemma RetryFinds(st: State, b: Binding, o: SetOracle)
    requires Unrecorded(st.s, b.fence) && FailsToClear(st, b, o)
    ensures BeforeClear(st, b, o).disk == st.s.disk
  {
    var att := Attachment(st.s, b).value;
    TidyCleanup(st.s, b.fence, att, o);
    assert st.s.(token := st.s.token) == st.s;
    RegisterRecord(SubjectRebind.BeforeRegister(st, b, o), b.fence, att.ip, o);
    hide Cleanup, Register, Intent, Attachment, Unrecorded;
  }

  lemma {:induction false} FailuresLeave(st: State, f: Fence, rs: seq<Attempt>)
    requires SubjectRebind.Inv(st.s) && rs != [] && AllFail(st, f, rs) && FailsToClear(st, rs[0].b, rs[0].o)
    ensures var s := Attempted(st, rs);
      && SubjectRebind.Inv(s.s) && Unrecorded(s.s, f) && !s.latched
      && s.s.disk.file == if AllKeep(rs) then BeforeClear(st, rs[0].b, rs[0].o).disk.file else Absent
  {
    hide Set, FailsToClear, BeforeClear, Unrecorded, SubjectRebind.Inv, Enabled;
    var n := |rs| - 1;
    var before, r := Attempted(st, rs[..n]), rs[n];
    if n == 0 {
      assert rs[..0] == [];
    } else {
      FailuresLeave(st, f, rs[..n]);
      RetryFinds(before, r.b, r.o);
    }
    FailureLeaves(before, r.b, r.o);
    KeepsIdentity(before, r.b, r.o);
  }

  lemma KeepsIdentity(st: State, b: Binding, o: SetOracle)
    requires SubjectRebind.Inv(st.s) && Enabled(st, Setting(b, o))
    ensures SubjectRebind.Inv(Set(st, b, o).st.s)
  {
    SubjectRebind.SetKeeps(st, b, o);
    hide Set, SubjectRebind.Inv;
  }

  /** The removed record was of this generation, its file is still there, and the next SET can read it. */
  predicate ComesBack(found: Slot, f: Fence, kept: bool, readable: bool) {
    found.entry.Some? && found.entry.value.fence == f && kept && readable
  }

  /**
  After any number of removals that failed to clear the record without latching, the next acknowledged
  SET of that generation brings the removed policy back, revision and all, exactly when every purge
  left its file in place; otherwise it denies or takes its own input.
  */
  lemma RemovedPolicyReturns(disk: Disk, es: seq<Event>, f: Fence, rs: seq<Attempt>, next: Binding, o: SetOracle)
    requires DiskOk(disk) && rs != []
    requires var st := Run(Init(disk), es);
      && AllFail(st, f, rs) && Enabled(st, Setting(rs[0].b, rs[0].o)) && FailsToClear(st, rs[0].b, rs[0].o)
      && !Set(st, rs[0].b, rs[0].o).st.latched && Backed(BeforeClear(st, rs[0].b, rs[0].o).entry)
      && Set(Attempted(st, rs), next, o).ack
    requires !next.removal && next.fence == f && HonestSet(o, false)
    ensures var st := Run(Init(disk), es);
      Returns(BeforeClear(st, rs[0].b, rs[0].o), Set(Attempted(st, rs), next, o).st.s, next, AllKeep(rs), o.readable)
  {
    hide Set, BeforeClear, Admissible, Run, Unrecorded, Adopted, Returns, SubjectRebind.Inv, Enabled, AllFail, Attempted;
    var st := Run(Init(disk), es);
    SubjectRebind.RunKeeps(disk, es);
    FailuresLeave(st, f, rs);
    FoundAgrees(disk, es, rs[0].b, rs[0].o);
    SetAdopts(Attempted(st, rs), next, o);
    AdoptedReturns(BeforeClear(st, rs[0].b, rs[0].o), Set(Attempted(st, rs), next, o).st.s, next, AllKeep(rs), o.readable);
  }

  /** What the next SET brings back of the record `found` that the failed clears tried to remove. */
  predicate Returns(found: Slot, s': Slot, next: Binding, kept: bool, readable: bool) {
    && found.pending.Some?
    && (if ComesBack(found, next.fence, kept, readable)
        then s'.pending == found.pending && CurrentRev(s') == CurrentRev(found)
        else s'.pending in {Some(Deny), Some(next.input)})
    && (found.pending !in {Some(Deny), Some(next.input)} ==>
          (s'.pending == found.pending <==> ComesBack(found, next.fence, kept, readable)))
  }

  lemma AdoptedReturns(found: Slot, s': Slot, next: Binding, kept: bool, readable: bool)
    requires Backed(found.entry) && Agrees(found.entry, found.pending, found.disk.file)
    requires Adopted(s', if kept then found.disk.file else Absent, next, readable)
    ensures Returns(found, s', next, kept, readable)
  {
  }

  /** The record a removal is about to clear still agrees with its file. */
  lemma FoundAgrees(disk: Disk, es: seq<Event>, b: Binding, o: SetOracle)
    requires DiskOk(disk)
    requires var st := Run(Init(disk), es);
      Enabled(st, Setting(b, o)) && FailsToClear(st, b, o) && !Set(st, b, o).st.latched
    ensures var found := BeforeClear(Run(Init(disk), es), b, o);
      !Run(Init(disk), es).latched && Agrees(found.entry, found.pending, found.disk.file)
  {
    var st := Run(Init(disk), es);
    SubjectRebind.RunKeeps(disk, es);
    FailedClear(st, b, o);
    RunKeeps(disk, es);
    hide Run, Cleanup, Intent, Attachment, Register, Purged;
    var att := Attachment(st.s, b).value;
    var s0 := st.s.(token := Intent(st.s, b.fence, att));
    CleanupRecord(s0, o);
    RegisterRecord(SubjectRebind.BeforeRegister(st, b, o), b.fence, att.ip, o);
    assert !st.latched by { hide Set, Commits; }
    hide Set, ClearRecord;
  }

  /* ---- concrete runs ---- */

  const F := Fence("runtime-1", "attachment-1")
  const G := Fence("runtime-0", "attachment-0")
  const N := Net("10.0.0.1", "10.0.0.254")
  const SAVED := Write(Committed, false, true, true, false)
  const RENAMED := Write(Committed, false, true, false, true)
  const REFUSED := Write(Unchanged, true, false, false, false)
  const GONE := Purge(Removed, true)
  const STUCK := Purge(NotTried, false)
  const FINE := SetOracle(false, false, true, true, Torn, GONE, Torn, true, Removed, true, true, true, true, true, RENAMED, true, true,
                          SAVED, GONE, true)
  const FULL_DISK := FINE.(save := REFUSED, clear := STUCK)
  const WRITES := WriteOracle(true, true, SAVED, true, true, SAVED, true, true, true)
  const REMOVES := RemoveOracle(true, true, Torn, GONE)
  const NEW := Binding(F, N, false, Rules("new"))

  function Bound(): State {
    Step(Init(Disk(Absent, {Absent}, false)), Setting(Binding(F, N, false, Rules("old")), FINE))
  }

  lemma BoundState()
    ensures var s := Bound().s;
      && s.entry == Some(Entry(1, F, false, false)) && s.pending == Some(Rules("old")) && s.token.None? && !Bound().latched
      && s.reg == Some(Reg(F, "10.0.0.1", false, None)) && s.att == Some(N) && s.fence == Some(F) && s.removing.None?
      && s.disk == Disk(Encoded(F, 1, Rules("old")), {Absent, Encoded(F, 1, Rules("old")), Corrupt}, false)
  {
  }

  /** The documented latch does not happen: a removal that could not touch the file leaves it to the next SET. */
  lemma RemovedPolicyComesBack()
    ensures var st := Step(Bound(), Setting(Binding(F, N, true, Deny), FULL_DISK));
      && !Set(Bound(), Binding(F, N, true, Deny), FULL_DISK).ack && !st.latched && st.s.entry.None?
      && Set(st, NEW, FINE).ack && Set(st, NEW, FINE).st.s.pending == Some(Rules("old"))
  {
    BoundState();
    hide Bound;
    var st := Step(Bound(), Setting(Binding(F, N, true, Deny), FULL_DISK));
    assert st.s.entry.None? && st.s.disk == Bound().s.disk && st.s.reg == Bound().s.reg && st.s.att == Some(N)
           && st.s.token.None? && st.s.removing.None? && !st.latched;
  }

  /** A reload of another generation's record whose registration then failed. */
  function Abandoned(): State {
    Step(Init(Disk(Encoded(G, 3, Rules("kept")), {Encoded(G, 3, Rules("kept"))}, false)),
         Setting(Binding(G, N, false, Rules("old")), FINE.(takeover := false)))
  }

  lemma AbandonedState()
    ensures var s := Abandoned().s;
      && s.entry == Some(Entry(3, G, false, false)) && s.pending == Some(Rules("kept")) && s.token.None? && !Abandoned().latched
      && s.reg.None? && s.fence.None? && s.removing.None? && s.att == Some(N)
      && s.disk == Disk(Encoded(G, 3, Rules("kept")), {Encoded(G, 3, Rules("kept"))}, false)
  {
  }

  /** A removal of one generation is acknowledged and leaves the record and the file of another. */
  lemma RemovalLeavesForeignRecord()
    ensures var r := Set(Abandoned(), Binding(F, N, true, Deny), FINE.(save := SAVED, clear := STUCK));
      && r.ack && r.st.s.fence == Some(F) && r.st.s.entry == Some(Entry(4, G, false, false))
      && r.st.s.disk.file == Encoded(G, 4, Deny)
  {
    AbandonedState();
    hide Abandoned;
  }

  /** An import that was refused, and did not latch, dropped the record. */
  lemma FailedImportDropsRecord()
    ensures var r := Import(Abandoned(), G, 5, Rules("carried"), WRITES.(unseals := false));
      !r.ack && !r.st.latched && Backed(Abandoned().s.entry) && r.st.s.entry.None?
  {
    AbandonedState();
    hide Abandoned;
  }

  /* ---- a power loss can bring back an older record, or its seal ---- */

  /** An unlink that took effect but was not made durable, and a seed on top of it. */
  function Reseeded(): State {
    var put := Step(Bound(), Putting(None, Rules("older"), WRITES));
    var torn := Step(put, Removing(F, RemoveOracle(true, true, Torn, Purge(Uncertain(true, false), true))));
    var purged := Step(Step(torn, Unregistering), Purging(RemoveOracle(true, true, Torn, Purge(Uncertain(true, false), true))));
    Step(purged, Setting(NEW, FINE))
  }

  /** The seed is acknowledged, yet a power loss and a replay of its own SET give back the policy before it. */
  lemma OlderRecordComesBack()
    ensures var st := Reseeded();
      && !st.latched && st.s.entry == Some(Entry(1, F, false, false)) && st.s.pending == Some(Rules("new"))
      && var found := Encoded(F, 2, Rules("older"));
      && found in st.s.disk.lasting && !Recoverable(st.s, NEW, found, false)
      && Set(PowerLoss(st, found, false), NEW, FINE).ack
      && Set(PowerLoss(st, found, false), NEW, FINE).st.s.pending == Some(Rules("older"))
  {
    BoundState();
    hide Bound;
    var put := Step(Bound(), Putting(None, Rules("older"), WRITES));
    assert put.s == Bound().s.(entry := Some(Entry(2, F, false, false)), pending := Some(Rules("older")),
                               disk := Disk(Encoded(F, 2, Rules("older")), {Encoded(F, 2, Rules("older"))}, false)) && !put.latched;
    var torn := Step(put, Removing(F, RemoveOracle(true, true, Torn, Purge(Uncertain(true, false), true))));
    var purged := Step(Step(torn, Unregistering), Purging(RemoveOracle(true, true, Torn, Purge(Uncertain(true, false), true))));
    assert purged.s.disk == Disk(Absent, {Encoded(F, 2, Rules("older")), Absent}, false) && purged.s.reg.None? && purged.s.token.None?
           && purged.s.entry.None? && purged.s.removing.None? && !purged.latched && purged.s.att.None?;
  }

  /** A sealed export, a removal that lifted the seal, and a seed: neither the unseal nor the seed was synced. */
  function Unsealed(): State {
    var captured := Step(Bound(), ExportBeginning(F));
    var sealed := Step(captured, ExportSealing(Capture(F, Encoded(F, 1, Rules("old"))), true, true));
    var removed := Step(Step(Step(sealed, Removing(F, REMOVES)), Unregistering), Purging(REMOVES));
    Step(removed, Setting(NEW, FINE))
  }

  lemma UnsealedState()
    ensures var st := Unsealed();
      && !st.latched && st.s.entry == Some(Entry(1, F, false, false)) && st.s.pending == Some(Rules("new"))
      && st.s.disk == Disk(Encoded(F, 1, Rules("new")), {Absent, Encoded(F, 1, Rules("new")), Corrupt}, false)
  {
    BoundState();
    hide Bound;
    var captured := Step(Bound(), ExportBeginning(F));
    var sealed := Step(captured, ExportSealing(Capture(F, Encoded(F, 1, Rules("old"))), true, true));
    assert sealed.s.entry == Some(Entry(1, F, true, false)) && sealed.s.disk == Bound().s.disk.(marker := true)
           && sealed.s.reg == Bound().s.reg && sealed.s.token.None? && sealed.s.removing.None? && !sealed.latched;
    var removed := Step(Step(Step(sealed, Removing(F, REMOVES)), Unregistering), Purging(REMOVES));
    assert removed.s.disk == Disk(Absent, {Absent}, false) && removed.s.reg.None? && removed.s.token.None?
           && removed.s.entry.None? && removed.s.removing.None? && !removed.latched && removed.s.att.None?;
  }

  /** The seed is acknowledged, yet a power loss that brings the marker back turns its replay into a sealed deny. */
  lemma SealMarkerComesBack()
    ensures var st := Unsealed();
      && !st.latched && st.s.entry == Some(Entry(1, F, false, false)) && st.s.pending == Some(Rules("new"))
      && Absent in st.s.disk.lasting && Recoverable(st.s, NEW, Absent, false) && !Recoverable(st.s, NEW, Absent, true)
      && Set(PowerLoss(st, Absent, true), NEW, FINE).ack
      && Set(PowerLoss(st, Absent, true), NEW, FINE).st.s.entry == Some(Entry(0, F, true, false))
      && Set(PowerLoss(st, Absent, true), NEW, FINE).st.s.pending == Some(Deny)
  {
    UnsealedState();
    hide Unsealed;
  }

  /* ---- an import can roll the file back ---- */

  /** The revision of the file could not be read for the comparison; the older bundle is acknowledged over it. */
  lemma ImportRollsBack()
    ensures var put := Step(Bound(), Putting(None, Rules("newer"), WRITES));
      var r := Import(put, F, 1, Rules("carried"), WRITES.(compares := false));
      && put.s.disk.file == Encoded(F, 2, Rules("newer"))
      && r.ack && r.st.s.disk.file == Encoded(F, 1, Rules("carried")) && CurrentRev(r.st.s) == 1
  {
    BoundState();
    hide Bound;
  }

  /* ---- an export can be acknowledged without carrying anything ---- */

  /**
  After a restart and before the replayed SET the export of a bound subject is acknowledged although its
  policy is still on disk: nothing is carried or sealed, and a relay write follows.
  */
  lemma UnregisteredExportSealsNothing()
    ensures var st := Step(Bound(), Restarting);
      var x := Exported(st, F, [], true);
      var again := Set(x.reply.st, NEW, FINE);
      && st.s.disk.file == Encoded(F, 1, Rules("old"))
      && x.reply.ack && x.carried.None? && x.reply.st == st
      && again.ack && again.st.s.pending == Some(Rules("old")) && Put(again.st, None, Rules("later"), WRITES).ack
  {
    BoundState();
    hide Bound;
    var st := Step(Bound(), Restarting);
    assert st == Init(Bound().s.disk).(s := Init(Bound().s.disk).s.(bundle := Bound().s.bundle));
    var again := Set(st, NEW, FINE);
    assert again.ack && again.st.s.entry == Some(Entry(1, F, false, false)) && again.st.s.token.None? && !again.st.latched
           && again.st.s.reg == Some(Reg(F, "10.0.0.1", false, None)) && again.st.s.fence == Some(F);
  }

  /* ---- revisions restart under a record that cannot be read ---- */

  /** A replay that could not read the file is acknowledged, and the next write commits a revision that was already used. */
  lemma RevisionsRestart()
    ensures var st := Set(Restart(Bound()), NEW, FINE.(readable := false));
      && st.ack && CurrentRev(Bound().s) == 1 && CurrentRev(st.st.s) == 0
      && Put(st.st, Some(0), Rules("again"), WRITES).ack && CurrentRev(Put(st.st, Some(0), Rules("again"), WRITES).st.s) == 1
  {
    BoundState();
    hide Bound;
  }

  /* ---- a sealed source can change ---- */

  /** The unlink of an unparseable file was not tried; the file was exported and sealed; the process restarted. */
  function SealedUnparseable(): State {
    var bound := Step(Init(Disk(Unparseable(F, 3), {Unparseable(F, 3)}, false)), Setting(NEW, FINE.(discard := NotTried)));
    var captured := Step(bound, ExportBeginning(F));
    Step(Step(captured, ExportSealing(Capture(F, Unparseable(F, 3)), true, true)), Restarting)
  }

  /** The replay discards the file the bundle was copied from. */
  lemma SealedSourceDisappears()
    ensures var st := SealedUnparseable();
      && st.s.bundle == st.s.disk.file == Unparseable(F, 3) && st.s.disk.marker
      && Set(st, NEW, FINE).ack && Set(st, NEW, FINE).st.s.disk.file == Absent && Set(st, NEW, FINE).st.s.bundle == Unparseable(F, 3)
  {
    var bound := Step(Init(Disk(Unparseable(F, 3), {Unparseable(F, 3)}, false)), Setting(NEW, FINE.(discard := NotTried)));
    assert bound.s.disk == Disk(Unparseable(F, 3), {Unparseable(F, 3)}, false) && bound.s.token.None? && bound.s.fence == Some(F)
           && bound.s.reg == Some(Reg(F, "10.0.0.1", false, None)) && !bound.latched;
  }
}
