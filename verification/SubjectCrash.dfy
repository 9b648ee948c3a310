/**
Crashes: which images any event can leave in the file, and what the replayed SET makes of them after
a restart or a power loss at any point of any operation.
*/
module SubjectCrash {
  import opened Basics
  import opened PolicyFiles
  import opened SubjectPlane
  import opened SubjectRecord

  /* ---- what a SET makes of the file ---- */

  /** What the replayed SET of a crashed subject brings back: the given record, or a degraded default-deny. */
  predicate Restores(s: Slot, f: Fence, rev: int, pol: Pol) {
    && s.entry.Some? && s.entry.value.fence == f
    && ((s.entry.value.rev == rev && !s.entry.value.degraded && s.pending == Some(pol)) ||
        (s.entry.value.degraded && s.pending == Some(Deny)))
  }

  /** What a SET without a record in memory makes of the file it finds. */
  predicate Adopted(s: Slot, file: Image, b: Binding, readable: bool) {
    if !readable then s.entry == Some(Entry(0, b.fence, s.disk.marker, true)) && s.pending == Some(Deny)
    else
      match file
      case Encoded(g, rev, pol) =>
        if g == b.fence then s.entry == Some(Entry(rev, g, s.disk.marker, false)) && s.pending == Some(pol) else Seeded(s, b)
      case Unparseable(g, _) =>
        if g == b.fence then s.entry == Some(Entry(0, g, s.disk.marker, true)) && s.pending == Some(Deny) else Seeded(s, b)
      case Absent =>
        if s.disk.marker then s.entry == Some(Entry(0, b.fence, true, false)) && s.pending == Some(Deny) else Seeded(s, b)
      case _ => s.entry == Some(Entry(0, b.fence, s.disk.marker, true)) && s.pending == Some(Deny)
  }

  predicate Seeded(s: Slot, b: Binding) {
    s.entry == Some(Entry(1, b.fence, false, false)) && s.pending == Some(b.input)
  }

  /** The file is not of this generation, and no seal stands in for it. */
  predicate NeedsSeed(d: Disk, f: Fence, readable: bool) {
    readable &&
    match d.file
    case Encoded(g, _, _) => g != f
    case Unparseable(g, _) => g != f
    case Absent => !d.marker
    case _ => false
  }

  /** The file an acknowledged SET without a record in memory leaves. */
  function FileAfter(d: Disk, b: Binding, o: SetOracle): Image {
    if NeedsSeed(d, b.fence, o.readable) then Encoded(b.fence, 1, b.input)
    else if o.readable && (d.file.Corrupt? || d.file.Unparseable?) then Unlinked(d, o.discard).file
    else d.file
  }

  /** Nothing is left for a SET of `f` to clean up, and no record is in memory. */
  predicate Unrecorded(s: Slot, f: Fence) {
    && s.entry.None?
    && (s.token.Some? ==> s.token.value.to == f && s.token.value.purged && !s.token.value.needsReset)
    && (s.token.None? && s.reg.Some? ==> s.reg.value.fence == f)
  }

  lemma TidyCleanup(s: Slot, f: Fence, att: Net, o: SetOracle)
    requires Unrecorded(s, f)
    ensures Intent(s, f, att) == s.token && SameRecord(s, Cleanup(s, o).s)
  {
  }

  /** The reload adopts what it can, and otherwise leaves the record to the seed. */
  lemma RehydrateAdopts(s: Slot, b: Binding, o: SetOracle)
    requires s.entry.None?
    ensures var s1 := Rehydrate(s, b.fence, o);
      && s1.disk.marker == s.disk.marker && (s1.entry.Some? ==> s1.entry.value.fence == b.fence)
      && (s1.entry.None? <==> NeedsSeed(s.disk, b.fence, o.readable))
      && (s1.entry.Some? ==> s1.disk.file == FileAfter(s.disk, b, o))
      && if s1.entry.Some? then Adopted(s1, s.disk.file, b, o.readable)
         else forall s' | Seeded(s', b) && s'.disk.marker == s.disk.marker :: Adopted(s', s.disk.file, b, o.readable)
  {
  }

  lemma SeedKeeps(s: Slot, latched: bool, b: Binding, o: SetOracle)
    requires s.entry.Some? ==> s.entry.value.fence == b.fence
    requires HonestSet(o, false) && Seed(s, latched, b.fence, b.input, o).ack
    ensures var s' := Seed(s, latched, b.fence, b.input, o).st.s;
      && s'.disk.marker == s.disk.marker
      && if s.entry.Some? then s'.entry == s.entry && s'.pending == s.pending && s'.disk == s.disk
         else Seeded(s', b) && s'.disk.file == Encoded(b.fence, 1, b.input)
  {
    var applies := !(s.reg.Some? && s.reg.value.active) || o.applies;
    CommitOutcomes(s.disk, Encoded(b.fence, 1, b.input), o.save, applies, o.restore);
    hide Commits;
  }

  /** An acknowledged SET without a record in memory adopts whatever the file holds for its fence. */
  lemma SetAdopts(st: State, b: Binding, o: SetOracle)
    requires Unrecorded(st.s, b.fence) && !b.removal && HonestSet(o, false) && Set(st, b, o).ack
    ensures Adopted(Set(st, b, o).st.s, st.s.disk.file, b, o.readable)
    ensures Set(st, b, o).st.s.disk.marker == st.s.disk.marker && Set(st, b, o).st.s.disk.file == FileAfter(st.s.disk, b, o)
  {
    var att := Attachment(st.s, b).value;
    TidyCleanup(st.s, b.fence, att, o);
    assert st.s.(token := st.s.token) == st.s;
    hide Attachment, Cleanup, Register, Intent, Unrecorded, Rehydrate, Seed;
    var c := Cleanup(st.s, o).s;
    RehydrateAdopts(c, b, o);
    var s1 := Rehydrate(c, b.fence, o).(att := Some(att));
    RegisterRecord(s1, b.fence, att.ip, o);
    SeedKeeps(PublishFence(Register(s1, b.fence, att.ip, o).s, b.fence), st.latched, b, o);
  }

  /* ---- a crash between operations ---- */

  /**
  After a restart between operations the replayed SET restores the last acknowledged policy and
  revision, and the chain of revisions goes on, exactly when it could read the file.
  */
  lemma RestartRestores(disk: Disk, es: seq<Event>, b: Binding, o: SetOracle)
    requires DiskOk(disk)
    requires var st := Run(Init(disk), es); !st.latched && Backed(st.s.entry) && st.s.entry.value.fence == b.fence
    requires !b.removal && b.fence != NO_FENCE && HonestSet(o, false)
    requires Set(Restart(Run(Init(disk), es)), b, o).ack
    ensures var st := Run(Init(disk), es);
      var s' := Set(Restart(st), b, o).st.s;
      && st.s.pending.Some?
      && Restores(s', b.fence, st.s.entry.value.rev, st.s.pending.value)
      && s'.entry.value.degraded == !o.readable
      && (CurrentRev(s') == CurrentRev(st.s) <==> o.readable)
  {
    RunKeeps(disk, es);
    SetAdopts(Restart(Run(Init(disk), es)), b, o);
  }

  /* ---- a crash in the middle of an operation ---- */

  /** The one image an event may be writing. */
  function Candidate(st: State, e: Event): Option<Image> {
    match e
    case Putting(_, pol, _) => if st.s.reg.Some? then Some(Encoded(st.s.reg.value.fence, CurrentRev(st.s) + 1, pol)) else None
    case Deleting(_) => if st.s.reg.Some? then Some(Encoded(st.s.reg.value.fence, CurrentRev(st.s) + 1, Deny)) else None
    case Importing(f, rev, pol, _) => Some(Encoded(f, rev, pol))
    case Setting(b, _) =>
      if !b.removal then Some(Encoded(b.fence, 1, b.input))
      else if st.s.entry.Some? then Some(Encoded(st.s.entry.value.fence, st.s.entry.value.rev + 1, Deny)) else None
    case _ => None
  }

  predicate MayUnlink(e: Event) {
    e.Setting? || e.Removing? || e.Purging? || e.Evicting?
  }

  /** A seed renames bytes that were never synced. */
  predicate MayTear(e: Event) {
    e.Setting? && !e.b.removal
  }

  /** The old image, the event's own candidate or, if it may unlink, no file. */
  predicate Survives(image: Image, file: Image, candidate: Option<Image>, unlinks: bool) {
    image == file || Some(image) == candidate || (unlinks && image.Absent?)
  }

  /** What a power loss may leave besides: what it could leave before, or torn bytes. */
  predicate Lasts(image: Image, d: Disk, candidate: Option<Image>, unlinks: bool, tears: bool) {
    image in d.lasting || Survives(image, d.file, candidate, unlinks) || (tears && image.Corrupt?)
  }

  predicate Leaves(d: Disk, d': Disk, candidate: Option<Image>, unlinks: bool, tears: bool) {
    && Survives(d'.file, d.file, candidate, unlinks)
    && forall image <- d'.lasting :: Lasts(image, d, candidate, unlinks, tears)
  }

  lemma CommitLeaves(d: Disk, image: Image, save: Write, applies: bool, restore: Write, unlinks: bool, tears: bool)
    requires HonestSeed(save) && HonestSave(restore) && (save.torn ==> tears)
    ensures Leaves(d, Commits(d, image, save, applies, restore).disk, Some(image), unlinks, tears)
  {
    CommitOutcomes(d, image, save, applies, restore);
  }

  lemma SameLeaves(d: Disk, candidate: Option<Image>, unlinks: bool, tears: bool)
    ensures Leaves(d, d, candidate, unlinks, tears)
  {
  }

  lemma PurgeLeaves(d: Disk, p: Purge, candidate: Option<Image>, tears: bool)
    ensures Leaves(d, Purged(d, p), candidate, true, tears)
  {
    PurgeOutcomes(d, p);
  }

  lemma LeavesOn(d: Disk, d': Disk, d'': Disk, candidate: Option<Image>, unlinks: bool, tears: bool)
    requires Leaves(d, d', candidate, unlinks, tears) && Leaves(d', d'', candidate, unlinks, tears)
    ensures Leaves(d, d'', candidate, unlinks, tears)
  {
    forall image | image in d''.lasting ensures Lasts(image, d, candidate, unlinks, tears) {
      assert Lasts(image, d', candidate, unlinks, tears);
    }
  }

  lemma RehydrateLeaves(s: Slot, f: Fence, o: SetOracle, candidate: Option<Image>, tears: bool)
    ensures Leaves(s.disk, Rehydrate(s, f, o).disk, candidate, true, tears)
  {
    assert Leaves(s.disk, Unlinked(s.disk, o.discard), candidate, true, tears);
    SameLeaves(s.disk, candidate, true, tears);
    hide Unlinked, Leaves;
  }

  lemma SeedFreshLeaves(s: Slot, latched: bool, b: Binding, o: SetOracle)
    requires HonestSeed(o.save) && HonestSave(o.restore)
    ensures Leaves(s.disk, SeedFresh(s, latched, b.fence, b.input, o).st.s.disk, Some(Encoded(b.fence, 1, b.input)), true, true)
  {
    var image := Encoded(b.fence, 1, b.input);
    SameLeaves(s.disk, Some(image), true, true);
    CommitLeaves(s.disk, image, o.save, !(s.reg.Some? && s.reg.value.active) || o.applies, o.restore, true, true);
    hide Commits, Leaves;
  }

  lemma SeedLeaves(s: Slot, latched: bool, b: Binding, o: SetOracle)
    requires HonestSeed(o.save) && HonestSave(o.restore)
    ensures Leaves(s.disk, Seed(s, latched, b.fence, b.input, o).st.s.disk, Some(Encoded(b.fence, 1, b.input)), true, true)
  {
    var candidate := Some(Encoded(b.fence, 1, b.input));
    hide SeedFresh, Purged, Leaves;
    PurgeLeaves(s.disk, o.purge, candidate, true);
    SameLeaves(s.disk, candidate, true, true);
    var s1 := if s.entry.Some? && s.entry.value.fence != b.fence then s.(entry := None, disk := Purged(s.disk, o.purge)) else s;
    SeedFreshLeaves(s1, latched, b, o);
    LeavesOn(s.disk, s1.disk, SeedFresh(s1, latched, b.fence, b.input, o).st.s.disk, candidate, true, true);
  }

  lemma UnbindLeaves(s: Slot, latched: bool, o: SetOracle)
    requires HonestSave(o.save) && HonestSave(o.restore)
    ensures var candidate := if s.entry.Some? then Some(Encoded(s.entry.value.fence, s.entry.value.rev + 1, Deny)) else None;
      Leaves(s.disk, Unbind(s, latched, o).st.s.disk, candidate, true, false)
  {
    var candidate := if s.entry.Some? then Some(Encoded(s.entry.value.fence, s.entry.value.rev + 1, Deny)) else None;
    PurgeLeaves(s.disk, o.clear, candidate, false);
    if s.entry.Some? { CommitLeaves(Purged(s.disk, o.clear), candidate.value, o.save, true, o.restore, true, false); }
    hide Commits, Purged;
  }

  lemma SetLeaves(st: State, b: Binding, o: SetOracle)
    requires HonestSet(o, b.removal)
    ensures Leaves(st.s.disk, Set(st, b, o).st.s.disk, Candidate(st, Setting(b, o)), true, !b.removal)
  {
    hide Cleanup, Intent, Attachment, Rehydrate, Register, Seed, Unbind, Purged, Leaves;
    var candidate, tears := Candidate(st, Setting(b, o)), !b.removal;
    var d := st.s.disk;
    SameLeaves(d, candidate, true, tears);
    if Admissible(st.s, b, o) {
      var att := Attachment(st.s, b).value;
      var s0 := st.s.(token := Intent(st.s, b.fence, att));
      CleanupRecord(s0, o);
      PurgeLeaves(d, o.purge, candidate, tears);
      var c := Cleanup(s0, o);
      assert Leaves(d, c.s.disk, candidate, true, tears) && (c.s.entry == st.s.entry || c.s.entry.None?);
      if c.ok {
        RehydrateLeaves(c.s, b.fence, o, candidate, tears);
        var s1 := (if b.removal then c.s else Rehydrate(c.s, b.fence, o)).(att := Some(att));
        if !b.removal { LeavesOn(d, c.s.disk, s1.disk, candidate, true, tears); }
        RegisterRecord(s1, b.fence, att.ip, o);
        var g := Register(s1, b.fence, att.ip, o);
        if g.ok { FollowUpLeaves(PublishFence(g.s, b.fence), st, b, o); }
      }
    }
  }

  lemma FollowUpLeaves(s: Slot, st: State, b: Binding, o: SetOracle)
    requires HonestSet(o, b.removal) && Leaves(st.s.disk, s.disk, Candidate(st, Setting(b, o)), true, !b.removal)
    requires b.removal ==> s.entry == st.s.entry || s.entry.None?
    ensures var r := if b.removal then Unbind(s, st.latched, o) else Seed(s, st.latched, b.fence, b.input, o);
      Leaves(st.s.disk, r.st.s.disk, Candidate(st, Setting(b, o)), true, !b.removal)
  {
    var candidate, tears := Candidate(st, Setting(b, o)), !b.removal;
    if b.removal {
      UnbindLeaves(s, st.latched, o);
      var d := Unbind(s, st.latched, o).st.s.disk;
      assert Leaves(s.disk, d, candidate, true, tears);
      LeavesOn(st.s.disk, s.disk, d, candidate, true, tears);
    } else {
      SeedLeaves(s, st.latched, b, o);
      LeavesOn(st.s.disk, s.disk, Seed(s, st.latched, b.fence, b.input, o).st.s.disk, candidate, true, tears);
    }
    hide Seed, Unbind;
  }

  lemma ImportLeaves(st: State, f: Fence, rev: int, pol: Pol, o: WriteOracle)
    requires HonestWrite(o)
    ensures Leaves(st.s.disk, Import(st, f, rev, pol, o).st.s.disk, Some(Encoded(f, rev, pol)), false, false)
  {
    hide Commits, Installed, Leaves, Superseded, ImportApplies;
    var s, image := st.s, Encoded(f, rev, pol);
    var c := Commits(s.disk, image, o.save, ImportApplies(s, f, o), o.restore);
    CommitLeaves(s.disk, image, o.save, ImportApplies(s, f, o), o.restore, false, false);
    SameLeaves(s.disk, Some(image), false, false);
    ImportDisk(st, f, rev, pol, o);
    MarkerLeaves(s.disk, c.disk, Import(st, f, rev, pol, o).st.s.disk.marker, Some(image));
    hide Import;
  }

  lemma ImportDisk(st: State, f: Fence, rev: int, pol: Pol, o: WriteOracle)
    requires HonestWrite(o)
    ensures var d := Import(st, f, rev, pol, o).st.s.disk;
      d == st.s.disk || d == Commits(st.s.disk, Encoded(f, rev, pol), o.save, ImportApplies(st.s, f, o), o.restore).disk.(marker := d.marker)
  {
    var s := st.s;
    CommitOutcomes(s.disk, Encoded(f, rev, pol), o.save, ImportApplies(s, f, o), o.restore);
    var c := Commits(s.disk, Encoded(f, rev, pol), o.save, ImportApplies(s, f, o), o.restore);
    InstalledRecord(s.(disk := c.disk), f, rev, pol, o, c.ok);
    hide Commits, Installed, Superseded;
  }

  lemma MarkerLeaves(d: Disk, d': Disk, marker: bool, candidate: Option<Image>)
    requires Leaves(d, d', candidate, false, false)
    ensures Leaves(d, d'.(marker := marker), candidate, false, false)
  {
  }

  /** Whatever an event does and wherever it stops, the file is the old image, its candidate or, if it may unlink, gone. */
  lemma StepLeaves(st: State, e: Event)
    requires !e.LosingPower?
    ensures Leaves(st.s.disk, Step(st, e).s.disk, Candidate(st, e), MayUnlink(e), MayTear(e))
  {
    if Enabled(st, e) {
      match e
      case Setting(b, o) => SetLeaves(st, b, o);
      case Importing(f, rev, pol, o) => ImportLeaves(st, f, rev, pol, o);
      case Putting(_, pol, o) =>
        if st.s.reg.Some? { CommitLeaves(st.s.disk, Candidate(st, e).value, o.save, o.applies, o.restore, false, false); }
      case Deleting(o) =>
        if st.s.reg.Some? { CommitLeaves(st.s.disk, Candidate(st, e).value, o.save, o.applies, o.restore, false, false); }
      case Removing(_, o) => PurgeLeaves(st.s.disk, o.purge, None, false);
      case Purging(o) => PurgeLeaves(st.s.disk, o.purge, None, false);
      case Evicting(o) => PurgeLeaves(st.s.disk, o.purge, None, false);
      case _ =>
    }
    hide Set, Import, Commits, Purged;
  }

  /** A crash that can follow. */
  predicate Crashes(st: State, crash: Event) {
    crash.Restarting? || (crash.LosingPower? && crash.found in st.s.disk.lasting)
  }

  function Crashed(st: State, crash: Event): State
    requires Crashes(st, crash)
  {
    Apply(st, crash).st
  }

  /**
  A crash in the middle of any event: after a restart the replayed SET finds the old image, the single
  candidate or, if the event may unlink, no file; after a power loss also whatever could be left before,
  or torn bytes if the event is a seed. It adopts exactly what it finds.
  */
  lemma CrashMidWrite(st: State, e: Event, crash: Event, b: Binding, o: SetOracle)
    requires !e.LosingPower? && Crashes(Step(st, e), crash)
    requires !b.removal && b.fence != NO_FENCE && HonestSet(o, false) && Set(Crashed(Step(st, e), crash), b, o).ack
    ensures var found := Crashed(Step(st, e), crash).s.disk.file;
      && (if crash.Restarting? then Survives(found, st.s.disk.file, Candidate(st, e), MayUnlink(e))
          else found == crash.found && Lasts(found, st.s.disk, Candidate(st, e), MayUnlink(e), MayTear(e)))
      && Adopted(Set(Crashed(Step(st, e), crash), b, o).st.s, found, b, o.readable)
  {
    StepLeaves(st, e);
    SetAdopts(Crashed(Step(st, e), crash), b, o);
    hide Set, Step, Adopted, Candidate;
  }

  /**
  So an event interrupted on a healthy record, by a restart or by a power loss once the file is
  synced, leaves that record, the one being written or, if the event may unlink, none.
  */
  lemma InterruptedWrite(st: State, e: Event, crash: Event, b: Binding, o: SetOracle)
    requires Inv(st) && !st.latched && Backed(st.s.entry) && st.s.entry.value.fence == b.fence
    requires !e.LosingPower? && Crashes(Step(st, e), crash) && (crash.Restarting? || Synced(st.s.disk))
    requires !b.removal && b.fence != NO_FENCE && HonestSet(o, false) && Set(Crashed(Step(st, e), crash), b, o).ack
    ensures var s' := Set(Crashed(Step(st, e), crash), b, o).st.s;
      || Restores(s', b.fence, st.s.entry.value.rev, st.s.pending.value)
      || (Candidate(st, e).Some? && Adopted(s', Candidate(st, e).value, b, o.readable))
      || (MayUnlink(e) && Adopted(s', Absent, b, o.readable))
  {
    CrashMidWrite(st, e, crash, b, o);
    hide Set, Step, Candidate;
  }

  /* ---- power loss ---- */

  /** The image found after a power loss, and the marker beside it, give the record back to a replay of `b`. */
  predicate Recoverable(s: Slot, b: Binding, found: Image, marker: bool)
    requires s.entry.Some? && s.pending.Some?
  {
    var seeds := s.entry.value.rev == 1 && s.pending.value == b.input;
    match found
    case Encoded(g, rev, pol) => if g == b.fence then rev == s.entry.value.rev && pol == s.pending.value else seeds
    case Unparseable(g, _) => g == b.fence || seeds
    case Absent => seeds && !marker
    case _ => true
  }

  /**
  Whatever image and marker a power loss leaves, the replayed SET restores the last acknowledged
  record, or a degraded default-deny, exactly when it cannot read the file or they are recoverable.
  */
  lemma PowerLossRestoresExactly(disk: Disk, es: seq<Event>, found: Image, marker: bool, b: Binding, o: SetOracle)
    requires DiskOk(disk)
    requires var st := Run(Init(disk), es); !st.latched && Backed(st.s.entry) && st.s.entry.value.fence == b.fence
    requires !b.removal && b.fence != NO_FENCE && HonestSet(o, false)
    requires Set(PowerLoss(Run(Init(disk), es), found, marker), b, o).ack
    ensures var st := Run(Init(disk), es);
      && st.s.pending.Some?
      && (Restores(Set(PowerLoss(st, found, marker), b, o).st.s, b.fence, st.s.entry.value.rev, st.s.pending.value)
          <==> !o.readable || Recoverable(st.s, b, found, marker))
  {
    RunKeeps(disk, es);
    SetAdopts(PowerLoss(Run(Init(disk), es), found, marker), b, o);
    hide Set;
  }

  /** An acknowledged relay write or import is recoverable from every power loss, whatever input the replayed SET carries. */
  lemma AcknowledgedIsRecoverable(st: State, e: Event, b: Binding, found: Image, marker: bool)
    requires Inv(st) && Enabled(st, e) && Apply(st, e).ack && Step(st, e).s.entry.Some? && Step(st, e).s.pending.Some?
    requires e.Putting? || e.Deleting? || (e.Importing? && st.s.fence.Some? && !Superseded(st.s, e.f, e.rev, e.write.compares))
    requires Step(st, e).s.entry.value.fence == b.fence && found in Step(st, e).s.disk.lasting
    ensures Recoverable(Step(st, e).s, b, found, marker)
  {
    if e.Importing? {
      CommitOutcomes(st.s.disk, Encoded(e.f, e.rev, e.pol), e.write.save, ImportApplies(st.s, e.f, e.write), e.write.restore);
    } else {
      RelayOutcomes(st, if e.Putting? then e.pol else Deny, e.write);
    }
    hide Commits;
  }

  /**
  The seed needs no barrier: on a synced disk without a seal, whatever a power loss leaves of an
  acknowledged seed, a replay of the same SET reconstructs it or denies.
  */
  lemma SeedIsReconstructed(st: State, b: Binding, o: SetOracle, found: Image)
    requires Unrecorded(st.s, b.fence) && Synced(st.s.disk) && NeedsSeed(st.s.disk, b.fence, o.readable)
    requires !b.removal && HonestSet(o, false) && Set(st, b, o).ack && found in Set(st, b, o).st.s.disk.lasting
    ensures var s := Set(st, b, o).st.s; s.entry.Some? && s.pending.Some? && Recoverable(s, b, found, false)
  {
    SetAdopts(st, b, o);
    SetLeaves(st, b, o);
    hide Set, Unrecorded;
  }
}
