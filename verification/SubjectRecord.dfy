/**
The recorded policy and its file: agreement over every run, and the relay's compare-and-swap chain.
*/
module SubjectRecord {
  import opened Basics
  import opened PolicyFiles
  import opened SubjectPlane
  import SubjectRebind

  /* ---- agreement ---- */

  /** A healthy, file-backed record. */
  predicate Backed(entry: Option<Entry>) {
    entry.Some? && !entry.value.degraded && entry.value.rev >= 1
  }

  /** The file holds exactly the record. */
  predicate Agrees(entry: Option<Entry>, pending: Option<Pol>, file: Image) {
    Backed(entry) ==> pending.Some? && file == Encoded(entry.value.fence, entry.value.rev, pending.value)
  }

  predicate RevOk(image: Image) {
    image.Encoded? ==> 1 <= image.rev <= MAX_INT64
  }

  predicate DiskOk(disk: Disk) {
    RevOk(disk.file) && forall i <- disk.lasting :: RevOk(i)
  }

  predicate RecordInv(entry: Option<Entry>, pending: Option<Pol>, disk: Disk, latched: bool) {
    && DiskOk(disk)
    && (entry.Some? ==> 0 <= entry.value.rev <= MAX_INT64)
    && (!latched ==> Agrees(entry, pending, disk.file))
  }

  predicate Inv(st: State) {
    RecordInv(st.s.entry, st.s.pending, st.s.disk, st.latched)
  }

  /** The commit protocol, seen from the record: installed on success, untouched on a clean failure, latched otherwise. */
  lemma CommitKeeps(entry: Option<Entry>, pending: Option<Pol>, d: Disk, latched: bool,
                    f: Fence, rev: int, pol: Pol, save: Write, applies: bool, restore: Write)
    requires RecordInv(entry, pending, d, latched) && 1 <= rev <= MAX_INT64 && HonestSeed(save) && HonestSave(restore)
    ensures var c := Commits(d, Encoded(f, rev, pol), save, applies, restore);
      if c.ok then RecordInv(Some(Entry(rev, f, false, false)), Some(pol), c.disk, latched)
      else RecordInv(entry, pending, c.disk, latched || c.latch)
  {
    CommitOutcomes(d, Encoded(f, rev, pol), save, applies, restore);
  }

  lemma PurgeKeeps(entry: Option<Entry>, pending: Option<Pol>, d: Disk, latched: bool, p: Purge)
    requires RecordInv(entry, pending, d, latched)
    ensures RecordInv(None, None, Purged(d, p), latched) && RecordInv(None, pending, Purged(d, p), latched)
  {
    PurgeOutcomes(d, p);
  }

  predicate SameRecord(s: Slot, s': Slot) {
    s'.entry == s.entry && s'.pending == s.pending && s'.disk == s.disk
  }

  predicate DroppedRecord(s: Slot, s': Slot, p: Purge) {
    s'.entry.None? && s'.pending.None? && s'.disk == Purged(s.disk, p)
  }

  /** A SET drops the record at most once, and a stage that fails does not drop it. */
  lemma StagesRecord(s: Slot, o: SetOracle)
    requires s.token.Some?
    ensures var a := Reset(s, o);
      && a.s.token.Some?
      && (SameRecord(s, a.s) || (DroppedRecord(s, a.s, o.purge) && a.s.token.value.purged))
    ensures var b := PurgeOld(s, o);
      b.s.token.Some? && (SameRecord(s, b.s) || (DroppedRecord(s, b.s, o.purge) && !s.token.value.purged))
    ensures SameRecord(s, RemoveOld(s, o).s)
  {
    hide Purged;
  }

  lemma CleanupRecord(s: Slot, o: SetOracle)
    ensures var s' := Cleanup(s, o).s; SameRecord(s, s') || DroppedRecord(s, s', o.purge)
  {
    hide Purged;
    if s.token.Some? {
      hide Reset, PurgeOld, RemoveOld;
      StagesRecord(s, o);
      var a := Reset(s, o).s;
      StagesRecord(a, o);
      StagesRecord(PurgeOld(a, o).s, o);
    }
  }

  lemma RehydrateRecord(s: Slot, latched: bool, f: Fence, o: SetOracle)
    requires Inv(State(s, latched))
    ensures Inv(State(Rehydrate(s, f, o), latched))
    ensures var e := Rehydrate(s, f, o).entry; e.Some? ==> e.value.fence == f
  {
  }

  lemma RegisterRecord(s: Slot, f: Fence, ip: IP, o: SetOracle)
    ensures var s' := Register(s, f, ip, o).s; s'.entry == s.entry && s'.pending == s.pending && s'.disk == s.disk
  {
  }

  lemma SeedRecord(s: Slot, latched: bool, f: Fence, input: Pol, o: SetOracle)
    requires Inv(State(s, latched)) && HonestSeed(o.save) && HonestSave(o.restore)
    ensures var r := Seed(s, latched, f, input, o);
      Inv(r.st) && (r.ack ==> r.st.s.entry.Some? && r.st.s.entry.value.fence == f)
  {
    hide Commits, Purged;
    PurgeKeeps(s.entry, s.pending, s.disk, latched, o.purge);
    var s1 := if s.entry.Some? && s.entry.value.fence != f then s.(entry := None, disk := Purged(s.disk, o.purge)) else s;
    var applies := !(s1.reg.Some? && s1.reg.value.active) || o.applies;
    CommitKeeps(s1.entry, s1.pending, s1.disk, latched, f, 1, input, o.save, applies, o.restore);
  }

  /** After an acknowledged removal: nothing, or a deny at the next revision under the old record's fence. */
  predicate LeftBy(s: Slot, s': Slot, clear: Purge) {
    if PurgeOk(clear) then s'.entry.None?
    else s.entry.Some? && s'.entry == Some(Entry(s.entry.value.rev + 1, s.entry.value.fence, false, false)) && s'.pending == Some(Deny)
  }

  lemma ClearRecordKeeps(s: Slot, latched: bool, o: SetOracle)
    requires Inv(State(s, true)) && HonestSave(o.save) && HonestSave(o.restore)
    ensures var r := ClearRecord(s, latched, o);
      Inv(r.st) && (r.ack ==> LeftBy(s, r.st.s, o.clear))
  {
    hide Commits;
    var d := Purged(s.disk, o.clear);
    PurgeKeeps(s.entry, s.pending, s.disk, true, o.clear);
    hide Purged;
    if s.entry.Some? && s.entry.value.rev < MAX_INT64 {
      CommitKeeps(None, None, d, latched, s.entry.value.fence, s.entry.value.rev + 1, Deny, o.save, true, o.restore);
    }
  }

  lemma UnbindKeeps(s: Slot, latched: bool, o: SetOracle)
    requires Inv(State(s, latched)) && HonestSave(o.save) && HonestSave(o.restore)
    ensures var r := Unbind(s, latched, o);
      Inv(r.st) && (r.ack ==> LeftBy(s, r.st.s, o.clear))
  {
    ClearRecordKeeps(s.(pending := None), latched, o);
    hide ClearRecord;
  }

  lemma SetKeeps(st: State, b: Binding, o: SetOracle)
    requires Inv(st) && HonestSet(o, b.removal)
    ensures var r := Set(st, b, o);
      && Inv(r.st)
      && (r.ack && !b.removal ==> r.st.s.entry.Some? && r.st.s.entry.value.fence == b.fence)
      && (r.ack && b.removal ==> Admissible(st.s, b, o) && LeftBy(SubjectRebind.BeforeRegister(st, b, o), r.st.s, o.clear))
  {
    hide Cleanup, Intent, Attachment, Rehydrate, Register, Seed, Unbind, Purged, RecordInv;
    if Admissible(st.s, b, o) {
      var att := Attachment(st.s, b).value;
      var s0 := st.s.(token := Intent(st.s, b.fence, att));
      CleanupRecord(s0, o);
      PurgeKeeps(st.s.entry, st.s.pending, st.s.disk, st.latched, o.purge);
      var c := Cleanup(s0, o);
      if c.ok {
        RehydrateRecord(c.s, st.latched, b.fence, o);
        var s1 := if b.removal then c.s else Rehydrate(c.s, b.fence, o);
        RegisterRecord(s1.(att := Some(att)), b.fence, att.ip, o);
        var g := Register(s1.(att := Some(att)), b.fence, att.ip, o);
        if g.ok {
          var s2 := PublishFence(g.s, b.fence);
          if b.removal { UnbindKeeps(s2, st.latched, o); } else { SeedRecord(s2, st.latched, b.fence, b.input, o); }
        }
      }
    }
  }

  /* ---- the other writers ---- */

  lemma RelayKeeps(st: State, pol: Pol, o: WriteOracle)
    requires Inv(st) && HonestWrite(o) && st.s.reg.Some?
    ensures var r := RelayCommit(st, pol, o);
      && Inv(r.st)
      && (r.ack ==> r.st.s.entry == Some(Entry(CurrentRev(st.s) + 1, st.s.reg.value.fence, false, false)) && r.st.s.pending == Some(pol))
      && (!r.ack ==> r.st.s.entry == st.s.entry && r.st.s.pending == st.s.pending)
  {
    hide Commits;
    if CurrentRev(st.s) < MAX_INT64 {
      CommitKeeps(st.s.entry, st.s.pending, st.s.disk, st.latched, st.s.reg.value.fence, CurrentRev(st.s) + 1, pol, o.save, o.applies, o.restore);
    }
  }

  lemma ImportFileKeeps(st: State, f: Fence, rev: int, pol: Pol, o: WriteOracle)
    requires Inv(st) && HonestWrite(o) && 1 <= rev <= MAX_INT64
    ensures Inv(ImportFile(st, f, rev, pol, o).st)
  {
    CommitKeeps(st.s.entry, st.s.pending, st.s.disk, st.latched, f, rev, pol, o.save, o.unseals, o.restore);
  }

  lemma InstalledRecord(s: Slot, f: Fence, rev: int, pol: Pol, o: WriteOracle, ok: bool)
    requires ok ==> Confirmed(o.save)
    ensures var s' := Installed(s, f, rev, pol, o, ok);
      && s'.disk.file == s.disk.file && s'.disk.lasting == s.disk.lasting
      && s'.entry == (if ok then Some(Entry(rev, f, false, false)) else s.entry)
      && s'.pending == (if ok then Some(pol) else s.pending)
  {
  }

  /** The memory part of an import goes through. */
  predicate ImportApplies(s: Slot, f: Fence, o: WriteOracle) {
    if s.fence.None? then o.unseals
    else (IsSealed(s) ==> o.unseals) && s.reg.Some? && s.reg.value.fence == f && (!s.reg.value.active || o.applies)
  }

  lemma ImportLiveKeeps(st: State, f: Fence, rev: int, pol: Pol, o: WriteOracle)
    requires Inv(st) && HonestWrite(o) && 1 <= rev <= MAX_INT64 && st.s.fence.Some?
    ensures Inv(ImportLive(st, f, rev, pol, o).st)
  {
    hide Commits, Installed, RecordInv;
    var s, applies := st.s, ImportApplies(st.s, f, o);
    CommitKeeps(s.entry, s.pending, s.disk, st.latched, f, rev, pol, o.save, applies, o.restore);
    CommitOutcomes(s.disk, Encoded(f, rev, pol), o.save, applies, o.restore);
    var c := Commits(s.disk, Encoded(f, rev, pol), o.save, applies, o.restore);
    InstalledRecord(s.(disk := c.disk), f, rev, pol, o, c.ok);
    var s' := Installed(s.(disk := c.disk), f, rev, pol, o, c.ok);
    SameFiles(s'.entry, s'.pending, c.disk, s'.disk, st.latched || (!c.ok && c.latch));
  }

  lemma SameFiles(entry: Option<Entry>, pending: Option<Pol>, d: Disk, d': Disk, latched: bool)
    requires RecordInv(entry, pending, d, latched) && d'.file == d.file && d'.lasting == d.lasting
    ensures RecordInv(entry, pending, d', latched)
  {
  }

  lemma ImportKeeps(st: State, f: Fence, rev: int, pol: Pol, o: WriteOracle)
    requires Inv(st) && HonestWrite(o) && 1 <= rev <= MAX_INT64
    ensures Inv(Import(st, f, rev, pol, o).st)
  {
    hide ImportFile, ImportLive;
    ImportFileKeeps(st, f, rev, pol, o);
    if st.s.fence.Some? { ImportLiveKeeps(st, f, rev, pol, o); }
  }

  lemma StepKeeps(st: State, e: Event)
    requires Inv(st)
    ensures Inv(Step(st, e))
  {
    hide Set, Import, RelayCommit;
    if Enabled(st, e) {
      match e
      case Setting(b, o) => SetKeeps(st, b, o);
      case Putting(_, pol, o) => if st.s.reg.Some? { RelayKeeps(st, pol, o); }
      case Deleting(o) => if st.s.reg.Some? { RelayKeeps(st, Deny, o); }
      case Importing(f, rev, pol, o) => ImportKeeps(st, f, rev, pol, o);
      case Removing(_, o) => PurgeKeeps(st.s.entry, st.s.pending, st.s.disk, st.latched, o.purge);
      case Purging(o) => PurgeKeeps(st.s.entry, st.s.pending, st.s.disk, st.latched, o.purge);
      case Evicting(o) => PurgeKeeps(st.s.entry, st.s.pending, st.s.disk, st.latched, o.purge);
      case _ =>
    }
  }

  lemma {:induction false} RunKeeps(disk: Disk, es: seq<Event>)
    requires DiskOk(disk)
    ensures Inv(Run(Init(disk), es))
  {
    if es != [] {
      RunKeeps(disk, es[..|es| - 1]);
      StepKeeps(Run(Init(disk), es[..|es| - 1]), es[|es| - 1]);
    }
  }

  /* ---- what runs guarantee ---- */

  /** Without the latch, a healthy file-backed record agrees with its file, in every reachable state. */
  lemma RecordAgreesWithFile(disk: Disk, es: seq<Event>)
    requires DiskOk(disk)
    requires var st := Run(Init(disk), es); !st.latched && Backed(st.s.entry)
    ensures var s := Run(Init(disk), es).s;
      s.pending.Some? && s.disk.file == Encoded(s.entry.value.fence, s.entry.value.rev, s.pending.value)
  {
    RunKeeps(disk, es);
  }

  /**
  An acknowledged binding leaves a record of its own fence. An acknowledged removal leaves none, or a
  deny; whether that deny is of its own fence is decided by the record it found.
  */
  lemma SetStampsRecord(disk: Disk, es: seq<Event>, b: Binding, o: SetOracle)
    requires DiskOk(disk)
    requires var st := Run(Init(disk), es); Enabled(st, Setting(b, o)) && Set(st, b, o).ack
    ensures var s := Set(Run(Init(disk), es), b, o).st.s;
      if !b.removal then s.entry.Some? && s.entry.value.fence == b.fence
      else
        && Admissible(Run(Init(disk), es).s, b, o)
        && (s.entry.None? <==> PurgeOk(o.clear)) && (s.entry.Some? ==> s.pending == Some(Deny))
        && (s.entry.None? || s.entry.value.fence == b.fence
            <==> PurgeOk(o.clear) || FoundOwn(SubjectRebind.BeforeRegister(Run(Init(disk), es), b, o).entry, b.fence))
  {
    RunKeeps(disk, es);
    SetKeeps(Run(Init(disk), es), b, o);
    hide Set;
  }

  /** The SET found no record, or one of its own fence. */
  predicate FoundOwn(entry: Option<Entry>, f: Fence) {
    entry.None? || entry.value.fence == f
  }

  /** What a relay write must leave alone when it fails cleanly. */
  predicate SameLive(s: Slot, s': Slot) {
    s'.entry == s.entry && s'.pending == s.pending && s'.reg == s.reg && s'.disk.file == s.disk.file && s'.disk.marker == s.disk.marker
  }

  /**
  For every store behaviour: an acknowledged relay write is in the file, durably, and in memory, and
  enforced if the subject is active; a failure without the latch changes neither file nor live state;
  every other outcome latches.
  */
  lemma RelayOutcomes(st: State, pol: Pol, o: WriteOracle)
    requires HonestWrite(o) && st.s.reg.Some?
    ensures var r := RelayCommit(st, pol, o);
      var s, s' := st.s, r.st.s;
      && (r.ack ==>
            && s'.disk.file == Encoded(s.reg.value.fence, CurrentRev(s) + 1, pol) && Synced(s'.disk)
            && s'.entry == Some(Entry(CurrentRev(s) + 1, s.reg.value.fence, false, false)) && s'.pending == Some(pol)
            && (s.reg.value.active ==> s'.reg.value.user == Some(pol) && s'.kernel == pol)
            && r.st.latched == st.latched)
      && (!r.ack ==> SameLive(s, s') || r.st.latched)
      && (!r.ack ==> s'.entry == s.entry && s'.pending == s.pending && s'.reg == s.reg)
  {
    hide Commits;
    CommitOutcomes(st.s.disk, Encoded(st.s.reg.value.fence, CurrentRev(st.s) + 1, pol), o.save, o.applies, o.restore);
  }

  /**
  Until the process restarts the latch stays, and no relay write, export or import has an effect.
  None is acknowledged either, but for the export of an unregistered subject.
  */
  lemma {:induction false} LatchFreezes(st: State, es: seq<Event>, i: nat)
    requires st.latched && i < |es| && forall e <- es :: !e.Restarting? && !e.LosingPower?
    ensures Run(st, es).latched
    ensures es[i].Putting? || es[i].Deleting? || es[i].ExportBeginning? || es[i].ExportSealing? || es[i].Importing? ==>
              && Run(st, es[..i + 1]) == Run(st, es[..i])
              && (Apply(Run(st, es[..i]), es[i]).ack <==> es[i].ExportBeginning? && Run(st, es[..i]).s.reg.None?)
  {
    var n := |es| - 1;
    if n > 0 { LatchFreezes(st, es[..n], if i < n then i else 0); }
    assert es[n] in es;
    LatchStays(Run(st, es[..n]), es[n]);
    if i < n {
      assert es[..n][..i + 1] == es[..i + 1] && es[..n][..i] == es[..i];
    } else {
      assert es[..i + 1] == es && es[..i] == es[..n];
    }
    hide Step, Apply;
  }

  lemma LatchStays(st: State, e: Event)
    requires st.latched && !e.Restarting? && !e.LosingPower?
    ensures Step(st, e).latched
    ensures e.Putting? || e.Deleting? || e.ExportBeginning? || e.ExportSealing? || e.Importing? ==>
              Step(st, e) == st && (Apply(st, e).ack <==> e.ExportBeginning? && st.s.reg.None?)
  {
  }

  predicate NotBelow(file: Image, f: Fence, rev: int) {
    file.Encoded? && file.fence == f && rev <= file.rev
  }

  /** An import that is not answered by the revision already there gets its bundle into the file, and it stays. */
  predicate Overwrites(st: State, f: Fence, o: WriteOracle) {
    && st.s.token.None? && ImportAllowed(st, f) && o.encodes && o.snapshots
    && o.save.landed && ((Confirmed(o.save) && ImportApplies(st.s, f, o)) || !o.restore.landed)
  }

  lemma CommitFile(d: Disk, image: Image, save: Write, applies: bool, restore: Write)
    requires HonestSave(save) && HonestSave(restore)
    ensures Commits(d, image, save, applies, restore).disk.file ==
              if save.landed && ((Confirmed(save) && applies) || !restore.landed) then image else d.file
  {
  }

  lemma ImportFileIs(st: State, f: Fence, rev: int, pol: Pol, o: WriteOracle)
    requires HonestWrite(o) && !Superseded(st.s, f, rev, o.compares)
    ensures Import(st, f, rev, pol, o).st.s.disk.file == if Overwrites(st, f, o) then Encoded(f, rev, pol) else st.s.disk.file
  {
    var s := st.s;
    CommitFile(s.disk, Encoded(f, rev, pol), o.save, ImportApplies(s, f, o), o.restore);
    CommitOutcomes(s.disk, Encoded(f, rev, pol), o.save, ImportApplies(s, f, o), o.restore);
    var c := Commits(s.disk, Encoded(f, rev, pol), o.save, ImportApplies(s, f, o), o.restore);
    InstalledRecord(s.(disk := c.disk), f, rev, pol, o, c.ok);
    hide Commits, Installed, Superseded;
  }

  /**
  An import keeps the revision of an existing file of the same fence from falling exactly when it
  could compare the two, carries no older one, or did not get its bundle into the file.
  */
  lemma ImportRollsBackExactly(st: State, f: Fence, rev: int, pol: Pol, o: WriteOracle)
    requires HonestWrite(o) && FileOf(st.s.disk.file, f)
    ensures NotBelow(Import(st, f, rev, pol, o).st.s.disk.file, f, st.s.disk.file.rev)
            <==> o.compares || rev >= st.s.disk.file.rev || !Overwrites(st, f, o)
  {
    if !Superseded(st.s, f, rev, o.compares) { ImportFileIs(st, f, rev, pol, o); }
    hide ImportFile, ImportLive, Overwrites;
  }

  predicate FileOf(file: Image, f: Fence) {
    file.Encoded? && file.fence == f
  }

  /* ---- the relay's compare-and-swap chain ---- */

  /** The revision of the record: the live one or, between a restart and the replayed SET, the one in the file. */
  function RecordRev(s: Slot, f: Fence): int {
    if s.entry.None? && s.reg.None? && FileOf(s.disk.file, f) then s.disk.file.rev else CurrentRev(s)
  }

  /**
  Events under which the record of `f` lives on: relay writes, hooks, exports, replays of its own SET,
  and restarts, after which the replay must be able to read the file.
  */
  predicate Quiet(st: State, f: Fence, e: Event) {
    var s := st.s;
    match e
    case Putting(_, _, _) => true
    case Deleting(_) => true
    case Hooking(_, _, _) => true
    case ExportBeginning(_) => true
    case ExportSealing(c, _, _) => s.entry.Some? ==> s.entry.value.fence == c.fence
    case LatchingElsewhere => true
    case TearingElsewhere(_) => true
    case Setting(b, o) =>
      && !b.removal && b.fence == f && s.token.None? && (s.reg.Some? ==> s.reg.value.fence == f)
      && (if s.entry.Some? then s.entry.value.fence == f else s.reg.None? && FileOf(s.disk.file, f) && o.readable)
    case Restarting =>
      if s.entry.Some? then !st.latched && Backed(s.entry) && s.entry.value.fence == f
      else s.reg.None? || !FileOf(s.disk.file, f)
    case _ => false
  }

  /** The event is an acknowledged PUT or DELETE. */
  predicate Acked(st: State, e: Event) {
    (e.Putting? || e.Deleting?) && Enabled(st, e) && Apply(st, e).ack
  }

  /** A replayed SET leaves a live record alone, and takes the record of a restarted process from its file. */
  lemma ReplayLeavesRecord(st: State, f: Fence, b: Binding, o: SetOracle)
    requires Quiet(st, f, Setting(b, o))
    ensures RecordRev(Set(st, b, o).st.s, f) == RecordRev(st.s, f)
  {
    if Admissible(st.s, b, o) {
      var att := Attachment(st.s, b).value;
      assert Intent(st.s, f, att) == st.s.token;
      var c := Cleanup(st.s, o);
      assert c.s == st.s.(reg := c.s.reg, rules := c.s.rules, kernel := c.s.kernel) && (c.s.reg.None? <==> st.s.reg.None?);
      var s1 := Rehydrate(c.s, f, o);
      assert c.ok ==> s1.entry.Some? && s1.entry.value.fence == f && s1.entry.value.rev == RecordRev(st.s, f);
      RegisterRecord(s1.(att := Some(att)), f, att.ip, o);
      hide Attachment, Rehydrate, Cleanup, Register, SeedFresh;
    }
  }

  lemma QuietRev(st: State, f: Fence, e: Event)
    requires Inv(st) && Quiet(st, f, e)
    ensures RecordRev(Step(st, e).s, f) == RecordRev(st.s, f) + if Acked(st, e) then 1 else 0
  {
    if e.Setting? { ReplayLeavesRecord(st, f, e.b, e.outcome); }
    hide Set, Commits;
  }

  predicate QuietRun(st: State, f: Fence, es: seq<Event>) {
    es == [] || (QuietRun(st, f, es[..|es| - 1]) && Quiet(Run(st, es[..|es| - 1]), f, es[|es| - 1]))
  }

  function Acks(st: State, es: seq<Event>): nat {
    if es == [] then 0
    else Acks(st, es[..|es| - 1]) + if Acked(Run(st, es[..|es| - 1]), es[|es| - 1]) then 1 else 0
  }

  /** Acknowledged writes on one record form a chain, across restarts: each revision is its predecessor's plus one. */
  lemma {:induction false} RevisionsChain(st: State, f: Fence, es: seq<Event>)
    requires Inv(st) && QuietRun(st, f, es)
    ensures Inv(Run(st, es)) && RecordRev(Run(st, es).s, f) == RecordRev(st.s, f) + Acks(st, es)
  {
    hide Inv, Step, Quiet, RecordRev, Acked;
    if es != [] {
      RevisionsChain(st, f, es[..|es| - 1]);
      QuietRev(Run(st, es[..|es| - 1]), f, es[|es| - 1]);
      StepKeeps(Run(st, es[..|es| - 1]), es[|es| - 1]);
    }
  }

  lemma {:induction false} PrefixQuiet(st: State, f: Fence, es: seq<Event>, i: nat)
    requires QuietRun(st, f, es) && i <= |es|
    ensures QuietRun(st, f, es[..i]) && Acks(st, es[..i]) <= Acks(st, es)
  {
    hide Quiet, Acked;
    if i == |es| {
      assert es[..i] == es;
    } else {
      PrefixQuiet(st, f, es[..|es| - 1], i);
      assert es[..|es| - 1][..i] == es[..i];
    }
  }

  lemma WinnerExpects(st: State, f: Fence, e: Event)
    requires e.Putting? && e.expected.Some? && Acked(st, e)
    ensures e.expected.value == RecordRev(st.s, f)
  {
  }

  /** Of conditional PUTs racing on one revision of a record at most one is acknowledged, restarts between them included. */
  lemma AtMostOneWins(st: State, f: Fence, es: seq<Event>, i: nat, j: nat)
    requires Inv(st) && QuietRun(st, f, es) && i < j < |es| && es[i].Putting? && es[j].Putting?
    requires es[i].expected.Some? && es[j].expected == es[i].expected
    ensures !(Acked(Run(st, es[..i]), es[i]) && Acked(Run(st, es[..j]), es[j]))
  {
    hide Inv, Quiet, RecordRev, Acked;
    PrefixQuiet(st, f, es, j);
    PrefixQuiet(st, f, es[..j], i + 1);
    assert es[..j][..i + 1] == es[..i + 1] && es[..i + 1][..i] == es[..i];
    RevisionsChain(st, f, es[..i]);
    RevisionsChain(st, f, es[..j]);
    if Acked(Run(st, es[..i]), es[i]) && Acked(Run(st, es[..j]), es[j]) {
      WinnerExpects(Run(st, es[..i]), f, es[i]);
      WinnerExpects(Run(st, es[..j]), f, es[j]);
    }
  }
}
