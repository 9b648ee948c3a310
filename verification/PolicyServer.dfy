/**
The policy server as the source writes it: per-subject records and files changed in place by the
action handlers, the relay and the snapshot transfer. Every method is proved against the step of
the subject it is for, and leaves every other subject alone.
*/
module PolicyServer {
  import opened Basics
  import opened PolicyFiles
  import opened SubjectPlane

  const EMPTY := Init(Disk(Absent, {Absent}, false)).s

  class Server {
    var slots: map<Subject, Slot>
    var latched: bool

    constructor (files: map<Subject, Disk>)
      ensures !latched && forall u :: At(u) == if u in files then Init(files[u]).s else EMPTY
    {
      slots := map u | u in files :: Init(files[u]).s;
      latched := false;
    }

    function At(u: Subject): Slot
      reads this`slots
    {
      if u in slots then slots[u] else EMPTY
    }

    ghost function View(u: Subject): State
      reads this
    {
      State(At(u), latched)
    }

    twostate predicate Others(u: Subject)
      reads this
    {
      forall v :: v != u ==> At(v) == old(At(v))
    }

    method Store(u: Subject, s: Slot)
      modifies this`slots
      ensures At(u) == s && Others(u)
    {
      slots := slots[u := s];
    }

    /** Tear down kernel and redirect state. */
    method UnloadEnforcement(u: Subject, t: Teardown) returns (ok: bool)
      modifies this`slots
      ensures At(u) == AfterTear(old(At(u)), t) && Others(u) && (ok <==> t.Torn?)
    {
      ok := t.Torn?;
      if t.Torn? || t.rulesGone { Store(u, At(u).(rules := {}, kernel := Deny)); }
    }

    method PurgeFile(u: Subject, p: Purge) returns (ok: bool)
      modifies this`slots
      ensures At(u) == old(At(u)).(disk := Purged(old(At(u)).disk, p)) && Others(u) && (ok <==> PurgeOk(p))
    {
      var d := Unlinked(At(u).disk, p.unlink);
      if !p.unlink.Removed? {
        Store(u, At(u).(disk := d));
        return false;
      }
      Store(u, At(u).(disk := d.(marker := d.marker && !p.unseals)));
      ok := p.unseals;
    }

    method DropSubjectState(u: Subject, allowed: bool, p: Purge) returns (ok: bool)
      modifies this`slots
      ensures At(u) == (if allowed then Dropped(old(At(u)), p) else old(At(u))) && Others(u) && ok == allowed
    {
      if !allowed { return false; }
      Store(u, At(u).(entry := None));
      var _ := PurgeFile(u, p);
      Store(u, At(u).(fence := None, pending := None, att := None));
      return true;
    }

    /**
    Save, apply, acknowledge. `applies` is the outcome of the caller's apply step, which runs only
    once the save is confirmed.
    */
    method PersistCandidate(u: Subject, image: Image, save: Write, applies: bool, restore: Write) returns (ok: bool)
      modifies this
      ensures var c := Commits(old(At(u)).disk, image, save, applies, restore);
        At(u) == old(At(u)).(disk := c.disk) && ok == c.ok && latched == (old(latched) || c.latch) && Others(u)
      ensures ok ==> latched == old(latched)
    {
      var before := At(u).disk.file;
      if NoEffect(save) { return false; }
      Store(u, At(u).(disk := Written(At(u).disk, image, save)));
      if !Confirmed(save) {
        latched := true;
        Store(u, At(u).(disk := Written(At(u).disk, before, restore)));
        return false;
      }
      if !applies {
        Store(u, At(u).(disk := Written(At(u).disk, before, restore)));
        if !Confirmed(restore) { latched := true; }
        return false;
      }
      return true;
    }

    /** Kernel first, registry after. */
    method ApplyPolicy(u: Subject, pol: Pol, ok: bool, landed: bool)
      modifies this`slots
      ensures At(u) == Enforced(old(At(u)), true, pol, ok, landed) && Others(u)
    {
      if At(u).reg.None? { return; }
      if ok || landed { Store(u, At(u).(kernel := pol)); }
      if ok { Store(u, At(u).(reg := Some(At(u).reg.value.(active := true, user := Some(pol))))); }
    }

    /** The staged cleanup of a rebind, resumed where an earlier attempt left off. */
    method CleanUp(u: Subject, o: SetOracle) returns (ok: bool)
      modifies this`slots
      ensures At(u) == Cleanup(old(At(u)), o).s && ok == Cleanup(old(At(u)), o).ok && Others(u)
    {
      if At(u).token.None? {
        if At(u).reg.None? || KnownNet(At(u)).Some? { return true; }
        ok := UnloadEnforcement(u, o.tear);
        if ok { Store(u, At(u).(reg := Some(At(u).reg.value.(active := false, user := None)))); }
        return;
      }
      if At(u).token.value.needsReset {
        ok := UnloadEnforcement(u, o.tear);
        if !ok { return; }
        Store(u, At(u).(reg := None, mirror := Unloaded(At(u).mirror, At(u).token.value.from)));
        ok := DropSubjectState(u, o.dropAllowed, o.purge);
        if !ok { return; }
        Store(u, At(u).(token := Some(At(u).token.value.(needsReset := false, oldRemoved := true, purged := true))));
      }
      if !At(u).token.value.purged {
        Store(u, At(u).(mirror := Unloaded(At(u).mirror, At(u).token.value.from)));
        ok := DropSubjectState(u, o.dropAllowed, o.purge);
        if !ok { return; }
        Store(u, At(u).(token := Some(At(u).token.value.(purged := true))));
      }
      if At(u).token.value.removeOld && !At(u).token.value.oldRemoved {
        ok := UnloadEnforcement(u, o.removes);
        if !ok { return; }
        Store(u, At(u).(token := Some(At(u).token.value.(oldRemoved := true))));
      }
      return true;
    }

    method RehydratePolicy(u: Subject, f: Fence, o: SetOracle)
      modifies this`slots
      ensures At(u) == Rehydrate(old(At(u)), f, o) && Others(u)
    {
      var file := At(u).disk.file;
      if At(u).entry.Some? {
        if At(u).entry.value.fence == f { return; }
        Store(u, At(u).(entry := None));
      }
      if !o.readable || file.Newer? {
        Store(u, Degraded(At(u), f));
        return;
      }
      if file.Absent? {
        if At(u).disk.marker { Store(u, At(u).(entry := Some(Entry(0, f, true, false)), pending := Some(Deny))); }
        return;
      }
      if file.Encoded? && file.fence == f {
        Store(u, At(u).(entry := Some(Entry(file.rev, f, At(u).disk.marker, false)), pending := Some(file.pol)));
        return;
      }
      Store(u, At(u).(disk := Unlinked(At(u).disk, o.discard)));
      if file.Corrupt? || (file.Unparseable? && file.fence == f) { Store(u, Degraded(At(u), f)); }
    }

    method RegisterAndEnforce(u: Subject, f: Fence, ip: IP, o: SetOracle) returns (ok: bool)
      modifies this`slots
      ensures At(u) == Register(old(At(u)), f, ip, o).s && ok == Register(old(At(u)), f, ip, o).ok && Others(u)
    {
      var r := At(u).reg;
      if r.Some? && r.value.fence == f {
        if r.value.ip != ip && !o.takeover { return false; }
        if r.value.active {
          Store(u, At(u).(reg := Some(r.value.(ip := ip))));
          return true;
        }
      } else if r.Some? {
        Store(u, At(u).(reg := None));
      }
      if !o.takeover { return false; }
      Store(u, At(u).(reg := Some(Reg(f, ip, false, None))));
      if o.enforces || o.enforceLanded { Store(u, At(u).(rules := At(u).rules + {ip}, kernel := Deny)); }
      return o.enforces;
    }

    method SeedRecord(u: Subject, f: Fence, input: Pol, o: SetOracle) returns (ok: bool)
      modifies this
      ensures var r := SeedFresh(old(At(u)), old(latched), f, input, o); View(u) == r.st && ok == r.ack && Others(u)
    {
      hide Commits;
      if !o.encodes || !o.snapshots { return false; }
      var active := At(u).reg.Some? && At(u).reg.value.active;
      ok := PersistCandidate(u, Encoded(f, 1, input), o.save, !active || o.applies, o.restore);
      if Confirmed(o.save) && active { ApplyPolicy(u, input, o.applies, o.applyLanded); }
      if ok { Store(u, At(u).(entry := Some(Entry(1, f, false, false)), pending := Some(input))); }
    }

    method SeedBinding(u: Subject, f: Fence, input: Pol, o: SetOracle) returns (ok: bool)
      modifies this
      ensures var r := Seed(old(At(u)), old(latched), f, input, o); View(u) == r.st && ok == r.ack && Others(u)
    {
      hide SeedFresh, Purged;
      if At(u).entry.Some? && At(u).entry.value.fence != f {
        Store(u, At(u).(entry := None));
        var _ := PurgeFile(u, o.purge);
      }
      if At(u).entry.Some? { return true; }
      ok := SeedRecord(u, f, input, o);
    }

    method ClearPolicyRecord(u: Subject, o: SetOracle) returns (ok: bool)
      modifies this
      ensures var r := ClearRecord(old(At(u)), old(latched), o); View(u) == r.st && ok == r.ack && Others(u)
    {
      hide Commits, Purged;
      var e := At(u).entry;
      if e.None? {
        ok := PurgeFile(u, o.clear);
        return;
      }
      Store(u, At(u).(entry := None, pending := None));
      ok := PurgeFile(u, o.clear);
      if ok { return; }
      if !o.encodes || e.value.rev + 1 > MAX_INT64 || !o.snapshots { return false; }
      ok := PersistCandidate(u, Encoded(e.value.fence, e.value.rev + 1, Deny), o.save, true, o.restore);
      if ok { Store(u, At(u).(entry := Some(Entry(e.value.rev + 1, e.value.fence, false, false)), pending := Some(Deny))); }
    }

    method UnbindPolicy(u: Subject, o: SetOracle) returns (ok: bool)
      modifies this
      ensures var r := Unbind(old(At(u)), old(latched), o); View(u) == r.st && ok == r.ack && Others(u)
    {
      Store(u, At(u).(pending := None));
      ok := ClearPolicyRecord(u, o);
      if !ok { return; }
      var r := At(u).reg;
      if r.Some? && r.value.active {
        if o.reverts || o.enforceLanded { Store(u, At(u).(rules := At(u).rules + {r.value.ip}, kernel := Deny)); }
        if !o.reverts { return false; }
        Store(u, At(u).(reg := Some(r.value.(active := false, user := None))));
      }
    }

    /** SET_BINDING, under the action gate and the policy commit lock. */
    method SetBinding(u: Subject, b: Binding, o: SetOracle) returns (ack: bool)
      modifies this
      ensures View(u) == Set(old(View(u)), b, o).st && ack == Set(old(View(u)), b, o).ack && Others(u)
    {
      hide Cleanup, Rehydrate, Register, Seed, Unbind, Intent, Attachment;
      if !Admissible(At(u), b, o) { return false; }
      var att := Attachment(At(u), b).value;
      Store(u, At(u).(token := Intent(At(u), b.fence, att)));
      var ok := CleanUp(u, o);
      if !ok { return false; }
      if !b.removal { RehydratePolicy(u, b.fence, o); }
      Store(u, At(u).(att := Some(att)));
      ok := RegisterAndEnforce(u, b.fence, att.ip, o);
      if !ok { return false; }
      Store(u, At(u).(fence := Some(b.fence), mirror := Some(b.fence)));
      if b.removal { ack := UnbindPolicy(u, o); } else { ack := SeedBinding(u, b.fence, b.input, o); }
      if ack { Store(u, At(u).(token := None)); }
    }

    /** LIFECYCLE_HOOK data-plane-ready. */
    method DataPlaneReady(u: Subject, f: Fence, applies: bool, landed: bool) returns (ack: bool)
      modifies this
      ensures View(u) == Hook(old(View(u)), f, applies, landed).st && ack == Hook(old(View(u)), f, applies, landed).ack && Others(u)
    {
      var s := At(u);
      if s.token.Some? || s.reg.None? || s.reg.value.fence != f { return false; }
      if s.fence != Some(f) || s.pending.None? { return false; }
      ApplyPolicy(u, s.pending.value, applies, landed);
      return applies;
    }

    /** REMOVE_BINDING up to the removal of enforcement. */
    method BeginRemove(u: Subject, f: Fence, o: RemoveOracle) returns (ack: bool)
      modifies this
      ensures View(u) == RemoveBegin(old(View(u)), f, o).st && ack == RemoveBegin(old(View(u)), f, o).ack && Others(u)
    {
      var s := At(u);
      if s.token.Some? && s.token.value.to != f { return true; }
      if s.token.None? && s.reg.Some? && s.reg.value.fence != f { return true; }
      if !o.purgeAllowed { return false; }
      if s.token.None? && s.reg.None? {
        var _ := DropSubjectState(u, o.dropAllowed, o.purge);
        return true;
      }
      var ok := UnloadEnforcement(u, o.tear);
      if ok {
        Store(u, At(u).(removing := Some(Removal(if s.reg.Some? then Some(s.reg.value.fence) else None, s.token))));
      }
      return false;
    }

    method Unregister(u: Subject)
      modifies this
      ensures View(u) == RemoveUnregister(old(View(u))) && Others(u)
    {
      Store(u, At(u).(reg := None));
    }

    /** The last section of REMOVE_BINDING: retire the drain's mirror and purge. */
    method FinishRemove(u: Subject, o: RemoveOracle) returns (ack: bool)
      requires At(u).removing.Some?
      modifies this
      ensures View(u) == RemovePurge(old(View(u)), o).st && ack == RemovePurge(old(View(u)), o).ack && Others(u)
    {
      var r := At(u).removing.value;
      var mirror := At(u).mirror;
      if r.registered.Some? { mirror := Unloaded(mirror, r.registered.value); }
      else if mirror.Some? { mirror := Unloaded(mirror, mirror.value); }
      Store(u, At(u).(removing := None, mirror := mirror));
      ack := DropSubjectState(u, o.dropAllowed, o.purge);
      if ack && r.token.Some? && At(u).token == r.token { Store(u, At(u).(token := None)); }
    }

    /** Another subject's registration claimed this one's address and tore it down. */
    method EvictVictim(u: Subject, o: RemoveOracle)
      modifies this
      ensures View(u) == Evict(old(View(u)), o) && Others(u)
    {
      var _ := UnloadEnforcement(u, Torn);
      Store(u, At(u).(reg := None));
      if At(u).fence.Some? { Store(u, At(u).(mirror := Unloaded(At(u).mirror, At(u).fence.value))); }
      var ok := DropSubjectState(u, o.dropAllowed, o.purge);
      if ok { Store(u, At(u).(token := None)); }
    }

    method CommitRelay(u: Subject, pol: Pol, o: WriteOracle) returns (ack: bool)
      requires At(u).reg.Some?
      modifies this
      ensures var r := RelayCommit(old(View(u)), pol, o); View(u) == r.st && ack == r.ack && Others(u)
    {
      hide Commits;
      var f, rev, active := At(u).reg.value.fence, CurrentRev(At(u)) + 1, At(u).reg.value.active;
      if !o.encodes || rev > MAX_INT64 || !o.snapshots { return false; }
      ack := PersistCandidate(u, Encoded(f, rev, pol), o.save, o.applies, o.restore);
      if Confirmed(o.save) && active { ApplyPolicy(u, pol, o.applies, o.applyLanded); }
      if ack { Store(u, At(u).(entry := Some(Entry(rev, f, false, false)), pending := Some(pol))); }
    }

    /** A relay PUT with its optional revision precondition. */
    method PutPolicy(u: Subject, expected: Option<int>, pol: Pol, o: WriteOracle) returns (ack: bool)
      modifies this
      ensures var r := Put(old(View(u)), expected, pol, o); View(u) == r.st && ack == r.ack && Others(u)
    {
      hide RelayCommit;
      var s := At(u);
      if s.token.Some? || s.reg.None? || s.fence != Some(s.reg.value.fence) { return false; }
      if IsSealed(s) || latched { return false; }
      if expected.Some? && (s.entry.None? || expected.value != CurrentRev(s)) { return false; }
      ack := CommitRelay(u, pol, o);
    }

    method DeletePolicy(u: Subject, o: WriteOracle) returns (ack: bool)
      modifies this
      ensures var r := Delete(old(View(u)), o); View(u) == r.st && ack == r.ack && Others(u)
    {
      hide RelayCommit;
      var s := At(u);
      if s.token.Some? || s.reg.None? || s.fence != Some(s.reg.value.fence) { return false; }
      if IsSealed(s) || latched || s.entry.None? { return false; }
      ack := CommitRelay(u, Deny, o);
    }

    /** The first phase of an export: acknowledged at once for an unregistered subject, otherwise the image to copy. */
    method BeginExport(u: Subject, f: Fence) returns (ack: bool)
      modifies this
      ensures var r := ExportBegin(old(View(u)), f); View(u) == r.st && ack == r.ack && Others(u)
    {
      var s := At(u);
      if s.reg.None? { return true; }
      if s.token.Some? || s.reg.value.fence != f || s.fence != Some(f) || latched { return false; }
      Store(u, s.(captures := s.captures + {Capture(f, Attributable(s.disk.file, f))}));
      return false;
    }

    /** The sealing phase of an export, after the unlocked copy of `c`. */
    method SealExport(u: Subject, c: Capture, seal: bool, marks: bool) returns (ack: bool)
      modifies this
      ensures var r := ExportSeal(old(View(u)), c, seal, marks); View(u) == r.st && ack == r.ack && Others(u)
    {
      if !ExportAllowed(State(At(u), latched), c.fence) || Attributable(At(u).disk.file, c.fence) != c.image { return false; }
      if !seal { return true; }
      if !marks { return false; }
      Store(u, At(u).(disk := At(u).disk.(marker := true), bundle := c.image));
      if At(u).entry.None? || At(u).entry.value.fence != c.fence { Store(u, At(u).(entry := Some(Entry(0, c.fence, false, false)))); }
      Store(u, At(u).(entry := Some(At(u).entry.value.(sealed := true))));
      return true;
    }

    /** Remove the marker, and put it back if what the unseal was for failed. */
    method LiftSeal(u: Subject, unseals: bool, reseals: bool)
      modifies this`slots
      ensures var d := old(At(u)).disk;
        At(u) == old(At(u)).(disk := d.(marker := reseals || (d.marker && !unseals))) && Others(u)
    {
      if unseals { Store(u, At(u).(disk := At(u).disk.(marker := false))); }
      if reseals { Store(u, At(u).(disk := At(u).disk.(marker := true))); }
    }

    /** An import before registration: the file lands, the record goes and the seal is lifted. */
    method LandBundle(u: Subject, f: Fence, rev: int, pol: Pol, o: WriteOracle) returns (ack: bool)
      modifies this
      ensures var r := ImportFile(old(View(u)), f, rev, pol, o); View(u) == r.st && ack == r.ack && Others(u)
    {
      hide Commits;
      ack := PersistCandidate(u, Encoded(f, rev, pol), o.save, o.unseals, o.restore);
      if Confirmed(o.save) {
        Store(u, At(u).(entry := None));
        LiftSeal(u, o.unseals, false);
      }
    }

    /** Unseal, enforce if active, install; reseal if that failed. */
    method InstallImported(u: Subject, f: Fence, rev: int, pol: Pol, o: WriteOracle, ok: bool)
      modifies this`slots
      ensures At(u) == Installed(old(At(u)), f, rev, pol, o, ok) && Others(u)
    {
      hide Confirmed;
      var s := At(u);
      if !Confirmed(o.save) { return; }
      if (!IsSealed(s) || o.unseals) && s.reg.Some? && s.reg.value.fence == f && s.reg.value.active {
        ApplyPolicy(u, pol, o.applies, o.applyLanded);
      }
      assert At(u).disk == s.disk;
      if IsSealed(s) { LiftSeal(u, o.unseals, !ok && o.reseals); }
      if ok { Store(u, At(u).(entry := Some(Entry(rev, f, false, false)), pending := Some(pol))); }
    }

    /** An import under a published fence. */
    method ImportRegistered(u: Subject, f: Fence, rev: int, pol: Pol, o: WriteOracle) returns (ack: bool)
      modifies this
      ensures var r := ImportLive(old(View(u)), f, rev, pol, o); View(u) == r.st && ack == r.ack && Others(u)
    {
      hide Commits, Installed;
      var s := At(u);
      var installs := (!IsSealed(s) || o.unseals) && s.reg.Some? && s.reg.value.fence == f && (!s.reg.value.active || o.applies);
      ack := PersistCandidate(u, Encoded(f, rev, pol), o.save, installs, o.restore);
      InstallImported(u, f, rev, pol, o, ack);
    }

    /** An import, re-stamped with the restored fence; a newer file of that fence acknowledges it unread. */
    method ImportPolicy(u: Subject, f: Fence, rev: int, pol: Pol, o: WriteOracle) returns (ack: bool)
      modifies this
      ensures var r := Import(old(View(u)), f, rev, pol, o); View(u) == r.st && ack == r.ack && Others(u)
    {
      hide ImportFile, ImportLive;
      var s := At(u);
      if latched || s.token.Some? { return false; }
      if Superseded(s, f, rev, o.compares) { return true; }
      if (s.fence.Some? && !FenceMatches(s, f)) || !o.encodes || !o.snapshots { return false; }
      if s.fence.None? { ack := LandBundle(u, f, rev, pol, o); } else { ack := ImportRegistered(u, f, rev, pol, o); }
    }
  }
}
