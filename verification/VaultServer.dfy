/**
The strict owner record and the vault slice as the source keeps them: two files and one live slice,
changed in place under the owner lock. Every method is proved against its step.
*/
module VaultServer {
  import opened Basics
  import opened PolicyFiles
  import opened VaultFiles
  import opened VaultWriter

  class OwnedVault {
    var record: Option<OwnerRecord>
    var file: VaultImage
    var slice: Option<Slice>
    var live: Option<Owner>
    var published: Option<Fence>
    var latched: bool
    var dispatched: seq<Dispatch>

    function View(): State
      reads this
    {
      State(record, file, slice, live, published, latched, dispatched)
    }

    constructor ()
      ensures View() == Start()
    {
      record, file, slice, live, published, latched, dispatched := None, NoFile, None, None, None, false, [];
    }

    /** Rewrite the durable record; only a confirmed write lets the caller go on. */
    method WriteOwnerRecord(owner: Owner, phase: Phase, w: Write) returns (ok: bool)
      modifies this`record
      ensures record == Saved(old(record), WithPhase(old(record), owner, phase), w) && (ok <==> Confirmed(w))
    {
      var next := if record.Some? then record.value else OwnerRecord(owner, phase, None);
      next := next.(phase := phase);
      if w.landed { record := Some(next); }
      ok := w.state.Committed? && !w.failed;
    }

    method RetireWriterVault(o: ActionOracle) returns (ok: bool)
      requires record.Some?
      modifies this`file, this`slice, this`latched
      ensures (View(), ok) == RetireVault(old(View()), o)
    {
      if latched || !o.vaultReadable { return false; }
      if !file.NoFile? {
        if !WriterFile(file, record.value) { return false; }
        match o.unlink {
          case Removed => file := NoFile;
          case NotTried => return false;
          case Uncertain(landed, _) =>
            if landed { file := NoFile; }
            latched := true;
            return false;
        }
      }
      slice := None;
      return true;
    }

    /** The terminal action: retire the vault, dispatch, then record the terminal phase. */
    method RemoveOwner(owner: Owner, o: ActionOracle)
      modifies this
      ensures View() == Remove(old(View()), owner, o)
    {
      var before := record;
      if before.Some? && before.value.phase.Retired? { return; }
      var ok := WriteOwnerRecord(owner, Retiring, o.save);
      if !ok { return; }
      if before.None? {
        var _ := WriteOwnerRecord(owner, Retired, o.final);
        return;
      }
      if before.value.contract.Some? {
        ok := RetireWriterVault(o);
        if !ok { return; }
      }
      dispatched := dispatched + [Dispatch(RemoveOp, record)];
      if !o.dispatches { return; }
      ok := WriteOwnerRecord(owner, Retired, o.final);
      published, slice := None, None;
      if ok && live == Some(owner) { live := None; }
    }

    /** One Actions v2 request. */
    method HandleAction(op: Op, owner: Owner, o: ActionOracle)
      requires HonestAction(o)
      modifies this
      ensures View() == Act(old(View()), op, owner, o)
    {
      if !o.readable || !Admitted(record, op, owner, o.clean) { return; }
      match op {
        case HookOp =>
          dispatched := dispatched + [Dispatch(HookOp, record)];
        case SetOp =>
          var ok := WriteOwnerRecord(owner, Active, o.save);
          if !ok { return; }
          if o.reloads { ReloadSlice(owner); }
          dispatched := dispatched + [Dispatch(SetOp, record)];
          if o.dispatches { live, published := Some(owner), Some(owner.fence); }
        case RemoveOp =>
          RemoveOwner(owner, o);
      }
    }

    method ReloadSlice(owner: Owner)
      modifies this`slice
      ensures View() == Reloaded(old(View()), owner)
    {
      if record.None? || record.value.contract.None? { return; }
      if slice.None? || slice.value.fence != owner.fence || !slice.value.verified {
        slice := Some(Slice(owner.fence, true, true, false, false, NoFile));
      }
    }

    method VerifyVault(owner: Owner, o: InitOracle) returns (ok: bool)
      requires record.Some?
      modifies this`slice
      ensures (View(), ok) == Verify(old(View()), owner, o)
    {
      slice := Some(Unverified(owner.fence));
      if !o.readable || !WriterFile(file, record.value) { return false; }
      if file.state.ActiveState? && !o.accepts { return false; }
      slice := Some(Slice(owner.fence, false, true, true, false, file));
      return true;
    }

    /** Verify an existing contract, or consume a fresh grant: owner first, then the empty file. */
    method InitializeVault(owner: Owner, c: Contract, grant: bool, o: InitOracle) returns (ok: bool)
      requires HonestInit(o)
      modifies this
      ensures (View(), ok) == Initialize(old(View()), owner, c, grant, o)
    {
      if !WriterAllowed(View(), owner) || latched || o.blocked || published != Some(owner.fence) { return false; }
      if !grant {
        if record.value.contract != Some(c) { return false; }
        ok := VerifyVault(owner, o);
        return;
      }
      if record.value.contract.Some? || !o.emptySource || !file.NoFile? { return false; }
      var before := record;
      if o.ownerSave.landed { record := Some(before.value.(contract := Some(c))); }
      if !Confirmed(o.ownerSave) {
        if !o.ownerSave.state.Unchanged? { latched := true; }
        return false;
      }
      if o.vaultSave.landed { file := V2(owner.fence, EmptyState, c.lineage, c.initialization, 1, 0); }
      if Confirmed(o.vaultSave) {
        ok := VerifyVault(owner, o);
        return;
      }
      if !o.vaultSave.state.Unchanged? {
        latched, slice := true, Some(Unverified(owner.fence));
        return false;
      }
      if o.rollback.landed { record := before; }
      if !Confirmed(o.rollback) {
        slice := Some(Unverified(owner.fence));
        if !o.rollback.state.Unchanged? { latched := true; }
      }
      return false;
    }

    /** One conditional mutation of the vault state. */
    method MutateVault(owner: Owner, expected: Token, m: Mutation, o: MutateOracle) returns (ok: bool)
      modifies this`file, this`slice, this`latched
      ensures (View(), ok) == Mutate(old(View()), owner, expected, m, o)
    {
      if !WriterAllowed(View(), owner) || record.value.contract.None? { return false; }
      if slice.None? || !slice.value.verified || slice.value.unknown || slice.value.sealed || latched || o.blocked { return false; }
      if !o.readable || !WriterFile(file, record.value) || file != slice.value.meta {
        slice := Some(slice.value.(verified := false, unknown := true));
        return false;
      }
      if expected != Token(file.lineage, file.seqno) { return false; }
      if file.seqno == MAX_UINT64 || (m.Replace? && file.rev == MAX_INT64) || !o.prepares { return false; }
      var before := file;
      var next := NextFile(file, m, o.rev);
      if NoEffect(o.save) { return false; }
      if o.save.landed { file := next; }
      if !Confirmed(o.save) {
        latched := true;
        if o.restore.landed { file := before; }
        return false;
      }
      if !o.applies {
        if o.restore.landed { file := before; }
        if !Confirmed(o.restore) { latched := true; }
        return false;
      }
      slice := Some(slice.value.(meta := next));
      return true;
    }
  }
}
