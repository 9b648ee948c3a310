/**
The per-subject policy file and the persist, apply, acknowledge protocol around it.

A file operation reports a three-state classification and an error. What it really did is kept
apart: whether the new image is in place, and which images a power loss could leave.
*/
module PolicyFiles {
  import opened Basics

  /** The default-deny policy, or any other. */
  datatype Pol = Deny | Rules(body: string)

  datatype Image =
    | Absent
    | Encoded(fence: Fence, rev: int, pol: Pol)
    | Unparseable(fence: Fence, rev: int)   // the envelope decodes, the policy in it does not
    | Corrupt
    | Newer                                 // written under a newer schema

  /** The file as the process sees it, the images a power loss may leave, and the seal marker beside it. */
  datatype Disk = Disk(file: Image, lasting: set<Image>, marker: bool)

  /** A file whose every change is on stable storage. */
  predicate Synced(d: Disk) {
    d.lasting == {d.file}
  }

  datatype FileState = Unchanged | Committed | Unknown

  /** `torn` is a rename of bytes that were never synced: a power loss may leave garbage in their place. */
  datatype Write = Write(state: FileState, failed: bool, landed: bool, durable: bool, torn: bool)

  predicate Confirmed(w: Write) {
    w.state.Committed? && !w.failed
  }

  /** A failure before any rename or unlink was attempted. */
  predicate NoEffect(w: Write) {
    w.state.Unchanged? && w.failed
  }

  predicate Consistent(w: Write) {
    (w.durable ==> w.landed) && (NoEffect(w) ==> !w.landed)
  }

  /** A durable save or restore. */
  predicate HonestSave(w: Write) {
    Consistent(w) && !w.torn && (Confirmed(w) ==> w.landed && w.durable) && (w.state.Unchanged? ==> w.failed)
  }

  /** A save without durability barriers promises only the rename. */
  predicate HonestSeed(w: Write) {
    Consistent(w) && (Confirmed(w) ==> w.landed) && (w.state.Unchanged? ==> w.failed)
  }

  /** Without a barrier everything that could come back before still can. */
  function Written(d: Disk, image: Image, w: Write): Disk {
    if w.durable then d.(file := image, lasting := {image})
    else if w.landed then d.(file := image, lasting := d.lasting + {image} + if w.torn then {Corrupt} else {})
    else d
  }

  /* ---- the commit protocol ---- */

  datatype Commit = Commit(disk: Disk, ok: bool, latch: bool)

  /**
  Save the candidate, apply it in memory, acknowledge. `applies` is whether the memory mutation
  succeeded; `restore` is the one restore of the previous image this call may make.
  */
  function Commits(d: Disk, image: Image, save: Write, applies: bool, restore: Write): Commit {
    if NoEffect(save) then Commit(d, false, false)
    else
      var d1 := Written(d, image, save);
      if !Confirmed(save) then Commit(Written(d1, d.file, restore), false, true)
      else if applies then Commit(d1, true, false)
      else Commit(Written(d1, d.file, restore), false, !Confirmed(restore))
  }

  /**
  Success means that the file holds the candidate; failure without a latch means that the file
  is as before; every other outcome latches.
  */
  lemma CommitOutcomes(d: Disk, image: Image, save: Write, applies: bool, restore: Write)
    requires HonestSeed(save) && HonestSave(restore)
    ensures var c := Commits(d, image, save, applies, restore);
      && (c.ok <==> Confirmed(save) && applies)
      && (c.ok ==> c.disk.file == image && !c.latch)
      && (!c.ok && !c.latch ==> c.disk == d || c.disk == d.(lasting := {d.file}))
      && (c.ok && HonestSave(save) ==> Synced(c.disk))
      && c.disk.marker == d.marker && c.disk.file in {d.file, image}
      && c.disk.lasting <= d.lasting + {d.file, image} + if save.torn then {Corrupt} else {}
  {
  }

  /* ---- best-effort removal ---- */

  datatype Unlink = Removed | NotTried | Uncertain(landed: bool, durable: bool)

  /** An already absent file counts as removed, without any durability barrier. */
  function Unlinked(d: Disk, u: Unlink): Disk {
    if d.file.Absent? || u.NotTried? then d
    else if u.Removed? then d.(file := Absent, lasting := {Absent})
    else if !u.landed then d
    else d.(file := Absent, lasting := if u.durable then {Absent} else d.lasting + {Absent})
  }

  /** The unlink certainly left the file in place. */
  predicate KeepsFile(u: Unlink) {
    u.NotTried? || (u.Uncertain? && !u.landed)
  }

  datatype Purge = Purge(unlink: Unlink, unseals: bool)

  predicate PurgeOk(p: Purge) {
    p.unlink.Removed? && p.unseals
  }

  /** Remove the file; the seal marker goes with it once the removal is confirmed. */
  function Purged(d: Disk, p: Purge): Disk {
    if p.unlink.Removed? then Unlinked(d, p.unlink).(marker := d.marker && !p.unseals) else Unlinked(d, p.unlink)
  }

  lemma PurgeOutcomes(d: Disk, p: Purge)
    ensures PurgeOk(p) ==> Purged(d, p).file == Absent && !Purged(d, p).marker
    ensures Purged(d, p).file in {d.file, Absent} && Purged(d, p).lasting <= d.lasting + {Absent}
    ensures Purged(d, p).marker ==> d.marker
  {
  }
}
