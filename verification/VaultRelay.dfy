/**
The live vault slice as the source keeps it, with the v1 paths that read, write, copy and purge it.
Every method is proved against the step of the same name.
*/
module VaultRelay {
  import opened Basics
  import opened PolicyFiles
  import opened VaultFiles
  import opened VaultProvenance

  class LiveVault {
    var entry: Option<VaultEntry>
    var file: VaultImage
    var marker: bool
    var registered: Option<Fence>
    var published: Option<Fence>
    var latched: bool

    function View(): State
      reads this
    {
      State(entry, file, marker, registered, published, latched)
    }

    constructor (file: VaultImage, marker: bool)
      ensures View() == Start(file, marker)
    {
      entry, this.file, this.marker, registered, published, latched := None, file, marker, None, None, false;
    }

    /** Classify a lazily created slice by what the file turns out to be. */
    method InspectLazily(e: VaultEntry, readable: bool) returns (r: VaultEntry)
      ensures r == Inspect(e, file, readable)
    {
      r := e;
      if r.protected { return; }
      if !readable {
        r := r.(unknown := true);
        return;
      }
      r := r.(unknown := false);
      if file.NoFile? || file.V1? { return; }
      r := r.(unknown := true, protected := true, version := Version(file));
    }

    method MaterializeSlice(f: Fence, readable: bool)
      modifies this`entry
      ensures View() == Materialize(old(View()), f, readable)
    {
      var e := VaultEntry(f, 0, false, false, false, true);
      if entry.Some? && entry.value.fence == f {
        e := entry.value;
        if e.lazy && e.unknown && !e.protected { e := InspectLazily(e, readable); }
      } else {
        e := InspectLazily(e, readable);
      }
      if marker { e := e.(sealed := true); }
      entry := Some(e);
    }

    /** The registration-time reload, case by case over the file. */
    method ReloadSlice(f: Fence, o: ReloadOracle)
      modifies this`entry, this`file
      ensures View() == Reload(old(View()), f, o)
    {
      var e := VaultEntry(f, 0, false, false, false, false);
      if entry.Some? && entry.value.fence == f {
        if !entry.value.unknown { return; }
        e := e.(version := entry.value.version, protected := entry.value.protected);
      }
      var before := e.protected;
      if !o.readable {
        e := e.(unknown := true);
      } else if file.NoFile? {
        if before { e := e.(unknown := true); }
      } else {
        if Version(file) >= VERSION_2 || file.Unsupported? { e := e.(protected := true); }
        var downgrade := before && Version(file) < VERSION_2 && !file.Unsupported?;
        if !downgrade { e := e.(version := Version(file)); }
        if downgrade || file.Unsupported? {
          e := e.(unknown := true);
        } else if file.Malformed? {
          if o.discard { file := NoFile; }
        } else if o.policyDegraded {
          e := e.(unknown := Version(file) >= VERSION_2);
        } else if file.V2? && file.state.EmptyState? {
          e := e.(unknown := true);
        } else if file.fence == f {
          if file.V2? && file.state.ActiveState? && !o.accepts { e := e.(unknown := true); }
        } else if file.V2? {
          e := e.(unknown := true);
        } else if o.discard {
          file := NoFile;
        }
      }
      if marker { e := e.(sealed := true); }
      entry := Some(e);
    }

    /** The commit protocol on the vault file. */
    method PersistCandidate(w: RelayCandidate) returns (ok: bool)
      modifies this`file, this`latched
      ensures (View(), ok) == CommitVault(old(View()), w)
    {
      var before := file;
      if NoEffect(w.save) { return false; }
      if w.save.landed { file := w.image; }
      if !Persisted(w.save) {
        latched := true;
        if w.restore.landed { file := before; }
        return false;
      }
      if !w.applies {
        if w.restore.landed { file := before; }
        if !Confirmed(w.restore) { latched := true; }
        return false;
      }
      return true;
    }

    /** A v1 relay write: guards, then the commit protocol. */
    method WriteRelay(w: RelayCandidate) returns (ok: bool)
      modifies this
      ensures (View(), ok) == RelayWrite(old(View()), w)
    {
      if registered.None? || published != registered || (entry.Some? && entry.value.sealed) || latched { return false; }
      MaterializeSlice(published.value, w.readable);
      if entry.value.sealed || entry.value.unknown || entry.value.version >= VERSION_2 { return false; }
      ok := PersistCandidate(w);
    }

    /** An export: acknowledged at once for an unregistered subject; otherwise the guards, and the seal. */
    method ExportSlice(f: Fence, readable: bool, seal: bool) returns (ok: bool)
      modifies this`entry, this`marker
      ensures (View(), ok) == Export(old(View()), f, readable, seal)
    {
      if registered.None? { return true; }
      if registered != Some(f) || published != Some(f) || latched { return false; }
      if entry.Some? && (entry.value.unknown || entry.value.version >= VERSION_2) { return false; }
      if !readable || file.Unsupported? || Version(file) >= VERSION_2 { return false; }
      if !seal { return true; }
      marker := true;
      MaterializeSlice(f, readable);
      entry := Some(entry.value.(sealed := true));
      return true;
    }

    /** Lifecycle cleanup of the slice and its file. */
    method PurgeSlice(readable: bool, removed: bool) returns (ok: bool)
      modifies this
      ensures (View(), ok) == PurgeVault(old(View()), readable, removed)
    {
      if entry.Some? && (entry.value.unknown || entry.value.version >= VERSION_2) { return false; }
      if !readable || file.Unsupported? || Version(file) >= VERSION_2 { return false; }
      entry, published := None, None;
      if removed { file := NoFile; }
      return true;
    }
  }
}
