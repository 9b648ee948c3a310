/**
Sticky vault provenance: once a live subject was seen with vault state that the v1 paths cannot
write, no later change of the file reopens them.

One subject, with the file open to arbitrary outside changes.
*/
module VaultProvenance {
  import opened Basics
  import opened PolicyFiles
  import opened VaultFiles

  /** The live slice: `protected` records that non-v1 or unreadable state was observed under this fence. */
  datatype VaultEntry = VaultEntry(fence: Fence, version: int, unknown: bool, protected: bool, sealed: bool, lazy: bool)

  /** `registered` is the registry's fence, `published` the one relay requests are matched against. */
  datatype State = State(entry: Option<VaultEntry>, file: VaultImage, marker: bool,
                         registered: Option<Fence>, published: Option<Fence>, latched: bool)

  function Start(file: VaultImage, marker: bool): State { State(None, file, marker, None, None, false) }

  /* ---- observing the file ---- */

  /** A lazily created slice discovers only whether it must stay closed to the v1 relay. */
  function Inspect(e: VaultEntry, file: VaultImage, readable: bool): VaultEntry {
    if e.protected then e
    else if !readable then e.(unknown := true)
    else if file.NoFile? || file.V1? then e.(unknown := false)
    else e.(unknown := true, protected := true, version := Version(file))
  }

  /** The slice a relay request works on, created on first use. */
  function Materialize(st: State, f: Fence, readable: bool): State {
    var e := if st.entry.Some? && st.entry.value.fence == f then
               (if st.entry.value.lazy && st.entry.value.unknown && !st.entry.value.protected
                then Inspect(st.entry.value, st.file, readable) else st.entry.value)
             else Inspect(VaultEntry(f, 0, false, false, false, true), st.file, readable);
    st.(entry := Some(e.(sealed := e.sealed || st.marker)))
  }

  datatype ReloadOracle = ReloadOracle(readable: bool, policyDegraded: bool, accepts: bool, discard: bool)

  /** The reload of a SET: what the file says, under the provenance already observed for this fence. */
  function Reload(st: State, f: Fence, o: ReloadOracle): State {
    var same := st.entry.Some? && st.entry.value.fence == f;
    if same && !st.entry.value.unknown then st
    else
      var before := same && st.entry.value.protected;
      var base := VaultEntry(f, if same then st.entry.value.version else 0, false, before, false, false);
      var unsupported := st.file.Unsupported?;
      var downgrade := before && Version(st.file) < VERSION_2 && !unsupported;
      var read := base.(protected := before || Version(st.file) >= VERSION_2 || unsupported,
                        version := if downgrade then base.version else Version(st.file));
      var gone := if o.discard then NoFile else st.file;
      var r := if !o.readable then (base.(unknown := true), st.file)
               else
                 match st.file
                 case NoFile => (base.(unknown := before), st.file)
                 case _ =>
                   if downgrade || unsupported then (read.(unknown := true), st.file)
                   else
                     match st.file
                     case V1(g, _) => if o.policyDegraded || g == f then (read, st.file) else (read, gone)
                     case V2(g, state, _, _, _, _) =>
                       (read.(unknown := o.policyDegraded || state.EmptyState? || g != f || (state.ActiveState? && !o.accepts)), st.file)
                     case _ => (read, gone);
      st.(entry := Some(r.0.(sealed := st.marker)), file := r.1)
  }

  /* ---- the v1 paths ---- */

  /** Neither unknown nor v2: the only slices the v1 paths may write, copy or purge. */
  predicate Open(e: Option<VaultEntry>) {
    e.Some? ==> !e.value.unknown && e.value.version < VERSION_2
  }

  predicate LegacyReadable(file: VaultImage) {
    !file.Unsupported? && Version(file) < VERSION_2
  }

  datatype RelayCandidate = RelayCandidate(readable: bool, image: VaultImage, save: Write, applies: bool, restore: Write)

  /** A candidate is a v1 file of the writer's fence, or a deletion. */
  predicate HonestCandidate(f: Fence, w: RelayCandidate) {
    && Consistent(w.save) && (Confirmed(w.save) ==> w.save.landed) && HonestSave(w.restore)
    && (w.image.NoFile? || (w.image.V1? && w.image.fence == f && (w.save.state.Unchanged? ==> w.save.failed)))
  }

  /** The save went through; unlinking an absent file does so without an effect. */
  predicate Persisted(w: Write) {
    !w.failed && !w.state.Unknown?
  }

  /** The commit protocol on the vault file. */
  function CommitVault(st: State, w: RelayCandidate): (State, bool) {
    if NoEffect(w.save) then (st, false)
    else
      var st1 := st.(file := if w.save.landed then w.image else st.file);
      var back := st1.(file := if w.restore.landed then st.file else st1.file);
      if !Persisted(w.save) then (back.(latched := true), false)
      else if w.applies then (st1, true)
      else (back.(latched := st.latched || !Confirmed(w.restore)), false)
  }

  /** Relay requests find the subject: registered, and published under that fence. */
  predicate Reachable(st: State) {
    st.registered.Some? && st.published == st.registered
  }

  function RelayWrite(st: State, w: RelayCandidate): (State, bool) {
    if !Reachable(st) || (st.entry.Some? && st.entry.value.sealed) || st.latched then (st, false)
    else
      var st1 := Materialize(st, st.published.value, w.readable);
      if st1.entry.value.sealed || !Open(st1.entry) then (st1, false) else CommitVault(st1, w)
  }

  /**
  The guards of both export phases; the sealing phase also materializes and marks the slice. An
  unregistered subject is taken to have no vault: that export is acknowledged and does nothing.
  */
  function Export(st: State, f: Fence, readable: bool, seal: bool): (State, bool) {
    if st.registered.None? then (st, true)
    else if st.registered != Some(f) || st.published != Some(f) || st.latched || !Open(st.entry) || !readable || !LegacyReadable(st.file) then (st, false)
    else if !seal then (st, true)
    else
      var st1 := Materialize(st.(marker := true), f, readable);
      (st1.(entry := Some(st1.entry.value.(sealed := true))), true)
  }

  function Import(st: State, f: Fence, w: RelayCandidate): (State, bool) {
    if st.latched || !Open(st.entry) || !w.readable || !LegacyReadable(st.file) then (st, false)
    else if st.published.Some? && st.published != Some(f) then (st, false)
    else
      var c := CommitVault(st, w);
      if !c.1 then c
      else if st.published.None? then (c.0.(marker := false), true)
      else
        var e := if st.entry.Some? && st.entry.value.fence == f then st.entry.value else VaultEntry(f, 0, false, false, false, false);
        (c.0.(entry := Some(e.(sealed := false)), marker := false), true)
  }

  /** Lifecycle cleanup asks this before deleting anything. */
  predicate PurgeAllowed(st: State, readable: bool) {
    Open(st.entry) && readable && LegacyReadable(st.file)
  }

  function PurgeVault(st: State, readable: bool, removed: bool): (State, bool) {
    if !PurgeAllowed(st, readable) then (st, false)
    else (st.(entry := None, file := if removed then NoFile else st.file, published := None), true)
  }

  /** A SET: a change of the registered fence first purges the old identity; publication follows registration. */
  function SetBinding(st: State, f: Fence, readable: bool, removed: bool, removal: bool, registers: bool, publishes: bool,
                      o: ReloadOracle): State
  {
    var rebind := st.registered.Some? && st.registered != Some(f);
    if rebind && !PurgeAllowed(st, readable) then st
    else
      var st1 := if rebind then PurgeVault(st, readable, removed).0 else st;
      var st2 := if removal then st1 else Reload(st1, f, o);
      if !registers then st2.(registered := if st.registered == Some(f) then Some(f) else None)
      else st2.(registered := Some(f), published := if publishes then Some(f) else st2.published)
  }

  /** A REMOVE asks the guard, unregisters, and asks again before it purges. */
  function RemoveBinding(st: State, readable: bool, again: bool, removed: bool): State {
    if !PurgeAllowed(st, readable) then st else PurgeVault(st.(registered := None), again, removed).0
  }

  /** Another subject took the address: unregistered first, purged if the guard allows. */
  function Evict(st: State, readable: bool, removed: bool): State {
    PurgeVault(st.(registered := None), readable, removed).0
  }

  /* ---- runs ---- */

  datatype Event =
    | Tampering(image: VaultImage)        // anything may happen to the file behind the server
    | Reading(readable: bool)
    | Writing(w: RelayCandidate)
    | Exporting(f: Fence, readable: bool, seal: bool)
    | Importing(f: Fence, w: RelayCandidate)
    | Removing(readable: bool, again: bool, removed: bool)
    | Evicting(readable: bool, removed: bool)
    | Setting(f: Fence, readable: bool, removed: bool, removal: bool, registers: bool, publishes: bool, o: ReloadOracle)
    | Latching
    | Restarting

  function Step(st: State, e: Event): State {
    match e
    case Tampering(image) => st.(file := image)
    case Reading(readable) => if Reachable(st) then Materialize(st, st.published.value, readable) else st
    case Writing(w) => if Reachable(st) && HonestCandidate(st.published.value, w) then RelayWrite(st, w).0 else st
    case Exporting(f, readable, seal) => Export(st, f, readable, seal).0
    case Importing(f, w) => if HonestCandidate(f, w) then Import(st, f, w).0 else st
    case Removing(readable, again, removed) => RemoveBinding(st, readable, again, removed)
    case Evicting(readable, removed) => Evict(st, readable, removed)
    case Setting(f, readable, removed, removal, registers, publishes, o) =>
      SetBinding(st, f, readable, removed, removal, registers, publishes, o)
    case Latching => st.(latched := true)
    case Restarting => Start(st.file, st.marker)
  }

  function Run(st: State, es: seq<Event>): State {
    if es == [] then st else Step(Run(st, es[..|es| - 1]), es[|es| - 1])
  }

  /** A protected slice is unknown, or records a version the v1 paths refuse. */
  predicate Inv(st: State) {
    st.entry.Some? && st.entry.value.protected ==> st.entry.value.unknown || st.entry.value.version >= VERSION_2
  }

  lemma SettingKeeps(st: State, e: Event)
    requires Inv(st) && e.Setting?
    ensures Inv(Step(st, e))
  {
  }

  lemma StepKeeps(st: State, e: Event)
    requires Inv(st)
    ensures Inv(Step(st, e))
  {
    if e.Setting? { SettingKeeps(st, e); }
    hide SetBinding;
  }

  lemma {:induction false} ProtectedIsClosed(file: VaultImage, marker: bool, es: seq<Event>)
    ensures Inv(Run(Start(file, marker), es))
  {
    if es != [] {
      ProtectedIsClosed(file, marker, es[..|es| - 1]);
      StepKeeps(Run(Start(file, marker), es[..|es| - 1]), es[|es| - 1]);
    }
  }

  /**
  Under any protected slice import and lifecycle purge are refused, whatever the file is now, and so
  is the v1 writer of the slice's fence. An export changes nothing, and it is acknowledged exactly
  when the subject is not registered.
  */
  lemma ProtectedRefuses(file: VaultImage, marker: bool, es: seq<Event>, g: Fence, w: RelayCandidate, readable: bool, seal: bool)
    requires var e := Run(Start(file, marker), es).entry; e.Some? && e.value.protected
    ensures var st := Run(Start(file, marker), es);
      && Export(st, g, readable, seal).0 == st && (Export(st, g, readable, seal).1 <==> st.registered.None?)
      && Import(st, g, w) == (st, false) && !PurgeAllowed(st, readable)
      && (st.published == Some(st.entry.value.fence) ==> !RelayWrite(st, w).1 && RelayWrite(st, w).0.file == st.file)
  {
    ProtectedIsClosed(file, marker, es);
  }

  /**
  A SET over bytes of an unknown schema whose registration fails leaves a protected slice; the export
  that follows is acknowledged and carries nothing.
  */
  lemma UnregisteredVaultExport(f: Fence, o: ReloadOracle)
    requires o.readable
    ensures var st := Step(Start(Unsupported, false), Setting(f, true, true, false, false, false, o));
      && st.entry.Some? && st.entry.value.protected && st.registered.None? && st.file == Unsupported
      && Export(st, f, true, true) == (st, true)
  {
  }

  /** A protected slice of the published fence, or of one that no relay request knows yet. */
  predicate Sticky(st: State, f: Fence) {
    && (st.published.Some? ==> st.published == Some(f)) && st.entry.Some? && st.entry.value.fence == f && st.entry.value.protected
    && (st.entry.value.unknown || st.entry.value.version >= VERSION_2)
  }

  /** The SET of another generation that meets no registration to purge first, and reloads or publishes. */
  predicate Displaces(st: State, e: Event, f: Fence) {
    && e.Setting? && e.f != f && (st.registered.None? || st.registered == Some(e.f))
    && (!e.removal || (e.registers && e.publishes))
  }

  /** Short of a restart, exactly such a SET ends the protection; and nothing the server does changes the file before that. */
  lemma StickyStep(st: State, f: Fence, e: Event)
    requires Sticky(st, f) && !e.Restarting?
    ensures Sticky(Step(st, e), f) <==> !Displaces(st, e, f)
    ensures !Displaces(st, e, f) && !e.Tampering? ==> Step(st, e).file == st.file
    ensures !Displaces(st, e, f) && st.published.Some? ==> Step(st, e).published.Some?
  {
  }

  predicate StickyRun(st: State, f: Fence, es: seq<Event>) {
    es == [] ||
    var e := es[|es| - 1];
    StickyRun(st, f, es[..|es| - 1]) && !e.Restarting? && !Displaces(Run(st, es[..|es| - 1]), e, f)
  }

  /** Over every such run the protection stays, whatever happens to the file behind the server. */
  lemma {:induction false} StickyForever(st: State, f: Fence, es: seq<Event>)
    requires Sticky(st, f) && StickyRun(st, f, es)
    ensures Sticky(Run(st, es), f)
    ensures (forall e <- es :: !e.Tampering?) ==> Run(st, es).file == st.file
  {
    if es != [] {
      StickyForever(st, f, es[..|es| - 1]);
      assert es[|es| - 1] in es;
      StickyStep(Run(st, es[..|es| - 1]), f, es[|es| - 1]);
      hide Sticky, Displaces, Step;
    }
  }

  /** While the slice's own fence is registered, no SET displaces it. */
  lemma RegisteredIsSafe(st: State, f: Fence, e: Event)
    requires Sticky(st, f) && st.registered == Some(f)
    ensures !Displaces(st, e, f) && (e.Restarting? || e.Evicting? || Step(st, e).registered == Some(f))
  {
  }

  /** After a restart the provenance comes back from the file: a SET that finds v2 or newer bytes protects the slice again. */
  lemma RestartProtectsAgain(st: State, f: Fence, readable: bool, removed: bool, o: ReloadOracle)
    requires st.entry.None? && st.registered.None? && st.published.None? && o.readable && !LegacyReadable(st.file)
    ensures var st' := SetBinding(st, f, readable, removed, false, true, true, o); Sticky(st', f) && st'.published == st'.registered == Some(f)
  {
  }
}
