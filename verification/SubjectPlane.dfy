/**
One subject of the fast-sandbox policy server: registration and rebind, the recorded policy and
its file, relay writes, export, import, crash and replay.

SET, HOOK and REMOVE hold the action gate. SET also holds the policy commit lock throughout, so
it is one step; REMOVE leaves gaps in which relay requests run, so it is three. Outcomes of the
kernel, the file store and the vault guard are inputs. What another subject's SET does to this
one is an eviction here.
*/
module SubjectPlane {
  import opened Basics
  import opened PolicyFiles

  type IP = string

  /** An empty address is no address. */
  datatype Net = Net(ip: IP, gateway: string)

  const NO_NET := Net("", "")
  const NO_FENCE := Fence("", "")

  /** The registry's entry: denying until a policy is applied. */
  datatype Reg = Reg(fence: Fence, ip: IP, active: bool, user: Option<Pol>)

  /** One unfinished registration intent and the cleanup it has completed. */
  datatype Token = Token(from: Fence, to: Fence, fromNet: Net, toNet: Net,
                         needsReset: bool, removeOld: bool, oldRemoved: bool, purged: bool)

  datatype Entry = Entry(rev: int, fence: Fence, sealed: bool, degraded: bool)

  /** A REMOVE between its critical sections: what it found registered, and its token. */
  datatype Removal = Removal(registered: Option<Fence>, token: Option<Token>)

  /**
  `fence` is the published fence, `mirror` the drain's, `rules` the addresses with kernel dispatch
  rules and `kernel` the policy those rules enforce. `bundle` is the last sealed export.
  */
  datatype Slot = Slot(
    reg: Option<Reg>,
    token: Option<Token>,
    entry: Option<Entry>,
    pending: Option<Pol>,
    att: Option<Net>,
    fence: Option<Fence>,
    mirror: Option<Fence>,
    rules: set<IP>,
    kernel: Pol,
    disk: Disk,
    removing: Option<Removal>,
    bundle: Image,
    captures: set<Capture>
  )

  /** The source image an export copied, under the fence it was asked for. */
  datatype Capture = Capture(fence: Fence, image: Image)

  datatype State = State(s: Slot, latched: bool)

  datatype Reply = Reply(st: State, ack: bool)

  function Init(disk: Disk): State {
    State(Slot(None, None, None, None, None, None, None, {}, Deny, disk, None, Absent, {}), false)
  }

  function Refuse(s: Slot, latched: bool): Reply { Reply(State(s, latched), false) }

  /* ---- shared pieces ---- */

  /** The drain forgets a generation when its Unload is recorded; the zero fence names none. */
  function Unloaded(mirror: Option<Fence>, f: Fence): Option<Fence> {
    if f != NO_FENCE && mirror == Some(f) then None else mirror
  }

  datatype Teardown = Torn | TearFailed(rulesGone: bool)

  function Torndown(s: Slot): Slot {
    s.(rules := {}, kernel := Deny)
  }

  function AfterTear(s: Slot, t: Teardown): Slot {
    if t.Torn? || t.rulesGone then Torndown(s) else s
  }

  /** All bookkeeping of the subject and its file; an in-flight token survives. */
  function Dropped(s: Slot, p: Purge): Slot {
    s.(entry := None, pending := None, att := None, fence := None, disk := Purged(s.disk, p))
  }

  function FenceMatches(s: Slot, f: Fence): bool { s.fence == Some(f) }

  /* ---- SET_BINDING ---- */

  /** `att` is `NO_NET` when the envelope has no attachment, which only a removal may omit. */
  datatype Binding = Binding(fence: Fence, att: Net, removal: bool, input: Pol)

  datatype SetOracle = SetOracle(
    staleBlocked: bool,      // the vault of the address's previous owner blocks takeover
    cancelled: bool,
    purgeAllowed: bool,      // the vault guard, asked first
    dropAllowed: bool,       // the vault guard, asked again by the purge
    tear: Teardown,
    purge: Purge,
    removes: Teardown,       // removal of the old address's rules
    readable: bool,          // the policy file could be opened and read
    discard: Unlink,         // unlink of a stale or unusable file
    takeover: bool,
    enforces: bool,
    enforceLanded: bool,
    encodes: bool,
    snapshots: bool,
    save: Write,
    applies: bool,
    applyLanded: bool,
    restore: Write,
    clear: Purge,            // purge of a removed binding's file
    reverts: bool
  )

  predicate HonestSet(o: SetOracle, removal: bool) {
    (if removal then HonestSave(o.save) else HonestSeed(o.save)) && HonestSave(o.restore)
  }

  /** The network the server can compare a new request with. */
  function KnownNet(s: Slot): Option<Net> {
    if s.att.Some? && s.att.value.ip != "" then s.att
    else if s.token.Some? && s.reg.Some? && s.token.value.from == s.reg.value.fence && s.token.value.fromNet.ip != ""
    then Some(s.token.value.fromNet) else None
  }

  function OldNet(s: Slot): Net {
    if KnownNet(s).Some? then KnownNet(s).value else if s.att.Some? then s.att.value else NO_NET
  }

  function OldFence(s: Slot): Fence {
    if s.reg.Some? then s.reg.value.fence else NO_FENCE
  }

  /** The network a SET registers; a removal without attachment reuses its own identity's network. */
  function Attachment(s: Slot, b: Binding): Option<Net> {
    if !(b.removal && b.att == NO_NET) then Some(b.att)
    else if s.token.Some? && s.token.value.to == b.fence && s.token.value.toNet.ip != "" then Some(s.token.value.toNet)
    else if s.token.None? && s.reg.Some? && s.reg.value.fence == b.fence then Some(OldNet(s))
    else if s.reg.Some? || s.token.Some? then None
    else Some(b.att)
  }

  /** A request under a known identity must name that identity's network. */
  predicate NetConflict(s: Slot, f: Fence, att: Net) {
    || (s.token.Some? && s.token.value.to == f && s.token.value.toNet != att)
    || (s.reg.Some? && s.reg.value.fence == f && KnownNet(s).Some? && KnownNet(s).value != att)
  }

  predicate WillPurge(s: Slot, f: Fence) {
    if s.token.Some? then s.token.value.to != f || !s.token.value.purged
    else s.reg.Some? && s.reg.value.fence != f
  }

  /** The intent this SET proceeds under: its own from an earlier attempt, or a new one. */
  function Intent(s: Slot, f: Fence, att: Net): Option<Token> {
    if s.token.Some? && s.token.value.to != f then
      Some(Token(OldFence(s), f, OldNet(s), att, true, false, false, false))
    else if s.token.None? && s.reg.Some? && s.reg.value.fence != f then
      Some(Token(s.reg.value.fence, f, OldNet(s), att, false, KnownNet(s).None? || KnownNet(s).value.ip != att.ip, false, false))
    else s.token
  }

  /** Every rejection that precedes all effects. */
  predicate Admissible(s: Slot, b: Binding, o: SetOracle) {
    && !o.staleBlocked && !o.cancelled
    && !(s.token.None? && s.reg.Some? && s.reg.value.fence == b.fence && KnownNet(s).None? && s.reg.value.active)
    && (WillPurge(s, b.fence) ==> o.purgeAllowed)
    && Attachment(s, b).Some?
    && !NetConflict(s, b.fence, Attachment(s, b).value)
  }

  /** One cleanup stage: the slot after it, and whether the SET may go on. */
  datatype Stage = Stage(s: Slot, ok: bool)

  /** A superseding SET first resets whatever the abandoned intent left behind. */
  function Reset(s: Slot, o: SetOracle): Stage
    requires s.token.Some?
  {
    var t := s.token.value;
    if !t.needsReset then Stage(s, true)
    else if !o.tear.Torn? then Stage(AfterTear(s, o.tear), false)
    else
      var s1 := Torndown(s).(reg := None, mirror := Unloaded(s.mirror, t.from));
      if !o.dropAllowed then Stage(s1, false)
      else Stage(Dropped(s1, o.purge).(token := Some(t.(needsReset := false, oldRemoved := true, purged := true))), true)
  }

  function PurgeOld(s: Slot, o: SetOracle): Stage
    requires s.token.Some?
  {
    var t := s.token.value;
    if t.purged then Stage(s, true)
    else
      var s1 := s.(mirror := Unloaded(s.mirror, t.from));
      if !o.dropAllowed then Stage(s1, false)
      else Stage(Dropped(s1, o.purge).(token := Some(t.(purged := true))), true)
  }

  function RemoveOld(s: Slot, o: SetOracle): Stage
    requires s.token.Some?
  {
    var t := s.token.value;
    if !t.removeOld || t.oldRemoved then Stage(s, true)
    else if !o.removes.Torn? then Stage(AfterTear(s, o.removes), false)
    else Stage(Torndown(s).(token := Some(t.(oldRemoved := true))), true)
  }

  /** Without a token, a registration whose network is unknown is conservatively unloaded. */
  function UnloadUnknown(s: Slot, o: SetOracle): Stage {
    if s.reg.None? || KnownNet(s).Some? then Stage(s, true)
    else if !o.tear.Torn? then Stage(AfterTear(s, o.tear), false)
    else Stage(Torndown(s).(reg := Some(s.reg.value.(active := false, user := None))), true)
  }

  function Cleanup(s: Slot, o: SetOracle): Stage {
    if s.token.None? then UnloadUnknown(s, o)
    else
      var a := Reset(s, o);
      if !a.ok then a
      else
        var b := PurgeOld(a.s, o);
        if !b.ok then b else RemoveOld(b.s, o)
  }

  /** A record that cannot be read back holds default-deny until a relay write heals it. */
  function Degraded(s: Slot, f: Fence): Slot {
    s.(entry := Some(Entry(0, f, s.disk.marker, true)), pending := Some(Deny))
  }

  /** Before registration, the committed file is authoritative for its own fence. */
  function Rehydrate(s: Slot, f: Fence, o: SetOracle): Slot {
    if s.entry.Some? && s.entry.value.fence == f then s
    else
      var s1 := s.(entry := None);
      var gone := s1.(disk := Unlinked(s1.disk, o.discard));
      if !o.readable then Degraded(s1, f)
      else
        match s.disk.file
        case Absent =>
          if s.disk.marker then s1.(entry := Some(Entry(0, f, true, false)), pending := Some(Deny)) else s1
        case Corrupt => Degraded(gone, f)
        case Newer => Degraded(s1, f)
        case Unparseable(g, _) => if g != f then gone else Degraded(gone, f)
        case Encoded(g, rev, pol) =>
          if g != f then gone else s1.(entry := Some(Entry(rev, f, s.disk.marker, false)), pending := Some(pol))
  }

  /** Registration publishes the new fence before the deny-first install can fail. */
  function Register(s: Slot, f: Fence, ip: IP, o: SetOracle): Stage {
    var same := s.reg.Some? && s.reg.value.fence == f;
    if same && s.reg.value.ip != ip && !o.takeover then Stage(s, false)
    else if same && s.reg.value.active then Stage(s.(reg := Some(s.reg.value.(ip := ip))), true)
    else if !o.takeover then Stage(if same then s else s.(reg := None), false)
    else
      var s1 := s.(reg := Some(Reg(f, ip, false, None)));
      var s2 := if o.enforces || o.enforceLanded then s1.(rules := s1.rules + {ip}, kernel := Deny) else s1;
      Stage(s2, o.enforces)
  }

  /** Publish the fence to relays and to the drain. */
  function PublishFence(s: Slot, f: Fence): Slot {
    s.(fence := Some(f), mirror := Some(f))
  }

  /** Seed a fresh record from the binding input; an existing record is never reread from it. */
  function Seed(s: Slot, latched: bool, f: Fence, input: Pol, o: SetOracle): Reply {
    var stale := s.entry.Some? && s.entry.value.fence != f;
    var s1 := if stale then s.(entry := None, disk := Purged(s.disk, o.purge)) else s;
    if s1.entry.Some? then Reply(State(s1, latched), true) else SeedFresh(s1, latched, f, input, o)
  }

  /** The seed publishes without durability barriers: a replay of the same input recreates it. */
  function SeedFresh(s: Slot, latched: bool, f: Fence, input: Pol, o: SetOracle): Reply {
    if !o.encodes || !o.snapshots then Refuse(s, latched)
    else
      var active := s.reg.Some? && s.reg.value.active;
      var c := Commits(s.disk, Encoded(f, 1, input), o.save, !active || o.applies, o.restore);
      var s1 := Enforced(s.(disk := c.disk), Confirmed(o.save) && active, input, o.applies, o.applyLanded);
      if !c.ok then Reply(State(s1, latched || c.latch), false)
      else Reply(State(s1.(entry := Some(Entry(1, f, false, false)), pending := Some(input)), latched), true)
  }

  /** Kernel first, registry after; a failed kernel update may still have landed. */
  function Enforced(s: Slot, attempted: bool, pol: Pol, ok: bool, landed: bool): Slot {
    if !attempted || s.reg.None? then s
    else if ok then s.(kernel := pol, reg := Some(s.reg.value.(active := true, user := Some(pol))))
    else if landed then s.(kernel := pol) else s
  }

  /** Remove the recorded policy; a file that cannot be removed is overwritten by a deny tombstone. */
  function ClearRecord(s: Slot, latched: bool, o: SetOracle): Reply {
    if s.entry.None? then Reply(State(s.(disk := Purged(s.disk, o.clear)), latched), PurgeOk(o.clear))
    else
      var e := s.entry.value;
      var s1 := s.(entry := None, pending := None, disk := Purged(s.disk, o.clear));
      if PurgeOk(o.clear) then Reply(State(s1, latched), true)
      else if !o.encodes || e.rev + 1 > MAX_INT64 || !o.snapshots then Refuse(s1, latched)
      else
        var c := Commits(s1.disk, Encoded(e.fence, e.rev + 1, Deny), o.save, true, o.restore);
        var s2 := s1.(disk := c.disk);
        if !c.ok then Reply(State(s2, latched || c.latch), false)
        else Reply(State(s2.(entry := Some(Entry(e.rev + 1, e.fence, false, false)), pending := Some(Deny)), latched), true)
  }

  /** The binding was removed from a live sandbox: no record, and deny-first again. */
  function Unbind(s: Slot, latched: bool, o: SetOracle): Reply {
    var r := ClearRecord(s.(pending := None), latched, o);
    var s1 := r.st.s;
    if !r.ack then r
    else if s1.reg.Some? && s1.reg.value.active then
      if !o.reverts then Refuse(if o.enforceLanded then s1.(rules := s1.rules + {s1.reg.value.ip}, kernel := Deny) else s1, r.st.latched)
      else Reply(State(s1.(rules := s1.rules + {s1.reg.value.ip}, kernel := Deny,
                           reg := Some(s1.reg.value.(active := false, user := None))), r.st.latched), true)
    else r
  }

  function Set(st: State, b: Binding, o: SetOracle): Reply {
    if !Admissible(st.s, b, o) then Refuse(st.s, st.latched)
    else
      var att := Attachment(st.s, b).value;
      var c := Cleanup(st.s.(token := Intent(st.s, b.fence, att)), o);
      if !c.ok then Refuse(c.s, st.latched)
      else
        var s1 := if b.removal then c.s else Rehydrate(c.s, b.fence, o);
        var g := Register(s1.(att := Some(att)), b.fence, att.ip, o);
        if !g.ok then Refuse(g.s, st.latched)
        else
          var s2 := PublishFence(g.s, b.fence);
          var r := if b.removal then Unbind(s2, st.latched, o) else Seed(s2, st.latched, b.fence, b.input, o);
          if !r.ack then r else Reply(r.st.(s := r.st.s.(token := None)), true)
  }

  /* ---- LIFECYCLE_HOOK (data-plane-ready) ---- */

  predicate HookAllowed(s: Slot, f: Fence) {
    s.token.None? && s.reg.Some? && s.reg.value.fence == f && FenceMatches(s, f) && s.pending.Some?
  }

  function Hook(st: State, f: Fence, applies: bool, landed: bool): Reply {
    if !HookAllowed(st.s, f) then Refuse(st.s, st.latched)
    else Reply(st.(s := Enforced(st.s, true, st.s.pending.value, applies, landed)), applies)
  }

  /* ---- REMOVE_BINDING ---- */

  datatype RemoveOracle = RemoveOracle(purgeAllowed: bool, dropAllowed: bool, tear: Teardown, purge: Purge)

  /** A stale removal is acknowledged and changes nothing. */
  function RemoveBegin(st: State, f: Fence, o: RemoveOracle): Reply {
    var s := st.s;
    if s.token.Some? && s.token.value.to != f then Reply(st, true)
    else if s.token.None? && s.reg.Some? && s.reg.value.fence != f then Reply(st, true)
    else if !o.purgeAllowed then Refuse(s, st.latched)
    else if s.token.None? && s.reg.None? then
      Reply(st.(s := if o.dropAllowed then Dropped(s, o.purge) else s), true)
    else if !o.tear.Torn? then Refuse(AfterTear(s, o.tear), st.latched)
    else
      var found := if s.reg.Some? then Some(s.reg.value.fence) else None;
      Reply(st.(s := Torndown(s).(removing := Some(Removal(found, s.token)))), false)
  }

  function RemoveUnregister(st: State): State {
    st.(s := st.s.(reg := None))
  }

  function RemovePurge(st: State, o: RemoveOracle): Reply
    requires st.s.removing.Some?
  {
    var s := st.s;
    var r := s.removing.value;
    var mirror := if r.registered.Some? then Unloaded(s.mirror, r.registered.value)
                  else if s.mirror.Some? then Unloaded(s.mirror, s.mirror.value) else None;
    var s1 := s.(removing := None, mirror := mirror);
    if !o.dropAllowed then Refuse(s1, st.latched)
    else Reply(st.(s := Dropped(s1, o.purge).(token := if r.token.Some? && s.token == r.token then None else s.token)), true)
  }

  /* ---- another subject claims this one's address ---- */

  function Evict(st: State, o: RemoveOracle): State {
    var s1 := Torndown(st.s).(reg := None,
                              mirror := if st.s.fence.Some? then Unloaded(st.s.mirror, st.s.fence.value) else st.s.mirror);
    st.(s := if o.dropAllowed then Dropped(s1, o.purge).(token := None) else s1)
  }

  /* ---- relay writes ---- */

  datatype WriteOracle = WriteOracle(encodes: bool, snapshots: bool, save: Write, applies: bool, applyLanded: bool,
                                     restore: Write, unseals: bool, reseals: bool,
                                     compares: bool)   // an import could read the file whose revision it compares

  predicate HonestWrite(o: WriteOracle) {
    HonestSave(o.save) && HonestSave(o.restore)
  }

  predicate IsSealed(s: Slot) {
    s.entry.Some? && s.entry.value.sealed
  }

  /** Registered, published, not rebinding, not sealed and not latched. */
  predicate RelayAllowed(st: State) {
    && st.s.token.None? && st.s.reg.Some? && FenceMatches(st.s, st.s.reg.value.fence)
    && !IsSealed(st.s) && !st.latched
  }

  function CurrentRev(s: Slot): int {
    if s.entry.Some? then s.entry.value.rev else 0
  }

  /** Commit one relay revision; enforcement follows only on an active subject. */
  function RelayCommit(st: State, pol: Pol, o: WriteOracle): Reply
    requires st.s.reg.Some?
  {
    var s := st.s;
    var f := s.reg.value.fence;
    var rev := CurrentRev(s) + 1;
    if !o.encodes || rev > MAX_INT64 || !o.snapshots then Refuse(s, st.latched)
    else
      var c := Commits(s.disk, Encoded(f, rev, pol), o.save, o.applies, o.restore);
      var s1 := Enforced(s.(disk := c.disk), Confirmed(o.save) && s.reg.value.active, pol, o.applies, o.applyLanded);
      if !c.ok then Reply(State(s1, st.latched || c.latch), false)
      else Reply(State(s1.(entry := Some(Entry(rev, f, false, false)), pending := Some(pol)), st.latched), true)
  }

  /** A conditional replace needs an existing record at exactly the expected revision. */
  predicate PutAllowed(st: State, expected: Option<int>) {
    RelayAllowed(st) && (expected.Some? ==> st.s.entry.Some? && expected.value == CurrentRev(st.s))
  }

  function Put(st: State, expected: Option<int>, pol: Pol, o: WriteOracle): Reply {
    if !PutAllowed(st, expected) then Refuse(st.s, st.latched) else RelayCommit(st, pol, o)
  }

  /** Deletion is a default-deny tombstone at the successor revision. */
  function Delete(st: State, o: WriteOracle): Reply {
    if !RelayAllowed(st) || st.s.entry.None? then Refuse(st.s, st.latched) else RelayCommit(st, Deny, o)
  }

  /* ---- export ---- */

  /** Only bytes attributable to the registered fence are carried. */
  function Attributable(image: Image, f: Fence): Image {
    match image
    case Encoded(g, _, _) => if g == f then image else Absent
    case Unparseable(g, _) => if g == f then image else Absent
    case _ => Absent
  }

  predicate ExportAllowed(st: State, f: Fence) {
    st.s.token.None? && st.s.reg.Some? && st.s.reg.value.fence == f && FenceMatches(st.s, f) && !st.latched
  }

  /**
  First phase: the source image, under the locks. The copy itself runs unlocked. An unregistered
  subject is taken to have nothing to carry: that export is acknowledged here and does nothing.
  */
  function ExportBegin(st: State, f: Fence): Reply {
    if st.s.reg.None? then Reply(st, true)
    else if !ExportAllowed(st, f) then Refuse(st.s, st.latched)
    else Reply(st.(s := st.s.(captures := st.s.captures + {Capture(f, Attributable(st.s.disk.file, f))})), false)
  }

  /** Last phase: seal only if the copied image is still the source. */
  function ExportSeal(st: State, c: Capture, seal: bool, marks: bool): Reply {
    if !ExportAllowed(st, c.fence) || Attributable(st.s.disk.file, c.fence) != c.image then Refuse(st.s, st.latched)
    else if !seal then Reply(st, true)
    else if !marks then Refuse(st.s, st.latched)
    else
      var e := if st.s.entry.Some? && st.s.entry.value.fence == c.fence then st.s.entry.value else Entry(0, c.fence, false, false);
      Reply(st.(s := st.s.(disk := st.s.disk.(marker := true), entry := Some(e.(sealed := true)), bundle := c.image)), true)
  }

  /* ---- import ---- */

  function FileRev(image: Image): int {
    if image.Encoded? || image.Unparseable? then image.rev else 0
  }

  /** A newer local revision of the same fence wins, if it can be read at all. */
  predicate Superseded(s: Slot, f: Fence, rev: int, compares: bool) {
    compares && !Attributable(s.disk.file, f).Absent? && FileRev(s.disk.file) > rev
  }

  predicate ImportAllowed(st: State, f: Fence) {
    st.s.token.None? && !st.latched && (st.s.fence.Some? ==> FenceMatches(st.s, f))
  }

  /** Land a bundle, re-stamped with the restored fence. */
  function Import(st: State, f: Fence, rev: int, pol: Pol, o: WriteOracle): Reply {
    var s := st.s;
    if st.latched || s.token.Some? then Refuse(s, st.latched)
    else if Superseded(s, f, rev, o.compares) then Reply(st, true)
    else if !ImportAllowed(st, f) || !o.encodes || !o.snapshots then Refuse(s, st.latched)
    else if s.fence.None? then ImportFile(st, f, rev, pol, o)
    else ImportLive(st, f, rev, pol, o)
  }

  /** Before registration only the file lands; the reload validates it. */
  function ImportFile(st: State, f: Fence, rev: int, pol: Pol, o: WriteOracle): Reply {
    var s := st.s;
    var c := Commits(s.disk, Encoded(f, rev, pol), o.save, o.unseals, o.restore);
    var s1 := if Confirmed(o.save) then s.(entry := None, disk := c.disk.(marker := c.disk.marker && !o.unseals))
              else s.(disk := c.disk);
    Reply(State(s1, st.latched || c.latch), c.ok)
  }

  /** On a registered subject the durable unseal comes first, and is undone if the install fails. */
  function ImportLive(st: State, f: Fence, rev: int, pol: Pol, o: WriteOracle): Reply {
    var s := st.s;
    var unsealed := IsSealed(s) ==> o.unseals;
    var target := s.reg.Some? && s.reg.value.fence == f;
    var installs := unsealed && target && (!s.reg.value.active || o.applies);
    var c := Commits(s.disk, Encoded(f, rev, pol), o.save, installs, o.restore);
    Reply(State(Installed(s.(disk := c.disk), f, rev, pol, o, c.ok), st.latched || c.latch), c.ok)
  }

  /** The live part of an import: nothing before the save is confirmed, the record only once all went through. */
  function Installed(s: Slot, f: Fence, rev: int, pol: Pol, o: WriteOracle, ok: bool): Slot {
    if !Confirmed(o.save) then s
    else
      var unsealed := IsSealed(s) ==> o.unseals;
      var active := s.reg.Some? && s.reg.value.fence == f && s.reg.value.active;
      var marker := if IsSealed(s) then (!ok && o.reseals) || (s.disk.marker && !o.unseals) else s.disk.marker;
      var s1 := Enforced(s, unsealed && active, pol, o.applies, o.applyLanded).(disk := s.disk.(marker := marker));
      if ok then s1.(entry := Some(Entry(rev, f, false, false)), pending := Some(pol)) else s1
  }

  /* ---- crashes ---- */

  /** A new process: everything in memory is gone and its kernel table is rebuilt from nothing. */
  function Restart(st: State): State {
    Init(st.s.disk).(s := Init(st.s.disk).s.(bundle := st.s.bundle))
  }

  /** A power loss may leave any image that was not ruled out by a barrier, and the marker, which never is, either way. */
  function PowerLoss(st: State, found: Image, marker: bool): State {
    Restart(st.(s := st.s.(disk := Disk(found, {found}, marker))))
  }

  /* ---- runs ---- */

  datatype Event =
    | Setting(b: Binding, outcome: SetOracle)
    | Hooking(f: Fence, applies: bool, landed: bool)
    | Removing(f: Fence, remove: RemoveOracle)
    | Unregistering
    | Purging(remove: RemoveOracle)
    | Evicting(remove: RemoveOracle)
    | TearingElsewhere(rulesGone: bool)          // a takeover that failed half-way
    | Putting(expected: Option<int>, pol: Pol, write: WriteOracle)
    | Deleting(write: WriteOracle)
    | ExportBeginning(f: Fence)
    | ExportSealing(c: Capture, seal: bool, marks: bool)
    | Importing(f: Fence, rev: int, pol: Pol, write: WriteOracle)
    | LatchingElsewhere
    | Restarting
    | LosingPower(found: Image, marker: bool)

  /** The action gate admits one action; outcomes obey their contracts. */
  predicate Enabled(st: State, e: Event) {
    match e
    case Setting(b, o) => st.s.removing.None? && b.fence != NO_FENCE && HonestSet(o, b.removal)
    case Hooking(_, _, _) => st.s.removing.None?
    case Removing(_, _) => st.s.removing.None?
    case Unregistering => st.s.removing.Some?
    case Purging(_) => st.s.removing.Some? && st.s.reg.None?
    case Evicting(_) => st.s.removing.None? && st.s.reg.Some?
    case TearingElsewhere(_) => st.s.removing.None? && st.s.reg.Some?
    case Putting(_, _, o) => HonestWrite(o)
    case Deleting(o) => HonestWrite(o)
    case ExportSealing(c, _, _) => c in st.s.captures
    case Importing(f, rev, _, o) => HonestWrite(o) && 1 <= rev <= MAX_INT64 && f != NO_FENCE
    case LosingPower(found, _) => found in st.s.disk.lasting
    case _ => true
  }

  function Apply(st: State, e: Event): Reply {
    match e
    case Setting(b, o) => Set(st, b, o)
    case Hooking(f, applies, landed) => Hook(st, f, applies, landed)
    case Removing(f, o) => RemoveBegin(st, f, o)
    case Unregistering => Reply(RemoveUnregister(st), false)
    case Purging(o) => if st.s.removing.Some? then RemovePurge(st, o) else Reply(st, false)
    case Evicting(o) => Reply(Evict(st, o), false)
    case TearingElsewhere(gone) => Reply(st.(s := AfterTear(st.s, TearFailed(gone))), false)
    case Putting(expected, pol, o) => Put(st, expected, pol, o)
    case Deleting(o) => Delete(st, o)
    case ExportBeginning(f) => ExportBegin(st, f)
    case ExportSealing(c, seal, marks) => ExportSeal(st, c, seal, marks)
    case Importing(f, rev, pol, o) => Import(st, f, rev, pol, o)
    case LatchingElsewhere => Reply(st.(latched := true), false)
    case Restarting => Reply(Restart(st), false)
    case LosingPower(found, marker) => Reply(PowerLoss(st, found, marker), false)
  }

  /** One event; an event that cannot happen changes nothing. */
  function Step(st: State, e: Event): State {
    if Enabled(st, e) then Apply(st, e).st else st
  }

  function Run(st: State, es: seq<Event>): State {
    if es == [] then st else Step(Run(st, es[..|es| - 1]), es[|es| - 1])
  }
}
