/**
Rebind isolation: whatever failed, was retried or was superseded before it, an acknowledged SET
leaves nothing of the previous instance behind.
*/
module SubjectRebind {
  import opened Basics
  import opened PolicyFiles
  import opened SubjectPlane

  /* ---- the invariant ---- */

  /** The old address needs no further removal under this token. */
  predicate Cleared(t: Token) {
    !t.needsReset && (t.removeOld ==> t.oldRemoved)
  }

  /** Kernel rules exist only for the address the server would remove or reuse next. */
  predicate RulesInv(reg: Option<Reg>, token: Option<Token>, att: Option<Net>, rules: set<IP>, removing: Option<Removal>) {
    && (token.None? && reg.None? ==> rules == {})
    && (token.None? && reg.Some? ==> att.Some? && rules <= {att.value.ip})
    && (token.Some? && Cleared(token.value) ==> rules <= {token.value.toNet.ip})
    && (removing.Some? ==> rules == {} && removing.value.token == token)
  }

  /** The drain mirrors the published fence of the registered generation, until its Unload is recorded. */
  predicate MirrorInv(reg: Option<Reg>, token: Option<Token>, fence: Option<Fence>, mirror: Option<Fence>, removing: Option<Removal>) {
    && (reg.Some? ==> reg.value.fence != NO_FENCE)
    && (mirror.Some? ==>
          && mirror.value != NO_FENCE && fence == mirror
          && (if removing.Some? then removing.value.registered == mirror else reg.Some? && reg.value.fence == mirror.value)
          && (token.Some? ==> mirror.value == if token.value.purged then token.value.to else token.value.from))
    && (token.Some? && token.value.needsReset ==> !token.value.purged)
  }

  predicate Inv(s: Slot) {
    && RulesInv(s.reg, s.token, s.att, s.rules, s.removing)
    && MirrorInv(s.reg, s.token, s.fence, s.mirror, s.removing)
  }

  /* ---- cleanup ---- */

  /** Cleanup is done: no rule for another address, and no mirror of another generation. */
  predicate Cleaned(s: Slot, f: Fence, att: Net) {
    && s.rules <= {att.ip} && s.removing.None?
    && (s.token.Some? ==> Cleared(s.token.value) && s.token.value.purged && s.token.value.to == f && s.token.value.toNet == att)
    && (s.mirror.Some? ==> s.mirror.value == f && s.reg.Some? && s.reg.value.fence == f && s.fence == s.mirror)
    && (s.reg.Some? ==> s.reg.value.fence != NO_FENCE)
    && (s.token.None? && s.reg.Some? ==> s.reg.value.fence == f)
    && (s.token.None? && s.reg.None? ==> s.rules == {})
  }

  /** The intent a SET proceeds under keeps the invariant and names this SET's fence and network. */
  lemma IntentKeeps(s: Slot, b: Binding, o: SetOracle)
    requires Inv(s) && Admissible(s, b, o) && s.removing.None?
    ensures var att := Attachment(s, b).value;
      var s1 := s.(token := Intent(s, b.fence, att));
      && Inv(s1)
      && (s1.token.Some? ==> s1.token.value.to == b.fence && s1.token.value.toNet == att)
      && (s1.token.None? && s1.reg.Some? ==> s1.reg.value.fence == b.fence && (KnownNet(s1).Some? ==> KnownNet(s1).value == att))
  {
  }

  lemma ResetKeeps(s: Slot, o: SetOracle)
    requires Inv(s) && s.token.Some? && s.removing.None?
    ensures var c := Reset(s, o);
      && Inv(c.s) && c.s.removing.None? && c.s.token.Some?
      && c.s.token.value.to == s.token.value.to && c.s.token.value.toNet == s.token.value.toNet
      && (c.ok ==> !c.s.token.value.needsReset)
  {
  }

  lemma PurgeOldKeeps(s: Slot, o: SetOracle)
    requires Inv(s) && s.token.Some? && s.removing.None? && !s.token.value.needsReset
    ensures var c := PurgeOld(s, o);
      && Inv(c.s) && c.s.removing.None? && c.s.token.Some?
      && c.s.token.value.to == s.token.value.to && c.s.token.value.toNet == s.token.value.toNet
      && (c.ok ==> c.s.token.value.purged && !c.s.token.value.needsReset)
  {
  }

  lemma RemoveOldKeeps(s: Slot, o: SetOracle)
    requires Inv(s) && s.token.Some? && s.removing.None? && !s.token.value.needsReset && s.token.value.purged
    ensures var c := RemoveOld(s, o);
      && Inv(c.s) && (c.ok ==> Cleaned(c.s, s.token.value.to, s.token.value.toNet))
  {
  }

  lemma CleanupKeeps(s: Slot, f: Fence, att: Net, o: SetOracle)
    requires Inv(s) && s.removing.None?
    requires s.token.Some? ==> s.token.value.to == f && s.token.value.toNet == att
    requires s.token.None? && s.reg.Some? ==> s.reg.value.fence == f && (KnownNet(s).Some? ==> KnownNet(s).value == att)
    ensures var c := Cleanup(s, o); if c.ok then Cleaned(c.s, f, att) else Inv(c.s)
  {
    if s.token.Some? {
      ResetKeeps(s, o);
      var a := Reset(s, o);
      if a.ok {
        PurgeOldKeeps(a.s, o);
        var b := PurgeOld(a.s, o);
        if b.ok { RemoveOldKeeps(b.s, o); }
      }
    }
  }

  /* ---- registration and what follows it ---- */

  /** Reading the record back touches neither registration nor kernel. */
  lemma RehydrateFrame(s: Slot, f: Fence, o: SetOracle)
    ensures var s' := Rehydrate(s, f, o);
      s' == s.(entry := s'.entry, pending := s'.pending, disk := s'.disk)
  {
  }

  lemma RegisterKeeps(s: Slot, f: Fence, att: Net, o: SetOracle)
    requires Cleaned(s, f, att) && s.att == Some(att) && f != NO_FENCE
    ensures var g := Register(s, f, att.ip, o);
      && Inv(g.s)
      && (g.ok ==> Cleaned(g.s, f, att) && g.s.att == s.att && g.s.reg.Some? && g.s.reg.value.fence == f && g.s.reg.value.ip == att.ip)
  {
  }

  /** The policy follow-up of a SET leaves the registration's identity and network alone. */
  predicate SameIdentity(s: Slot, s': Slot) {
    && s'.token == s.token && s'.att == s.att && s'.fence == s.fence && s'.mirror == s.mirror && s'.removing == s.removing
    && s.reg.Some? && s'.reg.Some? && s'.reg.value.fence == s.reg.value.fence && s'.reg.value.ip == s.reg.value.ip
    && s'.rules <= s.rules + {s.reg.value.ip}
  }

  lemma SeedFrame(s: Slot, latched: bool, f: Fence, input: Pol, o: SetOracle)
    requires s.reg.Some?
    ensures SameIdentity(s, Seed(s, latched, f, input, o).st.s)
  {
    hide Commits, Purged;
  }

  lemma UnbindFrame(s: Slot, latched: bool, o: SetOracle)
    requires s.reg.Some?
    ensures SameIdentity(s, Unbind(s, latched, o).st.s)
  {
    hide Commits, Purged;
  }

  /** The slot a SET registers, when its cleanup went through. */
  function BeforeRegister(st: State, b: Binding, o: SetOracle): Slot
    requires Admissible(st.s, b, o)
  {
    var att := Attachment(st.s, b).value;
    var c := Cleanup(st.s.(token := Intent(st.s, b.fence, att)), o).s;
    (if b.removal then c else Rehydrate(c, b.fence, o)).(att := Some(att))
  }

  lemma BeforeRegisterCleaned(st: State, b: Binding, o: SetOracle)
    requires Inv(st.s) && st.s.removing.None? && Admissible(st.s, b, o)
    ensures var att := Attachment(st.s, b).value;
      var c := Cleanup(st.s.(token := Intent(st.s, b.fence, att)), o);
      if c.ok then Cleaned(BeforeRegister(st, b, o), b.fence, att) else Inv(c.s)
  {
    var att := Attachment(st.s, b).value;
    var s1 := st.s.(token := Intent(st.s, b.fence, att));
    IntentKeeps(st.s, b, o);
    CleanupKeeps(s1, b.fence, att, o);
    RehydrateFrame(Cleanup(s1, o).s, b.fence, o);
  }

  /**
  An acknowledged SET for `f` leaves no token, publishes exactly `f`, registers exactly its network,
  and keeps no kernel rule for any other address.
  */
  predicate Isolated(s: Slot, f: Fence, att: Net) {
    && s.token.None? && s.fence == Some(f) && s.mirror == Some(f) && s.att == Some(att)
    && s.reg.Some? && s.reg.value.fence == f && s.reg.value.ip == att.ip
    && s.rules <= {att.ip}
  }

  lemma SetKeeps(st: State, b: Binding, o: SetOracle)
    requires Inv(st.s) && st.s.removing.None? && b.fence != NO_FENCE
    ensures var r := Set(st, b, o);
      Inv(r.st.s) && (r.ack ==> Attachment(st.s, b).Some? && Isolated(r.st.s, b.fence, Attachment(st.s, b).value))
  {
    if Admissible(st.s, b, o) {
      var att := Attachment(st.s, b).value;
      BeforeRegisterCleaned(st, b, o);
      var c := Cleanup(st.s.(token := Intent(st.s, b.fence, att)), o);
      if c.ok {
        var s1 := BeforeRegister(st, b, o);
        RegisterKeeps(s1, b.fence, att, o);
        var g := Register(s1, b.fence, att.ip, o);
        if g.ok {
          hide Cleanup, Rehydrate, Register, Intent, Attachment;
          var s2 := PublishFence(g.s, b.fence);
          if b.removal { UnbindFrame(s2, st.latched, o); } else { SeedFrame(s2, st.latched, b.fence, b.input, o); }
          hide Seed, Unbind;
        }
      }
    }
  }

  /* ---- every other event ---- */

  lemma RemoveKeeps(st: State, e: Event)
    requires Inv(st.s) && Enabled(st, e)
    requires e.Removing? || e.Unregistering? || e.Purging? || e.Evicting? || e.TearingElsewhere?
    ensures Inv(Step(st, e).s)
  {
  }

  lemma WriteFrame(st: State, e: Event)
    requires e.Hooking? || e.Putting? || e.Deleting? || e.ExportBeginning? || e.ExportSealing? || e.Importing? || e.LatchingElsewhere?
    ensures var s, s' := st.s, Step(st, e).s;
      && s'.token == s.token && s'.att == s.att && s'.fence == s.fence && s'.mirror == s.mirror
      && s'.removing == s.removing && s'.rules == s.rules
      && (s.reg.None? ==> s'.reg.None?)
      && (s.reg.Some? ==> s'.reg.Some? && s'.reg.value.fence == s.reg.value.fence && s'.reg.value.ip == s.reg.value.ip)
  {
    hide Commits;
  }

  lemma StepKeeps(st: State, e: Event)
    requires Inv(st.s)
    ensures Inv(Step(st, e).s)
  {
    if Enabled(st, e) {
      match e
      case Setting(b, o) => SetKeeps(st, b, o);
      case Removing(_, _) => RemoveKeeps(st, e);
      case Unregistering => RemoveKeeps(st, e);
      case Purging(_) => RemoveKeeps(st, e);
      case Evicting(_) => RemoveKeeps(st, e);
      case TearingElsewhere(_) => RemoveKeeps(st, e);
      case Restarting =>
      case LosingPower(_, _) =>
      case _ => WriteFrame(st, e);
    }
  }

  lemma {:induction false} RunKeeps(disk: Disk, es: seq<Event>)
    ensures Inv(Run(Init(disk), es).s)
  {
    if es != [] {
      RunKeeps(disk, es[..|es| - 1]);
      StepKeeps(Run(Init(disk), es[..|es| - 1]), es[|es| - 1]);
    }
  }

  /* ---- what runs guarantee ---- */

  /** After any run of failed, retried and superseding attempts, an acknowledged SET isolates its fence. */
  lemma RebindIsolation(disk: Disk, es: seq<Event>, b: Binding, o: SetOracle)
    requires var st := Run(Init(disk), es); Enabled(st, Setting(b, o)) && Set(st, b, o).ack
    ensures var st := Run(Init(disk), es);
      Attachment(st.s, b).Some? && Isolated(Set(st, b, o).st.s, b.fence, Attachment(st.s, b).value)
  {
    RunKeeps(disk, es);
    SetKeeps(Run(Init(disk), es), b, o);
  }

  /** No SET registers its address while the kernel still dispatches another address of the subject. */
  lemma OldRulesRemovedFirst(disk: Disk, es: seq<Event>, b: Binding, o: SetOracle)
    requires var st := Run(Init(disk), es); st.s.removing.None? && Admissible(st.s, b, o)
    requires var st := Run(Init(disk), es);
      Cleanup(st.s.(token := Intent(st.s, b.fence, Attachment(st.s, b).value)), o).ok
    ensures var st := Run(Init(disk), es);
      && BeforeRegister(st, b, o).rules <= {Attachment(st.s, b).value.ip}
      && BeforeRegister(st, b, o).mirror in {None, Some(b.fence)}
  {
    RunKeeps(disk, es);
    BeforeRegisterCleaned(Run(Init(disk), es), b, o);
  }

  /** A subject that is neither registered nor rebinding has no kernel rules at all. */
  lemma NoLeftoverRules(disk: Disk, es: seq<Event>)
    requires var s := Run(Init(disk), es).s; s.token.None? && s.reg.None?
    ensures Run(Init(disk), es).s.rules == {}
  {
    RunKeeps(disk, es);
  }
}
