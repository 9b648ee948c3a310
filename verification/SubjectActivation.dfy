/**
Late but never early: a subject goes from denying to active only in a data-plane-ready hook.
*/
module SubjectActivation {
  import opened Basics
  import opened PolicyFiles
  import opened SubjectPlane

  predicate IsActive(s: Slot) {
    s.reg.Some? && s.reg.value.active
  }

  /** The kernel may enforce something other than deny. */
  predicate Opened(s: Slot) {
    !s.kernel.Deny?
  }

  /** Everything a SET does before its policy follow-up leaves an inactive subject inactive and opens nothing. */
  lemma CleanupNeverOpens(s: Slot, o: SetOracle)
    ensures var s' := Cleanup(s, o).s;
      && (IsActive(s') ==> IsActive(s) && s'.reg == s.reg)
      && s'.kernel in {s.kernel, Deny}
  {
    hide Purged;
  }

  lemma RegisterNeverOpens(s: Slot, f: Fence, ip: IP, o: SetOracle)
    ensures var s' := Register(s, f, ip, o).s;
      && (IsActive(s') ==> IsActive(s) && s'.reg.value.fence == s.reg.value.fence)
      && s'.kernel in {s.kernel, Deny}
      && (Register(s, f, ip, o).ok && !IsActive(s') ==> s'.kernel.Deny?)
  {
  }

  lemma FollowUpNeverOpens(s: Slot, latched: bool, b: Binding, o: SetOracle)
    ensures var r := if b.removal then Unbind(s, latched, o) else Seed(s, latched, b.fence, b.input, o);
      var s' := r.st.s;
      && (IsActive(s') ==> IsActive(s) && s'.reg.value.fence == s.reg.value.fence)
      && (!IsActive(s) ==> s'.kernel in {s.kernel, Deny})
  {
    hide Commits, Purged;
  }

  lemma SetNeverOpens(st: State, b: Binding, o: SetOracle)
    ensures var s, s' := st.s, Set(st, b, o).st.s;
      && (IsActive(s') ==> IsActive(s) && s'.reg.value.fence == s.reg.value.fence)
      && (!IsActive(s) ==> s'.kernel in {s.kernel, Deny})
      && (Set(st, b, o).ack && !IsActive(s) ==> s'.kernel.Deny?)
  {
    hide Cleanup, Intent, Attachment, Rehydrate, Register, Seed, Unbind;
    if Admissible(st.s, b, o) {
      var att := Attachment(st.s, b).value;
      var s0 := st.s.(token := Intent(st.s, b.fence, att));
      CleanupNeverOpens(s0, o);
      var c := Cleanup(s0, o);
      RehydrateFrame(c.s, b.fence, o);
      var s1 := (if b.removal then c.s else Rehydrate(c.s, b.fence, o)).(att := Some(att));
      RegisterNeverOpens(s1, b.fence, att.ip, o);
      FollowUpNeverOpens(PublishFence(Register(s1, b.fence, att.ip, o).s, b.fence), st.latched, b, o);
    }
  }

  lemma RehydrateFrame(s: Slot, f: Fence, o: SetOracle)
    ensures var s' := Rehydrate(s, f, o); s'.reg == s.reg && s'.kernel == s.kernel
  {
  }

  /** The hook that activates: its fence is the registered and the published one, and its policy is the pending one. */
  predicate Activates(st: State, e: Event) {
    e.Hooking? && Enabled(st, e) && HookAllowed(st.s, e.f) && e.applies
  }

  /** Relay writes and imports change enforcement only on a subject that is already active. */
  lemma WritesNeverOpen(st: State, e: Event)
    requires e.Putting? || e.Deleting? || e.Importing? || e.ExportBeginning? || e.ExportSealing?
    ensures var s, s' := st.s, Step(st, e).s;
      && (IsActive(s') ==> IsActive(s) && s'.reg.value.fence == s.reg.value.fence)
      && (!IsActive(s) ==> s'.kernel == s.kernel)
  {
    hide Commits;
  }

  /** No event but a data-plane-ready hook activates a subject or opens the kernel of an inactive one. */
  lemma NeverEarly(st: State, e: Event)
    ensures var s, s' := st.s, Step(st, e).s;
      && (IsActive(s') ==> (IsActive(s) && s'.reg.value.fence == s.reg.value.fence) || (Activates(st, e) && s'.reg.value.fence == e.f
                           && s'.reg.value.user == s.pending))
      && (!IsActive(s) && Opened(s') && !Opened(s) ==> e.Hooking? && HookAllowed(s, e.f) && Some(s'.kernel) == s.pending)
  {
    if e.Setting? { SetNeverOpens(st, e.b, e.outcome); }
    if e.Putting? || e.Deleting? || e.Importing? || e.ExportBeginning? || e.ExportSealing? { WritesNeverOpen(st, e); }
    hide Set, Put, Delete, Import, ExportSeal, ExportBegin, Purged;
  }

  /** An active subject was activated by a hook for its very generation, and has been active ever since. */
  lemma {:induction false} ActiveMeansHooked(disk: Disk, es: seq<Event>) returns (i: nat)
    requires IsActive(Run(Init(disk), es).s)
    ensures i < |es| && Activates(Run(Init(disk), es[..i]), es[i]) && es[i].f == Run(Init(disk), es).s.reg.value.fence
    ensures forall j :: i < j <= |es| ==> IsActive(Run(Init(disk), es[..j]).s)
  {
    var n := |es| - 1;
    var st := Run(Init(disk), es[..n]);
    NeverEarly(st, es[n]);
    assert es[..|es|] == es;
    if IsActive(st.s) && Step(st, es[n]).s.reg.value.fence == st.s.reg.value.fence {
      i := ActiveMeansHooked(disk, es[..n]);
      assert es[..n][..i] == es[..i];
      forall j | i < j <= |es| ensures IsActive(Run(Init(disk), es[..j]).s) {
        if j <= n { assert es[..n][..j] == es[..j]; }
      }
    } else {
      i := n;
    }
  }
}
