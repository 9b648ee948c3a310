/**
No mixed state is ever healthy: the effect chain is all-or-nothing or contained, and over every
run readiness means that the receiver, the kernel, the file and the published base agree.
*/
module SidecarProofs {
  import opened Basics
  import opened Sidecar

  /* ---- one live change ---- */

  /** File, kernel and receiver all carry the change; only the caller's publication is left. */
  predicate AllNew(s: State, s': State, inputs: Inputs, persist: bool, base: Base) {
    && base.inputs == inputs && base.epoch == s.sv.base.epoch + 1 && base.handle == s'.sv.nextId - 1
    && s'.sv.disk == (if persist && s.cfg.hasFile then Some(inputs.user) else s.sv.disk)
    && s'.sv.kernel == (if s.cfg.hasNft then inputs else s.sv.kernel)
    && s.lf.session.Some?
    && s'.lf == s.lf.(receivers := s.lf.receivers[s.lf.session.value := Receiver(Some(Identity(s.sv.vault, base.epoch)), false)])
    && s'.ready && s'.sv.reason.NoReason?
    && SameRecords(s, s')
  }

  /** Nothing but outstanding tickets changed. */
  predicate AllOld(s: State, s': State) {
    s' == s.(sv := s.sv.(identity := s'.sv.identity, nextId := s'.sv.nextId)) && s.sv.nextId <= s'.sv.nextId
  }

  /** Recovery is latched, the child is stopped and readiness is off. */
  predicate Contained(s: State, s': State) {
    && !s'.sv.reason.NoReason? && !s'.ready && s'.lf.running.None? && s'.lf.session.None?
    && s'.lf == s.lf.(running := None, session := None, released := s.lf.released + Released(s.lf.running), receivers := s'.lf.receivers)
    && OtherReceivers(s.lf, s'.lf)
    && SameRecords(s, s')
  }

  /** No receiver but the published child's is touched. */
  predicate OtherReceivers(lf: Life, lf': Life) {
    forall g <- lf.receivers :: lf.session != Some(g) ==> g in lf'.receivers && lf'.receivers[g] == lf.receivers[g]
  }

  /** The published policy, its epoch and the Store are untouched. */
  predicate SameRecords(s: State, s': State) {
    && s'.cfg == s.cfg && s'.sv.base == s.sv.base && s'.sv.vault == s.sv.vault
    && s'.sv.proxyUser == s.sv.proxyUser && s'.sv.proxyAlways == s.sv.proxyAlways && s.sv.nextId <= s'.sv.nextId
  }

  /** Where the chain is: the file is written if `persisted`, the kernel if `kernel`, the rest is as before. */
  predicate Midway(s: State, s1: State, inputs: Inputs, persisted: bool, kernel: bool) {
    && s1 == s.(sv := s.sv.(disk := if persisted then Some(inputs.user) else s.sv.disk,
                            kernel := if kernel then inputs else s.sv.kernel,
                            identity := s1.sv.identity, nextId := s1.sv.nextId))
    && s.sv.nextId <= s1.sv.nextId
  }

  /** Either nothing happened or everything is contained. */
  predicate NothingOrContained(s: State, s': State) {
    AllOld(s, s') || Contained(s, s')
  }

  lemma UndoIsAtomic(s: State, s1: State, inputs: Inputs, persisted: bool, w: Write)
    requires HonestWrite(w) && s.sv.reason.NoReason? && Midway(s, s1, inputs, persisted, false)
    ensures NothingOrContained(s, Undo(s1, persisted, s.sv.disk, w))
  {
  }

  lemma UnsavedIsAtomic(s: State, inputs: Inputs, e: Effects)
    requires Honest(e) && s.sv.reason.NoReason?
    ensures NothingOrContained(s, Unsaved(s, inputs, e))
  {
  }

  lemma ReceiverIsAtomic(s: State, s1: State, inputs: Inputs, persist: bool, e: Effects)
    requires Honest(e) && SessionReady(s) && Midway(s, s1, inputs, persist && s.cfg.hasFile, s.cfg.hasNft)
    ensures var (s', r) := ReceiverEffect(s1, inputs, persist && s.cfg.hasFile, s.sv.disk, e);
      if r.Done? then AllNew(s, s', inputs, persist, r.base) else NothingOrContained(s, s')
  {
    if Verdict(e.reply, e.reconciled).Rejected? && !s.cfg.hasNft { UndoIsAtomic(s, s1, inputs, persist && s.cfg.hasFile, e.restore); }
  }

  lemma KernelIsAtomic(s: State, s1: State, inputs: Inputs, persist: bool, e: Effects)
    requires Honest(e) && SessionReady(s) && Midway(s, s1, inputs, persist && s.cfg.hasFile, false)
    ensures var (s', r) := KernelEffect(s1, inputs, persist && s.cfg.hasFile, s.sv.disk, e);
      if r.Done? then AllNew(s, s', inputs, persist, r.base) else NothingOrContained(s, s')
  {
    if !s.cfg.hasNft {
      if e.cancelledThird { UndoIsAtomic(s, s1, inputs, persist && s.cfg.hasFile, e.restore); }
      else { ReceiverIsAtomic(s, s1, inputs, persist, e); }
    } else if e.nft.Applied? && !e.cancelledThird {
      ReceiverIsAtomic(s, s1.(sv := Invalidated(s1.sv).(kernel := inputs)), inputs, persist, e);
    }
  }

  /**
  For every combination of file, kernel, receiver and cancellation outcomes, a live change ends
  all-new, all-old and healthy, or contained; there is no fourth outcome.
  */
  lemma ChainIsAtomic(s: State, inputs: Inputs, persist: bool, e: Effects)
    requires Honest(e) && s.sv.reason.NoReason?
    ensures var (s', r) := Effect(s, inputs, persist, e);
      if r.Done? then SessionReady(s) && AllNew(s, s', inputs, persist, r.base) else NothingOrContained(s, s')
  {
    var persisted := persist && s.cfg.hasFile;
    if SessionReady(s) {
      UnsavedIsAtomic(s, inputs, e);
      var s1 := if persisted then s.(sv := Invalidated(s.sv.(disk := Some(inputs.user)))) else s;
      UndoIsAtomic(s, s1, inputs, persisted, e.restore);
      KernelIsAtomic(s, s1, inputs, persist, e);
    }
  }

  /** A change that cannot start changes nothing, in particular once recovery is latched. */
  lemma ChainNeedsSession(s: State, inputs: Inputs, persist: bool, e: Effects)
    requires !SessionReady(s)
    ensures Effect(s, inputs, persist, e) == (s, Refused)
  {
  }

  /** The Vault moved on and the receiver confirmed exactly the new contents at the unchanged policy epoch. */
  predicate VaultNew(s: State, s': State, revision: int) {
    && s.lf.session.Some?
    && s'.sv == s.sv.(vault := Vault(revision, s.sv.nextId), nextId := s.sv.nextId + 1)
    && s' == s.(sv := s'.sv, lf := s.lf.(receivers :=
         s.lf.receivers[s.lf.session.value := Receiver(Some(Identity(s'.sv.vault, s.sv.base.epoch)), false)]))
  }

  /** A live Vault change is all-new, all-old, or contained, for every receiver and Store outcome. */
  lemma VaultIsAtomic(s: State, revision: int, e: VaultEffects)
    requires s.sv.reason.NoReason?
    ensures var s' := MutateVault(s, revision, e); s' == s || (SessionReady(s) && (VaultNew(s, s', revision) || Contained(s, s')))
  {
  }

  /** Only the exact attempt, acknowledged at once or by the first reconciliation that decides, counts as confirmed. */
  lemma {:induction false} ConfirmedExactly(reply: Reply, rs: seq<Reconciled>)
    ensures Verdict(reply, rs).Confirmed? <==>
      (reply == Accepted(true) || (reply == Unsure(true) && exists k: nat :: DecidedAt(rs, k) && rs[k].Active?))
  {
    if exists k: nat :: DecidedAt(rs, k) && rs[k].Active? {
      var k: nat :| DecidedAt(rs, k) && rs[k].Active?;
      DecidedResolve(rs, k);
    } else if Resolve(rs).Confirmed? {
      var k := ResolveDecided(rs);
    }
  }

  predicate DecidedAt(rs: seq<Reconciled>, k: nat) {
    k < |rs| && !rs[k].Again? && forall j :: 0 <= j < k ==> rs[j].Again?
  }

  lemma {:induction false} DecidedResolve(rs: seq<Reconciled>, k: nat)
    requires DecidedAt(rs, k)
    ensures Resolve(rs) == Resolve([rs[k]])
  {
    if k > 0 {
      assert rs[0].Again?;
      assert DecidedAt(rs[1..], k - 1);
      DecidedResolve(rs[1..], k - 1);
    }
  }

  lemma {:induction false} ResolveDecided(rs: seq<Reconciled>) returns (k: nat)
    requires Resolve(rs).Confirmed?
    ensures DecidedAt(rs, k) && rs[k].Active?
  {
    if rs[0].Active? { k := 0; } else {
      k := ResolveDecided(rs[1..]);
      k := k + 1;
    }
  }
}
