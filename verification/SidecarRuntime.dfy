/**
The sidecar as the source writes it: the policy server, the child's owner and the readiness gate,
changed in place by the effect chain, the launch and the exit handlers. Every method is proved
against the step it implements.
*/
module SidecarRuntime {
  import opened Basics
  import opened Sidecar

  class Runtime {
    const cfg: Config
    var server: Server
    var life: Life
    var ready: bool

    ghost function View(): State
      reads this
    {
      State(cfg, server, life, ready)
    }

    constructor (cfg: Config, inputs: Inputs, disk: Option<Policy>, revision: int)
      ensures View() == Init(cfg, inputs, disk, revision)
    {
      this.cfg := cfg;
      server := Server(Base(0, inputs, 0), 1, 2, NoReason, Vault(revision, 0), disk, inputs, inputs.user, inputs.always);
      life := Life(None, None, 0, 0, 0, false, None, false, NoAttempt, map[], {}, {}, [], [], []);
      ready := false;
    }

    method InvalidateBootstrap()
      modifies this`server
      ensures server == Invalidated(old(server))
    {
      server := server.(identity := server.nextId, nextId := server.nextId + 1);
    }

    method RequireRecovery(why: Reason)
      modifies this`server, this`ready
      ensures View() == Latch(old(View()), why)
    {
      if server.reason.NoReason? { server := server.(reason := why); }
      InvalidateBootstrap();
      ready := false;
    }

    method DetachMutation()
      modifies this
      ensures View() == Detach(old(View()))
    {
      ready := false;
      if server.reason.NoReason? { RequireRecovery(EffectsUnknown); }
      var child := life.running;
      life := life.(running := None, session := None);
      life := life.(released := life.released + Released(child));
    }

    /** The restore closure of a persisted change. */
    method RestoreFile(persisted: bool, image: Option<Policy>, w: Write) returns (ok: bool)
      modifies this`server
      ensures View() == Restored(old(View()), persisted, image, w)
      ensures ok <==> !persisted || Restores(w)
    {
      if !persisted { return true; }
      if w.landed { server := server.(disk := image); }
      ok := w.state.Committed? && !w.failed;
    }

    /** Put the file back; anything but a confirmed restore detaches the child. */
    method UndoFile(persisted: bool, image: Option<Policy>, w: Write)
      modifies this
      ensures View() == Undo(old(View()), persisted, image, w)
    {
      var ok := RestoreFile(persisted, image, w);
      if !ok { DetachMutation(); }
    }

    /** Save the user policy and classify the outcome; `false` means the change must be refused. */
    method PersistChange(inputs: Inputs, e: Effects) returns (saved: bool)
      requires server.reason.NoReason? && Honest(e)
      modifies this`server, this`ready
      ensures saved <==> e.image && e.save.state.Committed? && !e.save.failed
      ensures saved ==> View() == old(View()).(sv := Invalidated(old(server).(disk := Some(inputs.user))))
      ensures !saved ==> (if server.reason.NoReason? then View() else Detach(View())) ==
                         if e.image then Unsaved(old(View()), inputs, e) else old(View())
    {
      if !e.image { return false; }
      var image := server.disk;
      if e.save.landed { server := server.(disk := Some(inputs.user)); }
      if e.save.state.Committed? && !e.save.failed {
        InvalidateBootstrap();
        return true;
      }
      if e.save.state.Unchanged? && e.save.failed { return false; }
      RequireRecovery(EffectsUnknown);
      var _ := RestoreFile(true, image, e.restore);
      return false;
    }

    /** Install one frozen snapshot and reconcile only its exact attempt. */
    method UpdateSnapshot(id: Identity, reply: Reply, rs: seq<Reconciled>) returns (o: UpdateOutcome)
      modifies this`life
      ensures o == Verdict(reply, rs)
      ensures View() == match o
                        case Confirmed => Confirms(old(View()), id)
                        case Rejected => old(View())
                        case Lost => Uncertain(old(View()))
    {
      o := Lost;
      match reply {
        case Declined => o := Rejected;
        case Broken =>
        case Accepted(exact) => o := if exact then Confirmed else Lost;
        case Unsure(exact) =>
          if exact {
            var i := 0;
            while i < |rs| && rs[i].Again?
              invariant 0 <= i <= |rs| && Resolve(rs[i..]) == Resolve(rs)
            {
              assert rs[i..][1..] == rs[i + 1..];
              i := i + 1;
            }
            if i < |rs| {
              o := match rs[i] case Active => Confirmed case Inactive => Rejected case Fatal => Lost;
            }
          }
      }
      if life.session.None? { return; }
      var g := life.session.value;
      match o {
        case Confirmed => life := life.(receivers := life.receivers[g := Receiver(Some(id), false)]);
        case Rejected =>
        case Lost =>
          var before := if g in life.receivers then life.receivers[g].confirmed else None;
          life := life.(receivers := life.receivers[g := Receiver(before, true)]);
      }
    }

    /** The receiver's part of the chain. */
    method ReceiverStage(inputs: Inputs, persisted: bool, image: Option<Policy>, e: Effects) returns (r: Outcome)
      modifies this
      ensures (View(), r) == ReceiverEffect(old(View()), inputs, persisted, image, e)
    {
      var next := Base(server.nextId, inputs, server.base.epoch + 1);
      var o := UpdateSnapshot(Identity(server.vault, next.epoch), e.reply, e.reconciled);
      if !o.Confirmed? {
        if !cfg.hasNft && o.Rejected? { UndoFile(persisted, image, e.restore); } else { DetachMutation(); }
        return Refused;
      }
      if !e.stillValid { DetachMutation(); return Refused; }
      server := server.(nextId := server.nextId + 1);
      return Done(next);
    }

    method FailKernel(inputs: Inputs, persisted: bool, image: Option<Policy>, e: Effects)
      requires e.nft.Failed?
      modifies this
      ensures View() == KernelFailed(old(View()), inputs, persisted, image, e)
    {
      hide Latch, Detach, Restored;
      if e.nft.landed { server := server.(kernel := inputs); }
      if !e.nft.noEffect { RequireRecovery(EffectsUnknown); }
      var ok := RestoreFile(persisted, image, e.restore);
      if !ok && server.reason.NoReason? { RequireRecovery(EffectsUnknown); }
      if !server.reason.NoReason? { DetachMutation(); }
    }

    /** The kernel's part of the chain. */
    method KernelStage(inputs: Inputs, persisted: bool, image: Option<Policy>, e: Effects) returns (r: Outcome)
      modifies this
      ensures (View(), r) == KernelEffect(old(View()), inputs, persisted, image, e)
    {
      if cfg.hasNft {
        InvalidateBootstrap();
        if e.nft.Failed? {
          FailKernel(inputs, persisted, image, e);
          return Refused;
        }
        server := server.(kernel := inputs);
      }
      if e.cancelledThird {
        if cfg.hasNft { DetachMutation(); } else { UndoFile(persisted, image, e.restore); }
        return Refused;
      }
      r := ReceiverStage(inputs, persisted, image, e);
    }

    /** The fixed effect chain: file, kernel, receiver. */
    method ApplyRevisionPolicy(inputs: Inputs, persist: bool, e: Effects) returns (r: Outcome)
      requires Honest(e)
      modifies this
      ensures (View(), r) == Effect(old(View()), inputs, persist, e)
    {
      if !server.reason.NoReason? || life.stopping || life.running.None? || life.session.None? || !ready { return Refused; }
      if e.notReady || !e.candidate || server.base.epoch == MAX_INT64 { return Refused; }
      var persisted := persist && cfg.hasFile;
      if !e.config { DetachMutation(); return Refused; }
      if !e.fits || e.cancelledFirst { return Refused; }
      var image := server.disk;
      if persisted {
        var saved := PersistChange(inputs, e);
        if !saved {
          if !server.reason.NoReason? { DetachMutation(); }
          return Refused;
        }
      }
      if e.cancelledSecond {
        UndoFile(persisted, image, e.restore);
        return Refused;
      }
      r := KernelStage(inputs, persisted, image, e);
    }

    /** A user's policy change. */
    method ChangePolicy(user: Policy, e: Effects)
      requires Honest(e)
      modifies this
      ensures View() == CommitPolicy(old(View()), user, e)
    {
      var r := ApplyRevisionPolicy(Inputs(user, server.base.inputs.always), true, e);
      if r.Refused? { return; }
      server := server.(proxyUser := user);
      server := server.(base := r.base);
      InvalidateBootstrap();
    }

    /** The periodic reload of always-rules; a successful apply means the loader reports a change. */
    method ReloadRules(always: string, e: Effects)
      requires Honest(e)
      modifies this
      ensures View() == ReloadAlways(old(View()), always, e)
    {
      var r := ApplyRevisionPolicy(Inputs(server.base.inputs.user, always), false, e);
      if r.Refused? { return; }
      server := server.(proxyAlways := always);
      server := server.(base := r.base);
      InvalidateBootstrap();
    }

    /** The live Vault transaction. */
    method ChangeVault(revision: int, e: VaultEffects)
      modifies this
      ensures View() == MutateVault(old(View()), revision, e)
    {
      if e.notReady || !server.reason.NoReason? || life.stopping || life.running.None? || life.session.None? || !ready { return; }
      if !e.candidate { return; }
      if !e.config { DetachMutation(); return; }
      if !e.fits || e.cancelled { return; }
      var next := Vault(revision, server.nextId);
      var o := UpdateSnapshot(Identity(next, server.base.epoch), e.reply, e.reconciled);
      if !o.Confirmed? {
        if !o.Rejected? { DetachMutation(); }
        return;
      }
      if !e.commits { DetachMutation(); return; }
      server := server.(vault := next, nextId := server.nextId + 1);
    }

    /** First critical section of a launch. */
    method ReserveLaunch() returns (ok: bool)
      modifies this`life
      ensures life == StartLaunch(old(life))
      ensures ok <==> !old(life).stopping && old(life).launchGen == 0
    {
      if life.stopping || life.launchGen != 0 { return false; }
      life := life.(nextGen := life.nextGen + 1);
      life := life.(launchGen := life.nextGen, launchExited := false, attempt := Starting(life.nextGen));
      return true;
    }

    /** Take a bootstrap ticket, or give the reservation back. */
    method CaptureTicket(ok: bool)
      requires life.attempt.Starting?
      modifies this`life
      ensures View() == Capture(old(View()), ok)
    {
      if !ok || !server.reason.NoReason? {
        life := life.(attempt := NoAttempt, pending := None, launchGen := 0);
        return;
      }
      life := life.(attempt := Captured(life.attempt.gen, Ticket(server.identity, server.base, server.vault)));
    }

    /** The sole readiness publication point. */
    method PublishReady(cancelled: bool) returns (ok: bool)
      requires life.attempt.Bootstrapped?
      modifies this`life, this`ready
      ensures View() == Publish(old(View()), cancelled)
      ensures ok ==> ready && life.running == Some(old(life).attempt.gen)
      ensures !ok ==> View() == old(View())
    {
      var g, t := life.attempt.gen, life.attempt.ticket;
      if !server.reason.NoReason? || t.identity != server.identity || t.base != server.base || t.vault.tag != server.vault.tag {
        return false;
      }
      if cancelled || life.stopping { return false; }
      if life.pending != Some(g) || life.launchGen != g || life.running.Some? { return false; }
      if life.launchExited { return false; }
      life := life.(running := Some(g), session := Some(g), currentGen := g);
      life := life.(pending := None, launchGen := 0, attempt := NoAttempt, published := life.published + [g]);
      ready := true;
      return true;
    }

    /** The child of generation `g` was reaped; returns whether the exit may still latch recovery. */
    method NoteExit(g: nat) returns (latch: bool)
      modifies this`life, this`ready
      ensures View() == RecordExit(old(View()), g)
      ensures latch <==> life.currentGen == g && !life.stopping && life.running.Some? && cfg.hasQuarantine
    {
      life := life.(exited := life.exited + {g});
      if life.launchGen == g { life := life.(launchExited := true); }
      latch := false;
      if life.currentGen == g {
        ready := false;
        if !life.stopping && life.running.Some? && cfg.hasQuarantine {
          latch := true;
          life := life.(armed := life.armed + {g});
        }
      }
    }

    method LatchOwnedExit(g: nat)
      modifies this
      ensures View() == LatchExit(old(View()), g)
    {
      life := life.(armed := life.armed - {g});
      if !life.stopping && life.running.Some? && life.currentGen == g { RequireRecovery(OtherReason); }
    }

    method CloseRevisionSession(g: nat, closes: bool)
      modifies this
      ensures View() == CloseSession(old(View()), g, closes)
    {
      if life.currentGen != g { return; }
      var session, child := life.session, life.running;
      life := life.(running := None, session := None);
      life := life.(released := life.released + Released(child));
      ready := false;
      if session.Some? && !closes { RequireRecovery(CleanupFailed); }
    }

    method ClaimForShutdown() returns (child: Option<nat>)
      modifies this`life, this`ready
      ensures View() == Shutdown(old(View())) && child == old(life).running
    {
      life := life.(stopping := true);
      ready := false;
      child := life.running;
      life := life.(running := None, session := None);
      life := life.(released := life.released + Released(child));
    }
  }
}
