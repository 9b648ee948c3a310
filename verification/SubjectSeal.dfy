/**
The export seal: a sealed acknowledgement means that the bundle is the source file, and the file
stays that way until an import or a removal, across restarts.
*/
module SubjectSeal {
  import opened Basics
  import opened PolicyFiles
  import opened SubjectPlane
  import opened SubjectCrash

  /** A reload leaves these as they are, as far as `f` is concerned: the rest it discards or quarantines. */
  predicate Stable(image: Image, f: Fence) {
    match image
    case Encoded(g, _, _) => g == f
    case Unparseable(_, _) => false
    case _ => true
  }

  /** Sealed for `f` with source image `a`: in memory, or across a restart by the marker alone. */
  predicate SealedFor(st: State, f: Fence, a: Image) {
    && st.s.disk.marker && Attributable(st.s.disk.file, f) == a && Stable(st.s.disk.file, f)
    && st.s.removing.None? && st.s.token.None?
    && (st.s.reg.Some? ==> st.s.reg.value.fence == f)
    && (st.s.fence.Some? ==> st.s.fence == Some(f))
    && (if st.s.entry.Some? then st.s.entry.value.fence == f && st.s.entry.value.sealed else st.s.fence.None?)
  }

  /**
  What may happen to a sealed subject short of an import, removal or rebind that takes effect, an
  eviction or a power loss: everything else, refused and stale actions included.
  */
  predicate LeavesSeal(st: State, e: Event, f: Fence) {
    match e
    case Setting(b, o) => (b.fence == f && !b.removal) || !Admissible(st.s, b, o)
    case Removing(g, o) => !o.purgeAllowed || (st.s.reg.Some? && (st.s.reg.value.fence != g || !o.tear.Torn?))
    case Importing(g, rev, _, w) =>
      Superseded(st.s, g, rev, w.compares) || !ImportAllowed(st, g) || !w.encodes || !w.snapshots || NoEffect(w.save)
    case Evicting(_) => false
    case LosingPower(_, _) => false
    case _ => true
  }

  predicate SealRun(st: State, f: Fence, es: seq<Event>) {
    es == [] || (SealRun(st, f, es[..|es| - 1]) && LeavesSeal(Run(st, es[..|es| - 1]), es[|es| - 1], f))
  }

  /* ---- what an export carries ---- */

  /** An export request: what it answers, and the image it carried into the bundle, if it got that far. */
  datatype Export = Export(reply: Reply, carried: Option<Image>)

  /** Capture, copy while anything else happens, and seal. */
  function Exported(st: State, f: Fence, between: seq<Event>, marks: bool): Export {
    var a := ExportBegin(st, f);
    if a.ack || !ExportAllowed(st, f) then Export(a, None)
    else
      var c := Capture(f, Attributable(st.s.disk.file, f));
      var r := ExportSeal(Run(a.st, between), c, true, marks);
      Export(r, if r.ack then Some(c.image) else None)
  }

  predicate Sealed(s: Slot, f: Fence, image: Image) {
    && s.bundle == image == Attributable(s.disk.file, f) && s.disk.marker
    && s.entry.Some? && s.entry.value.fence == f && s.entry.value.sealed
  }

  /**
  An acknowledged sealed export carried its source, sealed, and left the bundle equal to the source at
  that very moment, exactly when the subject was registered when it was first looked up; otherwise it
  did nothing at all.
  */
  lemma ExportCarriesExactly(st: State, f: Fence, between: seq<Event>, marks: bool)
    requires Exported(st, f, between, marks).reply.ack
    ensures var x := Exported(st, f, between, marks);
      && (x.carried.Some? <==> st.s.reg.Some?)
      && (x.carried.Some? ==> x.carried.value == Attributable(st.s.disk.file, f) && Sealed(x.reply.st.s, f, x.carried.value))
      && (x.carried.None? ==> x.reply.st == st)
  {
  }

  lemma SealRehydrate(s: Slot, f: Fence, a: Image, o: SetOracle)
    requires s.disk.marker && Attributable(s.disk.file, f) == a && Stable(s.disk.file, f)
    requires s.entry.Some? ==> s.entry.value.fence == f && s.entry.value.sealed
    ensures var s' := Rehydrate(s, f, o);
      && s' == s.(entry := s'.entry, pending := s'.pending, disk := s'.disk)
      && s'.disk.marker && Attributable(s'.disk.file, f) == a && Stable(s'.disk.file, f)
      && s'.entry.Some? && s'.entry.value.fence == f && s'.entry.value.sealed
  {
  }

  lemma SealRegister(s: Slot, f: Fence, ip: IP, o: SetOracle)
    requires s.reg.Some? ==> s.reg.value.fence == f
    ensures var s' := Register(s, f, ip, o).s;
      && s' == s.(reg := s'.reg, rules := s'.rules, kernel := s'.kernel)
      && (s'.reg.Some? ==> s'.reg.value.fence == f)
  {
  }

  lemma SealSet(st: State, f: Fence, a: Image, b: Binding, o: SetOracle)
    requires SealedFor(st, f, a) && b.fence == f && !b.removal
    ensures SealedFor(Set(st, b, o).st, f, a)
  {
    if Admissible(st.s, b, o) {
      var att := Attachment(st.s, b).value;
      hide Attachment, Rehydrate, Register;
      assert st.s.(token := Intent(st.s, f, att)) == st.s;
      var c := Cleanup(st.s, o);
      assert c.s == st.s.(reg := c.s.reg, rules := c.s.rules, kernel := c.s.kernel) && (c.s.reg.Some? ==> c.s.reg.value.fence == f);
      SealRehydrate(c.s, f, a, o);
      SealRegister(Rehydrate(c.s, f, o).(att := Some(att)), f, att.ip, o);
    }
  }

  lemma SealStep(st: State, f: Fence, a: Image, e: Event)
    requires SealedFor(st, f, a) && LeavesSeal(st, e, f)
    ensures SealedFor(Step(st, e), f, a)
  {
    if e.Setting? && Admissible(st.s, e.b, e.outcome) {
      SealSet(st, f, a, e.b, e.outcome);
      hide Set;
    }
    hide Installed;
  }

  /** However many restarts, relay writes, replays of its SET and refused or stale actions follow, a sealed source never changes and no write is acknowledged. */
  lemma {:induction false} SealHolds(st: State, f: Fence, a: Image, es: seq<Event>)
    requires SealedFor(st, f, a) && SealRun(st, f, es)
    ensures SealedFor(Run(st, es), f, a)
    ensures forall i :: 0 <= i < |es| && (es[i].Putting? || es[i].Deleting?) ==> !Apply(Run(st, es[..i]), es[i]).ack
  {
    if es != [] {
      var n := |es| - 1;
      SealHolds(st, f, a, es[..n]);
      SealStep(Run(st, es[..n]), f, a, es[n]);
      SealRefuses(Run(st, es[..n]), f, a, es[n]);
      hide SealedFor, LeavesSeal, Apply, Step;
      forall i | 0 <= i < |es| && (es[i].Putting? || es[i].Deleting?) ensures !Apply(Run(st, es[..i]), es[i]).ack {
        if i < n { assert es[..n][i] == es[i] && es[..n][..i] == es[..i]; }
      }
    }
  }

  lemma SealRefuses(st: State, f: Fence, a: Image, e: Event)
    requires SealedFor(st, f, a)
    ensures e.Putting? || e.Deleting? ==> !Apply(st, e).ack
  {
  }

  /** The acknowledged export of a registered subject with a stable source starts such a run, whatever interleaved with its copy. */
  lemma ExportSeals(st: State, f: Fence, between: seq<Event>, marks: bool, es: seq<Event>)
    requires st.s.reg.Some? && Exported(st, f, between, marks).reply.ack
    requires var st1 := Exported(st, f, between, marks).reply.st;
      st1.s.removing.None? && Stable(st1.s.disk.file, f) && SealRun(st1, f, es)
    ensures var x := Exported(st, f, between, marks);
      && x.carried == Some(Attributable(Run(x.reply.st, es).s.disk.file, f))
      && (Run(x.reply.st, es).s.entry.Some? ==> Run(x.reply.st, es).s.entry.value.sealed)
      && forall i :: 0 <= i < |es| && (es[i].Putting? || es[i].Deleting?) ==> !Apply(Run(x.reply.st, es[..i]), es[i]).ack
  {
    ExportCarriesExactly(st, f, between, marks);
    var x := Exported(st, f, between, marks);
    SealHolds(x.reply.st, f, x.carried.value, es);
  }

  /** The reload cannot lose this image: it cannot read it, has no reason to discard it, or failed to. */
  predicate Endures(file: Image, f: Fence, readable: bool, discard: Unlink) {
    !readable || Stable(file, f) || (file.Unparseable? && file.fence == f && KeepsFile(discard))
  }

  /**
  On a restarted process with a seal, the replayed SET keeps source and seal exactly when the image
  endures the reload: otherwise an unparseable source disappears, and a leftover of another generation
  is replaced by an unsealed seed.
  */
  lemma SealSurvivesReplayExactly(st: State, b: Binding, o: SetOracle)
    requires Unrecorded(st.s, b.fence) && st.s.disk.marker && !b.removal && HonestSet(o, false) && Set(st, b, o).ack
    ensures var s' := Set(st, b, o).st.s;
      && (Attributable(s'.disk.file, b.fence) == Attributable(st.s.disk.file, b.fence) && IsSealed(s')
          <==> Endures(st.s.disk.file, b.fence, o.readable, o.discard))
      && (!Endures(st.s.disk.file, b.fence, o.readable, o.discard) ==>
            if st.s.disk.file.fence == b.fence then s'.disk.file == Absent else Seeded(s', b))
  {
    SetAdopts(st, b, o);
    hide Set, Unrecorded;
  }
}
