/**
The policy plane and the drain together: every subject's SET, REMOVE and eviction records its
generations with the drain, while handlers, children and the worker interleave. The plane never
records a Register over another mirrored generation, so all that holds of disciplined drains holds
here, and a drained child knows what the plane has published.
*/
module JointRuns {
  import opened Basics
  import opened Drain
  import opened DrainInvariant
  import opened DrainProofs
  import DrainRuns
  import DrainCounters
  import PolicyFiles
  import P = SubjectPlane
  import SubjectRebind

  /** The planes of all subjects, the drain, what it was told, and the targets that cannot be encoded for the wire. */
  datatype Joint = Joint(planes: map<Subject, P.State>, drain: State, told: seq<Event>, unencodable: set<Target>)

  ghost function Start(disks: map<Subject, PolicyFiles.Disk>, unencodable: set<Target>): Joint {
    Joint(map u <- disks :: P.Init(disks[u]), Init(map[]), [], unencodable)
  }

  /* ---- what the plane records ---- */

  /** The generation whose Unload a SET records, before or while it drops the old state. */
  function SetUnloads(st: P.State, b: P.Binding, o: P.SetOracle): Option<Fence> {
    if !P.Admissible(st.s, b, o) then None
    else
      var t := P.Intent(st.s, b.fence, P.Attachment(st.s, b).value);
      if t.None? then None
      else if (if t.value.needsReset then o.tear.Torn? else !t.value.purged) then Some(t.value.from) else None
  }

  /** The SET got as far as publishing its fence. */
  predicate SetRegisters(st: P.State, b: P.Binding, o: P.SetOracle) {
    && P.Admissible(st.s, b, o)
    && P.Cleanup(st.s.(token := P.Intent(st.s, b.fence, P.Attachment(st.s, b).value)), o).ok
    && P.Register(SubjectRebind.BeforeRegister(st, b, o), b.fence, P.Attachment(st.s, b).value.ip, o).ok
  }

  function Unloads(st: P.State, e: P.Event): Option<Fence> {
    match e
    case Setting(b, o) => SetUnloads(st, b, o)
    case Purging(_) =>
      if st.s.removing.None? then None
      else if st.s.removing.value.registered.Some? then st.s.removing.value.registered else st.s.mirror
    case Evicting(_) => st.s.fence
    case _ => None
  }

  function Registers(st: P.State, e: P.Event): Option<Fence> {
    if e.Setting? && SetRegisters(st, e.b, e.outcome) then Some(e.b.fence) else None
  }

  /** The zero fence and targets that cannot be encoded are not recorded. */
  function Recording(unencodable: set<Target>, u: Subject, f: Option<Fence>, op: Op): seq<Event> {
    if f.None? || f.value == P.NO_FENCE || Target(u, f.value) in unencodable then [] else [Recorded(Target(u, f.value), op)]
  }

  /** A SET that is let in works under its registration intent. */
  function IntentOf(st: P.State, e: P.Event): Option<P.Token> {
    if e.Setting? && P.Admissible(st.s, e.b, e.outcome) then P.Intent(st.s, e.b.fence, P.Attachment(st.s, e.b).value) else st.s.token
  }

  /* ---- joint runs ---- */

  /** What may happen between an Unload and a Register of one action. */
  datatype Gap =
    | Working(work: Event)
    | Other(v: Subject, act: P.Event)

  datatype JointEvent =
    | Acting(u: Subject, e: P.Event, gap: seq<Gap>)
    | Draining(work: Event)
    | Crashing(losses: map<Subject, P.Event>)

  /** Only the planes record intents and keep rebind tokens. */
  predicate Foreign(e: Event) {
    !e.Recorded? && !e.Rebinding?
  }

  predicate Crash(e: P.Event) {
    e.Restarting? || e.LosingPower?
  }

  predicate Acts(j: Joint, u: Subject, e: P.Event) {
    u in j.planes && !Crash(e) && P.Enabled(j.planes[u], e)
  }

  /** The drain takes everything it is told, disciplined or not. */
  ghost function Play(d: State, es: seq<Event>): State {
    if es == [] then d else DrainRuns.Happen(Play(d, es[..|es| - 1]), es[|es| - 1])
  }

  ghost function Tell(j: Joint, es: seq<Event>): Joint {
    j.(drain := Play(j.drain, es), told := j.told + es)
  }

  /** The plane once its intent and its Unload are recorded. */
  function Opened(st: P.State, e: P.Event): P.State {
    st.(s := st.s.(token := IntentOf(st, e), mirror := AfterUnload(st.s.mirror, Unloads(st, e))))
  }

  /** The first half of an action, as the drain sees it: the rebind token and the Unload. */
  ghost function Open(j: Joint, u: Subject, e: P.Event): Joint
    requires u in j.planes
  {
    var st := j.planes[u];
    Tell(j, [Rebinding(u, IntentOf(st, e).Some?)] + Recording(j.unencodable, u, Unloads(st, e), Unload)).(planes := j.planes[u := Opened(st, e)])
  }

  /** The rest: the Register, and what became of the token. */
  ghost function Close(j: Joint, u: Subject, st: P.State, e: P.Event): Joint {
    var st' := P.Step(st, e);
    Tell(j, Recording(j.unencodable, u, Registers(st, e), Register) + [Rebinding(u, st'.s.token.Some?)]).(planes := j.planes[u := st'])
  }

  ghost function GapStep(j: Joint, u: Subject, g: Gap): Joint {
    match g
    case Working(work) => if Foreign(work) then Tell(j, [work]) else j
    case Other(v, act) => if v != u && Acts(j, v, act) then Close(Open(j, v, act), v, j.planes[v], act) else j
  }

  ghost function GapRun(j: Joint, u: Subject, gap: seq<Gap>): Joint {
    if gap == [] then j else GapStep(GapRun(j, u, gap[..|gap| - 1]), u, gap[|gap| - 1])
  }

  function Loss(losses: map<Subject, P.Event>, u: Subject, st: P.State): P.Event {
    if u in losses && losses[u].LosingPower? && P.Enabled(st, losses[u]) then losses[u] else P.Restarting
  }

  ghost function JointStep(j: Joint, ev: JointEvent): Joint {
    match ev
    case Acting(u, e, gap) => if Acts(j, u, e) then Close(GapRun(Open(j, u, e), u, gap), u, j.planes[u], e) else j
    case Draining(work) => if Foreign(work) then Tell(j, [work]) else j
    case Crashing(losses) =>
      Joint(map u <- j.planes :: P.Step(j.planes[u], Loss(losses, u, j.planes[u])), Init(map[]), [], j.unencodable)
  }

  ghost function JointRun(start: Joint, evs: seq<JointEvent>): Joint {
    if evs == [] then start else JointStep(JointRun(start, evs[..|evs| - 1]), evs[|evs| - 1])
  }

  /* ---- the mirror ---- */

  function Lookup(fences: map<Subject, Fence>, u: Subject): Option<Fence> {
    if u in fences then Some(fences[u]) else None
  }

  /** The part of the plane's mirror that the drain can be told about. */
  function Visible(unencodable: set<Target>, u: Subject, mirror: Option<Fence>): Option<Fence> {
    if mirror.Some? && Target(u, mirror.value) in unencodable then None else mirror
  }

  ghost predicate Mirrors(j: Joint, u: Subject)
    requires u in j.planes
  {
    Lookup(j.drain.sh.fences, u) == Visible(j.unencodable, u, j.planes[u].s.mirror)
  }

  /** Planes and drain agree on mirrors and tokens. */
  ghost predicate Inv(j: Joint) {
    && (forall u <- j.planes :: SubjectRebind.Inv(j.planes[u].s) && Mirrors(j, u))
    && (forall u <- j.planes :: u in j.drain.sh.rebinds <==> j.planes[u].s.token.Some?)
    && (forall u <- j.drain.sh.fences :: u in j.planes)
  }

  /** The drain is where a disciplined and tidy run of what it was told leads. */
  ghost predicate Follows(j: Joint) {
    j.drain == DrainRuns.Run(map[], j.told) && DrainCounters.TidyRun(map[], j.told)
  }

  function AfterUnload(mirror: Option<Fence>, f: Option<Fence>): Option<Fence> {
    if f.Some? then P.Unloaded(mirror, f.value) else mirror
  }

  /** The old generation's Unload is recorded at most once, whichever stage of the cleanup does it. */
  lemma CleanupMirror(s: P.Slot, o: P.SetOracle)
    ensures P.Cleanup(s, o).s.mirror ==
              if s.token.Some? && (if s.token.value.needsReset then o.tear.Torn? else !s.token.value.purged)
              then P.Unloaded(s.mirror, s.token.value.from) else s.mirror
  {
  }

  lemma SetMirror(st: P.State, b: P.Binding, o: P.SetOracle)
    requires SubjectRebind.Inv(st.s) && st.s.removing.None? && b.fence != P.NO_FENCE
    ensures var m := AfterUnload(st.s.mirror, SetUnloads(st, b, o));
      if SetRegisters(st, b, o) then m in {None, Some(b.fence)} && P.Set(st, b, o).st.s.mirror == Some(b.fence)
      else P.Set(st, b, o).st.s.mirror == m
  {
    hide P.Cleanup, P.Intent, P.Attachment, P.Admissible, P.Rehydrate, P.Register, P.Unbind, P.Seed, SubjectRebind.Inv;
    if P.Admissible(st.s, b, o) {
      AdmissibleAttached(st.s, b, o);
      var att := P.Attachment(st.s, b).value;
      var s0 := st.s.(token := P.Intent(st.s, b.fence, att));
      CleanupMirror(s0, o);
      SubjectRebind.BeforeRegisterCleaned(st, b, o);
      var c := P.Cleanup(s0, o);
      if c.ok {
        SubjectRebind.RehydrateFrame(c.s, b.fence, o);
        var s1 := SubjectRebind.BeforeRegister(st, b, o);
        assert s1.mirror == c.s.mirror;
        SubjectRebind.RegisterKeeps(s1, b.fence, att, o);
        RegisterMirror(s1, b.fence, att.ip, o);
        var g := P.Register(s1, b.fence, att.ip, o);
        if g.ok { FollowUpMirror(P.PublishFence(g.s, b.fence), st.latched, b, o); }
      }
    }
  }

  lemma AdmissibleAttached(s: P.Slot, b: P.Binding, o: P.SetOracle)
    requires P.Admissible(s, b, o)
    ensures P.Attachment(s, b).Some?
  {
  }

  lemma RegisterMirror(s: P.Slot, f: Fence, ip: P.IP, o: P.SetOracle)
    ensures P.Register(s, f, ip, o).s.mirror == s.mirror
  {
  }

  lemma FollowUpMirror(s: P.Slot, latched: bool, b: P.Binding, o: P.SetOracle)
    requires s.reg.Some?
    ensures (if b.removal then P.Unbind(s, latched, o) else P.Seed(s, latched, b.fence, b.input, o)).st.s.mirror == s.mirror
  {
    if b.removal { SubjectRebind.UnbindFrame(s, latched, o); } else { SubjectRebind.SeedFrame(s, latched, b.fence, b.input, o); }
    hide P.Unbind, P.Seed;
  }

  /** The plane's mirror moves exactly with what it records, and never from one generation to another. */
  lemma PlaneMirror(st: P.State, e: P.Event)
    requires SubjectRebind.Inv(st.s) && P.Enabled(st, e) && !Crash(e)
    ensures var m := AfterUnload(st.s.mirror, Unloads(st, e));
      if Registers(st, e).Some? then m in {None, Registers(st, e)} && P.Step(st, e).s.mirror == Registers(st, e)
      else P.Step(st, e).s.mirror == m
  {
    if e.Setting? {
      SetMirror(st, e.b, e.outcome);
      hide P.Set, SetRegisters, SetUnloads;
    } else {
      hide P.Set, PolicyFiles.Commits, PolicyFiles.Purged;
    }
  }

  /** A plane never unloads another generation than the one it mirrors. */
  lemma UnloadsMirrored(st: P.State, e: P.Event)
    requires SubjectRebind.Inv(st.s) && P.Enabled(st, e) && Unloads(st, e).Some? && st.s.mirror.Some?
    ensures Unloads(st, e) == st.s.mirror
  {
    if e.Setting? {
      SubjectRebind.IntentKeeps(st.s, e.b, e.outcome);
      hide P.Intent, P.Attachment;
    }
  }

  lemma OpenedKeeps(st: P.State, e: P.Event)
    requires SubjectRebind.Inv(st.s) && P.Enabled(st, e) && !Crash(e)
    ensures SubjectRebind.Inv(Opened(st, e).s)
  {
    if e.Setting? && P.Admissible(st.s, e.b, e.outcome) {
      SubjectRebind.IntentKeeps(st.s, e.b, e.outcome);
      hide P.Intent, P.Attachment, P.Admissible;
    }
  }

  /* ---- the drain's side ---- */

  /** Recorded when the older generation is unloaded, and only for the mirrored one. */
  ghost predicate Orderly(h: Shared, e: Event) {
    Disciplined(h, e) && DrainCounters.Tidy(h, e)
  }

  lemma PlayOne(d: State, e: Event)
    ensures Play(d, [e]) == DrainRuns.Happen(d, e)
  {
    assert [e][..0] == [];
  }

  /** One more orderly event is one more step of the run. */
  lemma TellOne(j: Joint, e: Event)
    requires Follows(j) && Orderly(j.drain.sh, e)
    ensures Follows(Tell(j, [e]))
  {
    PlayOne(j.drain, e);
    assert (j.told + [e])[..|j.told|] == j.told;
    hide DrainRuns.Happen, Disciplined, DrainCounters.Tidy;
  }

  lemma {:induction false} PlayConcat(d: State, a: seq<Event>, b: seq<Event>)
    ensures Play(d, a + b) == Play(Play(d, a), b)
  {
    hide DrainRuns.Happen;
    if b == [] {
      assert a + b == a;
    } else {
      PlayConcat(d, a, b[..|b| - 1]);
      assert (a + b)[..|a + b| - 1] == a + b[..|b| - 1];
    }
  }

  lemma TellConcat(j: Joint, a: seq<Event>, b: seq<Event>)
    ensures Tell(j, a + b) == Tell(Tell(j, a), b)
  {
    PlayConcat(j.drain, a, b);
    assert j.told + (a + b) == j.told + a + b;
  }

  /** What an event does to the parts the planes speak about. */
  lemma HappenFrame(d: State, e: Event)
    ensures !e.Recorded? ==> DrainRuns.Happen(d, e).sh.fences == d.sh.fences
    ensures !e.Rebinding? ==> DrainRuns.Happen(d, e).sh.rebinds == d.sh.rebinds
    ensures e.Rebinding? ==> DrainRuns.Happen(d, e) == d.(sh := SetRebind(d.sh, e.s, e.on))
    ensures e.Recorded? ==> DrainRuns.Happen(d, e) == d.(sh := Record(d.sh, e.t, e.op))
  {
  }

  lemma RebindingTold(j: Joint, u: Subject, on: bool)
    requires Follows(j)
    ensures var j' := Tell(j, [Rebinding(u, on)]);
      && Follows(j') && j'.drain.sh.fences == j.drain.sh.fences && j'.drain.sh.rebinds == SetRebind(j.drain.sh, u, on).rebinds
  {
    TellOne(j, Rebinding(u, on));
    PlayOne(j.drain, Rebinding(u, on));
    HappenFrame(j.drain, Rebinding(u, on));
    hide DrainRuns.Happen, Follows;
  }

  /** The drain's mirror of one subject moved, and nothing else did. */
  ghost predicate Moved(j: Joint, j': Joint, u: Subject, seen: Option<Fence>) {
    && Follows(j') && Lookup(j'.drain.sh.fences, u) == seen && j'.drain.sh.rebinds == j.drain.sh.rebinds
    && (forall v :: v != u ==> Lookup(j'.drain.sh.fences, v) == Lookup(j.drain.sh.fences, v))
  }

  lemma UnloadTold(j: Joint, u: Subject, f: Option<Fence>, m: Option<Fence>)
    requires Follows(j) && Lookup(j.drain.sh.fences, u) == Visible(j.unencodable, u, m) && (f.Some? && m.Some? ==> f == m)
    ensures Moved(j, Tell(j, Recording(j.unencodable, u, f, Unload)), u, Visible(j.unencodable, u, AfterUnload(m, f)))
  {
    var es := Recording(j.unencodable, u, f, Unload);
    if es == [] {
      assert Tell(j, es) == j;
    } else {
      TellOne(j, es[0]);
      PlayOne(j.drain, es[0]);
      HappenFrame(j.drain, es[0]);
    }
    hide DrainRuns.Happen, Follows;
  }

  lemma RegisterFences(h: Shared, t: Target)
    ensures Record(h, t, Register).fences == h.fences[t.subj := t.fence] && Record(h, t, Register).rebinds == h.rebinds
  {
  }

  lemma RegisterTold(j: Joint, u: Subject, f: Option<Fence>, m: Option<Fence>)
    requires Follows(j) && Lookup(j.drain.sh.fences, u) == Visible(j.unencodable, u, m)
    requires f.Some? ==> m in {None, f} && f.value != P.NO_FENCE
    ensures Moved(j, Tell(j, Recording(j.unencodable, u, f, Register)), u, Visible(j.unencodable, u, if f.Some? then f else m))
  {
    hide DrainRuns.Happen, Follows, Record;
    var es := Recording(j.unencodable, u, f, Register);
    if es == [] {
      assert Tell(j, es) == j;
    } else {
      assert es == [Recorded(Target(u, f.value), Register)];
      TellOne(j, es[0]);
      PlayOne(j.drain, es[0]);
      HappenFrame(j.drain, es[0]);
      RegisterFences(j.drain.sh, Target(u, f.value));
    }
  }

  /* ---- over joint runs ---- */

  ghost predicate Good(j: Joint) {
    Inv(j) && Follows(j)
  }

  /** After the plane of `u` and the drain's view of it moved together, they agree again. */
  lemma Agree(j: Joint, j': Joint, u: Subject, st': P.State)
    requires Inv(j) && u in j.planes && j'.planes == j.planes[u := st'] && j'.unencodable == j.unencodable
    requires SubjectRebind.Inv(st'.s) && Lookup(j'.drain.sh.fences, u) == Visible(j.unencodable, u, st'.s.mirror)
    requires forall v :: v != u ==> Lookup(j'.drain.sh.fences, v) == Lookup(j.drain.sh.fences, v)
    requires j'.drain.sh.rebinds == SetRebind(j.drain.sh, u, st'.s.token.Some?).rebinds
    ensures Inv(j')
  {
    hide SubjectRebind.Inv;
    forall v | v in j'.planes ensures Mirrors(j', v) && SubjectRebind.Inv(j'.planes[v].s) {
      if v != u { assert Mirrors(j, v); }
    }
    forall v | v in j'.drain.sh.fences ensures v in j'.planes {
      if v != u { assert Lookup(j'.drain.sh.fences, v) == Lookup(j.drain.sh.fences, v); }
    }
  }

  lemma OpenKeeps(j: Joint, u: Subject, e: P.Event)
    requires Good(j) && Acts(j, u, e)
    ensures Good(Open(j, u, e))
  {
    hide SubjectRebind.Inv, P.Enabled, Unloads, IntentOf, Follows, Lookup, Visible, AfterUnload, Play, Recording, Inv;
    var st := j.planes[u];
    var f, on := Unloads(st, e), IntentOf(st, e).Some?;
    GoodPlane(j, u);
    if f.Some? && st.s.mirror.Some? { UnloadsMirrored(st, e); }
    OpenedKeeps(st, e);
    var j1 := Tell(j, [Rebinding(u, on)]);
    RebindingTold(j, u, on);
    UnloadTold(j1, u, f, st.s.mirror);
    TellConcat(j, [Rebinding(u, on)], Recording(j.unencodable, u, f, Unload));
    var j2 := Tell(j1, Recording(j.unencodable, u, f, Unload));
    FollowsPlanes(j2, j2.(planes := j.planes[u := Opened(st, e)]));
    Agree(j, Open(j, u, e), u, Opened(st, e));
  }

  /** The planes play no part in what the drain was told. */
  lemma FollowsPlanes(j: Joint, j': Joint)
    requires Follows(j) && j'.drain == j.drain && j'.told == j.told
    ensures Follows(j')
  {
  }

  lemma CloseKeeps(j: Joint, u: Subject, st: P.State, e: P.Event)
    requires Good(j) && u in j.planes && j.planes[u] == Opened(st, e)
    requires SubjectRebind.Inv(st.s) && P.Enabled(st, e) && !Crash(e)
    ensures Good(Close(j, u, st, e))
  {
    PlaneMirror(st, e);
    SubjectRebind.StepKeeps(st, e);
    assert Registers(st, e).Some? ==> Registers(st, e).value != P.NO_FENCE;
    hide SubjectRebind.Inv, P.Enabled, P.Step, Unloads, Registers, IntentOf, Follows, Lookup, Visible, AfterUnload, Play, Recording, Inv;
    var f, st' := Registers(st, e), P.Step(st, e);
    var es, on := Recording(j.unencodable, u, f, Register), st'.s.token.Some?;
    GoodPlane(j, u);
    RegisterTold(j, u, f, j.planes[u].s.mirror);
    var j1 := Tell(j, es);
    RebindingTold(j1, u, on);
    TellConcat(j, es, [Rebinding(u, on)]);
    var j2 := Tell(j1, [Rebinding(u, on)]);
    FollowsPlanes(j2, j2.(planes := j.planes[u := st']));
    Agree(j, Close(j, u, st, e), u, st');
  }

  lemma WorkingKeeps(j: Joint, work: Event)
    requires Good(j) && Foreign(work)
    ensures Good(Tell(j, [work]))
  {
    TellOne(j, work);
    PlayOne(j.drain, work);
    HappenFrame(j.drain, work);
    hide SubjectRebind.Inv, DrainRuns.Happen, Follows, Lookup, Visible;
    var j' := Tell(j, [work]);
    forall v | v in j'.planes ensures Mirrors(j', v) { assert Mirrors(j, v); }
  }

  lemma OtherKeeps(j: Joint, v: Subject, e: P.Event)
    requires Good(j) && Acts(j, v, e)
    ensures var j' := Close(Open(j, v, e), v, j.planes[v], e);
      Good(j') && j'.planes == j.planes[v := P.Step(j.planes[v], e)] && j'.unencodable == j.unencodable
  {
    hide Inv, Follows, P.Enabled, P.Step, SubjectRebind.Inv;
    assert SubjectRebind.Inv(j.planes[v].s) by { GoodPlane(j, v); }
    OpenKeeps(j, v, e);
    CloseKeeps(Open(j, v, e), v, j.planes[v], e);
  }

  lemma GoodPlane(j: Joint, v: Subject)
    requires Good(j) && v in j.planes
    ensures SubjectRebind.Inv(j.planes[v].s) && Mirrors(j, v)
  {
  }

  /** Whatever fills the gap leaves the subject that is acting alone. */
  lemma {:induction false} GapKeeps(j: Joint, u: Subject, gap: seq<Gap>)
    requires Good(j) && u in j.planes
    ensures var j' := GapRun(j, u, gap);
      Good(j') && u in j'.planes && j'.planes[u] == j.planes[u] && j'.planes.Keys == j.planes.Keys && j'.unencodable == j.unencodable
  {
    hide Good, P.Enabled, P.Step;
    if gap != [] {
      var n := |gap| - 1;
      GapKeeps(j, u, gap[..n]);
      var j1, g := GapRun(j, u, gap[..n]), gap[n];
      match g
      case Working(work) => if Foreign(work) { WorkingKeeps(j1, work); }
      case Other(v, act) => if v != u && Acts(j1, v, act) { OtherKeeps(j1, v, act); }
    }
  }

  lemma ActingKeeps(j: Joint, u: Subject, e: P.Event, gap: seq<Gap>)
    requires Good(j) && Acts(j, u, e)
    ensures Good(JointStep(j, Acting(u, e, gap))) && JointStep(j, Acting(u, e, gap)).unencodable == j.unencodable
  {
    GoodPlane(j, u);
    OpenKeeps(j, u, e);
    GapKeeps(Open(j, u, e), u, gap);
    CloseKeeps(GapRun(Open(j, u, e), u, gap), u, j.planes[u], e);
    hide Good, P.Enabled, P.Step, SubjectRebind.Inv;
  }

  lemma CrashingKeeps(j: Joint, losses: map<Subject, P.Event>)
    requires Good(j)
    ensures Good(JointStep(j, Crashing(losses)))
  {
    var j' := JointStep(j, Crashing(losses));
    forall v | v in j'.planes ensures Mirrors(j', v) && SubjectRebind.Inv(j'.planes[v].s) && j'.planes[v].s.token.None? {
      CrashForgets(j.planes[v], Loss(losses, v, j.planes[v]));
    }
    hide P.Step, SubjectRebind.Inv;
  }

  lemma CrashForgets(st: P.State, e: P.Event)
    requires Crash(e) && P.Enabled(st, e)
    ensures var s := P.Step(st, e).s; s.mirror.None? && s.token.None? && SubjectRebind.Inv(s)
  {
  }

  /**
  However the planes of all subjects, crashes, children and the worker interleave, everything the
  drain is told is disciplined and tidy: its state is that of such a run, and it mirrors the planes.
  */
  lemma {:induction false} DrainFollowsPlanes(disks: map<Subject, PolicyFiles.Disk>, bad: set<Target>, evs: seq<JointEvent>)
    ensures var j := JointRun(Start(disks, bad), evs); Good(j) && j.unencodable == bad
  {
    var start := Start(disks, bad);
    if evs == [] {
      StartGood(disks, bad);
    } else {
      hide Good, P.Enabled, P.Step;
      var n := |evs| - 1;
      DrainFollowsPlanes(disks, bad, evs[..n]);
      var j := JointRun(start, evs[..n]);
      match evs[n]
      case Acting(u, e, gap) => if Acts(j, u, e) { ActingKeeps(j, u, e, gap); }
      case Draining(work) => if Foreign(work) { WorkingKeeps(j, work); }
      case Crashing(losses) => CrashingKeeps(j, losses);
    }
  }

  lemma StartGood(disks: map<Subject, PolicyFiles.Disk>, bad: set<Target>)
    ensures Good(Start(disks, bad))
  {
  }

  /**
  Once the drain has nothing left to do, the child knows exactly the generations that the planes have
  published, except those it rejected, those whose Unload could not be sent and those that cannot be encoded.
  */
  lemma ChildFollowsPlanes(disks: map<Subject, PolicyFiles.Disk>, bad: set<Target>, evs: seq<JointEvent>, t: Target)
    requires DrainRuns.Quiescent(JointRun(Start(disks, bad), evs).drain)
    ensures var j := JointRun(Start(disks, bad), evs);
      var known := Known(j.drain.wk.wire, j.drain.sh.current.value, t);
      var published := t.subj in j.planes && j.planes[t.subj].s.mirror == Some(t.fence);
      && (known ==> published || t in j.drain.wk.unsent)
      && (published && t !in bad ==> known || t in j.drain.wk.retired)
  {
    DrainFollowsPlanes(disks, bad, evs);
    var j := JointRun(Start(disks, bad), evs);
    DrainRuns.Converged(map[], j.told, t);
    hide Known, JointRun, DrainRuns.Run;
    if t.subj in j.planes { assert Mirrors(j, t.subj); }
  }

  /**
  In every joint run the wire epochs of a subject, across its generations in one child, strictly
  increase until an Unload of the subject is confirmed.
  */
  lemma SubjectEpochsIncrease(disks: map<Subject, PolicyFiles.Disk>, bad: set<Target>, evs: seq<JointEvent>, a: nat, b: nat)
    requires var w := JointRun(Start(disks, bad), evs).drain.wk.wire;
      a < b < |w| && w[a].Prepare? && w[b].Prepare? && w[a].session == w[b].session && w[a].target.subj == w[b].target.subj
    ensures var w := JointRun(Start(disks, bad), evs).drain.wk.wire;
      || (exists m :: a < m < b && DrainCounters.Forgets(w[m], w[a].session, w[a].target.subj))
      || w[a].value < w[b].value <= MAX_INT64
  {
    DrainFollowsPlanes(disks, bad, evs);
    DrainCounters.SubjectEpochsIncrease(map[], JointRun(Start(disks, bad), evs).told, a, b);
  }

  /** A Register over a generation the child still knows, with no Unload on its way, strands that generation. */
  lemma UndisciplinedRegisterStrands(h: Shared, w: Worker, e: nat, t: Target, f: Fence)
    requires Registered(h, t) && f != t.fence && Known(w.wire, e, t)
    requires !Queued(h, Unload, t) && !Underway(w, Unload, t) && t !in w.unsent
    ensures !Disciplined(h, Recorded(Target(t.subj, f), Register))
    ensures !Converges(Record(h, Target(t.subj, f), Register), w, e, t)
  {
    WithoutHas(h.queue, t, Unload, t);
    AppendHas(Without(h.queue, t), Intent(Target(t.subj, f), Lifecycle(Register), h.current), Unload, t);
  }
}
