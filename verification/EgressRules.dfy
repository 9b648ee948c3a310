/**
Patching and pruning lists of egress rules.
*/
module EgressRules {

  datatype Rule = Rule(action: string, target: string, ports: seq<nat>)

  /* ---- merge keys ---- */

  /** How the language lowers and trims strings; all that follows holds whatever it does. */
  datatype Text = Text(lower: string -> string, trim: string -> string)

  function Digit(n: nat): char
    requires n < 10
  {
    ('0' as int + n) as char
  }

  function Decimal(n: nat): (s: string)
    ensures s != "" && forall i :: 0 <= i < |s| ==> '0' <= s[i] <= '9'
  {
    if n < 10 then [Digit(n)] else Decimal(n / 10) + [Digit(n % 10)]
  }

  function Join(ps: seq<nat>): (s: string)
    requires ps != []
    ensures s != "" && forall i :: 0 <= i < |s| ==> '0' <= s[i] <= '9' || s[i] == ','
  {
    if |ps| == 1 then Decimal(ps[0]) else Decimal(ps[0]) + "," + Join(ps[1..])
  }

  function Insert(p: nat, ps: seq<nat>): (qs: seq<nat>)
    ensures |qs| == |ps| + 1
  {
    if ps == [] || p <= ps[0] then [p] + ps else [ps[0]] + Insert(p, ps[1..])
  }

  function Sorted(ps: seq<nat>): (qs: seq<nat>)
    ensures |qs| == |ps|
  {
    if ps == [] then [] else Insert(ps[0], Sorted(ps[1..]))
  }

  const PORTS := "|ports="

  /** The lowered target, with the sorted ports of a port-scoped rule. */
  function Key(c: Text, r: Rule): string {
    if r.ports == [] then c.lower(r.target) else c.lower(r.target) + PORTS + Join(Sorted(r.ports))
  }

  /** Rules that ought to replace each other: same target in any case, same ports in any order. */
  predicate SameScope(c: Text, r: Rule, q: Rule) {
    c.lower(r.target) == c.lower(q.target) && multiset(r.ports) == multiset(q.ports)
  }

  /** A portless rule whose target spells out the key of a port-scoped one. */
  predicate Mimics(c: Text, r: Rule, q: Rule) {
    r.ports == [] && q.ports != [] && c.lower(r.target) == Key(c, q)
  }

  /** The source's key builder: render the sorted ports one by one. */
  method MergeKey(c: Text, r: Rule) returns (key: string)
    ensures key == Key(c, r)
  {
    key := c.lower(r.target);
    if r.ports == [] { return; }
    var ports := Sorted(r.ports);
    var i := |ports| - 1;
    var joined := Decimal(ports[i]);
    while i > 0
      invariant 0 <= i < |ports| && joined == Join(ports[i..])
    {
      i := i - 1;
      assert ports[i..][1..] == ports[i + 1..];
      joined := Decimal(ports[i]) + "," + joined;
    }
    assert ports[0..] == ports;
    key := key + PORTS + joined;
  }

  /* ---- sorting ---- */

  ghost predicate Ordered(ps: seq<nat>) {
    |ps| <= 1 || (ps[0] <= ps[1] && Ordered(ps[1..]))
  }

  lemma {:induction false} InsertOrdered(p: nat, ps: seq<nat>)
    requires Ordered(ps)
    ensures Ordered(Insert(p, ps)) && multiset(Insert(p, ps)) == multiset([p] + ps)
  {
    if ps != [] && p > ps[0] {
      InsertOrdered(p, ps[1..]);
      var r := Insert(p, ps[1..]);
      assert ps == [ps[0]] + ps[1..];
      assert ([ps[0]] + r)[1..] == r;
      assert r[0] == p || (|ps| > 1 && r[0] == ps[1]);
    } else {
      assert ([p] + ps)[1..] == ps;
    }
  }

  lemma {:induction false} SortedOrdered(ps: seq<nat>)
    ensures Ordered(Sorted(ps)) && multiset(Sorted(ps)) == multiset(ps)
  {
    if ps != [] {
      SortedOrdered(ps[1..]);
      InsertOrdered(ps[0], Sorted(ps[1..]));
      assert ps == [ps[0]] + ps[1..];
    }
  }

  lemma {:induction false} OrderedLeast(ps: seq<nat>, x: nat)
    requires Ordered(ps) && ps != [] && x in multiset(ps)
    ensures ps[0] <= x
  {
    assert ps == [ps[0]] + ps[1..];
    if x != ps[0] { OrderedLeast(ps[1..], x); }
  }

  lemma HeadCounts<T>(ps: seq<T>)
    requires ps != []
    ensures multiset(ps) == multiset{ps[0]} + multiset(ps[1..])
  {
    assert ps == [ps[0]] + ps[1..];
  }

  lemma LastCounts<T>(ps: seq<T>)
    requires ps != []
    ensures multiset(ps) == multiset(ps[..|ps| - 1]) + multiset{ps[|ps| - 1]}
  {
    assert ps == ps[..|ps| - 1] + [ps[|ps| - 1]];
  }

  lemma SameHead(ps: seq<nat>, qs: seq<nat>)
    requires Ordered(ps) && Ordered(qs) && ps != [] && qs != [] && multiset(ps) == multiset(qs)
    ensures ps[0] == qs[0] && multiset(ps[1..]) == multiset(qs[1..])
  {
    HeadCounts(ps);
    HeadCounts(qs);
    OrderedLeast(ps, qs[0]);
    OrderedLeast(qs, ps[0]);
    assert multiset(ps[1..]) == multiset(ps) - multiset{ps[0]};
    assert multiset(qs[1..]) == multiset(qs) - multiset{qs[0]};
  }

  /** An ordered sequence is determined by its elements. */
  lemma {:induction false} OrderedUnique(ps: seq<nat>, qs: seq<nat>)
    requires Ordered(ps) && Ordered(qs) && multiset(ps) == multiset(qs)
    ensures ps == qs
  {
    assert |multiset(ps)| == |ps| && |multiset(qs)| == |qs|;
    if ps != [] {
      SameHead(ps, qs);
      OrderedUnique(ps[1..], qs[1..]);
      assert ps == [ps[0]] + ps[1..] && qs == [qs[0]] + qs[1..];
    }
  }

  lemma SortedSame(ps: seq<nat>, qs: seq<nat>)
    ensures Sorted(ps) == Sorted(qs) <==> multiset(ps) == multiset(qs)
    ensures Sorted(ps) == [] <==> ps == []
  {
    SortedOrdered(ps);
    SortedOrdered(qs);
    if multiset(ps) == multiset(qs) { OrderedUnique(Sorted(ps), Sorted(qs)); }
    assert |multiset(ps)| == |ps| && |multiset(Sorted(ps))| == |Sorted(ps)|;
  }

  /* ---- reading keys back ---- */

  lemma {:induction false} DecimalInjective(m: nat, n: nat)
    requires Decimal(m) == Decimal(n)
    ensures m == n
  {
    var s := Decimal(m);
    assert (m >= 10 ==> |s| >= 2) && (n >= 10 ==> |s| >= 2);
    if m >= 10 {
      assert s[..|s| - 1] == Decimal(m / 10) && s[..|s| - 1] == Decimal(n / 10);
      assert s[|s| - 1] == Digit(m % 10) == Digit(n % 10);
      DecimalInjective(m / 10, n / 10);
    }
  }

  /** A string up to its first comma. */
  function Head(s: string): string {
    if s == "" || s[0] == ',' then "" else [s[0]] + Head(s[1..])
  }

  lemma {:induction false} HeadOf(a: string, x: string)
    requires (forall i :: 0 <= i < |a| ==> a[i] != ',') && (x == "" || x[0] == ',')
    ensures Head(a + x) == a
  {
    if a == "" {
      assert a + x == x;
    } else {
      assert (a + x)[1..] == a[1..] + x;
      HeadOf(a[1..], x);
    }
  }

  function Tail(ps: seq<nat>): string
    requires ps != []
  {
    if |ps| == 1 then "" else "," + Join(ps[1..])
  }

  lemma JoinSplits(ps: seq<nat>)
    requires ps != []
    ensures Join(ps) == Decimal(ps[0]) + Tail(ps) && Head(Join(ps)) == Decimal(ps[0])
    ensures Join(ps)[|Decimal(ps[0])|..] == Tail(ps)
  {
    hide Decimal;
    HeadOf(Decimal(ps[0]), Tail(ps));
  }

  lemma TailSame(ps: seq<nat>, qs: seq<nat>)
    requires ps != [] && qs != [] && Tail(ps) == Tail(qs)
    ensures |ps| == 1 <==> |qs| == 1
    ensures |ps| > 1 ==> Join(ps[1..]) == Join(qs[1..])
  {
    hide Join;
    if |ps| > 1 && |qs| > 1 { assert Tail(ps)[1..] == Join(ps[1..]) && Tail(qs)[1..] == Join(qs[1..]); }
  }

  lemma {:induction false} JoinInjective(ps: seq<nat>, qs: seq<nat>)
    requires ps != [] && qs != [] && Join(ps) == Join(qs)
    ensures ps == qs
  {
    hide Join, Tail, Decimal, Head;
    JoinSplits(ps);
    JoinSplits(qs);
    DecimalInjective(ps[0], qs[0]);
    TailSame(ps, qs);
    if |ps| > 1 { JoinInjective(ps[1..], qs[1..]); }
    assert ps == [ps[0]] + ps[1..] && qs == [qs[0]] + qs[1..];
  }

  /** The last bar of a port-scoped key is the one in front of its ports. */
  lemma SplitAtLastBar(t: string, x: string, u: string, y: string)
    requires t + PORTS + x == u + PORTS + y
    requires (forall i :: 0 <= i < |x| ==> x[i] != '|') && (forall i :: 0 <= i < |y| ==> y[i] != '|')
    ensures t == u && x == y
  {
    var s := t + PORTS + x;
    assert s[|t|] == '|' && s[|u|] == '|';
    assert forall i :: |t| < i < |s| ==> s[i] != '|' by {
      forall i | |t| < i < |s| ensures s[i] != '|' {
        if i < |t| + |PORTS| { assert s[i] == PORTS[i - |t|]; } else { assert s[i] == x[i - |t| - |PORTS|]; }
      }
    }
    assert forall i :: |u| < i < |s| ==> s[i] != '|' by {
      forall i | |u| < i < |s| ensures s[i] != '|' {
        if i < |u| + |PORTS| { assert s[i] == PORTS[i - |u|]; } else { assert s[i] == y[i - |u| - |PORTS|]; }
      }
    }
    assert |t| == |u|;
    assert t == s[..|t|] && u == s[..|u|];
    assert x == s[|t| + |PORTS|..] && y == s[|u| + |PORTS|..];
  }

  /** Two keys are equal exactly when the scopes are the same, or one rule's target spells out the other's key. */
  lemma KeysExactly(c: Text, r: Rule, q: Rule)
    ensures Key(c, r) == Key(c, q) <==> SameScope(c, r, q) || Mimics(c, r, q) || Mimics(c, q, r)
  {
    SortedSame(r.ports, q.ports);
    SortedSame(q.ports, r.ports);
    if r.ports != [] && q.ports != [] && Key(c, r) == Key(c, q) {
      SplitAtLastBar(c.lower(r.target), Join(Sorted(r.ports)), c.lower(q.target), Join(Sorted(q.ports)));
      JoinInjective(Sorted(r.ports), Sorted(q.ports));
    }
    assert multiset(r.ports) == multiset(q.ports) ==> (r.ports == [] <==> q.ports == []);
  }

  /** A target without a bar mimics nothing. */
  lemma NoBarNoMimic(c: Text, r: Rule, q: Rule)
    requires '|' !in c.lower(r.target)
    ensures !Mimics(c, r, q)
  {
    SortedSame(q.ports, q.ports);
    if q.ports != [] {
      var k := Key(c, q);
      assert k == c.lower(q.target) + (PORTS + Join(Sorted(q.ports)));
      assert k[|c.lower(q.target)|] == '|';
    }
  }

  /** Differently scoped rules can evict each other: a portless rule named after a port-scoped one. */
  lemma ScopesCollide(c: Text)
    requires c.lower("") == "" && c.lower("|ports=8") == "|ports=8"
    ensures var r, q := Rule("allow", "|ports=8", []), Rule("deny", "", [8]);
      Key(c, r) == Key(c, q) && !SameScope(c, r, q)
  {
    assert Sorted([8]) == [8] && Join([8]) == "8";
    assert "" + PORTS + "8" == "|ports=8";
  }

  /* ---- merging ---- */

  /** The first rule of each key, in order, skipping keys already seen. */
  function FirstEach(c: Text, rs: seq<Rule>, seen: set<string>): seq<Rule> {
    if rs == [] then []
    else if Key(c, rs[0]) in seen then FirstEach(c, rs[1..], seen)
    else [rs[0]] + FirstEach(c, rs[1..], seen + {Key(c, rs[0])})
  }

  /** Patch rules win on the same key; the base fills the rest. */
  function Merged(c: Text, base: seq<Rule>, patch: seq<Rule>): seq<Rule> {
    if patch == [] then base else FirstEach(c, patch + base, {})
  }

  function Keys(c: Text, rs: seq<Rule>): set<string> {
    if rs == [] then {} else {Key(c, rs[0])} + Keys(c, rs[1..])
  }

  lemma {:induction false} KeysContain(c: Text, rs: seq<Rule>, i: nat)
    requires i < |rs|
    ensures Key(c, rs[i]) in Keys(c, rs)
  {
    if i > 0 { KeysContain(c, rs[1..], i - 1); }
  }

  lemma {:induction false} KeysAppend(c: Text, a: seq<Rule>, b: seq<Rule>)
    ensures Keys(c, a + b) == Keys(c, a) + Keys(c, b)
  {
    if a == [] {
      assert a + b == b;
    } else {
      assert (a + b)[1..] == a[1..] + b;
      KeysAppend(c, a[1..], b);
    }
  }

  lemma {:induction false} FirstEachSplits(c: Text, a: seq<Rule>, b: seq<Rule>, seen: set<string>)
    ensures FirstEach(c, a + b, seen) == FirstEach(c, a, seen) + FirstEach(c, b, seen + Keys(c, a))
  {
    if a == [] {
      assert a + b == b && seen + Keys(c, a) == seen;
    } else {
      assert (a + b)[1..] == a[1..] + b;
      if Key(c, a[0]) in seen {
        FirstEachSplits(c, a[1..], b, seen);
        assert seen + Keys(c, a) == seen + Keys(c, a[1..]);
      } else {
        FirstEachSplits(c, a[1..], b, seen + {Key(c, a[0])});
        assert seen + Keys(c, a) == seen + {Key(c, a[0])} + Keys(c, a[1..]);
      }
    }
  }

  /** Pruning twice prunes by both sets of keys. */
  lemma {:induction false} FirstEachTwice(c: Text, rs: seq<Rule>, seen: set<string>, more: set<string>)
    requires seen <= more
    ensures FirstEach(c, FirstEach(c, rs, seen), more) == FirstEach(c, rs, more)
  {
    if rs != [] {
      var k := Key(c, rs[0]);
      if k in seen {
        FirstEachTwice(c, rs[1..], seen, more);
      } else {
        var rest := FirstEach(c, rs[1..], seen + {k});
        assert FirstEach(c, rs, seen)[1..] == rest;
        if k in more {
          FirstEachTwice(c, rs[1..], seen + {k}, more);
        } else {
          FirstEachTwice(c, rs[1..], seen + {k}, more + {k});
        }
      }
    }
  }

  /** Merging one patch and then another is merging the later followed by the earlier, as sequences. */
  lemma PatchesCompose(c: Text, base: seq<Rule>, first: seq<Rule>, second: seq<Rule>)
    ensures Merged(c, Merged(c, base, first), second) == Merged(c, base, second + first)
  {
    if first == [] {
      assert second + first == second;
    } else if second == [] {
      assert second + first == first;
    } else {
      var inner := first + base;
      assert second + first + base == second + inner;
      FirstEachSplits(c, second, inner, {});
      FirstEachSplits(c, second, FirstEach(c, inner, {}), {});
      FirstEachTwice(c, inner, {}, {} + Keys(c, second));
    }
  }

  /** One rule per key, and for each key of the input its first rule. */
  lemma {:induction false} FirstEachKeys(c: Text, rs: seq<Rule>, seen: set<string>)
    ensures var out := FirstEach(c, rs, seen);
      && Keys(c, out) == Keys(c, rs) - seen
      && (forall i, j :: 0 <= i < j < |out| ==> Key(c, out[i]) != Key(c, out[j]))
      && (forall r <- out :: r in rs)
  {
    if rs != [] {
      var k := Key(c, rs[0]);
      if k in seen {
        FirstEachKeys(c, rs[1..], seen);
      } else {
        FirstEachKeys(c, rs[1..], seen + {k});
        var rest := FirstEach(c, rs[1..], seen + {k});
        assert ([rs[0]] + rest)[1..] == rest;
        forall j | 0 <= j < |rest| ensures Key(c, rest[j]) != k { KeysContain(c, rest, j); }
      }
    }
  }

  /** For a non-empty patch the result has one rule per key of either list, and the patch's first rule wins. */
  lemma MergeWins(c: Text, base: seq<Rule>, patch: seq<Rule>, i: nat)
    requires i < |patch| && forall j :: 0 <= j < i ==> Key(c, patch[j]) != Key(c, patch[i])
    ensures var out := Merged(c, base, patch);
      && patch[i] in out
      && (forall r <- out :: Key(c, r) == Key(c, patch[i]) ==> r == patch[i])
      && (forall a, b :: 0 <= a < b < |out| ==> Key(c, out[a]) != Key(c, out[b]))
      && Keys(c, out) == Keys(c, patch) + Keys(c, base)
  {
    var all := patch + base;
    FirstEachKeys(c, all, {});
    var out := FirstEach(c, all, {});
    FirstKept(c, all, i, {});
    KeysAppend(c, patch, base);
    var n :| 0 <= n < |out| && out[n] == patch[i];
    forall r | r in out && Key(c, r) == Key(c, patch[i]) ensures r == patch[i] {
      var m :| 0 <= m < |out| && out[m] == r;
      assert m == n;
    }
  }

  lemma {:induction false} FirstKept(c: Text, rs: seq<Rule>, i: nat, seen: set<string>)
    requires i < |rs| && Key(c, rs[i]) !in seen && forall j :: 0 <= j < i ==> Key(c, rs[j]) != Key(c, rs[i])
    ensures rs[i] in FirstEach(c, rs, seen)
  {
    if i > 0 { FirstKept(c, rs[1..], i - 1, if Key(c, rs[0]) in seen then seen else seen + {Key(c, rs[0])}); }
  }

  /** One pass with a set of seen keys. */
  method AppendUnseen(c: Text, rs: seq<Rule>, before: set<string>, sofar: seq<Rule>) returns (seen: set<string>, out: seq<Rule>)
    ensures out == sofar + FirstEach(c, rs, before) && seen == before + Keys(c, rs)
  {
    hide Key;
    seen, out := before, sofar;
    for i := 0 to |rs|
      invariant out + FirstEach(c, rs[i..], seen) == sofar + FirstEach(c, rs, before)
      invariant seen + Keys(c, rs[i..]) == before + Keys(c, rs)
    {
      var key := Key(c, rs[i]);
      assert rs[i..][1..] == rs[i + 1..];
      if key in seen { continue; }
      seen := seen + {key};
      out := out + [rs[i]];
    }
  }

  /** The patch first, then the base with what the patch left over. */
  method MergeEgressRules(c: Text, base: seq<Rule>, additions: seq<Rule>) returns (out: seq<Rule>)
    ensures out == Merged(c, base, additions)
  {
    if additions == [] { return base; }
    var seen;
    seen, out := AppendUnseen(c, additions, {}, []);
    seen, out := AppendUnseen(c, base, seen, out);
    FirstEachSplits(c, additions, base, {});
  }

  /* ---- pruning by target ---- */

  /** A target as it is compared. An empty one addresses the port-only rules. */
  function Normal(c: Text, target: string): string {
    c.lower(c.trim(target))
  }

  predicate Listed(c: Text, r: Rule, targets: seq<string>) {
    c.lower(r.target) in Named(c, targets) || (NamesNone(c, targets) && r.target == "")
  }

  predicate NamesNone(c: Text, targets: seq<string>) {
    targets != [] && (Normal(c, targets[|targets| - 1]) == "" || NamesNone(c, targets[..|targets| - 1]))
  }

  function Named(c: Text, targets: seq<string>): set<string> {
    if targets == [] then {}
    else
      var n := |targets| - 1;
      Named(c, targets[..n]) + if Normal(c, targets[n]) == "" then {} else {Normal(c, targets[n])}
  }

  /** How the rules interleave what was kept and what was removed. */
  ghost predicate Interleaves(c: Text, rs: seq<Rule>, kept: seq<Rule>, removed: seq<Rule>, targets: seq<string>) {
    if rs == [] then kept == [] && removed == []
    else
      var n := |rs| - 1;
      if Listed(c, rs[n], targets)
      then removed != [] && removed[|removed| - 1] == rs[n] && Interleaves(c, rs[..n], kept, removed[..|removed| - 1], targets)
      else kept != [] && kept[|kept| - 1] == rs[n] && Interleaves(c, rs[..n], kept[..|kept| - 1], removed, targets)
  }

  /** Every rule is kept or removed, in its own order, by whether its target is listed. */
  method RemoveRulesByTarget(c: Text, rules: seq<Rule>, targets: seq<string>) returns (kept: seq<Rule>, removed: seq<Rule>)
    ensures Interleaves(c, rules, kept, removed, targets)
  {
    if targets == [] || rules == [] {
      NoneListed(c, rules, targets);
      return rules, [];
    }
    var removeSet: set<string> := {};
    var removePortOnly := false;
    for i := 0 to |targets|
      invariant removePortOnly <==> NamesNone(c, targets[..i])
      invariant removeSet == Named(c, targets[..i])
    {
      assert targets[..i + 1] == targets[..i] + [targets[i]];
      assert targets[..i + 1][..i] == targets[..i];
      var key := c.lower(c.trim(targets[i]));
      if key == "" { removePortOnly := true; } else { removeSet := removeSet + {key}; }
    }
    assert targets[..|targets|] == targets;
    kept, removed := [], [];
    for i := 0 to |rules|
      invariant Interleaves(c, rules[..i], kept, removed, targets)
    {
      assert rules[..i + 1][..i] == rules[..i];
      assert c.lower(rules[i].target) in removeSet || (removePortOnly && rules[i].target == "") <==> Listed(c, rules[i], targets);
      if c.lower(rules[i].target) in removeSet || (removePortOnly && rules[i].target == "") {
        removed := removed + [rules[i]];
        assert removed[..|removed| - 1] + [rules[i]] == removed;
      } else {
        kept := kept + [rules[i]];
        assert kept[..|kept| - 1] + [rules[i]] == kept;
      }
    }
    assert rules[..|rules|] == rules;
  }

  lemma {:induction false} NoneListed(c: Text, rs: seq<Rule>, targets: seq<string>)
    requires targets == [] || rs == []
    ensures Interleaves(c, rs, rs, [], targets)
  {
    if rs != [] { NoneListed(c, rs[..|rs| - 1], targets); }
  }

  lemma {:induction false} PruningSorts(c: Text, rs: seq<Rule>, kept: seq<Rule>, removed: seq<Rule>, targets: seq<string>)
    requires Interleaves(c, rs, kept, removed, targets)
    ensures (forall i :: 0 <= i < |kept| ==> !Listed(c, kept[i], targets)) && (forall i :: 0 <= i < |removed| ==> Listed(c, removed[i], targets))
  {
    hide Listed;
    if rs != [] {
      var n := |rs| - 1;
      if Listed(c, rs[n], targets) { PruningSorts(c, rs[..n], kept, removed[..|removed| - 1], targets); }
      else { PruningSorts(c, rs[..n], kept[..|kept| - 1], removed, targets); }
    }
  }

  /** Nothing is lost or invented, no listed rule is kept and no other is removed. */
  lemma {:induction false} PruningConserves(c: Text, rs: seq<Rule>, kept: seq<Rule>, removed: seq<Rule>, targets: seq<string>)
    requires Interleaves(c, rs, kept, removed, targets)
    ensures multiset(rs) == multiset(kept) + multiset(removed)
  {
    hide Listed;
    if rs != [] {
      var n := |rs| - 1;
      LastCounts(rs);
      if Listed(c, rs[n], targets) {
        PruningConserves(c, rs[..n], kept, removed[..|removed| - 1], targets);
        LastCounts(removed);
      } else {
        PruningConserves(c, rs[..n], kept[..|kept| - 1], removed, targets);
        LastCounts(kept);
      }
    }
  }
}
