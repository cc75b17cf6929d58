/** The policy evaluator (src/domain/iam.rs) and the checks built on it
    (src/application/iam.rs): prefix patterns, deny-overrides and the unscoped fast path. */
module Iam {
  import opened Prelude

  datatype Effect = Allow | Deny

  datatype Statement = Statement(sid: Option<string>, effect: Effect, actions: seq<string>, resources: seq<string>)

  datatype Policy = Policy(name: string, statements: seq<Statement>)

  const ANY_RESOURCE := "*"

  /** A pattern ending in `*` matches by prefix, any other one exactly. */
  predicate Matches(pattern: string, text: string) {
    if pattern != "" && pattern[|pattern| - 1] == '*' then pattern[..|pattern| - 1] <= text else pattern == text
  }

  predicate AnyMatches(patterns: seq<string>, text: string) {
    exists k :: 0 <= k < |patterns| && Matches(patterns[k], text)
  }

  predicate Applies(s: Statement, action: string, resource: string) {
    AnyMatches(s.actions, action) && AnyMatches(s.resources, resource)
  }

  /** The statements of all policies in evaluation order, each with its policy's name. */
  function Flat(policies: seq<Policy>): seq<(string, Statement)> {
    if policies == [] then []
    else
      var p := policies[|policies| - 1];
      Flat(policies[..|policies| - 1]) +
        seq(|p.statements|, k requires 0 <= k < |p.statements| => (p.name, p.statements[k]))
  }

  ghost predicate SomeApplies(flat: seq<(string, Statement)>, effect: Effect, action: string, resource: string) {
    exists k :: 0 <= k < |flat| && flat[k].1.effect == effect && Applies(flat[k].1, action, resource)
  }

  /** An Allow applies and no Deny does. */
  ghost predicate Allowed(policies: seq<Policy>, action: string, resource: string) {
    SomeApplies(Flat(policies), Allow, action, resource) && !SomeApplies(Flat(policies), Deny, action, resource)
  }

  datatype Decision = Decision(allowed: bool, effect: Option<Effect>, policy: Option<string>, sid: Option<string>)

  /** The first applicable statement of that effect decided. */
  ghost predicate DecidedBy(flat: seq<(string, Statement)>, k: int, effect: Effect, action: string, resource: string,
                            d: Decision)
  {
    && 0 <= k < |flat| && flat[k].1.effect == effect && Applies(flat[k].1, action, resource)
    && (forall m :: 0 <= m < k && flat[m].1.effect == effect ==> !Applies(flat[m].1, action, resource))
    && d == Decision(effect.Allow?, Some(effect), Some(flat[k].0), flat[k].1.sid)
  }

  lemma FlatStep(policies: seq<Policy>, i: nat, j: nat)
    requires i < |policies| && j < |policies[i].statements|
    ensures var n := |Flat(policies[..i])| + j;
            n < |Flat(policies)| && Flat(policies)[n] == (policies[i].name, policies[i].statements[j])
            && Flat(policies)[..|Flat(policies[..i])|] == Flat(policies[..i])
  {
    if |policies| == i + 1 {
      assert policies[..|policies| - 1] == policies[..i];
    } else {
      var init := policies[..|policies| - 1];
      FlatStep(init, i, j);
      assert init[..i] == policies[..i];
    }
  }

  /** Explicit Deny wins over any Allow; no applicable statement is a denial. */
  method Evaluate(policies: seq<Policy>, action: string, resource: string) returns (d: Decision)
    ensures d.allowed <==> Allowed(policies, action, resource)
    ensures d.effect == Some(Deny) <==> SomeApplies(Flat(policies), Deny, action, resource)
    ensures d.effect.Some? ==> exists k :: DecidedBy(Flat(policies), k, d.effect.value, action, resource, d)
    ensures d.effect.None? ==> d == Decision(false, None, None, None)
  {
    var allow: Option<(string, Statement)> := None;
    ghost var flat := Flat(policies);
    ghost var first := 0;
    ghost var seen := 0;
    for i := 0 to |policies|
      invariant seen == |Flat(policies[..i])| <= |flat| && flat[..seen] == Flat(policies[..i])
      invariant forall m :: 0 <= m < seen && Applies(flat[m].1, action, resource) ==> flat[m].1.effect.Allow?
      invariant allow.None? ==> forall m :: 0 <= m < seen ==> !Applies(flat[m].1, action, resource)
      invariant allow.Some? ==>
                  && 0 <= first < seen && flat[first] == allow.value && flat[first].1.effect.Allow?
                  && Applies(flat[first].1, action, resource)
                  && forall m :: 0 <= m < first ==> !Applies(flat[m].1, action, resource)
    {
      var p := policies[i];
      ghost var start := seen;
      for j := 0 to |p.statements|
        invariant start <= seen == start + j <= |flat|
        invariant forall m :: 0 <= m < seen && Applies(flat[m].1, action, resource) ==> flat[m].1.effect.Allow?
        invariant allow.None? ==> forall m :: 0 <= m < seen ==> !Applies(flat[m].1, action, resource)
        invariant allow.Some? ==>
                    && 0 <= first < seen && flat[first] == allow.value && flat[first].1.effect.Allow?
                    && Applies(flat[first].1, action, resource)
                    && forall m :: 0 <= m < first ==> !Applies(flat[m].1, action, resource)
      {
        FlatStep(policies, i, j);
        var s := p.statements[j];
        if Applies(s, action, resource) {
          if s.effect.Deny? {
            d := Decision(false, Some(Deny), Some(p.name), s.sid);
            assert DecidedBy(flat, seen, Deny, action, resource, d);
            return;
          }
          if allow.None? {
            allow := Some((p.name, s));
            first := seen;
          }
        }
        seen := seen + 1;
      }
      FlatPrefix(policies, i);
    }
    assert policies[..|policies|] == policies;
    match allow
    case None => d := Decision(false, None, None, None);
    case Some((name, s)) =>
      d := Decision(true, Some(Allow), Some(name), s.sid);
      assert DecidedBy(flat, first, Allow, action, resource, d);
  }

  lemma FlatPrefix(policies: seq<Policy>, i: nat)
    requires i < |policies|
    ensures |Flat(policies[..i + 1])| == |Flat(policies[..i])| + |policies[i].statements| <= |Flat(policies)|
    ensures Flat(policies)[..|Flat(policies[..i + 1])|] == Flat(policies[..i + 1])
    decreases |policies|
  {
    assert policies[..i + 1][..i] == policies[..i];
    if |policies| == i + 1 {
      assert policies[..i + 1] == policies;
    } else {
      var init := policies[..|policies| - 1];
      FlatPrefix(init, i);
      assert init[..i + 1] == policies[..i + 1] && init[..i] == policies[..i];
    }
  }

  // ------------------------------------------------------------ patterns, by concatenation

  /** One policy with one statement. */
  function Single(effect: Effect, action: string, resource: string): Policy {
    Policy("p", [Statement(None, effect, [action], [resource])])
  }

  lemma SingleApplies(action: string, resource: string, asked: string, wanted: string)
    ensures Applies(Statement(None, Allow, [action], [resource]), asked, wanted) <==>
              Matches(action, asked) && Matches(resource, wanted)
    ensures Applies(Statement(None, Deny, [action], [resource]), asked, wanted) <==>
              Matches(action, asked) && Matches(resource, wanted)
  {
    assert [action][0] == action && [resource][0] == resource;
  }

  lemma SingleDecides(action: string, resource: string, asked: string, wanted: string)
    ensures Allowed([Single(Allow, action, resource)], asked, wanted) <==>
              Matches(action, asked) && Matches(resource, wanted)
    ensures Allowed([Single(Allow, "*", "*"), Single(Deny, action, resource)], asked, wanted) <==>
              !(Matches(action, asked) && Matches(resource, wanted))
  {
    var allow, all, deny := Single(Allow, action, resource), Single(Allow, "*", "*"), Single(Deny, action, resource);
    SingleApplies(action, resource, asked, wanted);
    SingleApplies("*", "*", asked, wanted);
    assert [allow][..0] == [] && Flat([allow]) == [("p", allow.statements[0])];
    assert Flat([allow])[0].1 == allow.statements[0];
    assert [all, deny][..1] == [all] && [all][..0] == [];
    assert Flat([all]) == [("p", all.statements[0])];
    assert Flat([all, deny]) == [("p", all.statements[0]), ("p", deny.statements[0])];
    assert Flat([all, deny])[0].1 == all.statements[0] && Flat([all, deny])[1].1 == deny.statements[0];
    hide Applies, Matches;
  }

  /** A pattern `prefix*` stands for exactly the texts that start with the prefix. */
  lemma PrefixMatches(prefix: string, text: string)
    ensures Matches(prefix + "*", text) <==> prefix <= text
  {
    var pattern := prefix + "*";
    assert pattern[|pattern| - 1] == '*' && pattern[..|pattern| - 1] == prefix;
  }

  /** An Allow for `prefix*` allows every action that starts with the prefix and no other;
      the same Deny refuses exactly those. */
  lemma ActionPrefix(prefix: string, action: string, resource: string)
    ensures Allowed([Single(Allow, prefix + "*", "*")], action, resource) <==> prefix <= action
    ensures Allowed([Single(Allow, "*", "*"), Single(Deny, prefix + "*", "*")], action, resource) <==>
              !(prefix <= action)
    ensures forall rest :: Allowed([Single(Allow, prefix + "*", "*")], prefix + rest, resource)
  {
    hide Matches, Allowed;
    Everything(resource);
    PrefixMatches(prefix, action);
    SingleDecides(prefix + "*", "*", action, resource);
    forall rest
      ensures Allowed([Single(Allow, prefix + "*", "*")], prefix + rest, resource)
    {
      PrefixMatches(prefix, prefix + rest);
      SingleDecides(prefix + "*", "*", prefix + rest, resource);
    }
  }

  /** The same for resources, `jurisdiction:33*` among them. */
  lemma ResourcePrefix(prefix: string, action: string, resource: string)
    ensures Allowed([Single(Allow, "*", prefix + "*")], action, resource) <==> prefix <= resource
    ensures Allowed([Single(Allow, "*", "*"), Single(Deny, "*", prefix + "*")], action, resource) <==>
              !(prefix <= resource)
    ensures forall rest :: Allowed([Single(Allow, "*", prefix + "*")], action, prefix + rest)
  {
    hide Matches, Allowed;
    Everything(action);
    PrefixMatches(prefix, resource);
    SingleDecides("*", prefix + "*", action, resource);
    forall rest
      ensures Allowed([Single(Allow, "*", prefix + "*")], action, prefix + rest)
    {
      PrefixMatches(prefix, prefix + rest);
      SingleDecides("*", prefix + "*", action, prefix + rest);
    }
  }

  lemma Everything(text: string)
    ensures Matches("*", text)
  {
    assert "*"[..0] == "";
  }

  lemma EndsInStar(pattern: string)
    requires pattern != "" && pattern[|pattern| - 1] == '*'
    ensures pattern == pattern[..|pattern| - 1] + "*"
  {
  }

  /** A pattern without a final star stands for itself only. */
  lemma ExactPattern(pattern: string, text: string, action: string, resource: string)
    requires forall prefix :: pattern != prefix + "*"
    ensures Allowed([Single(Allow, pattern, "*")], text, resource) <==> text == pattern
    ensures Allowed([Single(Allow, "*", pattern)], action, text) <==> text == pattern
    ensures Allowed([Single(Allow, "*", "*"), Single(Deny, pattern, "*")], text, resource) <==> text != pattern
    ensures Allowed([Single(Allow, "*", "*"), Single(Deny, "*", pattern)], action, text) <==> text != pattern
  {
    if pattern != "" && pattern[|pattern| - 1] == '*' {
      EndsInStar(pattern);
      assert false;
    }
    assert Matches(pattern, text) <==> text == pattern;
    hide Matches, Allowed;
    Everything(resource);
    Everything(action);
    SingleDecides(pattern, "*", text, resource);
    SingleDecides("*", pattern, action, text);
  }

  /** A statement applies when one of its actions and one of its resources match. */
  lemma AppliesToAny(s: Statement, action: string, resource: string)
    ensures Applies(s, action, resource) <==>
              (exists a, r :: a in s.actions && r in s.resources && Matches(a, action) && Matches(r, resource))
  {
    hide Matches;
    if a, r :| a in s.actions && r in s.resources && Matches(a, action) && Matches(r, resource) {
      var k :| 0 <= k < |s.actions| && s.actions[k] == a;
      var l :| 0 <= l < |s.resources| && s.resources[l] == r;
    }
  }

  // ------------------------------------------------------------ order does not matter

  ghost predicate Held(policies: seq<Policy>, s: Statement) {
    exists i, j :: 0 <= i < |policies| && 0 <= j < |policies[i].statements| && policies[i].statements[j] == s
  }

  lemma {:induction false} FlatHolds(policies: seq<Policy>, s: Statement)
    ensures (exists k :: 0 <= k < |Flat(policies)| && Flat(policies)[k].1 == s) <==> Held(policies, s)
  {
    if policies != [] {
      var init, p := policies[..|policies| - 1], policies[|policies| - 1];
      FlatHolds(init, s);
      if Held(policies, s) {
        var i, j :| 0 <= i < |policies| && 0 <= j < |policies[i].statements| && policies[i].statements[j] == s;
        FlatStep(policies, i, j);
      }
      if k :| 0 <= k < |Flat(policies)| && Flat(policies)[k].1 == s {
        if k < |Flat(init)| {
          assert Flat(init)[k].1 == s;
          var i, j :| 0 <= i < |init| && 0 <= j < |init[i].statements| && init[i].statements[j] == s;
          assert policies[i].statements[j] == s;
        } else {
          assert policies[|policies| - 1].statements[k - |Flat(init)|] == s;
        }
      }
    }
  }

  /** The decision depends only on which statements are held: neither the order of the
      policies nor of their statements nor repetitions change it. */
  lemma OrderIsIrrelevant(a: seq<Policy>, b: seq<Policy>, action: string, resource: string)
    requires forall s :: Held(a, s) <==> Held(b, s)
    ensures Allowed(a, action, resource) <==> Allowed(b, action, resource)
  {
    SomeIsHeld(a, Allow, action, resource);
    SomeIsHeld(a, Deny, action, resource);
    SomeIsHeld(b, Allow, action, resource);
    SomeIsHeld(b, Deny, action, resource);
    hide Held, Applies;
  }

  lemma SomeIsHeld(policies: seq<Policy>, effect: Effect, action: string, resource: string)
    ensures SomeApplies(Flat(policies), effect, action, resource) <==>
            exists s :: Held(policies, s) && s.effect == effect && Applies(s, action, resource)
  {
    if SomeApplies(Flat(policies), effect, action, resource) {
      var k :|
        && 0 <= k < |Flat(policies)| && Flat(policies)[k].1.effect == effect
        && Applies(Flat(policies)[k].1, action, resource);
      FlatHolds(policies, Flat(policies)[k].1);
    }
    if s :| Held(policies, s) && s.effect == effect && Applies(s, action, resource) {
      FlatHolds(policies, s);
    }
  }

  // ------------------------------------------------------------ scoped checks

  /** Some statement names a resource other than `*`. */
  predicate IsScoped(policies: seq<Policy>) {
    exists i, j, r ::
      0 <= i < |policies| && 0 <= j < |policies[i].statements| && 0 <= r < |policies[i].statements[j].resources|
      && policies[i].statements[j].resources[r] != ANY_RESOURCE
  }

  /** Unscoped means that every resource of every statement held is `*`. */
  lemma UnscopedIff(policies: seq<Policy>)
    ensures !IsScoped(policies) <==> forall s, r :: Held(policies, s) && r in s.resources ==> r == "*"
  {
    if IsScoped(policies) {
      var i, j, r :|
        0 <= i < |policies| && 0 <= j < |policies[i].statements| && 0 <= r < |policies[i].statements[j].resources|
        && policies[i].statements[j].resources[r] != ANY_RESOURCE;
      var s := policies[i].statements[j];
      assert Held(policies, s) && s.resources[r] in s.resources && s.resources[r] != "*";
    } else {
      forall s, r | Held(policies, s) && r in s.resources
        ensures r == "*"
      {
        var i, j :| 0 <= i < |policies| && 0 <= j < |policies[i].statements| && policies[i].statements[j] == s;
        var k :| 0 <= k < |s.resources| && s.resources[k] == r;
      }
    }
  }

  lemma UnscopedApplies(policies: seq<Policy>, s: Statement, action: string, a: string, b: string)
    requires !IsScoped(policies) && Held(policies, s)
    ensures Applies(s, action, a) <==> Applies(s, action, b)
  {
    var i, j :| 0 <= i < |policies| && 0 <= j < |policies[i].statements| && policies[i].statements[j] == s;
    assert forall r :: 0 <= r < |s.resources| ==> s.resources[r] == ANY_RESOURCE;
    assert forall r :: 0 <= r < |s.resources| ==> Matches(s.resources[r], a) && Matches(s.resources[r], b);
  }

  /** Without scoped statements every resource gets the same answer, so the lookup of the
      jurisdiction code may be skipped. */
  lemma UnscopedIsUniform(policies: seq<Policy>, action: string, a: string, b: string)
    requires !IsScoped(policies)
    ensures Allowed(policies, action, a) <==> Allowed(policies, action, b)
  {
    forall s | Held(policies, s)
      ensures Applies(s, action, a) <==> Applies(s, action, b)
    {
      UnscopedApplies(policies, s, action, a, b);
    }
    SomeIsHeld(policies, Allow, action, a);
    SomeIsHeld(policies, Deny, action, a);
    SomeIsHeld(policies, Allow, action, b);
    SomeIsHeld(policies, Deny, action, b);
    hide Held, Applies, IsScoped;
  }

  function JurisdictionResource(code: string): string { "jurisdiction:" + code }

  /** The scoped check: the jurisdiction is looked up only when a statement is scoped. */
  method CanInJurisdiction(policies: seq<Policy>, action: string, codes: map<nat, string>, j: nat)
    returns (r: Result<bool>)
    ensures j in codes ==> r == Ok(Allowed(policies, action, "jurisdiction:" + codes[j]))
    ensures j !in codes ==> r == if IsScoped(policies) then Err(NotFound)
              else Ok(Allowed(policies, action, "*"))
  {
    if !IsScoped(policies) {
      var d := Evaluate(policies, action, ANY_RESOURCE);
      if j in codes {
        UnscopedIsUniform(policies, action, ANY_RESOURCE, JurisdictionResource(codes[j]));
      }
      return Ok(d.allowed);
    }
    if j !in codes {
      return Err(NotFound);
    }
    var d := Evaluate(policies, action, JurisdictionResource(codes[j]));
    r := Ok(d.allowed);
  }

  ghost predicate MayAct(policies: seq<Policy>, action: string) {
    Allowed(policies, action, ANY_RESOURCE) || IsScoped(policies)
  }

  /** Held unscoped statements are checked as they stand; one scoped statement is enough to
      pass. */
  lemma MayActIff(policies: seq<Policy>, action: string)
    ensures MayAct(policies, action) <==>
              || Allowed(policies, action, "*")
              || exists s, r :: Held(policies, s) && r in s.resources && r != "*"
  {
    UnscopedIff(policies);
    hide Held, IsScoped, Allowed;
  }

  /** The cheap check before a transaction never refuses a caller the full check accepts. */
  lemma MayActIsWeaker(policies: seq<Policy>, action: string, code: string)
    requires Allowed(policies, action, "jurisdiction:" + code)
    ensures MayAct(policies, action)
  {
    if !IsScoped(policies) {
      UnscopedIsUniform(policies, action, ANY_RESOURCE, JurisdictionResource(code));
    }
  }

  /** It accepts more: a statement for another jurisdiction is enough. */
  lemma MayActIsStrictlyWeaker(code: string, other: string)
    requires code != other && (other == "" || other[|other| - 1] != '*')
    ensures var policies := [Policy("p", [Statement(None, Allow, ["comment:create"], [JurisdictionResource(other)])])];
            MayAct(policies, "comment:create") && !Allowed(policies, "comment:create", JurisdictionResource(code))
  {
    var s := Statement(None, Allow, ["comment:create"], [JurisdictionResource(other)]);
    var policies := [Policy("p", [s])];
    assert policies[0].statements[0].resources[0] != ANY_RESOURCE;
    var pattern := JurisdictionResource(other);
    assert pattern[|pattern| - 1] != '*' && JurisdictionResource(code) != pattern by {
      assert JurisdictionResource(code)[13..] == code && pattern[13..] == other;
      assert pattern[|pattern| - 1] == if other == "" then ':' else other[|other| - 1];
    }
    assert !Matches(pattern, JurisdictionResource(code));
    assert !Applies(s, "comment:create", JurisdictionResource(code));
    assert Flat(policies[..0]) == [];
    SomeIsHeld(policies, Allow, "comment:create", JurisdictionResource(code));
  }
}
