// Putting a push rule into one kind of one user's rule set: search by id, insertion
// between the rules named by the caller, and replacement.

module PushRules {
  import opened Membership

  datatype Rule = Rule(id: string, isDefault: bool, enabled: bool, actions: string)

  predicate HasId(rules: seq<Rule>, id: string) {
    exists i | 0 <= i < |rules| :: rules[i].id == id
  }

  predicate Distinct(rules: seq<Rule>) {
    forall i, j | 0 <= i < j < |rules| :: rules[i].id != rules[j].id
  }

  // The rules other than the one with this id, in their order.
  function Without(rules: seq<Rule>, id: string): seq<Rule> {
    if rules == [] then []
    else (if rules[0].id == id then [] else [rules[0]]) + Without(rules[1..], id)
  }

  function Insert(rules: seq<Rule>, k: nat, rule: Rule): seq<Rule>
    requires k <= |rules|
  {
    rules[..k] + [rule] + rules[k..]
  }

  // The place the caller asks for: behind the rule `after`, directly in front of the
  // rule `before`, directly behind `after` when it is given alone, first when neither
  // is given. Neither may be a default rule.
  predicate Place(rules: seq<Rule>, after: Option<string>, before: Option<string>, k: nat) {
    k <= |rules| &&
    (after.Some? ==> exists a | 0 <= a < k :: rules[a].id == after.value && !rules[a].isDefault) &&
    (if before.Some? then k < |rules| && rules[k].id == before.value && !rules[k].isDefault
     else if after.Some? then k > 0 && rules[k - 1].id == after.value
     else k == 0)
  }

  method IndexById(rules: seq<Rule>, id: string) returns (i: int)
    ensures -1 <= i < |rules|
    ensures i >= 0 ==> rules[i].id == id && forall j | 0 <= j < i :: rules[j].id != id
    ensures i == -1 <==> !HasId(rules, id)
  {
    i := 0;
    while i < |rules|
      invariant 0 <= i <= |rules| && forall j | 0 <= j < i :: rules[j].id != id
    {
      if rules[i].id == id { return; }
      i := i + 1;
    }
    i := -1;
  }

  // In a list with distinct ids, a place is found exactly when there is one, and there
  // is never more than one.
  method FindInsertionIndex(rules: seq<Rule>, after: Option<string>, before: Option<string>) returns (at: Option<nat>)
    requires Distinct(rules)
    ensures at.Some? ==> Place(rules, after, before, at.value)
    ensures forall k: nat | Place(rules, after, before, k) :: at == Some(k)
  {
    var i := 0;
    if after.Some? {
      while i < |rules| && rules[i].id != after.value
        invariant 0 <= i <= |rules| && forall j | 0 <= j < i :: rules[j].id != after.value
      {
        i := i + 1;
      }
      if i == |rules| || rules[i].isDefault { return None; }
      i := i + 1;
    }
    ghost var first := i;
    if before.Some? {
      while i < |rules| && rules[i].id != before.value
        invariant first <= i <= |rules| && forall j | first <= j < i :: rules[j].id != before.value
      {
        i := i + 1;
      }
      if i == |rules| || rules[i].isDefault { return None; }
    }
    at := Some(i);
    assert Place(rules, after, before, i) by {
      assert after.Some? ==> rules[first - 1].id == after.value && !rules[first - 1].isDefault;
    }
    forall k: nat | Place(rules, after, before, k) ensures k == i {
      if before.None? && after.Some? { assert rules[k - 1].id == rules[i - 1].id; }
    }
  }

  lemma {:induction false} WithoutAbsent(rules: seq<Rule>, id: string)
    requires !HasId(rules, id)
    ensures Without(rules, id) == rules
  {
    if rules != [] {
      assert forall i | 0 <= i < |rules[1..]| :: rules[1..][i] == rules[i + 1];
      WithoutAbsent(rules[1..], id);
      assert rules[0].id != id;
    }
  }

  // Removing the one rule with an id, by its index or by the id, is the same.
  lemma {:induction false} WithoutAt(rules: seq<Rule>, i: nat)
    requires Distinct(rules) && i < |rules|
    ensures Without(rules, rules[i].id) == rules[..i] + rules[i + 1..]
  {
    var rest := rules[1..];
    assert forall j | 0 <= j < |rest| :: rest[j] == rules[j + 1];
    if i == 0 {
      WithoutAbsent(rest, rules[0].id);
    } else {
      WithoutAt(rest, i - 1);
      assert rules[..i] == [rules[0]] + rest[..i - 1];
      assert rest[i..] == rules[i + 1..];
    }
  }

  lemma WithoutInsert(rules: seq<Rule>, k: nat, rule: Rule)
    requires k <= |rules| && !HasId(rules, rule.id) && Distinct(rules)
    ensures Distinct(Insert(rules, k, rule))
    ensures Without(Insert(rules, k, rule), rule.id) == rules
  {
    var r := Insert(rules, k, rule);
    assert forall i | 0 <= i < |r| :: r[i] == if i < k then rules[i] else if i == k then rule else rules[i - 1];
    WithoutAt(r, k);
    assert r[..k] + r[k + 1..] == rules;
  }

  datatype Outcome = Stored(rules: seq<Rule>) | Refused

  predicate Named(after: Option<string>, before: Option<string>) {
    after.Some? || before.Some?
  }

  // A rule that did not exist is stored enabled.
  function Written(rules: seq<Rule>, rule: Rule): Rule {
    if HasId(rules, rule.id) then rule else rule.(enabled := true)
  }

  method Put(rules: seq<Rule>, rule: Rule, after: Option<string>, before: Option<string>) returns (out: Outcome)
    requires Distinct(rules)
    ensures out.Stored? <==> !Named(after, before) || exists k: nat :: Place(Without(rules, rule.id), after, before, k)
    ensures out.Stored? ==> Distinct(out.rules) && Without(out.rules, rule.id) == Without(rules, rule.id)
    ensures out.Stored? ==> (if HasId(rules, rule.id) then rule else rule.(enabled := true)) in out.rules
    ensures out.Stored? && (Named(after, before) || !HasId(rules, rule.id)) ==>
              exists k: nat :: Place(Without(rules, rule.id), after, before, k) &&
                out.rules == Insert(Without(rules, rule.id), k, Written(rules, rule))
    ensures out.Stored? && !Named(after, before) && HasId(rules, rule.id) ==>
              |out.rules| == |rules| && forall i | 0 <= i < |rules| ::
                out.rules[i] == if rules[i].id == rule.id then rule else rules[i]
  {
    var i := IndexById(rules, rule.id);
    if i >= 0 && !Named(after, before) {
      WithoutAt(rules, i);
      out := Stored(rules[i := rule]);
      WithoutAt(out.rules, i);
      assert out.rules[..i] + out.rules[i + 1..] == rules[..i] + rules[i + 1..];
      assert out.rules[i] == rule;
    } else {
      var others := rules;
      if i >= 0 {
        others := rules[..i] + rules[i + 1..];
        WithoutAt(rules, i);
      } else {
        WithoutAbsent(rules, rule.id);
      }
      assert Distinct(others) && !HasId(others, rule.id);
      var at := FindInsertionIndex(others, after, before);
      if at.None? {
        assert !Place(others, after, before, 0) ==> Named(after, before);
        return Refused;
      }
      WithoutInsert(others, at.value, Written(rules, rule));
      out := Stored(others[..at.value] + [Written(rules, rule)] + others[at.value..]);
      assert out.rules[at.value] == Written(rules, rule);
      assert out.rules == Insert(others, at.value, Written(rules, rule));
    }
  }

  // Where a rule put at its place ends up among its neighbours.
  lemma PlacedAsAsked(others: seq<Rule>, rule: Rule, after: Option<string>, before: Option<string>, k: nat)
    requires Place(others, after, before, k)
    ensures var r := Insert(others, k, rule);
            r[k] == rule &&
            (after.Some? ==> exists a | 0 <= a < k :: r[a].id == after.value) &&
            (before.Some? ==> k + 1 < |r| && r[k + 1].id == before.value) &&
            (after.Some? && before.None? ==> k > 0 && r[k - 1].id == after.value) &&
            (!Named(after, before) ==> k == 0)
  {
    var r := Insert(others, k, rule);
    if after.Some? {
      var a :| 0 <= a < k && others[a].id == after.value && !others[a].isDefault;
      assert r[a] == others[a];
    }
  }
}
