/** The fetched sponsorship records and the per-tier filter over them. */
module Sponsorships {
  import opened Common
  import opened Tiers

  /** The sponsoring account; both variants expose the same fields. `name` is None
      when the field is absent from the record. */
  datatype SponsorEntity =
    | Organization(login: string, name: Option<string>, avatarUrl: string)
    | User(login: string, name: Option<string>, avatarUrl: string)

  /** One sponsorship node, reduced to the fields that are read. */
  datatype Sponsorship = Sponsorship(isActive: bool, tier: Tier, sponsorEntity: SponsorEntity)

  /** The `viewer` object of the response: the maintainer's login and the sponsorship nodes. */
  datatype Viewer = Viewer(login: string, sponsorships: seq<Sponsorship>)

  /** Whether the filter keeps `s` for the rule `name`. */
  predicate Selected(name: TierName, s: Sponsorship) {
    s.isActive && Matches(name, s.tier)
  }

  /** The filter applied to the fetched nodes for the rule stored under `key`.
      Nodes are visited in order; an inactive node is dropped without looking the
      rule up, and looking up a key that names no rule is an error. */
  function Filter(key: string, nodes: seq<Sponsorship>): (r: Result<seq<Sponsorship>, Error>)
    ensures r.Failure? ==> r.error == UnknownTier(key)
    ensures RuleNamed(key).Some? ==> r.Success?
    ensures r.Success? ==> IsSubsequence(r.value, nodes)
  {
    if nodes == [] then Success([])
    else if !nodes[0].isActive then Filter(key, nodes[1..])
    else match RuleNamed(key)
      case None => Failure(UnknownTier(key))
      case Some(name) =>
        match Filter(key, nodes[1..])
        case Failure(e) => Failure(e)
        case Success(rest) => Success(if Matches(name, nodes[0].tier) then [nodes[0]] + rest else rest)
  }

  /** For a known key the filter succeeds and keeps exactly the active nodes whose
      tier satisfies the rule. */
  lemma {:induction false} FilterKnownTier(key: string, name: TierName, nodes: seq<Sponsorship>)
    requires RuleNamed(key) == Some(name)
    ensures Filter(key, nodes).Success?
    ensures forall s :: s in Filter(key, nodes).value <==> s in nodes && Selected(name, s)
  {
    if nodes != [] {
      FilterKnownTier(key, name, nodes[1..]);
      assert forall s :: s in nodes <==> s == nodes[0] || s in nodes[1..];
    }
  }

  /** For a key that names no rule the filter fails exactly when some node is active
      (the lookup is only reached for an active node); otherwise it gives no nodes. */
  lemma {:induction false} FilterUnknownTier(key: string, nodes: seq<Sponsorship>)
    requires RuleNamed(key).None?
    ensures Filter(key, nodes).Failure? <==> exists i :: 0 <= i < |nodes| && nodes[i].isActive
    ensures Filter(key, nodes).Success? ==> Filter(key, nodes).value == []
  {
    if nodes != [] {
      FilterUnknownTier(key, nodes[1..]);
      if nodes[0].isActive {
        assert nodes[0].isActive;
      } else {
        assert forall i :: 1 <= i < |nodes| ==> nodes[i] == nodes[1..][i - 1];
        if exists i :: 0 <= i < |nodes| && nodes[i].isActive {
          var i :| 0 <= i < |nodes| && nodes[i].isActive;
          assert nodes[1..][i - 1].isActive;
        }
      }
    }
  }

  /** Filtering one node keeps it exactly when it is selected. */
  lemma FilterSingle(key: string, name: TierName, s: Sponsorship)
    requires RuleNamed(key) == Some(name)
    ensures Filter(key, [s]) == Success(if Selected(name, s) then [s] else [])
  {
    assert [s][1..] == [];
    assert Filter(key, []) == Success([]);
    if s.isActive {
      assert Filter(key, [s]) == Success(if Matches(name, s.tier) then [s] + [] else []);
      assert [s] + [] == [s];
    }
  }

  /** Filtering a concatenation filters each part and concatenates the results;
      with FilterSingle this fixes the result, order included. */
  lemma {:induction false} FilterAppend(key: string, name: TierName, a: seq<Sponsorship>, b: seq<Sponsorship>)
    requires RuleNamed(key) == Some(name)
    ensures Filter(key, a).Success? && Filter(key, b).Success?
    ensures Filter(key, a + b) == Success(Filter(key, a).value + Filter(key, b).value)
  {
    if a == [] {
      assert a + b == b;
      assert Filter(key, a) == Success([]);
      assert [] + Filter(key, b).value == Filter(key, b).value;
    } else {
      assert (a + b)[1..] == a[1..] + b;
      FilterAppend(key, name, a[1..], b);
      var head, tail, rest := a[0], Filter(key, a[1..]).value, Filter(key, b).value;
      assert (a + b)[0] == head;
      if Selected(name, head) {
        assert Filter(key, a) == Success([head] + tail);
        assert Filter(key, a + b) == Success([head] + (tail + rest));
        assert [head] + (tail + rest) == ([head] + tail) + rest;
      } else {
        assert Filter(key, a) == Success(tail);
        assert Filter(key, a + b) == Success(tail + rest);
      }
    }
  }

  /** Filtering an already filtered list for the same rule changes nothing. */
  lemma {:induction false} FilterIdempotent(key: string, name: TierName, nodes: seq<Sponsorship>)
    requires RuleNamed(key) == Some(name)
    ensures Filter(key, nodes).Success?
    ensures Filter(key, Filter(key, nodes).value) == Filter(key, nodes)
  {
    FilterKnownTier(key, name, nodes);
    if nodes != [] {
      FilterIdempotent(key, name, nodes[1..]);
      FilterKnownTier(key, name, nodes[1..]);
      var rest := Filter(key, nodes[1..]).value;
      if Selected(name, nodes[0]) {
        assert ([nodes[0]] + rest)[1..] == rest;
      }
    }
  }
}
