/** The tier classifier: nine named rules over a sponsorship tier's price and payment kind. */
module Tiers {
  import opened Common

  /** The two fields of a fetched tier that the rules read. */
  datatype Tier = Tier(isOneTime: bool, monthlyPriceInCents: int)

  /** The keys of the rule table, one constructor per key. */
  datatype TierName =
    | Supporter | TopSupporter | Shoutout | ShoutoutLink
    | Bronze | Silver | Gold | Platinum
    | Other

  /** The key under which a rule is stored in the table. */
  function Key(name: TierName): string {
    match name
    case Supporter => "supporter"
    case TopSupporter => "top_supporter"
    case Shoutout => "shoutout"
    case ShoutoutLink => "shoutout_link"
    case Bronze => "bronze"
    case Silver => "silver"
    case Gold => "gold"
    case Platinum => "platinum"
    case Other => "other"
  }

  /** The keys of the table in the order they are declared. */
  const RuleOrder: seq<TierName> :=
    [Supporter, TopSupporter, Shoutout, ShoutoutLink, Bronze, Silver, Gold, Platinum, Other]

  /** Looks a rule up by its key; a key that names no rule gives None. */
  function RuleNamed(key: string): (r: Option<TierName>)
    ensures r.Some? ==> Key(r.value) == key
    ensures r.None? ==> forall name :: Key(name) != key
  {
    if key == "supporter" then Some(Supporter)
    else if key == "top_supporter" then Some(TopSupporter)
    else if key == "shoutout" then Some(Shoutout)
    else if key == "shoutout_link" then Some(ShoutoutLink)
    else if key == "bronze" then Some(Bronze)
    else if key == "silver" then Some(Silver)
    else if key == "gold" then Some(Gold)
    else if key == "platinum" then Some(Platinum)
    else if key == "other" then Some(Other)
    else None
  }

  /** Inclusive range test on both ends. */
  predicate WithinRange(value: int, min: int, max: int) {
    value >= min && value <= max
  }

  /** The keys of `names` other than `excluded`, in order. */
  function Without(names: seq<TierName>, excluded: TierName): (r: seq<TierName>)
    ensures forall name :: name in r <==> name in names && name != excluded
    ensures |r| <= |names|
  {
    if names == [] then []
    else if names[0] == excluded then Without(names[1..], excluded)
    else [names[0]] + Without(names[1..], excluded)
  }

  /** Filtering keys out keeps the remaining ones in their declared order. */
  lemma {:induction false} WithoutKeepsOrder(names: seq<TierName>, excluded: TierName)
    ensures IsSubsequence(Without(names, excluded), names)
  {
    if names != [] {
      WithoutKeepsOrder(names[1..], excluded);
      if names[0] != excluded {
        assert ([names[0]] + Without(names[1..], excluded))[1..] == Without(names[1..], excluded);
      }
    }
  }

  /** The rule stored under `name`, applied to tier `t`. The catch-all `other`
      holds when none of the other keys' rules holds. */
  predicate Matches(name: TierName, t: Tier)
    decreases if name.Other? then 1 else 0, 0
  {
    var price := t.monthlyPriceInCents;
    match name
    case Supporter => !t.isOneTime && WithinRange(price, 100, 4999)
    case TopSupporter => !t.isOneTime && WithinRange(price, 5000, 14999)
    case Shoutout => t.isOneTime && WithinRange(price, 100, 2499)
    case ShoutoutLink => t.isOneTime && WithinRange(price, 2500, 14999)
    case Bronze => WithinRange(price, 15000, 24999)
    case Silver => WithinRange(price, 25000, 74999)
    case Gold => WithinRange(price, 75000, 149999)
    case Platinum => WithinRange(price, 150000, 1200000)
    case Other => !AnyMatches(Without(RuleOrder, Other), t)
  }

  /** Whether the rule of some key in `names` holds of `t`, tried in order. */
  predicate AnyMatches(names: seq<TierName>, t: Tier)
    requires Other !in names
    decreases 0, |names|
  {
    names != [] && (Matches(names[0], t) || AnyMatches(names[1..], t))
  }

  /** Both ends of a range are inside it, and the neighbours just outside are not. */
  lemma WithinRangeInclusive(min: int, max: int)
    requires min <= max
    ensures WithinRange(min, min, max) && WithinRange(max, min, max)
    ensures !WithinRange(min - 1, min, max) && !WithinRange(max + 1, min, max)
  {
  }

  lemma {:induction false} AnyMatchesSome(names: seq<TierName>, t: Tier)
    requires Other !in names
    ensures AnyMatches(names, t) <==> exists name :: name in names && Matches(name, t)
  {
    if names != [] {
      AnyMatchesSome(names[1..], t);
      if Matches(names[0], t) {
        assert names[0] in names;
      } else if AnyMatches(names[1..], t) {
        var name :| name in names[1..] && Matches(name, t);
        assert name in names;
      } else {
        forall name | name in names
          ensures !Matches(name, t)
        {
          if name != names[0] {
            assert name in names[1..];
          }
        }
      }
    }
  }

  /** Every rule name is one of the table's keys. */
  lemma EveryKeyListed(name: TierName)
    ensures name in RuleOrder
  {
  }

  /** `other` holds exactly when none of the eight named rules does. */
  lemma OtherIffNoNamedRule(t: Tier)
    ensures Matches(Other, t) <==> forall name :: name != Other ==> !Matches(name, t)
  {
    if Matches(Other, t) {
      forall name | name != Other
        ensures !Matches(name, t)
      {
        if Matches(name, t) {
          NamedRuleExcludesOther(name, t);
        }
      }
    } else {
      OtherFailsOnlyByNamedRule(t);
    }
  }

  lemma NamedRuleExcludesOther(name: TierName, t: Tier)
    requires name != Other && Matches(name, t)
    ensures !Matches(Other, t)
  {
    EveryKeyListed(name);
    assert name in Without(RuleOrder, Other);
    AnyMatchesSome(Without(RuleOrder, Other), t);
  }

  lemma NoNamedRuleGivesOther(t: Tier)
    requires forall name :: name != Other ==> !Matches(name, t)
    ensures Matches(Other, t)
  {
    AnyMatchesSome(Without(RuleOrder, Other), t);
  }

  lemma OtherFailsOnlyByNamedRule(t: Tier)
    requires !Matches(Other, t)
    ensures exists name :: name != Other && Matches(name, t)
  {
    AnyMatchesSome(Without(RuleOrder, Other), t);
  }

  /** No tier satisfies two of the eight named rules. */
  lemma NamedRulesDisjoint(a: TierName, b: TierName, t: Tier)
    requires a != Other && b != Other
    requires Matches(a, t) && Matches(b, t)
    ensures a == b
  {
  }

  /** `other` holds exactly for prices outside [100, 1200000], whatever the payment kind. */
  lemma OtherIffOutOfRange(t: Tier)
    ensures Matches(Other, t) <==> t.monthlyPriceInCents < 100 || t.monthlyPriceInCents > 1200000
  {
    var price := t.monthlyPriceInCents;
    if 100 <= price <= 1200000 {
      var name :=
        if price < 5000 && !t.isOneTime then Supporter
        else if price < 15000 && !t.isOneTime then TopSupporter
        else if price < 2500 && t.isOneTime then Shoutout
        else if price < 15000 && t.isOneTime then ShoutoutLink
        else if price < 25000 then Bronze
        else if price < 75000 then Silver
        else if price < 150000 then Gold
        else Platinum;
      NamedRuleExcludesOther(name, t);
    } else {
      NoNamedRuleGivesOther(t);
    }
  }

  /** The nine rules partition all tiers: every tier satisfies exactly one of them. */
  lemma ExactlyOneRule(t: Tier)
    ensures exists name :: Matches(name, t)
    ensures forall a, b :: Matches(a, t) && Matches(b, t) ==> a == b
  {
    if !Matches(Other, t) {
      OtherIffNoNamedRule(t);
      var name :| name != Other && Matches(name, t);
    }
    forall a, b | Matches(a, t) && Matches(b, t)
      ensures a == b
    {
      if a != Other && b != Other {
        NamedRulesDisjoint(a, b, t);
      } else if a != Other {
        NamedRuleExcludesOther(a, t);
      } else if b != Other {
        NamedRuleExcludesOther(b, t);
      }
    }
  }

  /** The boundary prices between neighbouring rules. */
  lemma BoundaryTiers()
    ensures Matches(Supporter, Tier(false, 4999)) && !Matches(TopSupporter, Tier(false, 4999))
    ensures Matches(TopSupporter, Tier(false, 5000)) && !Matches(Supporter, Tier(false, 5000))
    ensures Matches(Shoutout, Tier(true, 2499)) && !Matches(ShoutoutLink, Tier(true, 2499))
    ensures Matches(ShoutoutLink, Tier(true, 2500)) && !Matches(Shoutout, Tier(true, 2500))
    ensures forall oneTime :: Matches(Bronze, Tier(oneTime, 15000)) && !Matches(Other, Tier(oneTime, 15000))
  {
    forall oneTime: bool
      ensures !Matches(Other, Tier(oneTime, 15000))
    {
      OtherIffOutOfRange(Tier(oneTime, 15000));
    }
  }
}
