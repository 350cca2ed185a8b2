/**
 * The pure half of lib/gamification.ts: point formulas, the level formula and
 * the badge requirement rules.
 */
module Gamification {
  import opened Common
  import Validations

  // ---------------------------------------------------------------------------
  // Points
  // ---------------------------------------------------------------------------

  /** calculateDonationPoints: 10% of the amount, rounded down. */
  function DonationPoints(amount: real): (r: int)
    ensures r as real <= amount / 10.0 < r as real + 1.0
    ensures amount >= 0.0 ==> r >= 0
  {
    (amount * 0.1).Floor
  }

  lemma DonationPointsMonotone(a: real, b: real)
    requires a <= b
    ensures DonationPoints(a) <= DonationPoints(b)
  {
  }

  /**
   * calculateCampaignPoints: 5 + floor(raised / goal * 20). None stands for the
   * non-finite number JavaScript produces when the goal is 0.
   */
  function CampaignPoints(goal: real, raised: real): (r: Option<int>)
    ensures r.None? <==> goal == 0.0
    ensures r.Some? ==> (r.value - 5) as real <= raised / goal * 20.0 < (r.value - 5) as real + 1.0
    ensures goal != 0.0 && raised == 0.0 ==> r == Some(5)
    ensures goal != 0.0 && raised == goal ==> r == Some(25)
    ensures goal > 0.0 && 0.0 <= raised <= goal ==> 5 <= r.value <= 25
  {
    if goal == 0.0 then None
    else
      RatioBounds(goal, raised);
      Some(5 + (raised / goal * 20.0).Floor)
  }

  /** The progress ratio is 0 with nothing raised, 1 at the goal, and in between on the way there. */
  lemma RatioBounds(goal: real, raised: real)
    requires goal != 0.0
    ensures raised == 0.0 ==> raised / goal == 0.0
    ensures raised == goal ==> raised / goal == 1.0
    ensures goal > 0.0 && 0.0 <= raised <= goal ==> 0.0 <= raised / goal <= 1.0
  {
    var q := raised / goal;
    assert q * goal == raised;
    if goal > 0.0 && 0.0 <= raised <= goal {
      if q > 1.0 {
        assert q * goal > 1.0 * goal;
      }
    }
  }

  /** There is no cap above 25: raising three times the goal earns 65. */
  lemma CampaignPointsUncapped()
    ensures CampaignPoints(100.0, 300.0) == Some(65)
  {
    assert 300.0 / 100.0 * 20.0 == 60.0;
  }

  lemma CampaignPointsMonotone(goal: real, a: real, b: real)
    requires goal > 0.0 && a <= b
    ensures CampaignPoints(goal, a).value <= CampaignPoints(goal, b).value
  {
    assert a / goal <= b / goal;
  }

  const SharePointsTable: map<string, nat> := map[
    "FACEBOOK" := 2, "TWITTER" := 2, "WHATSAPP" := 2,
    "INSTAGRAM" := 3, "TELEGRAM" := 2, "EMAIL" := 1]

  /** calculateSharePoints, looking only at the table's own keys. */
  function SharePoints(platform: string): (r: nat)
    ensures r in {1, 2, 3}
    ensures platform == "INSTAGRAM" ==> r == 3
    ensures platform == "EMAIL" ==> r == 1
    ensures platform in {"FACEBOOK", "TWITTER", "WHATSAPP", "TELEGRAM"} ==> r == 2
    ensures platform !in Validations.SharePlatforms ==> r == 1
  {
    if platform in SharePointsTable then SharePointsTable[platform] else 1
  }

  /** The table has exactly the platforms trackShareSchema accepts. */
  lemma SharePlatformsAreTableKeys()
    ensures SharePointsTable.Keys == Validations.SharePlatforms
  {
  }

  /** The names an object literal inherits from Object.prototype. */
  const InheritedKeys: set<string> := {
    "constructor", "__proto__", "hasOwnProperty", "isPrototypeOf", "propertyIsEnumerable",
    "toString", "toLocaleString", "valueOf",
    "__defineGetter__", "__defineSetter__", "__lookupGetter__", "__lookupSetter__"}

  /** A JavaScript value: a number, or an inherited (truthy) function or object. */
  datatype JsValue = Num(n: nat) | NonNumber

  /**
   * calculateSharePoints as written: `sharePoints[platform] || 1` also finds the
   * inherited members of the object literal, which are truthy and not numbers.
   */
  function SharePointsAsWritten(platform: string): (r: JsValue)
    ensures platform !in InheritedKeys ==> r == Num(SharePoints(platform))
  {
    if platform in SharePointsTable then Num(SharePointsTable[platform])
    else if platform in InheritedKeys then NonNumber
    else Num(1)
  }

  /** The platform "constructor" yields the Object function instead of 1 point. */
  lemma SharePointsAsWrittenConstructor()
    ensures SharePointsAsWritten("constructor") == NonNumber
    ensures SharePoints("constructor") == 1
  {
  }

  // ---------------------------------------------------------------------------
  // Levels: floor(sqrt(totalPoints / 100)) + 1
  // ---------------------------------------------------------------------------

  /** The integer square root: floor(sqrt(n)). */
  function ISqrt(n: nat): (r: nat)
    ensures r * r <= n < (r + 1) * (r + 1)
  {
    if n == 0 then 0
    else
      var s := ISqrt(n - 1);
      assert (s + 1) * (s + 1) < (s + 2) * (s + 2);
      if (s + 1) * (s + 1) <= n then s + 1 else s
  }

  /**
   * calculateLevel. For a non-negative integer p, floor(sqrt(p / 100)) equals
   * the integer square root of floor(p / 100), so no real square root is needed.
   */
  function Level(totalPoints: nat): (r: nat)
    ensures r >= 1
    ensures 100 * ((r - 1) * (r - 1)) <= totalPoints < 100 * (r * r)
  {
    var s := ISqrt(totalPoints / 100);
    LevelBand(totalPoints, totalPoints / 100, s);
    s + 1
  }

  lemma LevelBand(p: nat, q: nat, s: nat)
    requires q == p / 100
    requires s * s <= q < (s + 1) * (s + 1)
    ensures 100 * (s * s) <= p < 100 * ((s + 1) * (s + 1))
  {
    assert p == 100 * q + p % 100;
    assert q + 1 <= (s + 1) * (s + 1);
    assert 100 * (q + 1) <= 100 * ((s + 1) * (s + 1));
  }

  lemma SquareMonotone(a: nat, b: nat)
    requires a <= b
    ensures a * a <= b * b
  {
    assert a * a <= a * b <= b * b;
  }

  /** Level n is exactly the band 100(n-1)^2 <= p < 100 n^2. */
  lemma LevelCharacterisation(p: nat, n: nat)
    requires n >= 1
    ensures Level(p) == n <==> 100 * ((n - 1) * (n - 1)) <= p < 100 * (n * n)
  {
    var l := Level(p);
    if 100 * ((n - 1) * (n - 1)) <= p < 100 * (n * n) && l != n {
      if l < n {
        SquareMonotone(l, n - 1);
        assert false;
      } else {
        SquareMonotone(n, l - 1);
        assert false;
      }
    }
  }

  lemma LevelMonotone(p: nat, q: nat)
    requires p <= q
    ensures Level(p) <= Level(q)
  {
    var a, b := Level(p), Level(q);
    if b < a {
      SquareMonotone(b, a - 1);
      assert false;
    }
  }

  lemma LevelExamples()
    ensures Level(0) == 1 && Level(99) == 1
    ensures Level(100) == 2 && Level(350) == 2 && Level(399) == 2
    ensures Level(400) == 3 && Level(450) == 3 && Level(899) == 3
  {
    LevelCharacterisation(0, 1);
    LevelCharacterisation(99, 1);
    LevelCharacterisation(100, 2);
    LevelCharacterisation(350, 2);
    LevelCharacterisation(399, 2);
    LevelCharacterisation(400, 3);
    LevelCharacterisation(450, 3);
    LevelCharacterisation(899, 3);
  }

  // ---------------------------------------------------------------------------
  // Badge rules
  // ---------------------------------------------------------------------------

  /** The `type` of a badge's requirement; any other tag unlocks nothing. */
  datatype RequirementKind =
    | DonationCount | SingleDonation | TotalDonated | TotalRaised | CampaignCount | ShareCount
    | Unknown(tag: string)

  datatype Requirement = Requirement(kind: RequirementKind, value: real)

  datatype Badge = Badge(id: Id, requirement: Requirement, pointsReward: nat)

  /**
   * What checkBadgeUnlocks loads about a user: the amounts of their COMPLETED
   * donations, how many campaigns they created, and their fundraiser stats'
   * totalRaised and totalShares (0 when they have no stats).
   */
  datatype Facts = Facts(completedAmounts: seq<real>, campaignCount: nat, totalRaised: real, totalShares: nat)

  predicate Satisfies(req: Requirement, f: Facts)
  {
    match req.kind
    case DonationCount => |f.completedAmounts| as real >= req.value
    case SingleDonation => exists i :: 0 <= i < |f.completedAmounts| && f.completedAmounts[i] >= req.value
    case TotalDonated => SumReal(f.completedAmounts) >= req.value
    case TotalRaised => f.totalRaised >= req.value
    case CampaignCount => f.campaignCount as real >= req.value
    case ShareCount => f.totalShares as real >= req.value
    case Unknown(_) => false
  }

  predicate Unlocks(b: Badge, owned: seq<Id>, f: Facts)
  {
    b.id !in owned && Satisfies(b.requirement, f)
  }

  /** The badges of the catalog one evaluation awards, in catalog order. */
  function NewBadges(catalog: seq<Badge>, owned: seq<Id>, f: Facts): (r: seq<Badge>)
    ensures |r| <= |catalog|
  {
    if catalog == [] then []
    else
      var last := catalog[|catalog| - 1];
      NewBadges(catalog[..|catalog| - 1], owned, f) + (if Unlocks(last, owned, f) then [last] else [])
  }

  /** An evaluation returns catalog badges that unlock, and every catalog badge that unlocks. */
  lemma {:induction false} NewBadgesExact(catalog: seq<Badge>, owned: seq<Id>, f: Facts)
    ensures forall k :: 0 <= k < |NewBadges(catalog, owned, f)| ==>
      NewBadges(catalog, owned, f)[k] in catalog && Unlocks(NewBadges(catalog, owned, f)[k], owned, f)
    ensures forall b :: b in catalog && Unlocks(b, owned, f) ==> b in NewBadges(catalog, owned, f)
    decreases |catalog|
  {
    if catalog != [] {
      var prefix := catalog[..|catalog| - 1];
      var last := catalog[|catalog| - 1];
      NewBadgesExact(prefix, owned, f);
      assert forall b :: b in catalog ==> b in prefix || b == last;
      var r0 := NewBadges(prefix, owned, f);
      var r := NewBadges(catalog, owned, f);
      assert r == r0 + (if Unlocks(last, owned, f) then [last] else []);
      forall k | 0 <= k < |r| ensures r[k] in catalog && Unlocks(r[k], owned, f) {
        if k < |r0| {
          assert r[k] == r0[k];
          assert r0[k] in prefix;
        } else {
          assert r[k] == last;
        }
      }
    }
  }

  /** When no catalog badge unlocks, the evaluation awards nothing. */
  lemma {:induction false} NewBadgesNone(catalog: seq<Badge>, owned: seq<Id>, f: Facts)
    requires forall b :: b in catalog ==> !Unlocks(b, owned, f)
    ensures NewBadges(catalog, owned, f) == []
  {
    if catalog != [] {
      NewBadgesNone(catalog[..|catalog| - 1], owned, f);
    }
  }

  function BadgeIds(bs: seq<Badge>): (r: seq<Id>)
    ensures |r| == |bs| && forall k :: 0 <= k < |bs| ==> r[k] == bs[k].id
  {
    seq(|bs|, k requires 0 <= k < |bs| => bs[k].id)
  }

  function RewardSum(bs: seq<Badge>): nat
  {
    if bs == [] then 0 else RewardSum(bs[..|bs| - 1]) + bs[|bs| - 1].pointsReward
  }

  predicate DistinctIds(bs: seq<Badge>)
  {
    forall j, k :: 0 <= j < k < |bs| ==> bs[j].id != bs[k].id
  }

  /**
   * An evaluation returns only catalog badges the user does not own and whose
   * requirement holds, and every such badge; with distinct catalog ids, each at most once.
   */
  lemma {:induction false} NewBadgesSound(catalog: seq<Badge>, owned: seq<Id>, f: Facts)
    requires DistinctIds(catalog)
    ensures var r := NewBadges(catalog, owned, f);
      && (forall k :: 0 <= k < |r| ==> r[k] in catalog && r[k].id !in owned && Satisfies(r[k].requirement, f))
      && (forall b :: b in catalog && b.id !in owned && Satisfies(b.requirement, f) ==> b in r)
      && DistinctIds(r)
    decreases |catalog|
  {
    NewBadgesExact(catalog, owned, f);
    if catalog != [] {
      var prefix := catalog[..|catalog| - 1];
      var last := catalog[|catalog| - 1];
      assert DistinctIds(prefix);
      NewBadgesSound(prefix, owned, f);
      var r0 := NewBadges(prefix, owned, f);
      assert forall k :: 0 <= k < |r0| ==> r0[k].id != last.id by {
        forall k | 0 <= k < |r0| ensures r0[k].id != last.id {
          var j :| 0 <= j < |prefix| && prefix[j] == r0[k];
        }
      }
    }
  }

  /**
   * With distinct catalog ids, the awarded ids name, once each, exactly the
   * catalog badges that unlock.
   */
  lemma NewBadgeIds(catalog: seq<Badge>, owned: seq<Id>, f: Facts)
    requires DistinctIds(catalog)
    ensures forall b :: b in catalog ==> (b.id in BadgeIds(NewBadges(catalog, owned, f)) <==> Unlocks(b, owned, f))
    ensures DistinctIds(NewBadges(catalog, owned, f))
  {
    var won := NewBadges(catalog, owned, f);
    NewBadgesSound(catalog, owned, f);
    var ids := BadgeIds(won);
    forall b | b in catalog ensures b.id in ids <==> Unlocks(b, owned, f) {
      if b.id in ids {
        var k :| 0 <= k < |ids| && ids[k] == b.id;
        var j :| 0 <= j < |catalog| && catalog[j] == won[k];
        var i :| 0 <= i < |catalog| && catalog[i] == b;
        assert won[k] == b;
      }
    }
  }

  /** A second evaluation with the newly awarded badges counted as owned awards nothing. */
  lemma NewBadgesSettled(catalog: seq<Badge>, owned: seq<Id>, f: Facts)
    ensures NewBadges(catalog, owned + BadgeIds(NewBadges(catalog, owned, f)), f) == []
  {
    var first := NewBadges(catalog, owned, f);
    var owned' := owned + BadgeIds(first);
    NewBadgesExact(catalog, owned, f);
    forall b | b in catalog ensures !Unlocks(b, owned', f) {
      if Unlocks(b, owned, f) {
        assert b in first;
        var k :| 0 <= k < |first| && first[k] == b;
        assert owned'[|owned| + k] == b.id;
      }
    }
    NewBadgesNone(catalog, owned', f);
  }

  // ---------------------------------------------------------------------------
  // The seed catalog, as a concrete instance
  // ---------------------------------------------------------------------------

  const FirstDonation := Badge(0, Requirement(DonationCount, 1.0), 10)
  const GenerousGiver := Badge(1, Requirement(SingleDonation, 1000.0), 50)
  const Philanthropist := Badge(2, Requirement(TotalDonated, 10000.0), 200)
  const CampaignCreator := Badge(3, Requirement(CampaignCount, 1.0), 20)

  /** A donor who already owns First Donation and completes a 1000 donation unlocks Generous Giver (50 points). */
  lemma GenerousGiverScenario()
    ensures NewBadges([FirstDonation, GenerousGiver, Philanthropist, CampaignCreator], [0], Facts([1000.0], 0, 0.0, 0))
      == [GenerousGiver]
    ensures RewardSum([GenerousGiver]) == 50
  {
    var f := Facts([1000.0], 0, 0.0, 0);
    assert Satisfies(GenerousGiver.requirement, f) by { assert f.completedAmounts[0] >= 1000.0; }
    assert !Satisfies(Philanthropist.requirement, f) by { assert SumReal([1000.0]) == 1000.0 by { assert [1000.0][..0] == []; } }
    var s1, s2, s3 := [FirstDonation], [FirstDonation, GenerousGiver], [FirstDonation, GenerousGiver, Philanthropist];
    var s4 := [FirstDonation, GenerousGiver, Philanthropist, CampaignCreator];
    assert s1[..0] == [] && s2[..1] == s1 && s3[..2] == s2 && s4[..3] == s3;
    assert NewBadges(s1, [0], f) == [];
    assert NewBadges(s2, [0], f) == [GenerousGiver];
    assert NewBadges(s3, [0], f) == [GenerousGiver];
    assert NewBadges(s4, [0], f) == [GenerousGiver];
    assert [GenerousGiver][..0] == [];
  }
}
