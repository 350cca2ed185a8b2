/**
 * The Stripe webhook (app/api/webhooks/stripe/route.ts): POST checks the
 * signature header and dispatches a verified event to one of three handlers.
 * A succeeded payment settles its donation once: the donation becomes
 * COMPLETED, its amount is credited to the campaign, the team and the team
 * member, the creator's fundraiser stats are upserted and their average
 * recomputed, the donor earns points and badges, and the leaderboards are
 * rebuilt. A failed or canceled payment marks the donation FAILED.
 */
module Webhook {
  import opened Common
  import opened Schema
  import opened Gamification
  import opened GamificationStore

  const Succeeded := "payment_intent.succeeded"
  const PaymentFailed := "payment_intent.payment_failed"
  const Canceled := "payment_intent.canceled"

  /**
   * An event whose signature constructWebhookEvent accepted: its type and the
   * donationId of its PaymentIntent's metadata (None when absent or empty).
   */
  datatype Event = Event(kind: string, donationId: Option<Id>)

  // ---------------------------------------------------------------------------
  // handlePaymentSuccess, step by step
  // ---------------------------------------------------------------------------

  /** What the handler needs of the store for donation `id`; Db.Valid provides it. */
  predicate Settleable(db: Db, id: Id)
  {
    && id in db.donations
    && db.donations[id].amount >= 0.0
    && db.donations[id].campaignId in db.campaigns
    && (db.campaigns[db.donations[id].campaignId].TeamId().Some? ==>
          db.campaigns[db.donations[id].campaignId].TeamId().value in db.teams)
  }

  lemma ValidSettleable(db: Db, id: Id)
    requires db.Valid() && id in db.donations
    ensures Settleable(db, id)
  {
    assert db.CampaignLinked(db.donations[id].campaignId);
  }

  /** The campaign after a donation of `amount`: raisedAmount and donationCount incremented. */
  function Credit(c: Campaign, amount: real): (r: Campaign)
    ensures r.raisedAmount == c.raisedAmount + amount && r.donationCount == c.donationCount + 1
    ensures r == c.(raisedAmount := r.raisedAmount, donationCount := r.donationCount)
  {
    c.(raisedAmount := c.raisedAmount + amount, donationCount := c.donationCount + 1)
  }

  /** The team's raisedAmount, and the creator's TeamMember row if there is one, credited when the campaign has a team. */
  function CreditTeam(db: Db, c: Campaign, amount: real): Db
    requires c.TeamId().Some? ==> c.TeamId().value in db.teams
  {
    if c.TeamId().None? then db
    else
      var tid := c.TeamId().value;
      var key := (tid, c.creatorId);
      db.(teams := db.teams[tid := db.teams[tid].(raisedAmount := db.teams[tid].raisedAmount + amount)],
          members := if key in db.members then db.members[key := db.members[key].(raisedAmount := db.members[key].raisedAmount + amount)]
                     else db.members)
  }

  /** The fundraiserStats upsert for creator `uid`: created with this one donation, or incremented. */
  function UpsertStats(stats: map<Id, Stats>, uid: Id, amount: real, now: int): (r: map<Id, Stats>)
    ensures uid in r && r[uid].totalDonations >= 1
  {
    if uid in stats then
      var s := stats[uid];
      stats[uid := s.(totalRaised := s.totalRaised + amount, totalDonations := s.totalDonations + 1, lastActive := now)]
    else stats[uid := Stats(amount, 1, amount, 0, 0, 0, now)]
  }

  /** The stats row read back after the upsert, with averageDonation recomputed from it. */
  function WithAverage(stats: map<Id, Stats>, uid: Id): map<Id, Stats>
    requires uid in stats && stats[uid].totalDonations >= 1
  {
    stats[uid := stats[uid].(averageDonation := stats[uid].totalRaised / stats[uid].totalDonations as real)]
  }

  /** The donation marked COMPLETED and its campaign credited (lines 81-95). */
  function MarkCompleted(db: Db, id: Id): Db
    requires Settleable(db, id)
  {
    var d := db.donations[id];
    db.(donations := db.donations[id := d.(status := Completed)],
        campaigns := db.campaigns[d.campaignId := Credit(db.campaigns[d.campaignId], d.amount)])
  }

  /** The stats upsert followed by the average recomputed from the row read back (lines 121-148). */
  function CreditStats(db: Db, uid: Id, amount: real, now: int): Db
  {
    db.(stats := WithAverage(UpsertStats(db.stats, uid, amount, now), uid))
  }

  /** The writes of handlePaymentSuccess up to and including the average (lines 81-148). */
  function Credited(db: Db, id: Id, now: int): Db
    requires Settleable(db, id)
  {
    var d := db.donations[id];
    var c := db.campaigns[d.campaignId];
    CreditStats(CreditTeam(MarkCompleted(db, id), c, d.amount), c.creatorId, d.amount, now)
  }

  /** awardDonationPoints then checkBadgeUnlocks, for a logged-in donor only. */
  function Rewarded(db: Db, donor: Option<Id>, amount: real): Db
    requires amount >= 0.0
  {
    if donor.None? then db
    else BadgeUnlocks(WithPoints(db, donor.value, DonationPoints(amount)), donor.value).0
  }

  /** The store after the first succeeded event for donation `id`. */
  function Settle(db: Db, id: Id, now: int): Db
    requires Settleable(db, id)
  {
    var d := db.donations[id];
    WithLeaderboards(Rewarded(Credited(db, id, now), d.donorId, d.amount), now)
  }

  /** handlePaymentSuccess: no id, an unknown id or an already COMPLETED donation changes nothing. */
  function AfterSuccess(db: Db, donationId: Option<Id>, now: int): Db
    requires db.Valid()
  {
    if donationId.None? || donationId.value !in db.donations then db
    else if db.donations[donationId.value].status == Completed then db
    else
      ValidSettleable(db, donationId.value);
      Settle(db, donationId.value, now)
  }

  // ---------------------------------------------------------------------------
  // handlePaymentFailure and handlePaymentCanceled
  // ---------------------------------------------------------------------------

  /**
   * The donation is set to FAILED whatever its status; None when the update
   * throws because no donation has that id.
   */
  function AfterFailure(db: Db, donationId: Option<Id>): Option<Db>
  {
    if donationId.None? then Some(db)
    else if donationId.value !in db.donations then None
    else
      var id := donationId.value;
      Some(db.(donations := db.donations[id := db.donations[id].(status := Failed)]))
  }

  // ---------------------------------------------------------------------------
  // POST
  // ---------------------------------------------------------------------------

  /**
   * The store and the status after POST. `signature` is the stripe-signature
   * header; `event` is None when constructWebhookEvent throws.
   */
  function PostSpec(db: Db, signature: Option<string>, event: Option<Event>, now: int): (Db, nat)
    requires db.Valid()
  {
    if !Present(signature) then (db, 400)
    else if event.None? then (db, 500)
    else
      var e := event.value;
      if e.kind == Succeeded then (AfterSuccess(db, e.donationId, now), 200)
      else if e.kind == PaymentFailed || e.kind == Canceled then
        match AfterFailure(db, e.donationId)
        case None => (db, 500)
        case Some(after) => (after, 200)
      else (db, 200)
  }

  method Post(db: Store, signature: Option<string>, event: Option<Event>, now: int) returns (status: nat)
    requires db.Valid()
    modifies db
    ensures (db.State(), status) == PostSpec(old(db.State()), signature, event, now)
  {
    if !Present(signature) {
      return 400;
    }
    if event.None? {
      return 500;
    }
    var e := event.value;
    if e.kind == Succeeded {
      HandlePaymentSuccess(db, e.donationId, now);
    } else if e.kind == PaymentFailed {
      var ok := HandlePaymentFailure(db, e.donationId);
      if !ok {
        return 500;
      }
    } else if e.kind == Canceled {
      var ok := HandlePaymentCanceled(db, e.donationId);
      if !ok {
        return 500;
      }
    }
    status := 200;
  }

  method HandlePaymentSuccess(db: Store, donationId: Option<Id>, now: int)
    requires db.Valid()
    modifies db
    ensures db.State() == AfterSuccess(old(db.State()), donationId, now)
  {
    if donationId.None? || donationId.value !in db.donations {
      return;
    }
    var id := donationId.value;
    var donation := db.donations[id];
    // Idempotency: a donation already COMPLETED is not settled again.
    if donation.status == Completed {
      return;
    }
    ValidSettleable(db.State(), id);
    CreditDonation(db, id, now);
    if donation.donorId.Some? {
      AwardDonationPoints(db, donation.donorId.value, donation.amount);
      var _ := CheckBadgeUnlocks(db, donation.donorId.value);
    }
    UpdateLeaderboards(db, now);
  }

  /** Lines 81-148: the status, campaign, team, team member and stats writes. */
  method CreditDonation(db: Store, id: Id, now: int)
    requires Settleable(db.State(), id)
    modifies db
    ensures db.State() == Credited(old(db.State()), id, now)
  {
    var donation := db.donations[id];
    var campaign := db.campaigns[donation.campaignId];
    db.donations := db.donations[id := donation.(status := Completed)];
    db.campaigns := db.campaigns[donation.campaignId := campaign.(raisedAmount := campaign.raisedAmount + donation.amount, donationCount := campaign.donationCount + 1)];
    if campaign.TeamId().Some? {
      CreditTeamRows(db, campaign.TeamId().value, campaign.creatorId, donation.amount);
    }
    UpdateStats(db, campaign.creatorId, donation.amount, now);
  }

  /** Lines 98-118: the team, then the creator's membership row when one exists. */
  method CreditTeamRows(db: Store, tid: Id, creator: Id, amount: real)
    requires tid in db.teams
    modifies db
    ensures db.State() == old(db.State()).(
      teams := old(db.teams)[tid := old(db.teams)[tid].(raisedAmount := old(db.teams)[tid].raisedAmount + amount)],
      members := if (tid, creator) in old(db.members)
                 then old(db.members)[(tid, creator) := old(db.members)[(tid, creator)].(raisedAmount := old(db.members)[(tid, creator)].raisedAmount + amount)]
                 else old(db.members))
  {
    db.teams := db.teams[tid := db.teams[tid].(raisedAmount := db.teams[tid].raisedAmount + amount)];
    var key := (tid, creator);
    if key in db.members {
      db.members := db.members[key := db.members[key].(raisedAmount := db.members[key].raisedAmount + amount)];
    }
  }

  /** Lines 121-148: the upsert, then the read-back and the average. */
  method UpdateStats(db: Store, uid: Id, amount: real, now: int)
    modifies db
    ensures db.State() == CreditStats(old(db.State()), uid, amount, now)
  {
    if uid in db.stats {
      var s := db.stats[uid];
      db.stats := db.stats[uid := s.(totalRaised := s.totalRaised + amount, totalDonations := s.totalDonations + 1, lastActive := now)];
    } else {
      db.stats := db.stats[uid := Stats(amount, 1, amount, 0, 0, 0, now)];
    }
    if uid in db.stats {
      var stats := db.stats[uid];
      db.stats := db.stats[uid := stats.(averageDonation := stats.totalRaised / stats.totalDonations as real)];
    }
  }

  method HandlePaymentFailure(db: Store, donationId: Option<Id>) returns (ok: bool)
    modifies db
    ensures ok <==> AfterFailure(old(db.State()), donationId).Some?
    ensures ok ==> db.State() == AfterFailure(old(db.State()), donationId).value
    ensures !ok ==> db.State() == old(db.State())
  {
    if donationId.None? {
      return true;
    }
    var id := donationId.value;
    if id !in db.donations {
      return false;
    }
    db.donations := db.donations[id := db.donations[id].(status := Failed)];
    ok := true;
  }

  method HandlePaymentCanceled(db: Store, donationId: Option<Id>) returns (ok: bool)
    modifies db
    ensures ok <==> AfterFailure(old(db.State()), donationId).Some?
    ensures ok ==> db.State() == AfterFailure(old(db.State()), donationId).value
    ensures !ok ==> db.State() == old(db.State())
  {
    if donationId.None? {
      return true;
    }
    var id := donationId.value;
    if id !in db.donations {
      return false;
    }
    db.donations := db.donations[id := db.donations[id].(status := Failed)];
    ok := true;
  }

  // ---------------------------------------------------------------------------
  // What POST promises
  // ---------------------------------------------------------------------------

  /** Without a stripe-signature header the answer is 400 and nothing changes. */
  lemma PostWithoutSignature(db: Db, signature: Option<string>, event: Option<Event>, now: int)
    requires db.Valid() && !Present(signature)
    ensures PostSpec(db, signature, event, now) == (db, 400)
  {
  }

  /** An event type outside the three is acknowledged with 200 and changes nothing. */
  lemma PostUnhandledKind(db: Db, signature: Option<string>, e: Event, now: int)
    requires db.Valid() && Present(signature)
    requires e.kind != Succeeded && e.kind != PaymentFailed && e.kind != Canceled
    ensures PostSpec(db, signature, Some(e), now) == (db, 200)
  {
  }

  /** A failed or canceled event naming no donation makes the update throw: 500, nothing changes. */
  lemma PostFailureUnknownDonation(db: Db, signature: Option<string>, e: Event, now: int)
    requires db.Valid() && Present(signature)
    requires e.kind == PaymentFailed || e.kind == Canceled
    requires e.donationId.Some? && e.donationId.value !in db.donations
    ensures PostSpec(db, signature, Some(e), now) == (db, 500)
  {
  }

  /** A succeeded event without a donationId, with an unknown one, or for a COMPLETED donation changes nothing. */
  lemma SuccessNoop(db: Db, donationId: Option<Id>, now: int)
    requires db.Valid()
    requires donationId.None? || donationId.value !in db.donations || db.donations[donationId.value].status == Completed
    ensures AfterSuccess(db, donationId, now) == db
  {
  }

  /** A failed or canceled event sets FAILED whatever the prior status, and touches no other table. */
  lemma FailureOverwrites(db: Db, id: Id)
    requires id in db.donations
    ensures var r := AfterFailure(db, Some(id));
      && r.Some?
      && r.value.donations[id].status == Failed
      && r.value.donations[id] == db.donations[id].(status := Failed)
      && (forall x :: x in db.donations && x != id ==> r.value.donations[x] == db.donations[x])
      && r.value == db.(donations := r.value.donations)
  {
  }

  // ---------------------------------------------------------------------------
  // The effects of a first succeeded event
  // ---------------------------------------------------------------------------

  /** The donor's reward touches only users and userBadges, and only the donor's user row. */
  lemma RewardedFrame(db: Db, donor: Option<Id>, amount: real)
    requires amount >= 0.0
    ensures var r := Rewarded(db, donor, amount);
      && r == db.(users := r.users, userBadges := r.userBadges)
      && r.users.Keys == db.users.Keys
      && (donor.None? ==> r == db)
      && (forall u :: u in db.users && donor != Some(u) ==> r.users[u] == db.users[u])
      && (donor.Some? && donor.value in db.users ==>
            r.users[donor.value].totalPoints >= db.users[donor.value].totalPoints + DonationPoints(amount))
  {
    if donor.Some? {
      var u := donor.value;
      var w := WithPoints(db, u, DonationPoints(amount));
      if u in w.users {
        BadgeUnlocksWrites(w, u);
      } else {
        BadgeUnlocksUnknownUser(w, u);
      }
    }
  }

  /**
   * After the ledger writes come the reward and the leaderboard rebuild,
   * which touch users, userBadges and leaderboards only.
   */
  lemma SettleFrame(db: Db, id: Id, now: int)
    requires Settleable(db, id)
    ensures var r := Settle(db, id, now);
      var c := Credited(db, id, now);
      && r.donations == c.donations && r.campaigns == c.campaigns
      && r.teams == c.teams && r.members == c.members && r.stats == c.stats
      && r.catalog == c.catalog && r.nextId == c.nextId
      && r.users.Keys == db.users.Keys
  {
    var d := db.donations[id];
    var c := Credited(db, id, now);
    RewardedFrame(c, d.donorId, d.amount);
    WithLeaderboardsFrame(Rewarded(c, d.donorId, d.amount), now);
  }

  /** The ledger writes: the donation COMPLETED, its campaign credited, nothing else in those tables. */
  lemma CreditedCredits(db: Db, id: Id, now: int)
    requires Settleable(db, id)
    ensures var r := Credited(db, id, now);
      var d := db.donations[id];
      var c := db.campaigns[d.campaignId];
      && r.donations == db.donations[id := d.(status := Completed)]
      && r.campaigns == db.campaigns[d.campaignId := Credit(c, d.amount)]
      && r.users == db.users && r.catalog == db.catalog && r.nextId == db.nextId
  {
  }

  /**
   * The donation becomes COMPLETED, its campaign's raisedAmount rises by
   * exactly the amount and its donationCount by exactly 1; no other donation
   * or campaign changes.
   */
  lemma SettleCredits(db: Db, id: Id, now: int)
    requires Settleable(db, id)
    ensures var r := Settle(db, id, now);
      var d := db.donations[id];
      var c := db.campaigns[d.campaignId];
      && r.donations == db.donations[id := d.(status := Completed)]
      && r.campaigns.Keys == db.campaigns.Keys
      && r.campaigns[d.campaignId].raisedAmount == c.raisedAmount + d.amount
      && r.campaigns[d.campaignId].donationCount == c.donationCount + 1
      && r.campaigns[d.campaignId] == c.(raisedAmount := r.campaigns[d.campaignId].raisedAmount, donationCount := r.campaigns[d.campaignId].donationCount)
      && (forall k :: k in db.campaigns && k != d.campaignId ==> r.campaigns[k] == db.campaigns[k])
  {
    SettleFrame(db, id, now);
    CreditedCredits(db, id, now);
  }

  lemma CreditedTeam(db: Db, id: Id, now: int)
    requires Settleable(db, id) && db.donations[id].amount > 0.0
    ensures var r := Credited(db, id, now);
      var d := db.donations[id];
      var c := db.campaigns[d.campaignId];
      && r.teams.Keys == db.teams.Keys
      && (forall t :: t in db.teams ==>
            (r.teams[t].raisedAmount == db.teams[t].raisedAmount + d.amount <==> c.TeamId() == Some(t))
            && (c.TeamId() != Some(t) ==> r.teams[t] == db.teams[t]))
      && (c.TeamId().None? ==> r.members == db.members)
      && (c.TeamId().Some? ==>
            var key := (c.TeamId().value, c.creatorId);
            && r.members.Keys == db.members.Keys
            && (key in db.members ==> r.members[key].raisedAmount == db.members[key].raisedAmount + d.amount)
            && (forall k :: k in db.members && k != key ==> r.members[k] == db.members[k]))
  {
  }

  /**
   * The team's raisedAmount rises by the amount if and only if the campaign
   * belongs to that team; the creator's membership row is credited with it.
   */
  lemma SettleTeam(db: Db, id: Id, now: int)
    requires Settleable(db, id) && db.donations[id].amount > 0.0
    ensures var r := Settle(db, id, now);
      var d := db.donations[id];
      var c := db.campaigns[d.campaignId];
      && r.teams.Keys == db.teams.Keys
      && (forall t :: t in db.teams ==>
            (r.teams[t].raisedAmount == db.teams[t].raisedAmount + d.amount <==> c.TeamId() == Some(t))
            && (c.TeamId() != Some(t) ==> r.teams[t] == db.teams[t]))
      && (c.TeamId().None? ==> r.members == db.members)
      && (c.TeamId().Some? ==>
            var key := (c.TeamId().value, c.creatorId);
            && r.members.Keys == db.members.Keys
            && (key in db.members ==> r.members[key].raisedAmount == db.members[key].raisedAmount + d.amount)
            && (forall k :: k in db.members && k != key ==> r.members[k] == db.members[k]))
  {
    SettleFrame(db, id, now);
    CreditedTeam(db, id, now);
  }

  lemma CreditedStats(db: Db, id: Id, now: int)
    requires Settleable(db, id)
    ensures var r := Credited(db, id, now);
      var d := db.donations[id];
      var uid := db.campaigns[d.campaignId].creatorId;
      && r.stats.Keys == db.stats.Keys + {uid}
      && (uid !in db.stats ==> r.stats[uid] == Stats(d.amount, 1, d.amount, 0, 0, 0, now))
      && (uid in db.stats ==>
            && r.stats[uid].totalRaised == db.stats[uid].totalRaised + d.amount
            && r.stats[uid].totalDonations == db.stats[uid].totalDonations + 1
            && r.stats[uid].totalCampaigns == db.stats[uid].totalCampaigns
            && r.stats[uid].activeCampaigns == db.stats[uid].activeCampaigns
            && r.stats[uid].totalShares == db.stats[uid].totalShares
            && r.stats[uid].lastActive == now)
      && r.stats[uid].totalDonations >= 1
      && r.stats[uid].averageDonation == r.stats[uid].totalRaised / r.stats[uid].totalDonations as real
      && (forall u :: u in db.stats && u != uid ==> r.stats[u] == db.stats[u])
  {
  }

  /**
   * The creator's stats row is created holding this one donation, or has it
   * added; either way it counts at least one donation and its average is
   * totalRaised / totalDonations. Other stats rows are kept.
   */
  lemma SettleStats(db: Db, id: Id, now: int)
    requires Settleable(db, id)
    ensures var r := Settle(db, id, now);
      var d := db.donations[id];
      var uid := db.campaigns[d.campaignId].creatorId;
      && r.stats.Keys == db.stats.Keys + {uid}
      && (uid !in db.stats ==> r.stats[uid] == Stats(d.amount, 1, d.amount, 0, 0, 0, now))
      && (uid in db.stats ==>
            && r.stats[uid].totalRaised == db.stats[uid].totalRaised + d.amount
            && r.stats[uid].totalDonations == db.stats[uid].totalDonations + 1
            && r.stats[uid].totalCampaigns == db.stats[uid].totalCampaigns
            && r.stats[uid].activeCampaigns == db.stats[uid].activeCampaigns
            && r.stats[uid].totalShares == db.stats[uid].totalShares
            && r.stats[uid].lastActive == now)
      && r.stats[uid].totalDonations >= 1
      && r.stats[uid].averageDonation == r.stats[uid].totalRaised / r.stats[uid].totalDonations as real
      && (forall u :: u in db.stats && u != uid ==> r.stats[u] == db.stats[u])
  {
    SettleFrame(db, id, now);
    CreditedStats(db, id, now);
  }

  /**
   * Points and badges go to the donor only: an anonymous donation leaves
   * users and badges alone, and no other user's row changes.
   */
  lemma SettleRewardsDonorOnly(db: Db, id: Id, now: int)
    requires Settleable(db, id)
    ensures var r := Settle(db, id, now);
      var d := db.donations[id];
      && r.users.Keys == db.users.Keys
      && (d.donorId.None? ==> r.users == db.users && r.userBadges == db.userBadges)
      && (forall u :: u in db.users && d.donorId != Some(u) ==> r.users[u] == db.users[u])
      && (d.donorId.Some? && d.donorId.value in db.users ==>
            r.users[d.donorId.value].totalPoints >= db.users[d.donorId.value].totalPoints + DonationPoints(d.amount))
  {
    var d := db.donations[id];
    var c := Credited(db, id, now);
    CreditedCredits(db, id, now);
    RewardedFrame(c, d.donorId, d.amount);
    WithLeaderboardsFrame(Rewarded(c, d.donorId, d.amount), now);
  }

  /** The three ALL_TIME leaderboards are rebuilt and stamped with the clock reading. */
  lemma SettleRefreshesLeaderboards(db: Db, id: Id, now: int)
    requires Settleable(db, id)
    ensures var r := Settle(db, id, now).leaderboards;
      && TopFundraisersKey in r && r[TopFundraisersKey].updatedAt == now && RankedList(r[TopFundraisersKey].data)
      && TopDonorsKey in r && r[TopDonorsKey].updatedAt == now && RankedList(r[TopDonorsKey].data)
      && TopTeamsKey in r && r[TopTeamsKey].updatedAt == now && RankedList(r[TopTeamsKey].data)
  {
    var d := db.donations[id];
    var rew := Rewarded(Credited(db, id, now), d.donorId, d.amount);
    WithLeaderboardsFrame(rew, now);
    WithLeaderboardsRanked(rew, now);
  }

  // ---------------------------------------------------------------------------
  // Settling keeps the store valid, so events can be replayed
  // ---------------------------------------------------------------------------

  /** Two stores with the same rows and links: only counters, statuses and derived tables differ. */
  ghost predicate SameLinks(a: Db, b: Db)
  {
    && a.users.Keys == b.users.Keys && a.teams.Keys == b.teams.Keys
    && a.campaigns.Keys == b.campaigns.Keys && a.donations.Keys == b.donations.Keys
    && a.members.Keys == b.members.Keys
    && (forall k :: k in a.campaigns ==>
          b.campaigns[k].creatorId == a.campaigns[k].creatorId && b.campaigns[k].info == a.campaigns[k].info)
    && (forall k :: k in a.donations ==>
          b.donations[k].campaignId == a.donations[k].campaignId && b.donations[k].amount == a.donations[k].amount)
    && (forall u :: u in b.stats ==> u in b.users)
    && a.catalog == b.catalog && a.nextId == b.nextId
  }

  lemma SameLinksValid(a: Db, b: Db)
    requires a.Valid() && SameLinks(a, b)
    ensures b.Valid()
  {
    forall k | k in b.campaigns
      ensures b.CampaignLinked(k)
    {
      assert a.CampaignLinked(k);
    }
  }

  lemma CreditedLinks(db: Db, id: Id, now: int)
    requires db.Valid() && id in db.donations
    ensures Settleable(db, id) && SameLinks(db, Credited(db, id, now))
  {
    ValidSettleable(db, id);
    assert db.CampaignLinked(db.donations[id].campaignId);
    CreditedCredits(db, id, now);
    CreditedTeam(db, id, now);
    CreditedStats(db, id, now);
  }

  /** Rows whose reward and leaderboard columns alone differ have the same links. */
  lemma SameLinksFrame(a: Db, c: Db, r: Db)
    requires SameLinks(a, c)
    requires r.donations == c.donations && r.campaigns == c.campaigns && r.teams == c.teams && r.stats == c.stats
    requires r.members == c.members
    requires r.catalog == c.catalog && r.nextId == c.nextId && r.users.Keys == a.users.Keys
    ensures SameLinks(a, r)
  {
  }

  lemma SettleValid(db: Db, id: Id, now: int)
    requires db.Valid() && id in db.donations
    ensures Settleable(db, id) && Settle(db, id, now).Valid()
  {
    CreditedLinks(db, id, now);
    SettleFrame(db, id, now);
    SameLinksFrame(db, Credited(db, id, now), Settle(db, id, now));
    SameLinksValid(db, Settle(db, id, now));
  }

  /**
   * A first succeeded event, seen from the handler: the store stays valid,
   * the donation is COMPLETED and its campaign credited.
   */
  lemma SuccessStep(db: Db, id: Id, now: int)
    requires db.Valid() && id in db.donations && db.donations[id].status != Completed
    ensures var r := AfterSuccess(db, Some(id), now);
      var d := db.donations[id];
      && d.campaignId in db.campaigns
      && r.Valid()
      && r.donations == db.donations[id := d.(status := Completed)]
      && r.campaigns == db.campaigns[d.campaignId := Credit(db.campaigns[d.campaignId], d.amount)]
  {
    SettleValid(db, id, now);
    SettleFrame(db, id, now);
    CreditedCredits(db, id, now);
  }

  lemma AfterSuccessValid(db: Db, donationId: Option<Id>, now: int)
    requires db.Valid()
    ensures AfterSuccess(db, donationId, now).Valid()
  {
    if donationId.Some? && donationId.value in db.donations && db.donations[donationId.value].status != Completed {
      SuccessStep(db, donationId.value, now);
    }
  }

  /** Delivering the same succeeded event again, at any later time, changes nothing. */
  lemma SuccessIdempotent(db: Db, donationId: Option<Id>, now: int, later: int)
    requires db.Valid()
    ensures var once := AfterSuccess(db, donationId, now);
      once.Valid() && AfterSuccess(once, donationId, later) == once
  {
    if donationId.Some? && donationId.value in db.donations && db.donations[donationId.value].status != Completed {
      SuccessStep(db, donationId.value, now);
    }
  }

  lemma FailureValid(db: Db, id: Id)
    requires db.Valid() && id in db.donations
    ensures AfterFailure(db, Some(id)).Some? && AfterFailure(db, Some(id)).value.Valid()
  {
    SameLinksValid(db, AfterFailure(db, Some(id)).value);
  }

  /** Succeeded events for `ids`, delivered in order. */
  function Deliver(db: Db, ids: seq<Id>, now: int): (r: Db)
    requires db.Valid()
    ensures r.Valid()
    decreases |ids|
  {
    if ids == [] then db
    else
      var before := Deliver(db, ids[..|ids| - 1], now);
      AfterSuccessValid(before, Some(ids[|ids| - 1]), now);
      AfterSuccess(before, Some(ids[|ids| - 1]), now)
  }

  function Amounts(db: Db, ids: seq<Id>): (r: seq<real>)
    requires forall k :: 0 <= k < |ids| ==> ids[k] in db.donations
    ensures |r| == |ids| && forall k :: 0 <= k < |ids| ==> r[k] == db.donations[ids[k]].amount
  {
    seq(|ids|, k requires 0 <= k < |ids| => db.donations[ids[k]].amount)
  }

  lemma AmountsSnoc(db: Db, ids: seq<Id>, x: Id)
    requires forall k :: 0 <= k < |ids| ==> ids[k] in db.donations
    requires x in db.donations
    ensures Amounts(db, ids + [x]) == Amounts(db, ids) + [db.donations[x].amount]
  {
  }

  /** Delivery changes no donation's amount or campaign, and the status of those not delivered. */
  lemma {:induction false} DeliverKeepsDonations(db: Db, ids: seq<Id>, now: int)
    requires db.Valid()
    ensures var r := Deliver(db, ids, now);
      forall x :: x in db.donations ==>
        && x in r.donations
        && r.donations[x].amount == db.donations[x].amount
        && r.donations[x].campaignId == db.donations[x].campaignId
        && (x !in ids ==> r.donations[x].status == db.donations[x].status)
    decreases |ids|
  {
    if ids != [] {
      var init, last := ids[..|ids| - 1], ids[|ids| - 1];
      DeliverKeepsDonations(db, init, now);
      var before := Deliver(db, init, now);
      var after := Deliver(db, ids, now);
      if last in before.donations && before.donations[last].status != Completed {
        SuccessStep(before, last, now);
      }
      KeepStep(db, ids, before, after);
    }
  }

  /** One more delivery changes at most the status of the donation it names. */
  lemma KeepStep(db: Db, ids: seq<Id>, before: Db, after: Db)
    requires ids != []
    requires forall x :: x in db.donations ==>
      && x in before.donations
      && before.donations[x].amount == db.donations[x].amount
      && before.donations[x].campaignId == db.donations[x].campaignId
      && (x !in ids[..|ids| - 1] ==> before.donations[x].status == db.donations[x].status)
    requires var last := ids[|ids| - 1];
      || after.donations == before.donations
      || (last in before.donations && after.donations == before.donations[last := before.donations[last].(status := Completed)])
    ensures forall x :: x in db.donations ==>
      && x in after.donations
      && after.donations[x].amount == db.donations[x].amount
      && after.donations[x].campaignId == db.donations[x].campaignId
      && (x !in ids ==> after.donations[x].status == db.donations[x].status)
  {
    forall x | x in db.donations && x !in ids
      ensures x !in ids[..|ids| - 1]
    {
    }
  }

  /**
   * Conservation: after distinct, not yet COMPLETED donations to one campaign
   * succeed, its raisedAmount has grown by their sum and its donationCount by
   * their number, whatever the order of delivery.
   */
  lemma {:induction false} DeliverConserves(db: Db, ids: seq<Id>, now: int, cid: Id)
    requires db.Valid() && cid in db.campaigns
    requires forall j, k :: 0 <= j < k < |ids| ==> ids[j] != ids[k]
    requires forall k :: 0 <= k < |ids| ==>
      ids[k] in db.donations && db.donations[ids[k]].campaignId == cid && db.donations[ids[k]].status != Completed
    ensures var r := Deliver(db, ids, now);
      && cid in r.campaigns
      && r.campaigns[cid].raisedAmount == db.campaigns[cid].raisedAmount + SumReal(Amounts(db, ids))
      && r.campaigns[cid].donationCount == db.campaigns[cid].donationCount + |ids|
    decreases |ids|
  {
    if ids != [] {
      var init, last := ids[..|ids| - 1], ids[|ids| - 1];
      DeliverConserves(db, init, now, cid);
      DeliverKeepsDonations(db, init, now);
      var before := Deliver(db, init, now);
      assert last !in init;
      SuccessStep(before, last, now);
      ConserveStep(db, ids, before, Deliver(db, ids, now), cid);
    }
  }

  /** One more delivery adds one amount and one donation to the campaign's totals. */
  lemma ConserveStep(db: Db, ids: seq<Id>, before: Db, after: Db, cid: Id)
    requires ids != []
    requires forall k :: 0 <= k < |ids| ==> ids[k] in db.donations
    requires var last := ids[|ids| - 1];
      && last in before.donations && cid in before.campaigns && cid in db.campaigns
      && before.donations[last].campaignId == cid && before.donations[last].amount == db.donations[last].amount
      && after.campaigns == before.campaigns[cid := Credit(before.campaigns[cid], before.donations[last].amount)]
    requires before.campaigns[cid].raisedAmount == db.campaigns[cid].raisedAmount + SumReal(Amounts(db, ids[..|ids| - 1]))
    requires before.campaigns[cid].donationCount == db.campaigns[cid].donationCount + |ids| - 1
    ensures cid in after.campaigns
    ensures after.campaigns[cid].raisedAmount == db.campaigns[cid].raisedAmount + SumReal(Amounts(db, ids))
    ensures after.campaigns[cid].donationCount == db.campaigns[cid].donationCount + |ids|
  {
    var init, last := ids[..|ids| - 1], ids[|ids| - 1];
    assert ids == init + [last];
    AmountsSnoc(db, init, last);
    SumRealAppend(Amounts(db, init), db.donations[last].amount);
  }

  /**
   * Because FAILED may overwrite COMPLETED and only COMPLETED is skipped, a
   * donation that succeeds, fails and succeeds again is credited twice.
   */
  lemma SucceedFailSucceedCountsTwice(db: Db, id: Id, t1: int, t2: int)
    requires db.Valid() && id in db.donations && db.donations[id].status != Completed
    ensures var once := AfterSuccess(db, Some(id), t1);
      var failed := AfterFailure(once, Some(id));
      var cid := db.donations[id].campaignId;
      && failed.Some? && failed.value.Valid()
      && var twice := AfterSuccess(failed.value, Some(id), t2);
      && cid in twice.campaigns
      && twice.campaigns[cid].raisedAmount == db.campaigns[cid].raisedAmount + 2.0 * db.donations[id].amount
      && twice.campaigns[cid].donationCount == db.campaigns[cid].donationCount + 2
  {
    SuccessStep(db, id, t1);
    var once := AfterSuccess(db, Some(id), t1);
    FailureValid(once, id);
    var failed := AfterFailure(once, Some(id)).value;
    SuccessStep(failed, id, t2);
  }
}
