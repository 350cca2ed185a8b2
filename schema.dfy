/**
 * The rows the core reads and writes, and the in-memory store that stands in
 * for the database. Each table is a map from identifiers to rows; a table's
 * storage order is ascending identifier order, and `nextId` is above every
 * identifier in use.
 */
module Schema {
  import opened Common
  import opened Validations
  import opened Gamification

  datatype PaymentStatus = Pending | Completed | Failed

  /** A user's gamification columns. */
  datatype User = User(totalPoints: nat, level: nat)

  datatype Donation = Donation(amount: real, campaignId: Id, donorId: Option<Id>, status: PaymentStatus)

  /** A campaign: the validated fields it was created from, plus the columns the core maintains. */
  datatype Campaign = Campaign(
    info: CampaignData, slug: string, status: string,
    raisedAmount: real, donationCount: nat, creatorId: Id)
  {
    function TeamId(): Option<Id> { info.teamId }
  }

  datatype Team = Team(
    info: TeamData, slug: string, status: string,
    raisedAmount: real, memberCount: nat, campaignCount: nat, creatorId: Id)

  datatype Role = Leader | Member

  /** A TeamMember row; the table is keyed by (teamId, userId). */
  datatype Membership = Membership(role: Role, raisedAmount: real)

  /** A FundraiserStats row; the table is keyed by userId. `lastActive` is a clock reading. */
  datatype Stats = Stats(
    totalRaised: real, totalDonations: nat, averageDonation: real,
    totalCampaigns: nat, activeCampaigns: nat, totalShares: nat, lastActive: int)

  /** One ranked row of a leaderboard snapshot (names and avatars are display-only and not kept). */
  datatype Entry =
    | FundraiserEntry(rank: nat, userId: Id, amount: real, campaigns: nat, donations: nat)
    | FundraiserTotalEntry(rank: nat, userId: Id, amount: real, totalDonations: nat)
    | DonorEntry(rank: nat, userId: Id, amount: real, donationCount: nat)
    | TeamEntry(rank: nat, teamId: Id, amount: real, memberCount: nat, campaignCount: nat)

  /** The leaderboard `type` column. */
  datatype Board = FundraiserBoard | DonorBoard | TeamBoard

  /** A Leaderboard row: the ranked data and the clock reading of its last write. */
  datatype Snapshot = Snapshot(data: seq<Entry>, updatedAt: int)

  /** The whole database as a value. */
  datatype Db = Db(
    users: map<Id, User>,
    donations: map<Id, Donation>,
    campaigns: map<Id, Campaign>,
    teams: map<Id, Team>,
    members: map<(Id, Id), Membership>,
    stats: map<Id, Stats>,
    catalog: seq<Badge>,
    userBadges: seq<(Id, Id)>,
    leaderboards: map<(Board, string), Snapshot>,
    nextId: nat)
  {
    ghost predicate CampaignLinked(id: Id)
      requires id in campaigns
    {
      && id < nextId
      && campaigns[id].creatorId in users
      && (campaigns[id].TeamId().Some? ==> campaigns[id].TeamId().value in teams)
    }

    /**
     * Referential integrity (memberships included) and the identifier bound, as the database schema
     * guarantees them, and donation amounts as createDonationSchema admits
     * them (at least 1).
     */
    ghost predicate Valid()
    {
      && (forall id :: id in users ==> id < nextId)
      && (forall id :: id in teams ==> id < nextId)
      && (forall id :: id in campaigns ==> CampaignLinked(id))
      && (forall id :: id in donations ==> id < nextId && donations[id].campaignId in campaigns && donations[id].amount >= 1.0)
      && (forall uid :: uid in stats ==> uid in users)
      && (forall k :: k in members ==> k.0 in teams && k.1 in users)
      && DistinctIds(catalog)
    }
  }

  /** The database: one mutable field per table. */
  class Store {
    var users: map<Id, User>
    var donations: map<Id, Donation>
    var campaigns: map<Id, Campaign>
    var teams: map<Id, Team>
    var members: map<(Id, Id), Membership>
    var stats: map<Id, Stats>
    var catalog: seq<Badge>
    var userBadges: seq<(Id, Id)>
    var leaderboards: map<(Board, string), Snapshot>
    var nextId: nat

    function State(): Db
      reads this
    {
      Db(users, donations, campaigns, teams, members, stats, catalog, userBadges, leaderboards, nextId)
    }

    ghost predicate Valid()
      reads this
    {
      State().Valid()
    }

    constructor(s: Db)
      ensures State() == s
    {
      users, donations, campaigns, teams, members := s.users, s.donations, s.campaigns, s.teams, s.members;
      stats, catalog, userBadges, leaderboards, nextId := s.stats, s.catalog, s.userBadges, s.leaderboards, s.nextId;
    }
  }

  // ---------------------------------------------------------------------------
  // What a user's relations hold, as Prisma's `include` loads them
  // ---------------------------------------------------------------------------

  predicate CompletedBy(uid: Id, d: Donation)
  {
    d.donorId == Some(uid) && d.status == Completed
  }

  /** The amounts of `rows` that are COMPLETED donations by `uid`, in order. */
  function CompletedAmountsOf(rows: seq<(Id, Donation)>, uid: Id): (r: seq<real>)
    ensures |r| <= |rows|
    ensures (exists k :: 0 <= k < |rows| && CompletedBy(uid, rows[k].1)) <==> |r| > 0
  {
    if rows == [] then []
    else
      var last := rows[|rows| - 1];
      var prefix := CompletedAmountsOf(rows[..|rows| - 1], uid);
      assert forall k :: 0 <= k < |rows| - 1 ==> rows[..|rows| - 1][k] == rows[k];
      prefix + (if CompletedBy(uid, last.1) then [last.1.amount] else [])
  }

  /** The user's COMPLETED donations' amounts, in storage order. */
  function CompletedAmounts(db: Db, uid: Id): seq<real>
  {
    CompletedAmountsOf(Rows(db.donations, db.nextId), uid)
  }

  function CampaignCountOf(rows: seq<(Id, Campaign)>, uid: Id): (r: nat)
    ensures r <= |rows|
  {
    if rows == [] then 0
    else CampaignCountOf(rows[..|rows| - 1], uid) + (if rows[|rows| - 1].1.creatorId == uid then 1 else 0)
  }

  /** The number of campaigns `uid` created. */
  function CampaignCount(db: Db, uid: Id): nat
  {
    CampaignCountOf(Rows(db.campaigns, db.nextId), uid)
  }

  /** The badge ids of `uid`'s UserBadge rows, in creation order. */
  function OwnedBadges(userBadges: seq<(Id, Id)>, uid: Id): (r: seq<Id>)
    ensures |r| <= |userBadges|
  {
    if userBadges == [] then []
    else
      var last := userBadges[|userBadges| - 1];
      OwnedBadges(userBadges[..|userBadges| - 1], uid) + (if last.0 == uid then [last.1] else [])
  }

  /** A badge id is listed exactly when `uid` has a UserBadge row for it. */
  lemma {:induction false} OwnedBadgesMembers(userBadges: seq<(Id, Id)>, uid: Id)
    ensures forall b :: b in OwnedBadges(userBadges, uid) <==> (uid, b) in userBadges
    decreases |userBadges|
  {
    if userBadges != [] {
      var init, last := userBadges[..|userBadges| - 1], userBadges[|userBadges| - 1];
      OwnedBadgesMembers(init, uid);
      assert userBadges == init + [last];
    }
  }

  /** What checkBadgeUnlocks loads about `uid`; absent stats count as 0. */
  function UserFacts(db: Db, uid: Id): Facts
  {
    Facts(
      CompletedAmounts(db, uid),
      CampaignCount(db, uid),
      if uid in db.stats then db.stats[uid].totalRaised else 0.0,
      if uid in db.stats then db.stats[uid].totalShares else 0)
  }
}
