/**
 * The ranking pipelines behind the leaderboards: getTopFundraisers,
 * getTopDonors and getTopTeams (app/api/leaderboards/route.ts), and the
 * three lists updateLeaderboards (lib/gamification.ts) stores. Each one
 * filters a table, sorts it by amount, descending, keeps the first 100 and
 * numbers the result from 1.
 */
module Ranking {
  import opened Common
  import opened Schema

  /** Prisma's `take: 100` and the `.slice(0, 100)` of the donors' list. */
  const Cap: nat := 100

  function StatRaised(row: (Id, Stats)): real { row.1.totalRaised }

  function TeamRaised(row: (Id, Team)): real { row.1.raisedAmount }

  /** A donor's user id, the sum of their COMPLETED amounts and how many there are. */
  type DonorTotal = (Id, real, nat)

  function DonorAmount(t: DonorTotal): real { t.1 }

  // ---------------------------------------------------------------------------
  // getTopFundraisers: stats with totalRaised > 0
  // ---------------------------------------------------------------------------

  predicate RaisedSomething(row: (Id, Stats)) { row.1.totalRaised > 0.0 }

  /** The stats rows getTopFundraisers may list, in storage order. */
  function FundraiserPool(db: Db): seq<(Id, Stats)>
  {
    Filter(Rows(db.stats, db.nextId), RaisedSomething)
  }

  function FundraiserRows(db: Db): seq<(Id, Stats)>
  {
    TakeFirst(SortDesc(FundraiserPool(db), StatRaised), Cap)
  }

  function FundraiserEntries(rows: seq<(Id, Stats)>): (r: seq<Entry>)
    ensures |r| == |rows|
    ensures forall k :: 0 <= k < |r| ==>
      r[k] == FundraiserEntry(k + 1, rows[k].0, rows[k].1.totalRaised, rows[k].1.totalCampaigns, rows[k].1.totalDonations)
  {
    seq(|rows|, i requires 0 <= i < |rows| =>
      FundraiserEntry(i + 1, rows[i].0, rows[i].1.totalRaised, rows[i].1.totalCampaigns, rows[i].1.totalDonations))
  }

  function TopFundraisers(db: Db): seq<Entry>
  {
    FundraiserEntries(FundraiserRows(db))
  }

  /**
   * As many entries as there are stats rows with totalRaised > 0, up to 100,
   * ranked 1..n in non-increasing amount order, each one such a row whose
   * figures it copies.
   */
  lemma TopFundraisersSound(db: Db)
    ensures var r := TopFundraisers(db);
      && |r| == (if |FundraiserPool(db)| <= Cap then |FundraiserPool(db)| else Cap)
      && (forall k :: 0 <= k < |r| ==>
            && r[k].FundraiserEntry? && r[k].rank == k + 1
            && r[k].userId in db.stats && r[k].amount > 0.0
            && r[k].amount == db.stats[r[k].userId].totalRaised
            && r[k].campaigns == db.stats[r[k].userId].totalCampaigns
            && r[k].donations == db.stats[r[k].userId].totalDonations)
      && (forall j, k :: 0 <= j < k < |r| ==> r[j].amount >= r[k].amount)
  {
    var positive := FundraiserPool(db);
    TopN(positive, StatRaised, Cap);
    var rows := FundraiserRows(db);
    assert forall k :: 0 <= k < |rows| ==> rows[k] in positive;
  }

  /**
   * Every user who raised something is listed, or else the list is full and
   * every listed amount is at least theirs: the list is the top 100.
   */
  lemma TopFundraisersComplete(db: Db, uid: Id)
    requires uid < db.nextId
    requires uid in db.stats && db.stats[uid].totalRaised > 0.0
    ensures var r := TopFundraisers(db);
      || (exists k :: 0 <= k < |r| && r[k].userId == uid)
      || (|r| == Cap && forall k :: 0 <= k < |r| ==> db.stats[uid].totalRaised <= r[k].amount)
  {
    var positive := FundraiserPool(db);
    var row := (uid, db.stats[uid]);
    assert row in Rows(db.stats, db.nextId);
    assert row in positive;
    var rows := FundraiserRows(db);
    if row in rows {
      var k :| 0 <= k < |rows| && rows[k] == row;
      assert TopFundraisers(db)[k].userId == uid;
    } else {
      TopNExcluded(positive, StatRaised, Cap, row);
      assert forall k :: 0 <= k < |rows| ==> rows[k] in rows;
    }
  }

  // ---------------------------------------------------------------------------
  // getTopDonors: users with a COMPLETED donation; `take: 100` comes before the sort
  // ---------------------------------------------------------------------------

  /** The users, in storage order, with at least one COMPLETED donation. */
  function Donors(db: Db): seq<(Id, User)>
  {
    Filter(Rows(db.users, db.nextId), (row: (Id, User)) => |CompletedAmounts(db, row.0)| > 0)
  }

  /** The first 100 of them: `take: 100` on the query, before any sorting. */
  function DonorCandidates(db: Db): seq<(Id, User)>
  {
    TakeFirst(Donors(db), Cap)
  }

  function DonorTotals(db: Db): (r: seq<DonorTotal>)
    ensures |r| == |DonorCandidates(db)|
    ensures forall k :: 0 <= k < |r| ==>
      r[k] == (DonorCandidates(db)[k].0, SumReal(CompletedAmounts(db, DonorCandidates(db)[k].0)),
               |CompletedAmounts(db, DonorCandidates(db)[k].0)|)
  {
    var users := DonorCandidates(db);
    seq(|users|, i requires 0 <= i < |users| =>
      (users[i].0, SumReal(CompletedAmounts(db, users[i].0)), |CompletedAmounts(db, users[i].0)|))
  }

  function DonorRows(db: Db): seq<DonorTotal>
  {
    TakeFirst(SortDesc(DonorTotals(db), DonorAmount), Cap)
  }

  function DonorEntries(rows: seq<DonorTotal>): (r: seq<Entry>)
    ensures |r| == |rows|
    ensures forall k :: 0 <= k < |r| ==> r[k] == DonorEntry(k + 1, rows[k].0, rows[k].1, rows[k].2)
  {
    seq(|rows|, i requires 0 <= i < |rows| => DonorEntry(i + 1, rows[i].0, rows[i].1, rows[i].2))
  }

  function TopDonors(db: Db): seq<Entry>
  {
    DonorEntries(DonorRows(db))
  }

  /**
   * At most 100 entries, ranked 1..n by non-increasing amount; each entry is a
   * user with at least one COMPLETED donation, its amount their sum and its
   * count their number; and each is among the first 100 such users in storage order.
   */
  lemma TopDonorsSound(db: Db)
    ensures var r := TopDonors(db);
      && |r| <= 100
      && (forall k :: 0 <= k < |r| ==>
            && r[k].DonorEntry? && r[k].rank == k + 1
            && r[k].userId in db.users
            && r[k].amount == SumReal(CompletedAmounts(db, r[k].userId))
            && r[k].donationCount == |CompletedAmounts(db, r[k].userId)| >= 1
            && exists j :: 0 <= j < |DonorCandidates(db)| && DonorCandidates(db)[j].0 == r[k].userId)
      && (forall j, k :: 0 <= j < k < |r| ==> r[j].amount >= r[k].amount)
  {
    var totals := DonorTotals(db);
    TopN(totals, DonorAmount, Cap);
    DonorRowsFromCandidates(db);
    var users := DonorCandidates(db);
    assert forall k :: 0 <= k < |users| ==> users[k] in Donors(db);
  }

  /** Each sorted row is the total of some candidate. */
  lemma DonorRowsFromCandidates(db: Db)
    ensures forall k :: 0 <= k < |DonorRows(db)| ==>
      exists j :: 0 <= j < |DonorCandidates(db)| && DonorTotals(db)[j] == DonorRows(db)[k]
  {
    var totals := DonorTotals(db);
    var rows := DonorRows(db);
    TopN(totals, DonorAmount, Cap);
    forall k | 0 <= k < |rows|
      ensures exists j :: 0 <= j < |totals| && totals[j] == rows[k]
    {
      assert rows[k] in totals;
    }
  }

  /** With at most 100 donors in all, every user with a COMPLETED donation is listed. */
  lemma TopDonorsComplete(db: Db, uid: Id)
    requires uid < db.nextId
    requires |Donors(db)| <= 100
    requires uid in db.users && |CompletedAmounts(db, uid)| > 0
    ensures exists k :: 0 <= k < |TopDonors(db)| && TopDonors(db)[k].userId == uid
  {
    var row := (uid, db.users[uid]);
    assert row in Donors(db) by {
      assert row in Rows(db.users, db.nextId);
    }
    var users := DonorCandidates(db);
    assert users == Donors(db);
    var j :| 0 <= j < |users| && users[j] == row;
    CandidateListed(db, j);
  }

  /** With at most 100 candidates, every candidate gets an entry. */
  lemma CandidateListed(db: Db, j: nat)
    requires j < |DonorCandidates(db)| <= 100
    ensures exists k :: 0 <= k < |TopDonors(db)| && TopDonors(db)[k].userId == DonorCandidates(db)[j].0
  {
    var totals := DonorTotals(db);
    TopN(totals, DonorAmount, Cap);
    var rows := DonorRows(db);
    assert totals[j] in rows;
    var k :| 0 <= k < |rows| && rows[k] == totals[j];
    assert TopDonors(db)[k].userId == totals[j].0;
  }

  // ---------------------------------------------------------------------------
  // getTopTeams: ACTIVE teams with raisedAmount > 0
  // ---------------------------------------------------------------------------

  predicate ActiveAndRaised(row: (Id, Team)) { row.1.status == "ACTIVE" && row.1.raisedAmount > 0.0 }

  /** The teams getTopTeams may list, in storage order. */
  function TeamPool(db: Db): seq<(Id, Team)>
  {
    Filter(Rows(db.teams, db.nextId), ActiveAndRaised)
  }

  function TeamRows(db: Db): seq<(Id, Team)>
  {
    TakeFirst(SortDesc(TeamPool(db), TeamRaised), Cap)
  }

  function TeamEntries(rows: seq<(Id, Team)>): (r: seq<Entry>)
    ensures |r| == |rows|
    ensures forall k :: 0 <= k < |r| ==>
      r[k] == TeamEntry(k + 1, rows[k].0, rows[k].1.raisedAmount, rows[k].1.memberCount, rows[k].1.campaignCount)
  {
    seq(|rows|, i requires 0 <= i < |rows| =>
      TeamEntry(i + 1, rows[i].0, rows[i].1.raisedAmount, rows[i].1.memberCount, rows[i].1.campaignCount))
  }

  function TopTeams(db: Db): seq<Entry>
  {
    TeamEntries(TeamRows(db))
  }

  /**
   * As many ACTIVE teams with raisedAmount > 0 as there are, up to 100, ranked
   * 1..n by non-increasing amount.
   */
  lemma TopTeamsSound(db: Db)
    ensures var r := TopTeams(db);
      && |r| == (if |TeamPool(db)| <= Cap then |TeamPool(db)| else Cap)
      && (forall k :: 0 <= k < |r| ==>
            && r[k].TeamEntry? && r[k].rank == k + 1
            && r[k].teamId in db.teams && db.teams[r[k].teamId].status == "ACTIVE"
            && r[k].amount == db.teams[r[k].teamId].raisedAmount > 0.0)
      && (forall j, k :: 0 <= j < k < |r| ==> r[j].amount >= r[k].amount)
  {
    var eligible := TeamPool(db);
    TopN(eligible, TeamRaised, Cap);
    var rows := TeamRows(db);
    assert forall k :: 0 <= k < |rows| ==> rows[k] in eligible;
  }

  /**
   * Every ACTIVE team that raised something is listed, or else the list is
   * full and every listed amount is at least its own.
   */
  lemma TopTeamsComplete(db: Db, tid: Id)
    requires tid < db.nextId
    requires tid in db.teams && db.teams[tid].status == "ACTIVE" && db.teams[tid].raisedAmount > 0.0
    ensures var r := TopTeams(db);
      || (exists k :: 0 <= k < |r| && r[k].teamId == tid)
      || (|r| == Cap && forall k :: 0 <= k < |r| ==> db.teams[tid].raisedAmount <= r[k].amount)
  {
    var eligible := TeamPool(db);
    var row := (tid, db.teams[tid]);
    assert row in Rows(db.teams, db.nextId);
    assert row in eligible;
    var rows := TeamRows(db);
    if row in rows {
      var k :| 0 <= k < |rows| && rows[k] == row;
      assert TopTeams(db)[k].teamId == tid;
    } else {
      TopNExcluded(eligible, TeamRaised, Cap, row);
      assert forall k :: 0 <= k < |rows| ==> rows[k] in rows;
    }
  }

  // ---------------------------------------------------------------------------
  // The lists updateLeaderboards stores
  // ---------------------------------------------------------------------------

  /** All stats rows, without the totalRaised > 0 filter. */
  function FundraiserTotalRows(db: Db): seq<(Id, Stats)>
  {
    TakeFirst(SortDesc(Rows(db.stats, db.nextId), StatRaised), Cap)
  }

  function FundraiserTotalEntries(rows: seq<(Id, Stats)>): (r: seq<Entry>)
    ensures |r| == |rows|
    ensures forall k :: 0 <= k < |r| ==>
      r[k] == FundraiserTotalEntry(k + 1, rows[k].0, rows[k].1.totalRaised, rows[k].1.totalDonations)
  {
    seq(|rows|, i requires 0 <= i < |rows| =>
      FundraiserTotalEntry(i + 1, rows[i].0, rows[i].1.totalRaised, rows[i].1.totalDonations))
  }

  function FundraiserTotals(db: Db): seq<Entry>
  {
    FundraiserTotalEntries(FundraiserTotalRows(db))
  }

  /**
   * As many stats rows as there are, zero totals included, up to 100, ranked
   * by non-increasing totalRaised.
   */
  lemma FundraiserTotalsSound(db: Db)
    ensures var r := FundraiserTotals(db);
      && |r| == (if |KeysBelow(db.stats, db.nextId)| <= Cap then |KeysBelow(db.stats, db.nextId)| else Cap)
      && (forall k :: 0 <= k < |r| ==>
            && r[k].FundraiserTotalEntry? && r[k].rank == k + 1 && r[k].userId in db.stats
            && r[k].amount == db.stats[r[k].userId].totalRaised
            && r[k].totalDonations == db.stats[r[k].userId].totalDonations)
      && (forall j, k :: 0 <= j < k < |r| ==> r[j].amount >= r[k].amount)
  {
    var all := Rows(db.stats, db.nextId);
    RowsBelow(db.stats, db.nextId);
    TopN(all, StatRaised, Cap);
    var rows := FundraiserTotalRows(db);
    assert forall k :: 0 <= k < |rows| ==> rows[k] in all;
  }

  /**
   * Every stats row is listed, or else the list is full and every listed
   * amount is at least its totalRaised.
   */
  lemma FundraiserTotalsComplete(db: Db, uid: Id)
    requires uid < db.nextId
    requires uid in db.stats
    ensures var r := FundraiserTotals(db);
      || (exists k :: 0 <= k < |r| && r[k].userId == uid)
      || (|r| == Cap && forall k :: 0 <= k < |r| ==> db.stats[uid].totalRaised <= r[k].amount)
  {
    var all := Rows(db.stats, db.nextId);
    var row := (uid, db.stats[uid]);
    assert row in all;
    var rows := FundraiserTotalRows(db);
    if row in rows {
      var k :| 0 <= k < |rows| && rows[k] == row;
      assert FundraiserTotals(db)[k].userId == uid;
    } else {
      TopNExcluded(all, StatRaised, Cap, row);
      assert forall k :: 0 <= k < |rows| ==> rows[k] in rows;
    }
  }

  predicate IsActive(row: (Id, Team)) { row.1.status == "ACTIVE" }

  /** ACTIVE teams, with no raisedAmount filter. */
  function ActivePool(db: Db): seq<(Id, Team)>
  {
    Filter(Rows(db.teams, db.nextId), IsActive)
  }

  function ActiveTeamRows(db: Db): seq<(Id, Team)>
  {
    TakeFirst(SortDesc(ActivePool(db), TeamRaised), Cap)
  }

  function ActiveTeams(db: Db): seq<Entry>
  {
    TeamEntries(ActiveTeamRows(db))
  }

  /**
   * As many ACTIVE teams as there are, zero totals included, up to 100, ranked
   * by non-increasing amount.
   */
  lemma ActiveTeamsSound(db: Db)
    ensures var r := ActiveTeams(db);
      && |r| == (if |ActivePool(db)| <= Cap then |ActivePool(db)| else Cap)
      && (forall k :: 0 <= k < |r| ==>
            && r[k].TeamEntry? && r[k].rank == k + 1
            && r[k].teamId in db.teams && db.teams[r[k].teamId].status == "ACTIVE"
            && r[k].amount == db.teams[r[k].teamId].raisedAmount)
      && (forall j, k :: 0 <= j < k < |r| ==> r[j].amount >= r[k].amount)
  {
    var active := ActivePool(db);
    TopN(active, TeamRaised, Cap);
    var rows := ActiveTeamRows(db);
    assert forall k :: 0 <= k < |rows| ==> rows[k] in active;
  }

  /**
   * Every ACTIVE team is listed, or else the list is full and every listed
   * amount is at least its own.
   */
  lemma ActiveTeamsComplete(db: Db, tid: Id)
    requires tid < db.nextId
    requires tid in db.teams && db.teams[tid].status == "ACTIVE"
    ensures var r := ActiveTeams(db);
      || (exists k :: 0 <= k < |r| && r[k].teamId == tid)
      || (|r| == Cap && forall k :: 0 <= k < |r| ==> db.teams[tid].raisedAmount <= r[k].amount)
  {
    var active := ActivePool(db);
    var row := (tid, db.teams[tid]);
    assert row in Rows(db.teams, db.nextId);
    assert row in active;
    var rows := ActiveTeamRows(db);
    if row in rows {
      var k :| 0 <= k < |rows| && rows[k] == row;
      assert ActiveTeams(db)[k].teamId == tid;
    } else {
      TopNExcluded(active, TeamRaised, Cap, row);
      assert forall k :: 0 <= k < |rows| ==> rows[k] in rows;
    }
  }
}
