/**
 * The half of lib/gamification.ts that writes to the database: awardPoints and
 * its two callers, checkBadgeUnlocks and updateLeaderboards. Each method is
 * proved to leave the store in the state its specification function names.
 */
module GamificationStore {
  import opened Common
  import opened Gamification
  import opened Schema
  import opened Ranking

  // ---------------------------------------------------------------------------
  // awardPoints: read the user, write totalPoints and the recomputed level
  // ---------------------------------------------------------------------------

  /** The store after awardPoints(uid, points): an unknown user changes nothing. */
  function WithPoints(db: Db, uid: Id, points: nat): (r: Db)
    ensures uid !in db.users ==> r == db
    ensures uid in db.users ==>
      && r.users.Keys == db.users.Keys
      && r.users[uid].totalPoints == db.users[uid].totalPoints + points
      && 100 * ((r.users[uid].level - 1) * (r.users[uid].level - 1)) <= r.users[uid].totalPoints
      && r.users[uid].totalPoints < 100 * (r.users[uid].level * r.users[uid].level)
      && (forall other :: other in db.users && other != uid ==> r.users[other] == db.users[other])
      && r == db.(users := r.users)
  {
    if uid !in db.users then db
    else
      var total := db.users[uid].totalPoints + points;
      var level := Level(total);
      assert 100 * ((level - 1) * (level - 1)) <= total < 100 * (level * level);
      db.(users := db.users[uid := User(total, level)])
  }

  /** Awarding points never lowers the level the new total calls for. */
  lemma WithPointsRaisesLevel(db: Db, uid: Id, points: nat)
    requires uid in db.users
    ensures WithPoints(db, uid, points).users[uid].level >= Level(db.users[uid].totalPoints)
  {
    LevelMonotone(db.users[uid].totalPoints, db.users[uid].totalPoints + points);
  }

  method AwardPoints(db: Store, uid: Id, points: nat)
    modifies db
    ensures db.State() == WithPoints(old(db.State()), uid, points)
  {
    if uid !in db.users {
      return;
    }
    var total := db.users[uid].totalPoints + points;
    var level := Level(total);
    db.users := db.users[uid := User(total, level)];
  }

  /** awardDonationPoints; donation amounts are positive, so the points are never negative. */
  method AwardDonationPoints(db: Store, uid: Id, amount: real)
    requires amount >= 0.0
    modifies db
    ensures db.State() == WithPoints(old(db.State()), uid, DonationPoints(amount))
  {
    AwardPoints(db, uid, DonationPoints(amount));
  }

  /** awardSharePoints. */
  method AwardSharePoints(db: Store, uid: Id, platform: string)
    modifies db
    ensures db.State() == WithPoints(old(db.State()), uid, SharePoints(platform))
  {
    AwardPoints(db, uid, SharePoints(platform));
  }

  // ---------------------------------------------------------------------------
  // checkBadgeUnlocks
  // ---------------------------------------------------------------------------

  /** The UserBadge rows created for `bs`, in order. */
  function UnlockRows(uid: Id, bs: seq<Badge>): (r: seq<(Id, Id)>)
    ensures |r| == |bs| && forall k :: 0 <= k < |bs| ==> r[k] == (uid, bs[k].id)
  {
    if bs == [] then []
    else UnlockRows(uid, bs[..|bs| - 1]) + [(uid, bs[|bs| - 1].id)]
  }

  /** The badges checkBadgeUnlocks awards `uid`, given the store before the call. */
  function Unlocked(db: Db, uid: Id): seq<Badge>
  {
    NewBadges(db.catalog, OwnedBadges(db.userBadges, uid), UserFacts(db, uid))
  }

  /** The store after one badge is awarded: its UserBadge row, then its reward added to totalPoints. */
  function Award(db: Db, uid: Id, b: Badge): (r: Db)
    requires uid in db.users
    ensures uid in r.users && r.users.Keys == db.users.Keys
  {
    var u := db.users[uid];
    db.(userBadges := db.userBadges + [(uid, b.id)],
        users := db.users[uid := User(u.totalPoints + b.pointsReward, u.level)])
  }

  /** The store after the badges `won` are awarded one after another. */
  function AwardAll(db: Db, uid: Id, won: seq<Badge>): (r: Db)
    requires uid in db.users
    ensures uid in r.users && r.users.Keys == db.users.Keys
    decreases |won|
  {
    if won == [] then db
    else Award(AwardAll(db, uid, won[..|won| - 1]), uid, won[|won| - 1])
  }

  /**
   * The store after checkBadgeUnlocks(uid), and its result; an unknown user
   * changes nothing.
   */
  function BadgeUnlocks(db: Db, uid: Id): (Db, seq<Id>)
  {
    if uid !in db.users then (db, [])
    else
      var won := Unlocked(db, uid);
      (AwardAll(db, uid, won), BadgeIds(won))
  }

  lemma UnlockRowsAppend(uid: Id, bs: seq<Badge>, b: Badge)
    ensures UnlockRows(uid, bs + [b]) == UnlockRows(uid, bs) + [(uid, b.id)]
  {
    assert (bs + [b])[..|bs|] == bs;
  }

  lemma BadgeIdsAppend(bs: seq<Badge>, b: Badge)
    ensures BadgeIds(bs + [b]) == BadgeIds(bs) + [b.id]
  {
  }

  lemma RewardSumAppend(bs: seq<Badge>, b: Badge)
    ensures RewardSum(bs + [b]) == RewardSum(bs) + b.pointsReward
  {
    assert (bs + [b])[..|bs|] == bs;
  }

  /**
   * Awarding `won` appends one UserBadge row per badge, in order, adds their
   * rewards to totalPoints, keeps the stored level and touches no other table.
   */
  lemma {:induction false} AwardAllEffect(db: Db, uid: Id, won: seq<Badge>)
    requires uid in db.users
    ensures AwardAll(db, uid, won).userBadges == db.userBadges + UnlockRows(uid, won)
    ensures AwardAll(db, uid, won).users
      == db.users[uid := User(db.users[uid].totalPoints + RewardSum(won), db.users[uid].level)]
    ensures AwardAll(db, uid, won) == db.(userBadges := AwardAll(db, uid, won).userBadges, users := AwardAll(db, uid, won).users)
    decreases |won|
  {
    if won == [] {
      assert db.userBadges + UnlockRows(uid, won) == db.userBadges;
      assert db.users[uid := User(db.users[uid].totalPoints, db.users[uid].level)] == db.users;
    } else {
      var init, last := won[..|won| - 1], won[|won| - 1];
      assert won == init + [last];
      AwardAllEffect(db, uid, init);
      UnlockRowsAppend(uid, init, last);
      RewardSumAppend(init, last);
    }
  }

  /** One loop step: the prefix's awarded badges grow by the next badge exactly when it unlocks. */
  lemma NewBadgesStep(catalog: seq<Badge>, i: nat, owned: seq<Id>, f: Facts)
    requires i < |catalog|
    ensures NewBadges(catalog[..i + 1], owned, f)
      == NewBadges(catalog[..i], owned, f) + (if Unlocks(catalog[i], owned, f) then [catalog[i]] else [])
  {
    assert catalog[..i + 1][..i] == catalog[..i];
  }

  /** Awarding one badge: prisma.userBadge.create, then the totalPoints increment. */
  method AwardBadge(db: Store, uid: Id, badge: Badge)
    requires uid in db.users
    modifies db
    ensures db.State() == Award(old(db.State()), uid, badge)
  {
    db.userBadges := db.userBadges + [(uid, badge.id)];
    var u := db.users[uid];
    db.users := db.users[uid := User(u.totalPoints + badge.pointsReward, u.level)];
  }

  method CheckBadgeUnlocks(db: Store, uid: Id) returns (newBadges: seq<Id>)
    modifies db
    ensures (db.State(), newBadges) == BadgeUnlocks(old(db.State()), uid)
  {
    if uid !in db.users {
      return [];
    }
    var facts := UserFacts(db.State(), uid);
    var owned := OwnedBadges(db.userBadges, uid);
    newBadges := AwardUnlocked(db, uid, db.catalog, owned, facts);
  }

  /** The loop of checkBadgeUnlocks: every catalog badge not owned whose requirement holds is awarded, in order. */
  method AwardUnlocked(db: Store, uid: Id, all: seq<Badge>, owned: seq<Id>, facts: Facts) returns (newBadges: seq<Id>)
    requires uid in db.users
    modifies db
    ensures db.State() == AwardAll(old(db.State()), uid, NewBadges(all, owned, facts))
    ensures newBadges == BadgeIds(NewBadges(all, owned, facts))
  {
    ghost var start := db.State();
    ghost var won: seq<Badge> := [];
    newBadges := [];
    var i := 0;
    while i < |all|
      invariant 0 <= i <= |all|
      invariant won == NewBadges(all[..i], owned, facts)
      invariant db.State() == AwardAll(start, uid, won)
      invariant newBadges == BadgeIds(won)
    {
      var badge := all[i];
      NewBadgesStep(all, i, owned, facts);
      // A badge already owned is skipped; otherwise its requirement decides.
      if badge.id !in owned && Satisfies(badge.requirement, facts) {
        AwardBadge(db, uid, badge);
        newBadges := newBadges + [badge.id];
        BadgeIdsAppend(won, badge);
        assert (won + [badge])[..|won|] == won;
        won := won + [badge];
      }
      i := i + 1;
    }
    assert all[..i] == all;
  }

  /** An unknown user gets no badges and nothing changes. */
  lemma BadgeUnlocksUnknownUser(db: Db, uid: Id)
    requires uid !in db.users
    ensures BadgeUnlocks(db, uid) == (db, [])
  {
  }

  /**
   * With distinct catalog ids, the result lists, once each, exactly the
   * catalog badges the user did not own and whose requirement holds.
   */
  lemma BadgeUnlocksSound(db: Db, uid: Id)
    requires DistinctIds(db.catalog)
    requires uid in db.users
    ensures var ids := BadgeUnlocks(db, uid).1;
      var owned := OwnedBadges(db.userBadges, uid);
      var f := UserFacts(db, uid);
      && (forall b :: b in db.catalog ==> (b.id in ids <==> b.id !in owned && Satisfies(b.requirement, f)))
      && (forall j, k :: 0 <= j < k < |ids| ==> ids[j] != ids[k])
  {
    NewBadgeIds(db.catalog, OwnedBadges(db.userBadges, uid), UserFacts(db, uid));
  }

  /**
   * Each listed badge gets one UserBadge row, in order, and adds its reward
   * to totalPoints; the stored level and every other table are untouched.
   */
  lemma BadgeUnlocksWrites(db: Db, uid: Id)
    requires uid in db.users
    ensures var (after, ids) := BadgeUnlocks(db, uid);
      && after.userBadges == db.userBadges + seq(|ids|, k requires 0 <= k < |ids| => (uid, ids[k]))
      && after.users == db.users[uid := User(db.users[uid].totalPoints + RewardSum(Unlocked(db, uid)), db.users[uid].level)]
      && after == db.(userBadges := after.userBadges, users := after.users)
  {
    AwardAllEffect(db, uid, Unlocked(db, uid));
  }

  lemma OwnedBadgesSnoc(rows: seq<(Id, Id)>, uid: Id, row: (Id, Id))
    ensures OwnedBadges(rows + [row], uid) == OwnedBadges(rows, uid) + (if row.0 == uid then [row.1] else [])
  {
    assert (rows + [row])[..|rows|] == rows;
  }

  lemma SnocAssoc<T>(a: seq<T>, b: seq<T>, x: T)
    ensures a + (b + [x]) == (a + b) + [x]
  {
  }

  /** The UserBadge rows for `bs`, read back, are the badges' ids. */
  lemma {:induction false} OwnedBadgesAppend(rows: seq<(Id, Id)>, uid: Id, bs: seq<Badge>)
    ensures OwnedBadges(rows + UnlockRows(uid, bs), uid) == OwnedBadges(rows, uid) + BadgeIds(bs)
    decreases |bs|
  {
    if bs == [] {
      assert rows + UnlockRows(uid, bs) == rows;
      assert BadgeIds(bs) == [];
    } else {
      var init, last := bs[..|bs| - 1], bs[|bs| - 1];
      var row := (uid, last.id);
      assert bs == init + [last];
      OwnedBadgesAppend(rows, uid, init);
      UnlockRowsAppend(uid, init, last);
      BadgeIdsAppend(init, last);
      SnocAssoc(rows, UnlockRows(uid, init), row);
      OwnedBadgesSnoc(rows + UnlockRows(uid, init), uid, row);
      SnocAssoc(OwnedBadges(rows, uid), BadgeIds(init), last.id);
    }
  }

  /**
   * Running checkBadgeUnlocks a second time, with no change to donations,
   * campaigns or stats in between, returns [] and changes nothing.
   */
  lemma BadgeUnlocksSettled(db: Db, uid: Id)
    ensures var (once, _) := BadgeUnlocks(db, uid);
      BadgeUnlocks(once, uid) == (once, [])
  {
    if uid in db.users {
      var won := Unlocked(db, uid);
      AwardAllEffect(db, uid, won);
      var once := AwardAll(db, uid, won);
      var owned := OwnedBadges(db.userBadges, uid);
      var f := UserFacts(db, uid);
      assert UserFacts(once, uid) == f;
      OwnedBadgesAppend(db.userBadges, uid, won);
      NewBadgesSettled(db.catalog, owned, f);
      assert Unlocked(once, uid) == [];
    }
  }

  // ---------------------------------------------------------------------------
  // updateLeaderboards: three ALL_TIME snapshots
  // ---------------------------------------------------------------------------

  const AllTime := "ALL_TIME"
  const TopFundraisersKey := (FundraiserBoard, AllTime)
  const TopDonorsKey := (DonorBoard, AllTime)
  const TopTeamsKey := (TeamBoard, AllTime)

  /** The leaderboard table after the three upserts. */
  function Refreshed(boards: map<(Board, string), Snapshot>, fundraisers: seq<Entry>, donors: seq<Entry>, teams: seq<Entry>, now: int)
    : map<(Board, string), Snapshot>
  {
    boards
      [TopFundraisersKey := Snapshot(fundraisers, now)]
      [TopDonorsKey := Snapshot(donors, now)]
      [TopTeamsKey := Snapshot(teams, now)]
  }

  /** The store after updateLeaderboards at clock reading `now`. */
  function WithLeaderboards(db: Db, now: int): Db
  {
    db.(leaderboards := Refreshed(db.leaderboards, FundraiserTotals(db), TopDonors(db), ActiveTeams(db), now))
  }

  method UpdateLeaderboards(db: Store, now: int)
    modifies db
    ensures db.State() == WithLeaderboards(old(db.State()), now)
  {
    // The three upserts write only the leaderboard table, so every list can be read off the same state.
    var s := db.State();
    WriteBoards(db, FundraiserTotals(s), TopDonors(s), ActiveTeams(s), now);
  }

  /** The three upserts of computed lists. */
  method WriteBoards(db: Store, fundraisers: seq<Entry>, donors: seq<Entry>, teams: seq<Entry>, now: int)
    modifies db
    ensures db.State() == old(db.State()).(leaderboards := Refreshed(old(db.leaderboards), fundraisers, donors, teams, now))
  {
    db.leaderboards := db.leaderboards[TopFundraisersKey := Snapshot(fundraisers, now)];
    db.leaderboards := db.leaderboards[TopDonorsKey := Snapshot(donors, now)];
    db.leaderboards := db.leaderboards[TopTeamsKey := Snapshot(teams, now)];
  }

  /** A snapshot list as the leaderboards show it: ranks 1..n, at most 100, amounts non-increasing. */
  ghost predicate RankedList(data: seq<Entry>)
  {
    && |data| <= 100
    && (forall k :: 0 <= k < |data| ==> data[k].rank == k + 1)
    && (forall j, k :: 0 <= j < k < |data| ==> data[j].amount >= data[k].amount)
  }

  /** The three upserts write their own rows and keep every other row. */
  lemma RefreshedRows(boards: map<(Board, string), Snapshot>, fundraisers: seq<Entry>, donors: seq<Entry>, teams: seq<Entry>, now: int)
    ensures var r := Refreshed(boards, fundraisers, donors, teams, now);
      && r.Keys == boards.Keys + {TopFundraisersKey, TopDonorsKey, TopTeamsKey}
      && r[TopFundraisersKey] == Snapshot(fundraisers, now)
      && r[TopDonorsKey] == Snapshot(donors, now)
      && r[TopTeamsKey] == Snapshot(teams, now)
      && (forall key :: key in boards && key != TopFundraisersKey && key != TopDonorsKey && key != TopTeamsKey ==>
            r[key] == boards[key])
  {
  }

  /**
   * Only the leaderboard table changes: its three ALL_TIME rows are stamped
   * `now` and every other snapshot is kept.
   */
  lemma WithLeaderboardsFrame(db: Db, now: int)
    ensures var r := WithLeaderboards(db, now);
      && r == db.(leaderboards := r.leaderboards)
      && TopFundraisersKey in r.leaderboards && r.leaderboards[TopFundraisersKey].updatedAt == now
      && TopDonorsKey in r.leaderboards && r.leaderboards[TopDonorsKey].updatedAt == now
      && TopTeamsKey in r.leaderboards && r.leaderboards[TopTeamsKey].updatedAt == now
      && (forall key :: key in db.leaderboards && key != TopFundraisersKey && key != TopDonorsKey && key != TopTeamsKey ==>
            key in r.leaderboards && r.leaderboards[key] == db.leaderboards[key])
  {
    RefreshedRows(db.leaderboards, FundraiserTotals(db), TopDonors(db), ActiveTeams(db), now);
  }

  /** The three refreshed rows hold ranked lists drawn from the same store. */
  lemma WithLeaderboardsRanked(db: Db, now: int)
    ensures var r := WithLeaderboards(db, now).leaderboards;
      && TopFundraisersKey in r && RankedList(r[TopFundraisersKey].data)
      && TopDonorsKey in r && RankedList(r[TopDonorsKey].data)
      && TopTeamsKey in r && RankedList(r[TopTeamsKey].data)
  {
    RefreshedRows(db.leaderboards, FundraiserTotals(db), TopDonors(db), ActiveTeams(db), now);
    FundraiserTotalsRanked(db);
    TopDonorsRanked(db);
    ActiveTeamsRanked(db);
  }

  lemma FundraiserTotalsRanked(db: Db)
    ensures RankedList(FundraiserTotals(db))
  {
    FundraiserTotalsSound(db);
  }

  lemma TopDonorsRanked(db: Db)
    ensures RankedList(TopDonors(db))
  {
    TopDonorsSound(db);
  }

  lemma ActiveTeamsRanked(db: Db)
    ensures RankedList(ActiveTeams(db))
  {
    ActiveTeamsSound(db);
  }
}
