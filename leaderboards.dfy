/**
 * GET /api/leaderboards (app/api/leaderboards/route.ts): return the cached
 * snapshot for (type, period) while it is less than five minutes old,
 * otherwise recompute the ranked list, upsert it and return it.
 */
module Leaderboards {
  import opened Common
  import opened Schema
  import opened Ranking
  import opened GamificationStore

  /** How long a snapshot is served from the cache, in milliseconds. */
  const CacheTtl: int := 5 * 60 * 1000

  /** An HTTP status and, on 200, the snapshot in the body. */
  datatype Reply = Reply(status: nat, body: Option<Snapshot>)

  /** `searchParams.get('type') || 'TOP_FUNDRAISERS'`. */
  function TypeParam(p: Option<string>): (r: string)
    ensures Present(p) ==> r == p.value
    ensures !Present(p) ==> r == "TOP_FUNDRAISERS"
  {
    if Present(p) then p.value else "TOP_FUNDRAISERS"
  }

  /** `searchParams.get('period') || 'ALL_TIME'`. */
  function PeriodParam(p: Option<string>): (r: string)
    ensures Present(p) ==> r == p.value
    ensures !Present(p) ==> r == AllTime
  {
    if Present(p) then p.value else AllTime
  }

  /** The three `type` values the switch knows; any other string is refused. */
  function ParseBoard(t: string): (r: Option<Board>)
    ensures r == Some(FundraiserBoard) <==> t == "TOP_FUNDRAISERS"
    ensures r == Some(DonorBoard) <==> t == "TOP_DONORS"
    ensures r == Some(TeamBoard) <==> t == "TOP_TEAMS"
  {
    if t == "TOP_FUNDRAISERS" then Some(FundraiserBoard)
    else if t == "TOP_DONORS" then Some(DonorBoard)
    else if t == "TOP_TEAMS" then Some(TeamBoard)
    else None
  }

  /** The list the switch computes for a board; the period does not narrow it. */
  function Compute(db: Db, b: Board): seq<Entry>
  {
    match b
    case FundraiserBoard => TopFundraisers(db)
    case DonorBoard => TopDonors(db)
    case TeamBoard => TopTeams(db)
  }

  /** A cached snapshot is served while `now - updatedAt` is under the time to live. */
  predicate Fresh(boards: map<(Board, string), Snapshot>, key: (Board, string), now: int)
  {
    key in boards && now - boards[key].updatedAt < CacheTtl
  }

  /** The store and the reply after GET ?type=…&period=… at clock reading `now`. */
  function GetSpec(db: Db, typeParam: Option<string>, periodParam: Option<string>, now: int): (Db, Reply)
  {
    var period := PeriodParam(periodParam);
    match ParseBoard(TypeParam(typeParam))
    case None => (db, Reply(400, None))
    case Some(b) =>
      if Fresh(db.leaderboards, (b, period), now) then (db, Reply(200, Some(db.leaderboards[(b, period)])))
      else
        var snap := Snapshot(Compute(db, b), now);
        (db.(leaderboards := db.leaderboards[(b, period) := snap]), Reply(200, Some(snap)))
  }

  method Get(db: Store, typeParam: Option<string>, periodParam: Option<string>, now: int) returns (reply: Reply)
    modifies db
    ensures (db.State(), reply) == GetSpec(old(db.State()), typeParam, periodParam, now)
  {
    var t := TypeParam(typeParam);
    var period := PeriodParam(periodParam);
    var board := ParseBoard(t);
    if board.Some? && Fresh(db.leaderboards, (board.value, period), now) {
      return Reply(200, Some(db.leaderboards[(board.value, period)]));
    }
    var data: seq<Entry>;
    match board {
      case None => return Reply(400, None);
      case Some(FundraiserBoard) => data := TopFundraisers(db.State());
      case Some(DonorBoard) => data := TopDonors(db.State());
      case Some(TeamBoard) => data := TopTeams(db.State());
    }
    var snap := Snapshot(data, now);
    db.leaderboards := db.leaderboards[(board.value, period) := snap];
    reply := Reply(200, Some(snap));
  }

  // ---------------------------------------------------------------------------
  // What a GET promises
  // ---------------------------------------------------------------------------

  /** A missing or empty parameter means TOP_FUNDRAISERS over ALL_TIME. */
  lemma GetDefaults(db: Db, typeParam: Option<string>, periodParam: Option<string>, now: int)
    requires !Present(typeParam) && !Present(periodParam)
    ensures GetSpec(db, typeParam, periodParam, now) == GetSpec(db, Some("TOP_FUNDRAISERS"), Some("ALL_TIME"), now)
  {
  }

  /** A type outside the three is answered 400 and writes nothing. */
  lemma GetUnknownType(db: Db, typeParam: Option<string>, periodParam: Option<string>, now: int)
    requires Present(typeParam)
    requires typeParam.value != "TOP_FUNDRAISERS" && typeParam.value != "TOP_DONORS" && typeParam.value != "TOP_TEAMS"
    ensures GetSpec(db, typeParam, periodParam, now) == (db, Reply(400, None))
  {
  }

  /** A snapshot younger than five minutes is returned as stored, and nothing is written. */
  lemma GetCacheHit(db: Db, typeParam: Option<string>, periodParam: Option<string>, now: int, b: Board)
    requires ParseBoard(TypeParam(typeParam)) == Some(b)
    requires Fresh(db.leaderboards, (b, PeriodParam(periodParam)), now)
    ensures GetSpec(db, typeParam, periodParam, now) == (db, Reply(200, Some(db.leaderboards[(b, PeriodParam(periodParam))])))
  {
  }

  /**
   * Otherwise the (type, period) row is overwritten with the freshly ranked
   * list stamped `now`, the same snapshot is returned, and every other row of
   * every table is kept.
   */
  lemma GetRefresh(db: Db, typeParam: Option<string>, periodParam: Option<string>, now: int, b: Board)
    requires ParseBoard(TypeParam(typeParam)) == Some(b)
    requires !Fresh(db.leaderboards, (b, PeriodParam(periodParam)), now)
    ensures var key := (b, PeriodParam(periodParam));
      var (after, reply) := GetSpec(db, typeParam, periodParam, now);
      && reply.status == 200 && reply.body == Some(Snapshot(Compute(db, b), now))
      && after == db.(leaderboards := after.leaderboards)
      && after.leaderboards.Keys == db.leaderboards.Keys + {key}
      && after.leaderboards[key] == Snapshot(Compute(db, b), now)
      && (forall k :: k in db.leaderboards && k != key ==> after.leaderboards[k] == db.leaderboards[k])
  {
  }

  /** A GET leaves the returned snapshot fresh: a second GET at the same instant is served from the cache. */
  lemma GetThenCached(db: Db, typeParam: Option<string>, periodParam: Option<string>, now: int)
    requires ParseBoard(TypeParam(typeParam)).Some?
    ensures var (after, reply) := GetSpec(db, typeParam, periodParam, now);
      GetSpec(after, typeParam, periodParam, now) == (after, reply)
  {
  }

  /** Whatever the route returns with 200 is a ranked list when it computed it itself. */
  lemma ComputeRanked(db: Db, b: Board)
    ensures RankedList(Compute(db, b))
  {
    match b {
      case FundraiserBoard => TopFundraisersSound(db);
      case DonorBoard => TopDonorsRanked(db);
      case TeamBoard => TopTeamsSound(db);
    }
  }
}
