/**
 * app/api/campaigns/route.ts: GET lists campaigns under the query string's
 * filters, newest first, one page at a time; POST creates a campaign under a
 * unique slug, upserts the creator's fundraiser stats and awards 5 points.
 */
module Campaigns {
  import opened Common
  import opened Utils
  import opened Validations
  import opened Schema
  import opened Slugs
  import opened Paging

  // ---------------------------------------------------------------------------
  // GET: the `where` object and the page
  // ---------------------------------------------------------------------------

  /** The query string's filter parameters, as `searchParams.get` returns them. */
  datatype Query = Query(
    status: Option<string>, category: Option<string>, search: Option<string>,
    userId: Option<string>, teamId: Option<string>)

  /** The `where` object the handler assembles; None is a key it never set. */
  datatype Where = Where(
    status: Option<string>, category: Option<string>, search: Option<string>,
    creatorId: Option<string>, teamId: Option<string>)

  /** A row id as the query string spells it. */
  function IdText(id: Id): string
  {
    NatToString(id)
  }

  /**
   * How Prisma reads the `where` object: each key set is an equality on its
   * column, and `OR` holds when the term occurs, ignoring case, in the title
   * or the description.
   */
  predicate Matches(w: Where, c: Campaign)
  {
    && (w.status.Some? ==> c.status == w.status.value)
    && (w.category.Some? ==> c.info.category == w.category.value)
    && (w.search.Some? ==>
          ContainsInsensitive(c.info.title, w.search.value) || ContainsInsensitive(c.info.description, w.search.value))
    && (w.creatorId.Some? ==> IdText(c.creatorId) == w.creatorId.value)
    && (w.teamId.Some? ==> c.TeamId().Some? && IdText(c.TeamId().value) == w.teamId.value)
  }

  /**
   * The campaigns a query asks for: every non-empty parameter constrains the
   * campaign, and a missing or empty one does not.
   */
  predicate Admits(q: Query, c: Campaign)
  {
    && (Present(q.status) ==> c.status == q.status.value)
    && (Present(q.category) ==> c.info.category == q.category.value)
    && (Present(q.search) ==>
          ContainsInsensitive(c.info.title, q.search.value) || ContainsInsensitive(c.info.description, q.search.value))
    && (Present(q.userId) ==> IdText(c.creatorId) == q.userId.value)
    && (Present(q.teamId) ==> c.TeamId().Some? && IdText(c.TeamId().value) == q.teamId.value)
  }

  /** The handler's `where` construction: one `if` per parameter. */
  method BuildWhere(q: Query) returns (w: Where)
    ensures forall c :: Matches(w, c) <==> Admits(q, c)
    ensures w.status.Some? <==> Present(q.status)
    ensures w.category.Some? <==> Present(q.category)
    ensures w.search.Some? <==> Present(q.search)
    ensures w.creatorId.Some? <==> Present(q.userId)
    ensures w.teamId.Some? <==> Present(q.teamId)
  {
    w := Where(None, None, None, None, None);
    if Present(q.status) {
      w := w.(status := q.status);
    }
    if Present(q.category) {
      w := w.(category := q.category);
    }
    if Present(q.search) {
      w := w.(search := q.search);
    }
    if Present(q.userId) {
      w := w.(creatorId := q.userId);
    }
    if Present(q.teamId) {
      w := w.(teamId := q.teamId);
    }
  }

  /** A query without parameters admits every campaign. */
  lemma EmptyQueryAdmitsAll(c: Campaign)
    ensures Admits(Query(None, None, None, None, None), c)
    ensures Admits(Query(Some(""), Some(""), Some(""), Some(""), Some("")), c)
  {
  }

  /** The campaign rows newest first (creation order is identifier order). */
  function Newest(db: Db): seq<(Id, Campaign)>
  {
    Reversed(Rows(db.campaigns, db.nextId))
  }

  /** The campaigns the query admits, newest first: what `findMany` pages through and `count` counts. */
  function Admitted(db: Db, q: Query): seq<(Id, Campaign)>
  {
    Filter(Newest(db), (row: (Id, Campaign)) => Admits(q, row.1))
  }

  /** The reply to GET with query `q` and the `page` and `limit` parameters. */
  function ListSpec(db: Db, q: Query, pageParam: Option<int>, limitParam: Option<int>): Listing<(Id, Campaign)>
  {
    Paginate(Admitted(db, q), pageParam, limitParam)
  }

  method List(db: Store, q: Query, pageParam: Option<int>, limitParam: Option<int>) returns (reply: Listing<(Id, Campaign)>)
    ensures reply == ListSpec(db.State(), q, pageParam, limitParam)
  {
    var w := BuildWhere(q);
    var rows := Reversed(Rows(db.campaigns, db.nextId));
    var matched := Filter(rows, (row: (Id, Campaign)) => Matches(w, row.1));
    FilterCongruent(rows, (row: (Id, Campaign)) => Matches(w, row.1), (row: (Id, Campaign)) => Admits(q, row.1));
    reply := Paginate(matched, pageParam, limitParam);
  }

  /** The admitted rows are stored campaigns the query admits. */
  lemma AdmittedSound(db: Db, q: Query)
    ensures forall row :: row in Admitted(db, q) ==>
      row.0 in db.campaigns && db.campaigns[row.0] == row.1 && Admits(q, row.1)
  {
    forall row | row in Admitted(db, q)
      ensures row.0 in db.campaigns && db.campaigns[row.0] == row.1 && Admits(q, row.1)
    {
      var k :| 0 <= k < |Newest(db)| && Newest(db)[k] == row;
      assert Rows(db.campaigns, db.nextId)[|Newest(db)| - 1 - k] == row;
    }
  }

  /** Every listed row is a stored campaign the query admits. */
  lemma ListSound(db: Db, q: Query, pageParam: Option<int>, limitParam: Option<int>)
    ensures var reply := ListSpec(db, q, pageParam, limitParam);
      reply.Listed? ==> forall row :: row in reply.items ==>
        row.0 in db.campaigns && db.campaigns[row.0] == row.1 && Admits(q, row.1)
  {
    AdmittedSound(db, q);
    PaginateFrom(Admitted(db, q), pageParam, limitParam);
  }

  lemma AdmittedHas(db: Db, q: Query, id: Id)
    requires id in db.campaigns && id < db.nextId && Admits(q, db.campaigns[id])
    ensures (id, db.campaigns[id]) in Admitted(db, q)
  {
    ReversedHas(Rows(db.campaigns, db.nextId), (id, db.campaigns[id]));
  }

  /**
   * Every campaign the query admits is listed: with a positive limit it is on
   * some page between 1 and totalPages.
   */
  lemma ListComplete(db: Db, q: Query, limit: int, id: Id)
    requires limit > 0
    requires id in db.campaigns && id < db.nextId && Admits(q, db.campaigns[id])
    ensures exists page :: 1 <= page && OnPage(ListSpec(db, q, Some(page), Some(limit)), (id, db.campaigns[id]), page)
  {
    AdmittedHas(db, q, id);
    var matched := Admitted(db, q);
    var i :| 0 <= i < |matched| && matched[i] == (id, db.campaigns[id]);
    OnSomePage(matched, limit, i);
  }

  // ---------------------------------------------------------------------------
  // POST: create a campaign
  // ---------------------------------------------------------------------------

  /** The slugs the campaigns table already uses. */
  function CampaignSlugs(db: Db): set<string>
  {
    set id | id in db.campaigns :: db.campaigns[id].slug
  }

  /** No two campaigns share a slug (the column is unique). */
  ghost predicate DistinctSlugs(db: Db)
  {
    forall a, b :: a in db.campaigns && b in db.campaigns && db.campaigns[a].slug == db.campaigns[b].slug ==> a == b
  }

  /**
   * The fundraiserStats upsert on campaign creation: a new row counts this
   * one campaign, an existing row one more; either way one more active
   * campaign when the new one is ACTIVE.
   */
  function CountCampaign(stats: map<Id, Stats>, uid: Id, active: bool, now: int): map<Id, Stats>
  {
    var bump := if active then 1 else 0;
    if uid in stats then
      var s := stats[uid];
      stats[uid := s.(totalCampaigns := s.totalCampaigns + 1, activeCampaigns := s.activeCampaigns + bump, lastActive := now)]
    else stats[uid := Stats(0.0, 0, 0.0, 1, bump, 0, now)]
  }

  /**
   * The store and the status after POST by the session user `session` with
   * body `body`. New campaigns take the table's default status
   * `defaultStatus`; `now` is the clock reading; `isDate` says which strings
   * `new Date` turns into a valid date (an Invalid Date fails the insert).
   */
  function CreateSpec(db: Db, session: Option<Id>, body: CampaignInput, defaultStatus: string, isDate: string -> bool, now: int): (Db, nat)
  {
    if session.None? then (db, 401)
    else match ParseCreateCampaign(body)
      case None => (db, 400)
      case Some(data) =>
        var uid := session.value;
        if uid !in db.users || (data.teamId.Some? && data.teamId.value !in db.teams) then (db, 500)
        else if !DateOk(data.endDate, isDate) then (db, 500)
        else
          var c := Campaign(data.(endDate := StoredEndDate(data.endDate)), FreeSlug(GenerateSlug(data.title), CampaignSlugs(db)), defaultStatus, 0.0, 0, uid);
          (Inserted(db, c, now), 201)
  }

  /** `endDate ? new Date(endDate) : null` converts: an absent or empty endDate needs no date. */
  predicate DateOk(endDate: Option<string>, isDate: string -> bool)
  {
    Present(endDate) ==> isDate(endDate.value)
  }

  /** The stored endDate: the converted date, or null for an absent or empty string. */
  function StoredEndDate(endDate: Option<string>): (r: Option<string>)
    ensures r.Some? <==> endDate.Some? && endDate.value != ""
    ensures r.Some? ==> r == endDate
  {
    if Present(endDate) then endDate else None
  }

  /**
   * The writes after the slug is chosen: the campaign row under the next id,
   * the creator's stats upsert, and 5 points to the creator.
   */
  function Inserted(db: Db, c: Campaign, now: int): Db
    requires c.creatorId in db.users
  {
    var u := db.users[c.creatorId];
    db.(campaigns := db.campaigns[db.nextId := c], nextId := db.nextId + 1,
        stats := CountCampaign(db.stats, c.creatorId, c.status == "ACTIVE", now),
        users := db.users[c.creatorId := u.(totalPoints := u.totalPoints + 5)])
  }

  method Insert(db: Store, c: Campaign, now: int)
    requires c.creatorId in db.users
    modifies db
    ensures db.State() == Inserted(old(db.State()), c, now)
  {
    db.campaigns := db.campaigns[db.nextId := c];
    db.nextId := db.nextId + 1;
    db.stats := CountCampaign(db.stats, c.creatorId, c.status == "ACTIVE", now);
    var u := db.users[c.creatorId];
    db.users := db.users[c.creatorId := u.(totalPoints := u.totalPoints + 5)];
  }

  method Create(db: Store, session: Option<Id>, body: CampaignInput, defaultStatus: string, isDate: string -> bool, now: int) returns (status: nat)
    modifies db
    ensures (db.State(), status) == CreateSpec(old(db.State()), session, body, defaultStatus, isDate, now)
  {
    if session.None? {
      return 401;
    }
    var parsed := ParseCreateCampaign(body);
    if parsed.None? {
      return 400;
    }
    var data := parsed.value;
    var uid := session.value;
    var slug := UniqueSlug(GenerateSlug(data.title), CampaignSlugs(db.State()));
    if uid !in db.users || (data.teamId.Some? && data.teamId.value !in db.teams) {
      return 500;
    }
    if Present(data.endDate) && !isDate(data.endDate.value) {
      return 500;
    }
    Insert(db, Campaign(data.(endDate := StoredEndDate(data.endDate)), slug, defaultStatus, 0.0, 0, uid), now);
    status := 201;
  }

  // ---------------------------------------------------------------------------
  // What a POST promises
  // ---------------------------------------------------------------------------

  /** Without a session the answer is 401 and nothing is written. */
  lemma CreateUnauthorized(db: Db, body: CampaignInput, defaultStatus: string, isDate: string -> bool, now: int)
    ensures CreateSpec(db, None, body, defaultStatus, isDate, now) == (db, 401)
  {
  }

  /** A body createCampaignSchema refuses is answered 400 and nothing is written. */
  lemma CreateInvalid(db: Db, uid: Id, body: CampaignInput, defaultStatus: string, isDate: string -> bool, now: int)
    requires ParseCreateCampaign(body).None?
    ensures CreateSpec(db, Some(uid), body, defaultStatus, isDate, now) == (db, 400)
  {
  }

  /** A creator or team the database does not hold fails the insert: 500 and nothing written. */
  lemma CreateDangling(db: Db, uid: Id, body: CampaignInput, defaultStatus: string, isDate: string -> bool, now: int)
    requires ParseCreateCampaign(body).Some?
    requires uid !in db.users || (body.teamId.Some? && body.teamId.value !in db.teams)
    ensures CreateSpec(db, Some(uid), body, defaultStatus, isDate, now) == (db, 500)
  {
  }

  /**
   * A non-empty endDate that `new Date` cannot parse gives an Invalid Date, which
   * the insert refuses: 500 and nothing written.
   */
  lemma CreateInvalidDate(db: Db, uid: Id, body: CampaignInput, defaultStatus: string, isDate: string -> bool, now: int)
    requires ParseCreateCampaign(body).Some?
    requires body.endDate.Some? && body.endDate.value != "" && !isDate(body.endDate.value)
    ensures CreateSpec(db, Some(uid), body, defaultStatus, isDate, now) == (db, 500)
  {
  }

  /**
   * A created campaign is stored under a fresh id, with the validated fields,
   * the creator, nothing raised yet and a slug no other campaign uses: the
   * title's slug if that is free, otherwise the first free `slug-k`.
   * Donations, teams, memberships and badges are untouched.
   */
  lemma CreateInserts(db: Db, uid: Id, body: CampaignInput, defaultStatus: string, isDate: string -> bool, now: int)
    requires db.Valid()
    requires ParseCreateCampaign(body).Some? && uid in db.users
    requires body.teamId.Some? ==> body.teamId.value in db.teams
    requires body.endDate.Some? && body.endDate.value != "" ==> isDate(body.endDate.value)
    ensures var (r, status) := CreateSpec(db, Some(uid), body, defaultStatus, isDate, now);
      var data := ParseCreateCampaign(body).value;
      var base := GenerateSlug(body.title);
      && status == 201
      && db.nextId !in db.campaigns
      && r.campaigns.Keys == db.campaigns.Keys + {db.nextId}
      && (forall id :: id in db.campaigns ==> r.campaigns[id] == db.campaigns[id])
      && var c := r.campaigns[db.nextId];
      && c.info == data.(endDate := c.info.endDate)
      && (c.info.endDate.Some? <==> body.endDate.Some? && body.endDate.value != "")
      && (c.info.endDate.Some? ==> c.info.endDate == body.endDate)
      && c.creatorId == uid && c.status == defaultStatus
      && c.raisedAmount == 0.0 && c.donationCount == 0
      && c.slug !in CampaignSlugs(db)
      && (base !in CampaignSlugs(db) ==> c.slug == base)
      && (base in CampaignSlugs(db) ==>
            exists k: nat :: k >= 1 && c.slug == Candidate(base, k)
              && forall j: nat :: 1 <= j < k ==> Candidate(base, j) in CampaignSlugs(db))
      && r.nextId == db.nextId + 1
      && r.donations == db.donations && r.teams == db.teams && r.members == db.members
      && r.catalog == db.catalog && r.userBadges == db.userBadges && r.leaderboards == db.leaderboards
  {
    var data := ParseCreateCampaign(body).value;
    FreeSlugSound(GenerateSlug(data.title), CampaignSlugs(db));
  }

  /**
   * The creator's stats: a new row has totalCampaigns 1 and activeCampaigns 1
   * exactly when the campaign is ACTIVE; an existing row gains one campaign,
   * and one active campaign exactly when the campaign is ACTIVE. Other rows
   * are kept.
   */
  lemma CreateCountsCampaign(db: Db, uid: Id, body: CampaignInput, defaultStatus: string, isDate: string -> bool, now: int)
    requires ParseCreateCampaign(body).Some? && uid in db.users
    requires body.teamId.Some? ==> body.teamId.value in db.teams
    requires body.endDate.Some? && body.endDate.value != "" ==> isDate(body.endDate.value)
    ensures var r := CreateSpec(db, Some(uid), body, defaultStatus, isDate, now).0;
      var active := defaultStatus == "ACTIVE";
      && r.stats.Keys == db.stats.Keys + {uid}
      && (uid !in db.stats ==>
            r.stats[uid].totalCampaigns == 1 && (r.stats[uid].activeCampaigns == 1 <==> active)
            && r.stats[uid].activeCampaigns <= 1 && r.stats[uid].totalDonations == 0)
      && (uid in db.stats ==>
            && r.stats[uid].totalCampaigns == db.stats[uid].totalCampaigns + 1
            && (r.stats[uid].activeCampaigns == db.stats[uid].activeCampaigns + 1 <==> active)
            && (!active ==> r.stats[uid].activeCampaigns == db.stats[uid].activeCampaigns)
            && r.stats[uid].totalRaised == db.stats[uid].totalRaised
            && r.stats[uid].totalDonations == db.stats[uid].totalDonations
            && r.stats[uid].lastActive == now)
      && (forall u :: u in db.stats && u != uid ==> r.stats[u] == db.stats[u])
  {
  }

  /** The creator's totalPoints rises by exactly 5, the level is kept, and no other user changes. */
  lemma CreateAwardsFive(db: Db, uid: Id, body: CampaignInput, defaultStatus: string, isDate: string -> bool, now: int)
    requires ParseCreateCampaign(body).Some? && uid in db.users
    requires body.teamId.Some? ==> body.teamId.value in db.teams
    requires body.endDate.Some? && body.endDate.value != "" ==> isDate(body.endDate.value)
    ensures var r := CreateSpec(db, Some(uid), body, defaultStatus, isDate, now).0;
      && r.users.Keys == db.users.Keys
      && r.users[uid].totalPoints == db.users[uid].totalPoints + 5
      && r.users[uid].level == db.users[uid].level
      && (forall u :: u in db.users && u != uid ==> r.users[u] == db.users[u])
  {
  }

  /** Whatever the outcome, a valid store stays valid. */
  lemma CreateValid(db: Db, session: Option<Id>, body: CampaignInput, defaultStatus: string, isDate: string -> bool, now: int)
    requires db.Valid()
    ensures CreateSpec(db, session, body, defaultStatus, isDate, now).0.Valid()
  {
    var r := CreateSpec(db, session, body, defaultStatus, isDate, now).0;
    if r != db {
      forall id | id in r.campaigns
        ensures r.CampaignLinked(id)
      {
        if id != db.nextId {
          assert db.CampaignLinked(id);
        }
      }
    }
  }

  /** Campaign slugs stay pairwise distinct. */
  lemma CreateKeepsSlugsDistinct(db: Db, session: Option<Id>, body: CampaignInput, defaultStatus: string, isDate: string -> bool, now: int)
    requires db.Valid() && DistinctSlugs(db)
    ensures DistinctSlugs(CreateSpec(db, session, body, defaultStatus, isDate, now).0)
  {
    var r := CreateSpec(db, session, body, defaultStatus, isDate, now).0;
    if r != db {
      var data := ParseCreateCampaign(body).value;
      FreeSlugSound(GenerateSlug(data.title), CampaignSlugs(db));
      assert forall b :: b in db.campaigns ==> db.campaigns[b].slug in CampaignSlugs(db);
    }
  }
}
