/**
 * app/api/teams/route.ts: GET lists teams of one status (ACTIVE unless the
 * query string names another), highest raisedAmount first, one page at a
 * time; POST creates a team under a unique slug with its creator as the one
 * LEADER member.
 */
module Teams {
  import opened Common
  import opened Utils
  import opened Validations
  import opened Schema
  import opened Ranking
  import opened Slugs
  import opened Paging

  // ---------------------------------------------------------------------------
  // GET: the `where` object and the page
  // ---------------------------------------------------------------------------

  /** The query string's filter parameters, as `searchParams.get` returns them. */
  datatype Query = Query(status: Option<string>, search: Option<string>)

  /** The `where` object: `status` is always set; None is an `OR` the handler never set. */
  datatype Where = Where(status: string, search: Option<string>)

  /** `searchParams.get('status') || 'ACTIVE'`. */
  function StatusParam(p: Option<string>): (r: string)
    ensures Present(p) ==> r == p.value
    ensures !Present(p) ==> r == "ACTIVE"
  {
    if Present(p) then p.value else "ACTIVE"
  }

  /**
   * How Prisma reads the `where` object: the status must be equal, and `OR`
   * holds when the term occurs, ignoring case, in the name or in a
   * description the team has.
   */
  predicate Matches(w: Where, t: Team)
  {
    && t.status == w.status
    && (w.search.Some? ==>
          || ContainsInsensitive(t.info.name, w.search.value)
          || (t.info.description.Some? && ContainsInsensitive(t.info.description.value, w.search.value)))
  }

  /**
   * The teams a query asks for: those of the named status (ACTIVE when the
   * parameter is missing or empty), and, when a non-empty search term is
   * given, those whose name or description contains it.
   */
  predicate Admits(q: Query, t: Team)
  {
    && (Present(q.status) ==> t.status == q.status.value)
    && (!Present(q.status) ==> t.status == "ACTIVE")
    && (Present(q.search) ==>
          || ContainsInsensitive(t.info.name, q.search.value)
          || (t.info.description.Some? && ContainsInsensitive(t.info.description.value, q.search.value)))
  }

  /** The handler's `where` construction. */
  method BuildWhere(q: Query) returns (w: Where)
    ensures forall t :: Matches(w, t) <==> Admits(q, t)
    ensures w.search.Some? <==> Present(q.search)
  {
    w := Where(StatusParam(q.status), None);
    if Present(q.search) {
      w := w.(search := q.search);
    }
  }

  /** The teams the query admits, highest raisedAmount first: what `findMany` pages through and `count` counts. */
  function Admitted(db: Db, q: Query): seq<(Id, Team)>
  {
    SortDesc(Filter(Rows(db.teams, db.nextId), (row: (Id, Team)) => Admits(q, row.1)), TeamRaised)
  }

  /** The reply to GET with query `q` and the `page` and `limit` parameters. */
  function ListSpec(db: Db, q: Query, pageParam: Option<int>, limitParam: Option<int>): Listing<(Id, Team)>
  {
    Paginate(Admitted(db, q), pageParam, limitParam)
  }

  method List(db: Store, q: Query, pageParam: Option<int>, limitParam: Option<int>) returns (reply: Listing<(Id, Team)>)
    ensures reply == ListSpec(db.State(), q, pageParam, limitParam)
  {
    var w := BuildWhere(q);
    var rows := Rows(db.teams, db.nextId);
    FilterCongruent(rows, (row: (Id, Team)) => Matches(w, row.1), (row: (Id, Team)) => Admits(q, row.1));
    var matched := SortDesc(Filter(rows, (row: (Id, Team)) => Matches(w, row.1)), TeamRaised);
    reply := Paginate(matched, pageParam, limitParam);
  }

  /**
   * The admitted rows are exactly the stored teams the query admits, in
   * non-increasing raisedAmount order.
   */
  lemma AdmittedSound(db: Db, q: Query)
    ensures NonIncreasing(Admitted(db, q), TeamRaised)
    ensures forall row :: row in Admitted(db, q) ==>
      row.0 in db.teams && db.teams[row.0] == row.1 && Admits(q, row.1)
    ensures forall id :: id in db.teams && id < db.nextId && Admits(q, db.teams[id]) ==>
      (id, db.teams[id]) in Admitted(db, q)
  {
    var filtered := Filter(Rows(db.teams, db.nextId), (row: (Id, Team)) => Admits(q, row.1));
    SortDescSound(filtered, TeamRaised);
    forall row | row in Admitted(db, q)
      ensures row in filtered
    {
      assert row in multiset(Admitted(db, q));
    }
    forall id | id in db.teams && id < db.nextId && Admits(q, db.teams[id])
      ensures (id, db.teams[id]) in Admitted(db, q)
    {
      assert (id, db.teams[id]) in multiset(filtered);
    }
  }

  /** Every listed row is a stored team the query admits, and the page is in non-increasing raisedAmount order. */
  lemma ListSound(db: Db, q: Query, pageParam: Option<int>, limitParam: Option<int>)
    ensures var reply := ListSpec(db, q, pageParam, limitParam);
      reply.Listed? ==>
        && NonIncreasing(reply.items, TeamRaised)
        && forall row :: row in reply.items ==> row.0 in db.teams && db.teams[row.0] == row.1 && Admits(q, row.1)
  {
    AdmittedSound(db, q);
    PaginateFrom(Admitted(db, q), pageParam, limitParam);
    PaginateKeepsOrder(Admitted(db, q), TeamRaised, pageParam, limitParam);
  }

  /** With no status parameter, only ACTIVE teams are listed. */
  lemma ListDefaultsToActive(db: Db, search: Option<string>, pageParam: Option<int>, limitParam: Option<int>)
    ensures var reply := ListSpec(db, Query(None, search), pageParam, limitParam);
      reply.Listed? ==> forall row :: row in reply.items ==> row.1.status == "ACTIVE"
  {
    ListSound(db, Query(None, search), pageParam, limitParam);
  }

  /**
   * Every team the query admits is listed: with a positive limit it is on
   * some page between 1 and totalPages.
   */
  lemma ListComplete(db: Db, q: Query, limit: int, id: Id)
    requires limit > 0
    requires id in db.teams && id < db.nextId && Admits(q, db.teams[id])
    ensures exists page :: 1 <= page && OnPage(ListSpec(db, q, Some(page), Some(limit)), (id, db.teams[id]), page)
  {
    AdmittedSound(db, q);
    var matched := Admitted(db, q);
    var i :| 0 <= i < |matched| && matched[i] == (id, db.teams[id]);
    OnSomePage(matched, limit, i);
  }

  // ---------------------------------------------------------------------------
  // POST: create a team
  // ---------------------------------------------------------------------------

  /** The slugs the teams table already uses. */
  function TeamSlugs(db: Db): set<string>
  {
    set id | id in db.teams :: db.teams[id].slug
  }

  /** No two teams share a slug (the column is unique). */
  ghost predicate DistinctSlugs(db: Db)
  {
    forall a, b :: a in db.teams && b in db.teams && db.teams[a].slug == db.teams[b].slug ==> a == b
  }

  /**
   * The store and the status after POST by the session user `session` with
   * body `body`. New teams take the table's default status `defaultStatus`.
   */
  function CreateSpec(db: Db, session: Option<Id>, body: TeamInput, defaultStatus: string): (Db, nat)
  {
    if session.None? then (db, 401)
    else match ParseCreateTeam(body)
      case None => (db, 400)
      case Some(data) =>
        var uid := session.value;
        if uid !in db.users then (db, 500)
        else (Founded(db, Team(data, FreeSlug(GenerateSlug(data.name), TeamSlugs(db)), defaultStatus, 0.0, 1, 0, uid)), 201)
  }

  /** The writes after the slug is chosen: the team under the next id, and its creator as LEADER. */
  function Founded(db: Db, t: Team): Db
  {
    db.(teams := db.teams[db.nextId := t], nextId := db.nextId + 1,
        members := db.members[(db.nextId, t.creatorId) := Membership(Leader, 0.0)])
  }

  method Create(db: Store, session: Option<Id>, body: TeamInput, defaultStatus: string) returns (status: nat)
    modifies db
    ensures (db.State(), status) == CreateSpec(old(db.State()), session, body, defaultStatus)
  {
    if session.None? {
      return 401;
    }
    var parsed := ParseCreateTeam(body);
    if parsed.None? {
      return 400;
    }
    var data := parsed.value;
    var uid := session.value;
    var slug := UniqueSlug(GenerateSlug(data.name), TeamSlugs(db.State()));
    if uid !in db.users {
      return 500;
    }
    Found(db, Team(data, slug, defaultStatus, 0.0, 1, 0, uid));
    status := 201;
  }

  method Found(db: Store, t: Team)
    modifies db
    ensures db.State() == Founded(old(db.State()), t)
  {
    var teamId := db.nextId;
    db.teams := db.teams[teamId := t];
    db.nextId := db.nextId + 1;
    db.members := db.members[(teamId, t.creatorId) := Membership(Leader, 0.0)];
  }

  // ---------------------------------------------------------------------------
  // What a POST promises
  // ---------------------------------------------------------------------------

  /** Without a session the answer is 401 and nothing is written. */
  lemma CreateUnauthorized(db: Db, body: TeamInput, defaultStatus: string)
    ensures CreateSpec(db, None, body, defaultStatus) == (db, 401)
  {
  }

  /** A body createTeamSchema refuses is answered 400 and nothing is written. */
  lemma CreateInvalid(db: Db, uid: Id, body: TeamInput, defaultStatus: string)
    requires ParseCreateTeam(body).None?
    ensures CreateSpec(db, Some(uid), body, defaultStatus) == (db, 400)
  {
  }

  /** A creator the database does not hold fails the insert: 500 and nothing written. */
  lemma CreateDangling(db: Db, uid: Id, body: TeamInput, defaultStatus: string)
    requires ParseCreateTeam(body).Some? && uid !in db.users
    ensures CreateSpec(db, Some(uid), body, defaultStatus) == (db, 500)
  {
  }

  /**
   * A created team is stored under a fresh id with the validated fields, one
   * member, no campaigns, nothing raised and a slug no other team uses (the
   * name's slug if free, otherwise the first free `slug-k`); it has exactly
   * one membership, its creator as LEADER. Nothing else changes.
   */
  lemma CreateFounds(db: Db, uid: Id, body: TeamInput, defaultStatus: string)
    requires db.Valid()
    requires ParseCreateTeam(body).Some? && uid in db.users
    ensures var (r, status) := CreateSpec(db, Some(uid), body, defaultStatus);
      var data := ParseCreateTeam(body).value;
      var base := GenerateSlug(body.name);
      var tid := db.nextId;
      && status == 201
      && tid !in db.teams
      && r.teams.Keys == db.teams.Keys + {tid}
      && (forall id :: id in db.teams ==> r.teams[id] == db.teams[id])
      && var t := r.teams[tid];
      && t.info == data && t.creatorId == uid && t.status == defaultStatus
      && t.memberCount == 1 && t.campaignCount == 0 && t.raisedAmount == 0.0
      && t.slug !in TeamSlugs(db)
      && (base !in TeamSlugs(db) ==> t.slug == base)
      && (base in TeamSlugs(db) ==>
            exists k: nat :: k >= 1 && t.slug == Candidate(base, k)
              && forall j: nat :: 1 <= j < k ==> Candidate(base, j) in TeamSlugs(db))
      && (forall u :: (tid, u) in r.members <==> u == uid)
      && r.members[(tid, uid)].role == Leader
      && (forall k :: k in db.members ==> k in r.members && r.members[k] == db.members[k])
      && r.members.Keys == db.members.Keys + {(tid, uid)}
      && r.nextId == tid + 1
      && r.users == db.users && r.donations == db.donations && r.campaigns == db.campaigns
      && r.stats == db.stats && r.catalog == db.catalog && r.userBadges == db.userBadges
      && r.leaderboards == db.leaderboards
  {
    var data := ParseCreateTeam(body).value;
    FreeSlugSound(GenerateSlug(data.name), TeamSlugs(db));
  }

  /** Whatever the outcome, a valid store stays valid. */
  lemma CreateValid(db: Db, session: Option<Id>, body: TeamInput, defaultStatus: string)
    requires db.Valid()
    ensures CreateSpec(db, session, body, defaultStatus).0.Valid()
  {
    var r := CreateSpec(db, session, body, defaultStatus).0;
    if r != db {
      forall id | id in r.campaigns
        ensures r.CampaignLinked(id)
      {
        assert db.CampaignLinked(id);
      }
    }
  }

  /** Team slugs stay pairwise distinct. */
  lemma CreateKeepsSlugsDistinct(db: Db, session: Option<Id>, body: TeamInput, defaultStatus: string)
    requires db.Valid() && DistinctSlugs(db)
    ensures DistinctSlugs(CreateSpec(db, session, body, defaultStatus).0)
  {
    var r := CreateSpec(db, session, body, defaultStatus).0;
    if r != db {
      var data := ParseCreateTeam(body).value;
      FreeSlugSound(GenerateSlug(data.name), TeamSlugs(db));
      assert forall b :: b in db.teams ==> db.teams[b].slug in TeamSlugs(db);
    }
  }
}
