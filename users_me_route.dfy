/** `GET /api/users/me`: the signed-in user's record, linked accounts, five most
    recent sessions and activity counts (app/api/users/me/route.ts). */
module UsersMeRoute {
  import opened Wrappers
  import opened Query
  import opened Http
  import opened Store

  datatype AccountView = AccountView(id: string, provider: string, providerAccountId: string, kind: string)

  /** A session as the page shows it; `isActive` compares its expiry with the request time. */
  datatype SessionView = SessionView(id: string, expires: int, isActive: bool)

  datatype Stats = Stats(reviews: nat, favorites: nat)

  datatype MeBody = MeBody(user: User, accounts: seq<AccountView>, sessions: seq<SessionView>, stats: Stats)

  function AccountOfUser(userId: string): Account -> bool {
    (a: Account) => a.userId == userId
  }

  function SessionOfUser(userId: string): Session -> bool {
    (s: Session) => s.userId == userId
  }

  function ReviewByUser(userId: string): Review -> bool {
    (r: Review) => r.userId == userId
  }

  function FavoriteOfUser(userId: string): Favorite -> bool {
    (f: Favorite) => f.userId == userId
  }

  function LatestFirst(): (Session, Session) -> bool {
    Desc((s: Session) => s.expires)
  }

  /** The user's sessions, latest expiry first, every one of them. */
  function UserSessions(db: Db, userId: string): (r: seq<Session>)
    ensures SortedBy(r, LatestFirst())
    ensures multiset(r) == multiset(Filter(db.sessions, SessionOfUser(userId)))
    ensures |r| == Count(db.sessions, SessionOfUser(userId))
  {
    CountIsFilterLength(db.sessions, SessionOfUser(userId));
    SortBy(Filter(db.sessions, SessionOfUser(userId)), LatestFirst())
  }

  /** `sessions: { orderBy: { expires: 'desc' }, take: 5 }`: the first five of the
      user's sessions in expiry order, drawn from the user's sessions only. */
  function RecentSessions(db: Db, userId: string): (r: seq<Session>)
    ensures |r| == MinNat(5, Count(db.sessions, SessionOfUser(userId)))
    ensures r == UserSessions(db, userId)[..|r|]
    ensures multiset(r) <= multiset(Filter(db.sessions, SessionOfUser(userId)))
    ensures SortedBy(r, LatestFirst())
    ensures forall i :: 0 <= i < |r| ==> r[i].userId == userId
  {
    var all := UserSessions(db, userId);
    AllInSubMultiset(all, Filter(db.sessions, SessionOfUser(userId)), SessionOfUser(userId));
    SkipTakeSorted(all, 0, 5, LatestFirst());
    var r := SkipTake(all, 0, 5);
    assert r == all[..|r|];
    assert all == r + all[|r|..];
    r
  }

  /** The five shown are the latest: a session of the user that is not shown
      expires no later than any that is. */
  lemma RecentSessionsAreTheLatest(db: Db, userId: string, x: Session)
    requires x in db.sessions && x.userId == userId
    requires x !in RecentSessions(db, userId)
    ensures forall i :: 0 <= i < |RecentSessions(db, userId)| ==> RecentSessions(db, userId)[i].expires >= x.expires
  {
    var all := UserSessions(db, userId);
    var shown := RecentSessions(db, userId);
    FilterMembership(db.sessions, SessionOfUser(userId), x);
    assert x in multiset(all);
    var k :| 0 <= k < |all| && all[k] == x;
    assert k >= 5;
    forall i | 0 <= i < |shown| ensures shown[i].expires >= x.expires {
      assert shown[i] == all[i];
      assert LatestFirst()(all[i], all[k]);
    }
  }

  function ViewOfAccount(a: Account): AccountView {
    AccountView(a.id, a.provider, a.providerAccountId, a.kind)
  }

  function ViewOfSession(now: int): Session -> SessionView {
    (s: Session) => SessionView(s.id, s.expires, s.expires > now)
  }

  /** The listed account views are exactly the views of the user's own accounts. */
  lemma AccountViewsOfUser(db: Db, id: string)
    ensures forall v :: v in Map(Filter(db.accounts, AccountOfUser(id)), ViewOfAccount) <==>
      exists a :: a in db.accounts && a.userId == id && v == ViewOfAccount(a)
  {
    var rows := Filter(db.accounts, AccountOfUser(id));
    var views := Map(rows, ViewOfAccount);
    forall v | v in views
      ensures exists a :: a in db.accounts && a.userId == id && v == ViewOfAccount(a)
    {
      var k :| 0 <= k < |views| && views[k] == v;
      FilterMembership(db.accounts, AccountOfUser(id), rows[k]);
    }
    forall a | a in db.accounts && a.userId == id
      ensures ViewOfAccount(a) in views
    {
      FilterMembership(db.accounts, AccountOfUser(id), a);
      var k :| 0 <= k < |rows| && rows[k] == a;
      assert views[k] == ViewOfAccount(a);
    }
  }

  /** The GET handler. `session` is the session user's id (None without a session
      user) and `now` the request time in milliseconds. */
  function Get(db: Db, session: Option<string>, now: int): (resp: Response<MeBody>)
    ensures session.None? <==> resp == Err(Unauthorized)
    ensures resp == Err(NotFound) <==> session.Some? && FindById(db.users, session.value).None?
    ensures resp.Ok? ==>
      var id := session.value;
      var body := resp.body;
      && body.user in db.users && body.user.id == id
      && body.sessions == Map(RecentSessions(db, id), ViewOfSession(now))
      && |body.sessions| <= 5
      && |body.sessions| == MinNat(5, Count(db.sessions, SessionOfUser(id)))
      && (forall i :: 0 <= i < |body.sessions| ==> (body.sessions[i].isActive <==> body.sessions[i].expires > now))
      && (forall i, j :: 0 <= i < j < |body.sessions| ==> body.sessions[i].expires >= body.sessions[j].expires)
      && |body.accounts| == Count(db.accounts, AccountOfUser(id))
      && (forall v :: v in body.accounts <==>
            exists a :: a in db.accounts && a.userId == id && v == ViewOfAccount(a))
      && body.stats == Stats(Count(db.reviews, ReviewByUser(id)), Count(db.favorites, FavoriteOfUser(id)))
  {
    match session
    case None => Err(Unauthorized)
    case Some(id) =>
      match FindById(db.users, id)
      case None => Err(NotFound)
      case Some(user) =>
        CountIsFilterLength(db.accounts, AccountOfUser(id));
        AccountViewsOfUser(db, id);
        var recent := RecentSessions(db, id);
        var views := Map(recent, ViewOfSession(now));
        assert forall i, j :: 0 <= i < j < |views| ==> LatestFirst()(recent[i], recent[j]);
        Ok(MeBody(
          user,
          Map(Filter(db.accounts, AccountOfUser(id)), ViewOfAccount),
          views,
          Stats(Count(db.reviews, ReviewByUser(id)), Count(db.favorites, FavoriteOfUser(id)))))
  }
}
