/**
 * Rotating refresh tokens (identity/application/auth_service.py, infrastructure/repositories.py).
 * A request that raises rolls its transaction back; only the independent security sink keeps its writes.
 * Secrets never repeat: tokens and families are numbered in the order they are drawn.
 */
module RefreshTokens {
  import opened Common

  datatype Token = Token(user: nat, family: nat, expires: int, used: Option<int>, revoked: Option<int>)
  {
    predicate Active(now: int) { used.None? && revoked.None? && expires > now }

    /** Neither consumed nor revoked, expired or not. */
    predicate Live() { used.None? && revoked.None? }
  }

  datatype User = User(active: bool, password: string)

  datatype Db = Db(users: map<nat, User>, tokens: map<nat, Token>, nextToken: nat, nextFamily: nat)

  datatype Denial = LoginDenied(user: nat) | ReuseDetected(user: nat, family: nat)

  /** The database and what the security sink recorded. */
  datatype World = World(db: Db, denials: seq<Denial>)

  /**
   * What changes the database. No request of the service writes a user's active flag: `DatabaseEdit` is an
   * edit of the user's row from outside.
   */
  datatype Request =
    | Login(user: nat, password: string, admitted: bool)
    | Refresh(token: nat)
    | Logout(actor: nat, token: nat)
    | ChangePassword(actor: nat, current: string, next: string, acceptable: bool)
    | DeleteUser(actor: nat, target: nat)
    | CreateUser(user: nat, password: string)
    | DatabaseEdit(user: nat, active: bool)

  datatype Failure = RateLimited | Unauthorized | Invalid | Forbidden | NotFound | Conflict

  type Answer = Result<Option<nat>, Failure>

  // ---------------------------------------------------------------- table updates

  function Revoke(t: Token, now: int): Token { if t.revoked.None? then t.(revoked := Some(now)) else t }

  function RevokeFamily(tokens: map<nat, Token>, family: nat, now: int): map<nat, Token> {
    map t | t in tokens :: if tokens[t].family == family then Revoke(tokens[t], now) else tokens[t]
  }

  function RevokeUser(tokens: map<nat, Token>, user: nat, now: int): map<nat, Token> {
    map t | t in tokens :: if tokens[t].user == user then Revoke(tokens[t], now) else tokens[t]
  }

  /** A new token of `family`. */
  function Issue(db: Db, user: nat, family: nat, expires: int): Db {
    db.(tokens := db.tokens[db.nextToken := Token(user, family, expires, None, None)], nextToken := db.nextToken + 1)
  }

  // ---------------------------------------------------------------- the use cases

  predicate MayLogin(db: Db, user: nat, password: string) {
    user in db.users && db.users[user].active && db.users[user].password == password
  }

  function LoginStep(w: World, user: nat, password: string, admitted: bool, expires: int): (World, Answer) {
    var db := w.db;
    if !admitted then (w.(denials := w.denials + [LoginDenied(user)]), Err(RateLimited))
    else if !MayLogin(db, user, password) then (w.(denials := w.denials + [LoginDenied(user)]), Err(Unauthorized))
    else (w.(db := Issue(db, user, db.nextFamily, expires).(nextFamily := db.nextFamily + 1)), Ok(Some(db.nextToken)))
  }

  function RefreshStep(w: World, token: nat, now: int, expires: int): (World, Answer) {
    var db := w.db;
    if token !in db.tokens then (w, Err(Unauthorized))
    else
      var state := db.tokens[token];
      if !state.Active(now) then
        // the sink's own transaction: it survives the error
        (World(db.(tokens := RevokeFamily(db.tokens, state.family, now)),
               w.denials + [ReuseDetected(state.user, state.family)]), Err(Unauthorized))
      else if state.user !in db.users || !db.users[state.user].active then
        // the family is revoked in the request's transaction, which the error rolls back
        (w, Err(Unauthorized))
      else
        var used := db.(tokens := db.tokens[token := state.(used := Some(now))]);
        (w.(db := Issue(used, state.user, state.family, expires)), Ok(Some(db.nextToken)))
  }

  function LogoutStep(w: World, actor: nat, token: nat, now: int): (World, Answer) {
    if token in w.db.tokens && w.db.tokens[token].user == actor then
      (w.(db := w.db.(tokens := RevokeFamily(w.db.tokens, w.db.tokens[token].family, now))), Ok(None))
    else (w, Ok(None))
  }

  function ChangePasswordStep(w: World, actor: nat, current: string, next: string, acceptable: bool, now: int)
    : (World, Answer)
  {
    if actor !in w.db.users || w.db.users[actor].password != current then (w, Err(Unauthorized))
    else if !acceptable then (w, Err(Invalid))
    else
      (w.(db := w.db.(users := w.db.users[actor := w.db.users[actor].(password := next)],
                      tokens := RevokeUser(w.db.tokens, actor, now))),
       Ok(None))
  }

  function DeleteUserStep(w: World, actor: nat, target: nat): (World, Answer) {
    if actor == target then (w, Err(Forbidden))
    else if target !in w.db.users then (w, Err(NotFound))
    else
      (w.(db := w.db.(users := w.db.users - {target},
                      tokens := map t | t in w.db.tokens && w.db.tokens[t].user != target :: w.db.tokens[t])), Ok(None))
  }

  function Handle(w: World, r: Request, now: int, expires: int): (World, Answer) {
    match r
    case Login(user, password, admitted) => LoginStep(w, user, password, admitted, expires)
    case Refresh(token) => RefreshStep(w, token, now, expires)
    case Logout(actor, token) => LogoutStep(w, actor, token, now)
    case ChangePassword(actor, current, next, acceptable) =>
      ChangePasswordStep(w, actor, current, next, acceptable, now)
    case DeleteUser(actor, target) => DeleteUserStep(w, actor, target)
    case CreateUser(user, password) =>
      if user in w.db.users then (w, Err(Conflict))
      else (w.(db := w.db.(users := w.db.users[user := User(true, password)])), Ok(None))
    case DatabaseEdit(user, active) =>
      if user !in w.db.users then (w, Err(NotFound))
      else (w.(db := w.db.(users := w.db.users[user := w.db.users[user].(active := active)])), Ok(None))
  }

  datatype Call = Call(request: Request, now: int, expires: int)

  function Serve(w: World, calls: seq<Call>): World {
    if calls == [] then w
    else
      var last := calls[|calls| - 1];
      Handle(Serve(w, calls[..|calls| - 1]), last.request, last.now, last.expires).0
  }

  const EMPTY: World := World(Db(map[], map[], 0, 0), [])

  // ---------------------------------------------------------------- families

  predicate Compatible(a: nat, s: Token, b: nat, t: Token) {
    s.family == t.family ==> s.user == t.user && (s.Live() && t.Live() ==> a == b)
  }

  /** A family has one owner and at most one token that is neither consumed nor revoked. */
  predicate FamiliesOk(db: Db) {
    && (forall t :: t in db.tokens ==> t < db.nextToken && db.tokens[t].family < db.nextFamily)
    && (forall a, b :: a in db.tokens && b in db.tokens ==> Compatible(a, db.tokens[a], b, db.tokens[b]))
  }

  /** Every token of the family still on record is revoked, and its number is never drawn again. */
  predicate Dead(db: Db, family: nat) {
    family < db.nextFamily && forall t :: t in db.tokens && db.tokens[t].family == family ==> db.tokens[t].revoked.Some?
  }

  /** Consumed or revoked, or no longer on record. */
  predicate Spent(db: Db, token: nat) {
    token < db.nextToken && (token in db.tokens ==> !db.tokens[token].Live())
  }

  /** Updates that only mark or remove tokens. */
  predicate Marks(a: map<nat, Token>, b: map<nat, Token>) {
    forall t :: t in b ==>
                  t in a && b[t].user == a[t].user && b[t].family == a[t].family
                  && (b[t].Live() ==> a[t].Live()) && (a[t].revoked.Some? ==> b[t].revoked.Some?)
  }

  /** What every request keeps: the families' invariant, what is dead and what is spent. */
  ghost predicate Keeps(a: Db, b: Db) {
    && FamiliesOk(b)
    && (forall f :: Dead(a, f) ==> Dead(b, f))
    && (forall t :: Spent(a, t) ==> Spent(b, t))
  }

  lemma MarksKeep(db: Db, after: Db)
    requires FamiliesOk(db) && Marks(db.tokens, after.tokens) && after.nextToken == db.nextToken
             && after.nextFamily == db.nextFamily
    ensures Keeps(db, after)
  {
  }

  lemma LoginKeeps(db: Db, user: nat, expires: int)
    requires FamiliesOk(db)
    ensures Keeps(db, Issue(db, user, db.nextFamily, expires).(nextFamily := db.nextFamily + 1))
  {
  }

  /** Consuming the family's live token makes room for one successor. */
  lemma IssueKeeps(db: Db, token: nat, expires: int)
    requires FamiliesOk(db) && token in db.tokens && !db.tokens[token].Live() && db.tokens[token].revoked.None?
    requires forall t :: t in db.tokens && db.tokens[t].family == db.tokens[token].family ==> !db.tokens[t].Live()
    ensures Keeps(db, Issue(db, db.tokens[token].user, db.tokens[token].family, expires))
  {
  }

  lemma RotationKeeps(db: Db, token: nat, now: int, expires: int)
    requires FamiliesOk(db) && token in db.tokens && db.tokens[token].Active(now)
    ensures var used := db.(tokens := db.tokens[token := db.tokens[token].(used := Some(now))]);
            var after := Issue(used, db.tokens[token].user, db.tokens[token].family, expires);
            Keeps(db, after) && Spent(after, token)
  {
    var used := db.(tokens := db.tokens[token := db.tokens[token].(used := Some(now))]);
    MarksKeep(db, used);
    forall t | t in used.tokens && used.tokens[t].family == used.tokens[token].family
      ensures !used.tokens[t].Live()
    {
      if t != token { assert Compatible(t, db.tokens[t], token, db.tokens[token]); }
    }
    IssueKeeps(used, token, expires);
  }

  lemma RefreshKeeps(w: World, token: nat, now: int, expires: int)
    requires FamiliesOk(w.db)
    ensures Keeps(w.db, RefreshStep(w, token, now, expires).0.db)
  {
    if token in w.db.tokens && w.db.tokens[token].Active(now) {
      RotationKeeps(w.db, token, now, expires);
    } else {
      MarksKeep(w.db, RefreshStep(w, token, now, expires).0.db);
    }
  }

  lemma StepKeeps(w: World, c: Call)
    requires FamiliesOk(w.db)
    ensures Keeps(w.db, Handle(w, c.request, c.now, c.expires).0.db)
  {
    var after := Handle(w, c.request, c.now, c.expires).0.db;
    match c.request
    case Login(user, password, admitted) =>
      if admitted && MayLogin(w.db, user, password) { LoginKeeps(w.db, user, c.expires); }
    case Refresh(token) => RefreshKeeps(w, token, c.now, c.expires);
    case Logout(actor, token) => MarksKeep(w.db, after);
    case ChangePassword(actor, current, next, acceptable) => MarksKeep(w.db, after);
    case DeleteUser(actor, target) => MarksKeep(w.db, after);
    case CreateUser(user, password) => MarksKeep(w.db, after);
    case DatabaseEdit(user, active) => MarksKeep(w.db, after);
  }

  lemma {:induction false} ServeKeeps(w: World, calls: seq<Call>)
    requires FamiliesOk(w.db)
    ensures Keeps(w.db, Serve(w, calls).db)
  {
    if calls != [] {
      ServeKeeps(w, calls[..|calls| - 1]);
      StepKeeps(Serve(w, calls[..|calls| - 1]), calls[|calls| - 1]);
    }
  }

  /** Over every history from an empty instance, a family has one owner and at most one live token. */
  lemma OneOwnerOneLiveToken(calls: seq<Call>)
    ensures FamiliesOk(Serve(EMPTY, calls).db)
  {
    ServeKeeps(EMPTY, calls);
  }

  // ---------------------------------------------------------------- reuse

  /** No token of the family is active at any time, and none of them ever refreshes. */
  ghost predicate FamilyOver(w: World, family: nat) {
    forall t, now, expires :: t in w.db.tokens && w.db.tokens[t].family == family ==> TokenOver(w, t, now, expires)
  }

  /** The token is not active, and presenting it is refused. */
  predicate TokenOver(w: World, t: nat, now: int, expires: int)
    requires t in w.db.tokens
  {
    !w.db.tokens[t].Active(now) && RefreshStep(w, t, now, expires).1.Err?
  }

  lemma DeadTokenIsOver(w: World, family: nat, t: nat, now: int, expires: int)
    requires Dead(w.db, family) && t in w.db.tokens && w.db.tokens[t].family == family
    ensures TokenOver(w, t, now, expires)
  {
    assert w.db.tokens[t].revoked.Some?;
  }

  lemma DeadIsOver(w: World, family: nat)
    requires Dead(w.db, family)
    ensures FamilyOver(w, family)
  {
    forall t, now, expires | t in w.db.tokens && w.db.tokens[t].family == family
      ensures TokenOver(w, t, now, expires)
    {
      DeadTokenIsOver(w, family, t, now, expires);
    }
  }

  lemma ReuseKills(w: World, token: nat, now: int, expires: int)
    requires FamiliesOk(w.db) && token in w.db.tokens && !w.db.tokens[token].Active(now)
    ensures var step := RefreshStep(w, token, now, expires); var f := w.db.tokens[token].family;
            && step.1.Err? && step.0.denials == w.denials + [ReuseDetected(w.db.tokens[token].user, f)]
            && Dead(step.0.db, f)
  {
  }

  /**
   * Once a consumed, revoked or expired token is presented, the request is refused and no token of its
   * family is ever active again, in any continuation, although the request itself was rolled back.
   */
  lemma ReuseEndsTheFamily(before: seq<Call>, token: nat, now: int, expires: int, later: seq<Call>)
    requires var db := Serve(EMPTY, before).db; token in db.tokens && !db.tokens[token].Active(now)
    ensures var w := Serve(EMPTY, before); var f := w.db.tokens[token].family;
            var step := Handle(w, Refresh(token), now, expires);
            && step.1.Err?
            && step.0.denials == w.denials + [ReuseDetected(w.db.tokens[token].user, f)]
            && FamilyOver(Serve(step.0, later), f)
  {
    var w := Serve(EMPTY, before);
    OneOwnerOneLiveToken(before);
    var f, after := w.db.tokens[token].family, RefreshStep(w, token, now, expires).0;
    ReuseKills(w, token, now, expires);
    StepKeeps(w, Call(Refresh(token), now, expires));
    ServeKeeps(after, later);
    DeadIsOver(Serve(after, later), f);
  }

  /**
   * A token is good for one refresh: after one succeeds, presenting the token again is refused whatever
   * happened in between, and with the token still on record that ends its family.
   */
  lemma TokensAreSingleUse(before: seq<Call>, token: nat, now: int, expires: int, between: seq<Call>, again: int,
                           expires': int)
    requires Handle(Serve(EMPTY, before), Refresh(token), now, expires).1.Ok?
    ensures var first := Handle(Serve(EMPTY, before), Refresh(token), now, expires).0;
            var second := Handle(Serve(first, between), Refresh(token), again, expires');
            && second.1.Err?
            && (token in Serve(first, between).db.tokens ==>
                Dead(second.0.db, Serve(first, between).db.tokens[token].family))
  {
    var w := Serve(EMPTY, before);
    OneOwnerOneLiveToken(before);
    RotationKeeps(w.db, token, now, expires);
    var first := Handle(w, Refresh(token), now, expires).0;
    ServeKeeps(first, between);
    SpentEndsFamily(Serve(first, between), token, again, expires');
  }

  lemma SpentEndsFamily(w: World, token: nat, now: int, expires: int)
    requires FamiliesOk(w.db) && Spent(w.db, token)
    ensures var step := Handle(w, Refresh(token), now, expires);
            step.1.Err? && (token in w.db.tokens ==> Dead(step.0.db, w.db.tokens[token].family))
  {
  }

  // ---------------------------------------------------------------- what a refused request leaves

  predicate HasUnrevoked(db: Db, family: nat) {
    exists t :: t in db.tokens && db.tokens[t].family == family && db.tokens[t].revoked.None?
  }

  /**
   * A request that raises leaves the database as it was, with one exception: a known token that is not
   * active was presented and its family still had a token to revoke.
   */
  lemma RefusedRequestsRollBack(w: World, c: Call)
    requires Handle(w, c.request, c.now, c.expires).1.Err?
    ensures Handle(w, c.request, c.now, c.expires).0.db != w.db <==>
            && c.request.Refresh? && c.request.token in w.db.tokens
            && !w.db.tokens[c.request.token].Active(c.now) && HasUnrevoked(w.db, w.db.tokens[c.request.token].family)
  {
    if c.request.Refresh? && c.request.token in w.db.tokens && !w.db.tokens[c.request.token].Active(c.now) {
      var f := w.db.tokens[c.request.token].family;
      var after := RevokeFamily(w.db.tokens, f, c.now);
      if HasUnrevoked(w.db, f) {
        var t :| t in w.db.tokens && w.db.tokens[t].family == f && w.db.tokens[t].revoked.None?;
        assert after[t] != w.db.tokens[t];
      } else {
        assert after == w.db.tokens;
      }
    }
  }

  ghost predicate Unedited(calls: seq<Call>) { forall c :: c in calls ==> !c.request.DatabaseEdit? }

  /** Every user is active and every token has an owner. */
  predicate AllActive(db: Db) {
    && (forall u :: u in db.users ==> db.users[u].active)
    && (forall t :: t in db.tokens ==> db.tokens[t].user in db.users)
  }

  lemma StepActive(w: World, c: Call)
    requires AllActive(w.db) && !c.request.DatabaseEdit?
    ensures AllActive(Handle(w, c.request, c.now, c.expires).0.db)
  {
  }

  lemma {:induction false} ServeActive(calls: seq<Call>)
    requires Unedited(calls)
    ensures AllActive(Serve(EMPTY, calls).db)
    decreases |calls|
  {
    if calls != [] {
      var before, last := calls[..|calls| - 1], calls[|calls| - 1];
      assert last in calls && forall c :: c in before ==> c in calls;
      ServeActive(before);
      StepActive(Serve(EMPTY, before), last);
    }
  }

  /**
   * By the service's own requests no owner is ever deactivated or missing: a refresh is refused exactly for
   * a token that is unknown or not active.
   */
  lemma RefusedIffInactive(calls: seq<Call>, token: nat, now: int, expires: int)
    requires Unedited(calls)
    ensures var w := Serve(EMPTY, calls);
            Handle(w, Refresh(token), now, expires).1.Err? <==> token !in w.db.tokens || !w.db.tokens[token].Active(now)
  {
    ServeActive(calls);
  }

  /**
   * Where someone deactivated the owner's row, the family survives its refused refresh: the revocation is
   * part of the request that raises. If the owner is activated again, the very same token refreshes.
   */
  lemma DeactivatedFamilySurvives(w: World, token: nat, now: int, expires: int)
    requires token in w.db.tokens && w.db.tokens[token].Active(now)
    requires w.db.tokens[token].user in w.db.users && !w.db.users[w.db.tokens[token].user].active
    ensures var refused := Handle(w, Refresh(token), now, expires);
            var restored := Handle(refused.0, DatabaseEdit(w.db.tokens[token].user, true), now, expires).0;
            refused.1.Err? && refused.0 == w && Handle(restored, Refresh(token), now, expires).1.Ok?
  {
  }

  /** A user, a session, and an edit of the user's row. */
  function Deactivation(): seq<Call> {
    [Call(CreateUser(0, "p"), 0, 10)] + [Call(Login(0, "p", true), 0, 10)] + [Call(DatabaseEdit(0, false), 0, 10)]
  }

  lemma ServeSnoc(w: World, calls: seq<Call>, c: Call)
    ensures Serve(w, calls + [c]) == Handle(Serve(w, calls), c.request, c.now, c.expires).0
  {
    assert (calls + [c])[..|calls|] == calls;
  }

  /**
   * From an empty instance: the session of a deactivated user is still on record, active, after its refresh was
   * refused.
   */
  lemma DeactivationIsSurvived()
    ensures var w := Serve(EMPTY, Deactivation()); var refused := Handle(w, Refresh(0), 1, 11);
            && refused.1.Err? && refused.0 == w && 0 in w.db.tokens && w.db.tokens[0].Active(1)
            && Handle(Handle(refused.0, DatabaseEdit(0, true), 1, 11).0, Refresh(0), 1, 11).1.Ok?
  {
    var user, session := Call(CreateUser(0, "p"), 0, 10), Call(Login(0, "p", true), 0, 10);
    assert [user] == [] + [user];
    ServeSnoc(EMPTY, [], user);
    ServeSnoc(EMPTY, [user], session);
    ServeSnoc(EMPTY, [user] + [session], Call(DatabaseEdit(0, false), 0, 10));
    DeactivatedFamilySurvives(Serve(EMPTY, Deactivation()), 0, 1, 11);
  }

  /** Logging out ends exactly the presented token's family, and only for its owner. */
  lemma LogoutEndsOwnFamily(w: World, actor: nat, token: nat, now: int, expires: int)
    requires FamiliesOk(w.db)
    ensures var after := Handle(w, Logout(actor, token), now, expires).0.db;
            && (token in w.db.tokens && w.db.tokens[token].user == actor ==>
                  Dead(after, w.db.tokens[token].family)
                  && forall t :: t in w.db.tokens && w.db.tokens[t].family != w.db.tokens[token].family ==>
                      t in after.tokens && after.tokens[t] == w.db.tokens[t])
            && (token !in w.db.tokens || w.db.tokens[token].user != actor ==> after == w.db)
  {
  }

  /** Changing the password ends every session of the user and of nobody else. */
  lemma PasswordChangeEndsAllSessions(w: World, c: Call, t: nat)
    requires FamiliesOk(w.db) && c.request.ChangePassword? && Handle(w, c.request, c.now, c.expires).1.Ok?
             && t in w.db.tokens
    ensures var after := Handle(w, c.request, c.now, c.expires).0.db;
            if w.db.tokens[t].user == c.request.actor then Dead(after, w.db.tokens[t].family)
            else t in after.tokens && after.tokens[t] == w.db.tokens[t]
  {
  }

  // ---------------------------------------------------------------- who gets in

  /** The same users, and one more token: live, of this user and family, under a number never used. */
  predicate Grants(a: Db, b: Db, t: nat, user: nat, family: nat, expires: int) {
    && t !in a.tokens && b.users == a.users
    && t in b.tokens && b.tokens[t] == Token(user, family, expires, None, None)
    && b.tokens.Keys == a.tokens.Keys + {t}
  }

  /**
   * An admitted login succeeds exactly with the password on record of an active user. It adds one live token of
   * that user, in a family no token has, and touches no other; a refused one leaves a denial and nothing else.
   */
  lemma LoginSucceedsIff(w: World, user: nat, password: string, now: int, expires: int)
    requires FamiliesOk(w.db)
    ensures var step := Handle(w, Login(user, password, true), now, expires); var after := step.0.db;
            && (step.1.Ok? <==>
                user in w.db.users && w.db.users[user].active && w.db.users[user].password == password)
            && (step.1.Ok? ==>
                  && step.1.value.Some? && step.0.denials == w.denials
                  && var t := step.1.value.value;
                  && t in after.tokens && Grants(w.db, after, t, user, after.tokens[t].family, expires)
                  && forall o :: o in w.db.tokens ==>
                       after.tokens[o] == w.db.tokens[o] && w.db.tokens[o].family != after.tokens[t].family)
            && (step.1.Err? ==> step == (w.(denials := w.denials + [LoginDenied(user)]), Err(Unauthorized)))
  {
  }

  /** An attempt the limiter does not admit is refused whatever the password. */
  lemma LimitedLoginIsRefused(w: World, user: nat, password: string, now: int, expires: int)
    ensures Handle(w, Login(user, password, false), now, expires) ==
            (w.(denials := w.denials + [LoginDenied(user)]), Err(RateLimited))
  {
  }

  /**
   * A refresh succeeds exactly for an active token of an active user on record. It consumes that token and adds
   * one live successor of the same user and family; no other token changes.
   */
  lemma RefreshRotates(w: World, token: nat, now: int, expires: int)
    requires FamiliesOk(w.db)
    ensures var step := Handle(w, Refresh(token), now, expires); var after := step.0.db;
            && (step.1.Ok? <==>
                && token in w.db.tokens
                && var t := w.db.tokens[token];
                && t.used == None && t.revoked == None && now < t.expires
                && t.user in w.db.users && w.db.users[t.user].active)
            && (step.1.Ok? ==>
                  && step.1.value.Some? && step.0.denials == w.denials
                  && var t := w.db.tokens[token];
                  && Grants(w.db, after, step.1.value.value, t.user, t.family, expires)
                  && after.tokens[token] == t.(used := Some(now))
                  && forall o :: o in w.db.tokens && o != token ==> after.tokens[o] == w.db.tokens[o])
  {
  }

  /** What an accepted request makes of the account of a user. */
  function Left(account: Option<User>, user: nat, r: Request): Option<User> {
    match r
    case CreateUser(u, password) => if u == user then Some(User(true, password)) else account
    case DeleteUser(_, target) => if target == user then None else account
    case ChangePassword(actor, _, next, _) =>
      if actor == user && account.Some? then Some(account.value.(password := next)) else account
    case DatabaseEdit(u, active) =>
      if u == user && account.Some? then Some(account.value.(active := active)) else account
    case _ => account
  }

  /** The account of a user, as the accepted requests left it. */
  function Account(calls: seq<Call>, user: nat): Option<User> {
    if calls == [] then None
    else
      var before, last := calls[..|calls| - 1], calls[|calls| - 1];
      if Handle(Serve(EMPTY, before), last.request, last.now, last.expires).1.Err? then Account(before, user)
      else Left(Account(before, user), user, last.request)
  }

  /** What the users' table says of a user. */
  function OnRecord(db: Db, user: nat): Option<User> { if user in db.users then Some(db.users[user]) else None }

  lemma {:induction false} AccountsAreOnRecord(calls: seq<Call>, user: nat)
    ensures OnRecord(Serve(EMPTY, calls).db, user) == Account(calls, user)
    decreases |calls|
  {
    if calls != [] {
      var before, last := calls[..|calls| - 1], calls[|calls| - 1];
      AccountsAreOnRecord(before, user);
      RequestLeavesUser(Serve(EMPTY, before), last, user);
    }
  }

  lemma RequestLeavesUser(w: World, c: Call, user: nat)
    ensures var step := Handle(w, c.request, c.now, c.expires); var before := OnRecord(w.db, user);
            OnRecord(step.0.db, user) == if step.1.Err? then before else Left(before, user, c.request)
  {
  }

  /**
   * Over every history: an admitted login succeeds exactly for an active account with its latest password, the one
   * it was created with or last changed to; no earlier password and no deleted account gets in.
   */
  lemma LatestPasswordLogsIn(calls: seq<Call>, user: nat, password: string, now: int, expires: int)
    ensures Handle(Serve(EMPTY, calls), Login(user, password, true), now, expires).1.Ok? <==>
            Account(calls, user) == Some(User(true, password))
  {
    AccountsAreOnRecord(calls, user);
    OneOwnerOneLiveToken(calls);
    LoginSucceedsIff(Serve(EMPTY, calls), user, password, now, expires);
  }

  /** When a request about an account should be accepted. */
  predicate Acceptable(calls: seq<Call>, r: Request) {
    match r
    case CreateUser(u, _) => Account(calls, u) == None
    case DeleteUser(actor, target) => actor != target && Account(calls, target) != None
    case ChangePassword(actor, current, _, acceptable) =>
      acceptable && Account(calls, actor).Some? && Account(calls, actor).value.password == current
    case DatabaseEdit(u, _) => Account(calls, u) != None
    case _ => true
  }

  /** And it is accepted exactly then; logging out always is. */
  lemma AccountRequestsAreAccepted(calls: seq<Call>, r: Request, now: int, expires: int)
    requires !r.Login? && !r.Refresh?
    ensures Handle(Serve(EMPTY, calls), r, now, expires).1.Ok? <==> Acceptable(calls, r)
  {
    match r
    case CreateUser(u, _) => AccountsAreOnRecord(calls, u);
    case DeleteUser(actor, target) => AccountsAreOnRecord(calls, target);
    case ChangePassword(actor, _, _, _) => AccountsAreOnRecord(calls, actor);
    case DatabaseEdit(u, _) => AccountsAreOnRecord(calls, u);
    case _ =>
  }

  /** Deleting a user takes exactly that user's tokens along. */
  lemma DeletionTakesSessions(w: World, actor: nat, target: nat, now: int, expires: int)
    requires Handle(w, DeleteUser(actor, target), now, expires).1.Ok?
    ensures var after := Handle(w, DeleteUser(actor, target), now, expires).0.db;
            forall t :: && (t in after.tokens <==> t in w.db.tokens && w.db.tokens[t].user != target)
                        && (t in after.tokens ==> after.tokens[t] == w.db.tokens[t])
  {
  }

  // ---------------------------------------------------------------- the service

  /** The committed tables, and the security sink with its own session. */
  class AuthService {
    var users: map<nat, User>
    var tokens: map<nat, Token>
    var nextToken: nat
    var nextFamily: nat
    var denials: seq<Denial>
    const refreshTtl: int

    function State(): World
      reads this
    {
      World(Db(users, tokens, nextToken, nextFamily), denials)
    }

    /** Families have one owner and at most one live token each. */
    ghost predicate Valid()
      reads this
    {
      FamiliesOk(State().db)
    }

    constructor (refreshTtl: int)
      ensures Valid() && State() == EMPTY && this.refreshTtl == refreshTtl
    {
      users, tokens, nextToken, nextFamily, denials := map[], map[], 0, 0, [];
      this.refreshTtl := refreshTtl;
    }

    /** Draw a secret and store its row. */
    method IssuePair(user: nat, family: nat, now: int) returns (token: nat)
      modifies this`tokens, this`nextToken
      ensures State().db == Issue(old(State().db), user, family, now + refreshTtl) && token == old(nextToken)
    {
      token := nextToken;
      tokens := tokens[token := Token(user, family, now + refreshTtl, None, None)];
      nextToken := nextToken + 1;
    }

    method Login(user: nat, password: string, admitted: bool, now: int) returns (answer: Answer)
      requires Valid()
      modifies this
      ensures Valid()
      ensures (State(), answer) == Handle(old(State()), Request.Login(user, password, admitted), now, now + refreshTtl)
    {
      StepKeeps(State(), Call(Request.Login(user, password, admitted), now, now + refreshTtl));
      if !admitted {
        denials := denials + [LoginDenied(user)];
        return Err(RateLimited);
      }
      if user !in users || users[user].password != password || !users[user].active {
        denials := denials + [LoginDenied(user)];
        return Err(Unauthorized);
      }
      var family := nextFamily;
      nextFamily := nextFamily + 1;
      var token := IssuePair(user, family, now);
      answer := Ok(Some(token));
    }

    /** The sink's own transaction, which commits whatever becomes of the request. */
    method SinkRevokeFamily(family: nat, now: int)
      modifies this`tokens
      ensures tokens == RevokeFamily(old(tokens), family, now)
    {
      tokens := map t | t in tokens ::
        if tokens[t].family == family && tokens[t].revoked.None? then tokens[t].(revoked := Some(now)) else tokens[t];
    }

    method Refresh(token: nat, now: int) returns (answer: Answer)
      requires Valid()
      modifies this
      ensures Valid() && (State(), answer) == Handle(old(State()), Request.Refresh(token), now, now + refreshTtl)
    {
      StepKeeps(State(), Call(Request.Refresh(token), now, now + refreshTtl));
      if token !in tokens { return Err(Unauthorized); }
      var state := tokens[token];
      if !state.Active(now) {
        SinkRevokeFamily(state.family, now);
        denials := denials + [ReuseDetected(state.user, state.family)];
        return Err(Unauthorized);
      }
      var begun := tokens;
      if state.user !in users || !users[state.user].active {
        tokens := RevokeFamily(tokens, state.family, now);
        tokens := begun; // the session rolls back
        return Err(Unauthorized);
      }
      tokens := tokens[token := state.(used := Some(now))];
      var successor := IssuePair(state.user, state.family, now);
      answer := Ok(Some(successor));
    }

    method Logout(actor: nat, token: nat, now: int) returns (answer: Answer)
      requires Valid()
      modifies this
      ensures Valid() && (State(), answer) == Handle(old(State()), Request.Logout(actor, token), now, now + refreshTtl)
    {
      StepKeeps(State(), Call(Request.Logout(actor, token), now, now + refreshTtl));
      if token in tokens && tokens[token].user == actor { tokens := RevokeFamily(tokens, tokens[token].family, now); }
      answer := Ok(None);
    }

    method ChangePassword(actor: nat, current: string, next: string, acceptable: bool, now: int)
      returns (answer: Answer)
      requires Valid()
      modifies this
      ensures Valid()
      ensures (State(), answer) ==
              Handle(old(State()), Request.ChangePassword(actor, current, next, acceptable), now, now + refreshTtl)
    {
      StepKeeps(State(), Call(Request.ChangePassword(actor, current, next, acceptable), now, now + refreshTtl));
      if actor !in users || users[actor].password != current { return Err(Unauthorized); }
      if !acceptable { return Err(Invalid); }
      users := users[actor := users[actor].(password := next)];
      tokens := RevokeUser(tokens, actor, now);
      answer := Ok(None);
    }

    method CreateUser(user: nat, password: string, now: int) returns (answer: Answer)
      requires Valid()
      modifies this
      ensures Valid()
      ensures (State(), answer) == Handle(old(State()), Request.CreateUser(user, password), now, now + refreshTtl)
    {
      StepKeeps(State(), Call(Request.CreateUser(user, password), now, now + refreshTtl));
      if user in users { return Err(Conflict); }
      users := users[user := User(true, password)];
      answer := Ok(None);
    }

    /** The sessions go with the user's row; without such a row the request rolls back. */
    method DeleteUser(actor: nat, target: nat, now: int) returns (answer: Answer)
      requires Valid()
      modifies this
      ensures Valid()
      ensures (State(), answer) == Handle(old(State()), Request.DeleteUser(actor, target), now, now + refreshTtl)
    {
      StepKeeps(State(), Call(Request.DeleteUser(actor, target), now, now + refreshTtl));
      if actor == target { return Err(Forbidden); }
      var begun := tokens;
      tokens := RevokeUser(tokens, target, now);
      if target !in users {
        tokens := begun; // the session rolls back
        return Err(NotFound);
      }
      users := users - {target};
      tokens := map t | t in tokens && tokens[t].user != target :: tokens[t];
      assert tokens == map t | t in begun && begun[t].user != target :: begun[t];
      answer := Ok(None);
    }
  }
}
