/** What holds in every run of the authorization server, and what is over for good. */
module OAuthRuns {
  import opened Wrappers
  import opened OAuth

  // ----- what every run keeps -----

  /** In every reachable state a family has at most one live token, a live token has a live grant,
      and a user has at most one grant for a client and company. */
  lemma TokensAreSafe(steps: seq<Step>, t: Hash, u: Hash)
    requires Possible(Init, steps)
    requires t in Run(Init, steps).tokens && u in Run(Init, steps).tokens
    ensures var db := Run(Init, steps);
            && UniqueSlots(db.grants)
            && db.tokens[t].grant in db.grants
            && (!db.tokens[t].revoked ==> !db.grants[db.tokens[t].grant].revoked)
            && (db.tokens[t].family == db.tokens[u].family && !db.tokens[t].revoked && !db.tokens[u].revoked ==> t == u)
  {
    InitInv();
    RunKeepsInv(Init, steps);
    hide Run, Possible;
  }

  /** Every exchange of a run stands for an approval of its own, and gave that user's client for that company the scopes approved. */
  lemma ExchangesTraceToConsents(steps: seq<Step>, i: nat, j: nat)
    requires Possible(Init, steps) && i < j < |Run(Init, steps).exchanges|
    ensures var db := Run(Init, steps);
            && db.exchanges[i].from in db.approved && db.approved[db.exchanges[i].from] == db.exchanges[i].given
            && db.exchanges[i].from != db.exchanges[j].from
            && db.exchanges[i].code != db.exchanges[j].code
  {
    InitInv();
    RunKeepsInv(Init, steps);
    hide Run, Possible;
  }

  // ----- what is over stays over -----

  /** Nothing that is over can be used: a grant once revoked, a token once revoked, a code once
      used, a family without a live token, an approval once given. */
  ghost predicate GrantOver(db: Db, g: GrantId) {
    g in db.usedGrants && g in db.retired && (g in db.grants ==> db.grants[g].revoked)
  }

  ghost predicate TokenOver(db: Db, t: Hash) {
    t in db.usedHashes && (t in db.tokens ==> db.tokens[t].revoked)
  }

  ghost predicate CodeOver(db: Db, c: Hash) {
    c in db.usedHashes && (c in db.codes ==> db.codes[c].consumed)
  }

  ghost predicate FamilyOver(db: Db, f: Family) {
    f in db.usedFamilies && forall t :: t in db.tokens && db.tokens[t].family == f ==> db.tokens[t].revoked
  }

  /** What is over in one state is over in the other. */
  ghost predicate StaysOver(a: Db, b: Db) {
    && (forall g :: GrantOver(a, g) ==> GrantOver(b, g))
    && (forall t :: TokenOver(a, t) ==> TokenOver(b, t))
    && (forall c :: CodeOver(a, c) ==> CodeOver(b, c))
    && (forall f :: FamilyOver(a, f) ==> FamilyOver(b, f))
  }

  lemma StaysOverThen(a: Db, b: Db, c: Db)
    requires StaysOver(a, b) && StaysOver(b, c)
    ensures StaysOver(a, c)
  {
    hide GrantOver, TokenOver, CodeOver, FamilyOver;
  }

  lemma AuthorizeStaysOver(db: Db, p: AuthParams, id: RequestId)
    ensures StaysOver(db, IssueRequest(db, p, id).0)
  {
    hide IssueRequest;
    AuthorizeShape(db, p, id);
  }

  lemma ConsentStaysOver(db: Db, id: RequestId, user: User, company: Option<Company>, approve: bool, extras: seq<Scope>, code: Hash)
    requires code !in db.usedHashes
    ensures StaysOver(db, CompleteConsent(db, id, user, company, approve, extras, code).0)
  {
    hide MergeScopes;
  }

  lemma RotateStaysOver(db: Db, token: Hash, client: Option<Client>, next: Hash)
    requires next !in db.usedHashes
    ensures StaysOver(db, RotateRefresh(db, token, client, next).0)
  {
    hide RotateRefresh;
    RotateShape(db, token, client, next);
  }

  lemma RevokeStaysOver(db: Db, user: User, g: GrantId)
    ensures StaysOver(db, RevokeGrant(db, user, g).0)
  {
  }

  lemma AddGrantStaysOver(db: Db, id: GrantId, g: Grant)
    requires id !in db.usedGrants
    ensures StaysOver(db, AddGrant(db, id, g))
  {
  }

  lemma UpsertStaysOver(db: Db, user: User, company: Company, client: Client, scopes: set<Scope>, id: GrantId)
    requires id !in db.usedGrants
    ensures StaysOver(db, UpsertGrant(db, user, company, client, scopes, id).0)
  {
    hide Slot, SameSlot;
    var slot := Slot(db.grants, user, company, client);
    var grant := Grant(user, company, client, scopes, false);
    AddGrantStaysOver(db, id, grant);
    if slot.Some? {
      assert StaysOver(db, DropGrant(db, slot.value));
      AddGrantStaysOver(DropGrant(db, slot.value), id, grant);
      StaysOverThen(db, DropGrant(db, slot.value), AddGrant(DropGrant(db, slot.value), id, grant));
    }
  }

  lemma MintStaysOver(db: Db, token: Hash, t: Token)
    requires token !in db.usedHashes && t.family !in db.usedFamilies
    ensures StaysOver(db, AddToken(db, token, t))
  {
  }

  lemma SpentStaysOver(db: Db, x: Exchange)
    ensures StaysOver(db, Spent(db, x))
  {
  }

  lemma RedeemStaysOver(db: Db, p: CodeParams, id: GrantId, token: Hash, family: Family)
    requires id !in db.usedGrants && token !in db.usedHashes && family !in db.usedFamilies
    ensures StaysOver(db, ExchangeCode(db, p, id, token, family).0)
  {
    hide UpsertGrant, StaysOver, Spent;
    if CodeValid(db, p) {
      var c := db.codes[p.code];
      UpsertStaysOver(db, c.user, c.company, c.client, c.scopes, id);
      UpsertFrame(db, c.user, c.company, c.client, c.scopes, id);
      var (granted, g) := UpsertGrant(db, c.user, c.company, c.client, c.scopes, id);
      var t := Token(g, family, db.now + REFRESH_TTL, false);
      MintStaysOver(granted, token, t);
      var minted := AddToken(granted, token, t);
      var x := Exchange(p.code, c.from, g, Gives(granted.grants[g]));
      SpentStaysOver(minted, x);
      StaysOverThen(db, granted, minted);
      StaysOverThen(db, minted, Spent(minted, x));
    }
    StaysOverRefl(db);
  }

  lemma StaysOverRefl(db: Db)
    ensures StaysOver(db, db)
  {
  }

  lemma StepStaysOver(db: Db, s: Step)
    requires Unused(db, s.event)
    ensures StaysOver(db, Apply(db, s))
  {
    hide StaysOver, IssueRequest, CompleteConsent, ExchangeCode, RotateRefresh, RevokeGrant, IssueGrant;
    StaysOverRefl(db);
    match s.event
    case Authorize(p, id) => AuthorizeStaysOver(db, p, id);
    case Consent(id, user, company, approve, extras, code) => ConsentStaysOver(db, id, user, company, approve, extras, code);
    case Redeem(p, g, token, family) => RedeemStaysOver(db, p, g, token, family);
    case Rotate(token, client, next) => RotateStaysOver(db, token, client, next);
    case Revoke(user, g) => RevokeStaysOver(db, user, g);
    case Issue(user, company, client, scopes, g) => IssueStaysOver(db, user, company, client, scopes, g);
    case Tick(d) => TickStaysOver(db, d);
  }

  lemma IssueStaysOver(db: Db, user: User, company: Company, client: Client, scopes: set<Scope>, g: GrantId)
    requires g !in db.usedGrants
    ensures StaysOver(db, IssueGrant(db, user, company, client, scopes, g).0)
  {
    hide Slot;
    AddGrantStaysOver(db, g, Grant(user, company, client, scopes, false));
  }

  lemma TickStaysOver(db: Db, d: nat)
    ensures StaysOver(db, db.(now := db.now + d))
  {
  }

  lemma {:induction false} RunStaysOver(db: Db, steps: seq<Step>)
    requires Inv(db) && Possible(db, steps)
    ensures StaysOver(db, Run(db, steps))
    decreases |steps|
  {
    hide Inv, Apply, Unused, GrantOver, TokenOver, CodeOver, FamilyOver;
    if steps != [] {
      StepStaysOver(db, steps[0]);
      StepKeepsInv(db, steps[0]);
      RunStaysOver(Apply(db, steps[0]), steps[1..]);
    }
  }

  // ----- who ends what -----

  predicate LiveGrant(db: Db, g: GrantId) {
    g in db.grants && !db.grants[g].revoked
  }

  predicate LiveToken(db: Db, t: Hash) {
    t in db.tokens && !db.tokens[t].revoked
  }

  /** A grant is issued directly exactly for known scopes and where the user, client and company have none;
      it is live then, and no other grant changes. */
  lemma IssuesIff(db: Db, user: User, company: Company, client: Client, scopes: set<Scope>, id: GrantId)
    requires id !in db.grants
    ensures IssueGrant(db, user, company, client, scopes, id).1.Ok? <==>
              (forall s :: s in scopes ==> s in KNOWN)
              && forall g :: g in db.grants ==> (db.grants[g].user, db.grants[g].company, db.grants[g].client) != (user, company, client)
    ensures var (after, r) := IssueGrant(db, user, company, client, scopes, id);
            && (r.Ok? ==> LiveGrant(after, id) && after.grants[id] == Grant(user, company, client, scopes, false))
            && (forall g :: g in db.grants ==> g in after.grants && after.grants[g] == db.grants[g])
  {
  }

  /** A live grant ends in a step exactly when its own user revokes it and the step is committed. */
  lemma GrantEndsIff(db: Db, s: Step, g: GrantId)
    requires Inv(db) && Unused(db, s.event) && LiveGrant(db, g)
    ensures !LiveGrant(Apply(db, s), g) <==> s.commit && s.event == Revoke(db.grants[g].user, g)
  {
    hide IssueRequest, CompleteConsent, RotateRefresh, ExchangeCode;
    match s.event
    case Authorize(p, id) => AuthorizeShape(db, p, id);
    case Consent(id, user, company, approve, extras, code) => ConsentKeepsGrants(db, id, user, company, approve, extras, code);
    case Rotate(token, client, next) => RotateShape(db, token, client, next);
    case Redeem(p, id, token, family) => RedeemKeepsLive(db, p, id, token, family, g);
    case _ =>
  }

  lemma ConsentKeepsGrants(db: Db, id: RequestId, user: User, company: Option<Company>, approve: bool, extras: seq<Scope>, code: Hash)
    ensures var after := CompleteConsent(db, id, user, company, approve, extras, code).0;
            after.grants == db.grants && after.tokens == db.tokens
  {
    hide MergeScopes;
  }

  lemma RedeemKeepsLive(db: Db, p: CodeParams, id: GrantId, token: Hash, family: Family, g: GrantId)
    requires LiveGrant(db, g) && id != g
    ensures LiveGrant(ExchangeCode(db, p, id, token, family).0, g)
  {
    hide SameSlot, CodeValid, Slot;
  }

  /** A live token ends in a committed step only: when it is rotated, when a revoked token of its family
      is replayed, or when the user revokes its grant. */
  lemma TokenEndsOnlyBy(db: Db, s: Step, t: Hash)
    requires Inv(db) && Unused(db, s.event) && LiveToken(db, t) && !LiveToken(Apply(db, s), t)
    ensures s.commit
    ensures || (s.event.Rotate? && s.event.token == t && RotateRefresh(db, t, s.event.client, s.event.next).1.Ok?)
            || (s.event.Rotate? && s.event.token in db.tokens && db.tokens[s.event.token].revoked
                && db.tokens[s.event.token].family == db.tokens[t].family)
            || (db.tokens[t].grant in db.grants && s.event == Revoke(db.grants[db.tokens[t].grant].user, db.tokens[t].grant))
  {
    hide IssueRequest, CompleteConsent, ExchangeCode;
    match s.event
    case Authorize(p, id) => AuthorizeShape(db, p, id);
    case Consent(id, user, company, approve, extras, code) => ConsentKeepsGrants(db, id, user, company, approve, extras, code);
    case Redeem(p, id, token, family) => RedeemKeepsToken(db, p, id, token, family, t);
    case _ =>
  }

  lemma RedeemKeepsToken(db: Db, p: CodeParams, id: GrantId, token: Hash, family: Family, t: Hash)
    requires TokensGranted(db) && token !in db.usedHashes && LiveToken(db, t)
    ensures LiveToken(ExchangeCode(db, p, id, token, family).0, t)
  {
    hide SameSlot, CodeValid, Slot;
  }

  // ----- the results over runs -----

  /** A revoked grant never comes back, nor do the tokens it had. */
  lemma RevokedIsForever(db: Db, user: User, g: GrantId, later: seq<Step>)
    requires Inv(db) && RevokeGrant(db, user, g).1
    requires Possible(RevokeGrant(db, user, g).0, later)
    ensures var end := Run(RevokeGrant(db, user, g).0, later);
            && (g in end.grants ==> end.grants[g].revoked)
            && (forall t :: t in db.tokens && db.tokens[t].grant == g && t in end.tokens ==> end.tokens[t].revoked)
  {
    hide Run, Possible;
    RevokeKeepsInv(db, user, g);
    var after := RevokeGrant(db, user, g).0;
    RunStaysOver(after, later);
    assert GrantOver(after, g);
    forall t | t in db.tokens && db.tokens[t].grant == g ensures TokenOver(after, t) {
    }
  }

  /** A code is exchanged at most once: after one exchange no later one succeeds. */
  lemma CodeIsSingleUse(db: Db, p: CodeParams, id: GrantId, token: Hash, family: Family, later: seq<Step>,
                        q: CodeParams, otherId: GrantId, otherToken: Hash, otherFamily: Family)
    requires Inv(db) && Unused(db, Redeem(p, id, token, family)) && ExchangeCode(db, p, id, token, family).1.Ok?
    requires Possible(ExchangeCode(db, p, id, token, family).0, later) && q.code == p.code
    ensures ExchangeCode(Run(ExchangeCode(db, p, id, token, family).0, later), q, otherId, otherToken, otherFamily).1 == Err(InvalidGrant)
  {
    hide Run, Possible, Slot, UpsertGrant;
    RedeemKeepsInv(db, p, id, token, family);
    var after := ExchangeCode(db, p, id, token, family).0;
    RunStaysOver(after, later);
    var c := db.codes[p.code];
    UpsertFrame(db, c.user, c.company, c.client, c.scopes, id);
    assert CodeOver(after, p.code);
  }

  /** A refresh token is rotated at most once. */
  lemma RefreshIsSingleUse(db: Db, token: Hash, client: Option<Client>, next: Hash, later: seq<Step>, otherClient: Option<Client>, otherNext: Hash)
    requires Inv(db) && next !in db.usedHashes && RotateRefresh(db, token, client, next).1.Ok?
    requires Possible(RotateRefresh(db, token, client, next).0, later)
    ensures RotateRefresh(Run(RotateRefresh(db, token, client, next).0, later), token, otherClient, otherNext).1.Err?
  {
    hide Run, Possible;
    RotateKeepsInv(db, token, client, next);
    var after := RotateRefresh(db, token, client, next).0;
    assert TokenOver(after, token);
    RunStaysOver(after, later);
  }

  /** No run from here has a live token in the family. */
  ghost predicate EndedForGood(db: Db, f: Family) {
    forall later :: Possible(db, later) ==> FamilyOver(Run(db, later), f)
  }

  lemma KilledIsOver(db: Db, f: Family)
    requires f in db.usedFamilies
    ensures FamilyOver(Killed(db, f), f)
  {
  }

  lemma OverIsForGood(db: Db, f: Family)
    requires Inv(db)
    ensures EndedForGood(db, f) <==> FamilyOver(db, f)
  {
    hide Inv, FamilyOver;
    if FamilyOver(db, f) {
      forall later | Possible(db, later) ensures FamilyOver(Run(db, later), f) {
        RunStaysOver(db, later);
      }
    } else {
      var none: seq<Step> := [];
      assert Possible(db, none) && Run(db, none) == db;
    }
  }

  /** The replay of a revoked, unexpired token ends its family for good exactly when its effects are
      committed, or there was no live token left to end. */
  lemma ReplayEndsFamilyIff(db: Db, token: Hash, client: Client, next: Hash, commit: bool)
    requires Inv(db) && next !in db.usedHashes
    requires token in db.tokens && db.tokens[token].revoked && db.tokens[token].expires >= db.now
    ensures var f := db.tokens[token].family;
            var after := Apply(db, Step(Rotate(token, Some(client), next), commit));
            EndedForGood(after, f) <==> commit || FamilyOver(db, f)
  {
    hide EndedForGood, FamilyOver;
    var f := db.tokens[token].family;
    var step := Step(Rotate(token, Some(client), next), commit);
    StepKeepsInv(db, step);
    OverIsForGood(Apply(db, step), f);
    assert f in db.usedFamilies;
    KilledIsOver(db, f);
  }
}
