/** What a caller must present: authorize requests, consents, exchanges and rotations against everything
    that has been asked and answered before. */
module OAuthHistory {
  import opened Wrappers
  import opened OAuth

  datatype Asked = Asked(query: AuthParams, at: int)

  datatype Consented = Consented(request: RequestId, user: User, company: Company, extras: seq<Scope>, at: int)

  datatype Redeemed = Redeemed(shown: CodeParams, at: int, given: Approval)

  /** The exchange that a refresh token goes back to, and when it was made. */
  datatype Minted = Minted(code: Hash, at: int)

  /** The requests accepted and those answered, the consents and the exchanges under their codes, and the
      refresh tokens. */
  datatype Log = Log(
    asked: map<RequestId, Asked>, answered: set<RequestId>, consents: map<Hash, Consented>, redeemed: map<Hash, Redeemed>,
    minted: map<Hash, Minted>)

  const NoLog := Log(map[], {}, map[], map[], map[])

  ghost function NotingEvent(log: Log, db: Db, e: Event): Log {
    match e
    case Authorize(p, id) => if IssueRequest(db, p, id).1.Ok? then log.(asked := log.asked[id := Asked(p, db.now)]) else log
    case Consent(id, user, company, approve, extras, code) =>
      (match CompleteConsent(db, id, user, company, approve, extras, code).1
       case Err(_) => log
       case Ok(None) => log.(answered := log.answered + {id})
       case Ok(Some(_)) =>
         if company.None? then log
         else log.(answered := log.answered + {id},
                   consents := log.consents[code := Consented(id, user, company.value, extras, db.now)]))
    case Redeem(p, g, token, family) =>
      (match ExchangeCode(db, p, g, token, family).1
       case Err(_) => log
       case Ok(x) => log.(redeemed := log.redeemed[p.code := Redeemed(p, db.now, x.given)],
                          minted := log.minted[token := Minted(p.code, db.now)]))
    case Rotate(token, client, next) =>
      if RotateRefresh(db, token, client, next).1.Ok? && token in log.minted
      then log.(minted := log.minted[next := Minted(log.minted[token].code, db.now)]) else log
    case _ => log
  }

  ghost function Noting(log: Log, db: Db, s: Step): Log {
    if s.commit then NotingEvent(log, db, s.event) else log
  }

  ghost function Logged(log: Log, db: Db, steps: seq<Step>): Log
    decreases |steps|
  {
    if steps == [] then log else Logged(Noting(log, db, steps[0]), Apply(db, steps[0]), steps[1..])
  }

  // ----- what the tables say about the past -----

  /** An authorize request that the server accepts. */
  predicate Admissible(p: AuthParams) {
    p.clientKnown && p.redirectAllowed && p.s256 && p.challenge.Some? && p.resource == RESOURCE && ParseScope(p.scope).Ok?
  }

  /** A request is the row of an accepted query, used exactly when it has been answered, and gone only when
      its time is over. */
  ghost predicate RequestsLogged(db: Db, log: Log) {
    && log.answered <= log.asked.Keys
    && (forall r :: r in log.asked ==>
          && Admissible(log.asked[r].query) && log.asked[r].at <= db.now && r in db.usedRequests
          && (r !in db.requests ==> db.now > log.asked[r].at + REQUEST_TTL))
    && (forall r :: r in db.requests ==>
          && r in log.asked
          && var q := log.asked[r].query;
             q.challenge.Some? && ParseScope(q.scope).Ok?
             && db.requests[r] == Request(q.client, q.redirect, ParseScope(q.scope).value, q.challenge.value, RESOURCE,
                                          log.asked[r].at + REQUEST_TTL, r in log.answered))
  }

  /** Every consent answers an accepted request in time, and adds step-up scopes only. */
  ghost predicate ConsentsLogged(db: Db, log: Log) {
    forall c :: c in log.consents ==>
      && c in db.usedHashes
      && var k := log.consents[c];
         && k.request in log.asked && Admissible(log.asked[k.request].query)
         && log.asked[k.request].at <= k.at < log.asked[k.request].at + REQUEST_TTL && k.at <= db.now
         && MergeScopes(ParseScope(log.asked[k.request].query.scope).value, k.extras).Ok?
  }

  /** What the exchange of a consent's code gives. */
  function Grants(log: Log, c: Hash): Approval
    requires c in log.consents && log.consents[c].request in log.asked
    requires var q := log.asked[log.consents[c].request].query;
             ParseScope(q.scope).Ok? && MergeScopes(ParseScope(q.scope).value, log.consents[c].extras).Ok?
  {
    var k := log.consents[c];
    var q := log.asked[k.request].query;
    Approval(k.user, k.company, q.client, MergeScopes(ParseScope(q.scope).value, k.extras).value)
  }

  /** What has to be shown to redeem the code of an authorize request. */
  predicate Shows(p: CodeParams, q: AuthParams) {
    && p.client == q.client && p.redirect == q.redirect
    && p.verifier != "" && q.challenge == Some(Digest(p.verifier))
    && (p.resource.None? || p.resource.value == RESOURCE)
  }

  /** A code is the row of a consent, used exactly when it has been redeemed, and gone only when its time
      is over. */
  ghost predicate CodesLogged(db: Db, log: Log)
    requires ConsentsLogged(db, log)
  {
    && (forall c :: c in log.consents && c !in db.codes ==> db.now > log.consents[c].at + CODE_TTL)
    && (forall c :: c in db.codes ==>
          && c in log.consents
          && var k := log.consents[c];
             var q := log.asked[k.request].query;
             var a := Grants(log, c);
             db.codes[c] == Code(a.user, a.company, a.client, q.redirect, a.scopes, q.challenge.value, RESOURCE, k.at + CODE_TTL,
                                 c in log.redeemed, k.request))
  }

  /** Every exchange was made with what its code needs, in time, and gave what had been consented to. */
  ghost predicate RedeemedLogged(db: Db, log: Log)
    requires ConsentsLogged(db, log)
  {
    forall c :: c in log.redeemed ==>
      && c in log.consents
      && var x := log.redeemed[c];
         && x.shown.code == c && Shows(x.shown, log.asked[log.consents[c].request].query)
         && log.consents[c].at <= x.at <= log.consents[c].at + CODE_TTL
         && x.given == Grants(log, c)
  }

  /** A token goes back to an exchange, lives for its time, and belongs to a grant of the client that asked. */
  ghost predicate TokensLogged(db: Db, log: Log)
    requires ConsentsLogged(db, log) && RedeemedLogged(db, log)
  {
    forall t :: t in db.tokens ==>
      && t in log.minted && log.minted[t].code in log.redeemed
      && db.tokens[t].expires == log.minted[t].at + REFRESH_TTL
      && db.tokens[t].grant in db.grants
      && db.grants[db.tokens[t].grant].client == log.redeemed[log.minted[t].code].given.client
  }

  ghost predicate LogInv(db: Db, log: Log) {
    && RequestsLogged(db, log) && ConsentsLogged(db, log) && CodesLogged(db, log) && RedeemedLogged(db, log)
    && TokensLogged(db, log)
  }

  lemma InitLog()
    ensures LogInv(Init, NoLog)
  {
  }

  // ----- time and sweeping -----

  lemma TickLogs(db: Db, log: Log, d: nat)
    requires LogInv(db, log)
    ensures LogInv(db.(now := db.now + d), log)
  {
    var after := db.(now := db.now + d);
    assert RequestsLogged(after, log);
    assert ConsentsLogged(after, log);
    assert CodesLogged(after, log);
    assert RedeemedLogged(after, log);
  }

  lemma SweepLogs(db: Db, log: Log)
    requires LogInv(db, log)
    ensures LogInv(Sweep(db), log)
  {
    var after := Sweep(db);
    assert RequestsLogged(after, log);
    assert ConsentsLogged(after, log);
    assert CodesLogged(after, log);
    assert RedeemedLogged(after, log);
  }

  // ----- what stays when something is added -----

  /** The later log knows everything of the earlier one, and no further consent. */
  ghost predicate Extends(before: Log, after: Log) {
    && after.consents == before.consents
    && forall r :: r in before.asked ==> r in after.asked && after.asked[r] == before.asked[r]
  }

  lemma ConsentsStay(db: Db, to: Db, log: Log, after: Log)
    requires ConsentsLogged(db, log) && Extends(log, after) && db.usedHashes <= to.usedHashes && db.now <= to.now
    ensures ConsentsLogged(to, after) && forall c :: c in log.consents ==> Grants(after, c) == Grants(log, c)
  {
    hide Admissible;
  }

  lemma CodesStay(db: Db, to: Db, log: Log, after: Log)
    requires ConsentsLogged(db, log) && CodesLogged(db, log)
    requires Extends(log, after) && db.usedHashes <= to.usedHashes && db.now <= to.now
    requires to.codes == db.codes && after.redeemed == log.redeemed
    ensures ConsentsLogged(to, after) && CodesLogged(to, after)
  {
    ConsentsStay(db, to, log, after);
    hide Admissible, Grants;
  }

  lemma RedeemedStay(db: Db, to: Db, log: Log, after: Log)
    requires ConsentsLogged(db, log) && RedeemedLogged(db, log)
    requires Extends(log, after) && db.usedHashes <= to.usedHashes && db.now <= to.now && after.redeemed == log.redeemed
    ensures ConsentsLogged(to, after) && RedeemedLogged(to, after)
  {
    ConsentsStay(db, to, log, after);
    hide Admissible, Grants;
  }

  /** Tokens go back to the same exchanges as long as grants keep their clients. */
  lemma TokensStay(db: Db, to: Db, log: Log, after: Log)
    requires ConsentsLogged(db, log) && RedeemedLogged(db, log) && TokensLogged(db, log)
    requires ConsentsLogged(to, after) && RedeemedLogged(to, after)
    requires forall c :: c in log.redeemed ==> c in after.redeemed && after.redeemed[c] == log.redeemed[c]
    requires after.minted == log.minted
    requires forall t :: t in to.tokens ==> t in db.tokens && to.tokens[t] in {db.tokens[t], db.tokens[t].(revoked := true)}
                                            && to.tokens[t].grant in to.grants
    requires forall g :: g in to.grants && g in db.grants ==> to.grants[g].client == db.grants[g].client
    ensures TokensLogged(to, after)
  {
    hide ConsentsLogged, RedeemedLogged;
  }

  /** The tables of codes and tokens stay, and so does what they say. */
  lemma RestStays(db: Db, to: Db, log: Log, after: Log)
    requires ConsentsLogged(db, log) && CodesLogged(db, log) && RedeemedLogged(db, log) && TokensLogged(db, log)
    requires Extends(log, after) && after.redeemed == log.redeemed && after.minted == log.minted
    requires to == db.(requests := to.requests, usedRequests := to.usedRequests)
    ensures ConsentsLogged(to, after) && CodesLogged(to, after) && RedeemedLogged(to, after) && TokensLogged(to, after)
  {
    CodesStay(db, to, log, after);
    RedeemedStay(db, to, log, after);
    hide ConsentsLogged, RedeemedLogged, CodesLogged, Extends;
    TokensStay(db, to, log, after);
  }

  // ----- requests and consents -----

  lemma AskLogs(db: Db, log: Log, p: AuthParams, id: RequestId)
    requires LogInv(db, log) && id !in db.usedRequests && Admissible(p)
    ensures var r := Request(p.client, p.redirect, ParseScope(p.scope).value, p.challenge.value, RESOURCE, db.now + REQUEST_TTL, false);
            LogInv(AddRequest(db, id, r), log.(asked := log.asked[id := Asked(p, db.now)]))
  {
    var r := Request(p.client, p.redirect, ParseScope(p.scope).value, p.challenge.value, RESOURCE, db.now + REQUEST_TTL, false);
    var after, noted := AddRequest(db, id, r), log.(asked := log.asked[id := Asked(p, db.now)]);
    AskedRequests(db, log, p, id);
    hide RequestsLogged, Admissible;
    assert id !in log.asked by { NotAsked(db, log, id); }
    RestStays(db, after, log, noted);
  }

  lemma NotAsked(db: Db, log: Log, id: RequestId)
    requires RequestsLogged(db, log) && id !in db.usedRequests
    ensures id !in log.asked
  {
  }

  lemma AskedRequests(db: Db, log: Log, p: AuthParams, id: RequestId)
    requires RequestsLogged(db, log) && id !in db.usedRequests && Admissible(p)
    ensures var r := Request(p.client, p.redirect, ParseScope(p.scope).value, p.challenge.value, RESOURCE, db.now + REQUEST_TTL, false);
            RequestsLogged(AddRequest(db, id, r), log.(asked := log.asked[id := Asked(p, db.now)]))
  {
    hide ParseScope;
    assert id !in log.asked;
  }

  lemma AuthorizeLogs(db: Db, log: Log, p: AuthParams, id: RequestId)
    requires LogInv(db, log) && id !in db.usedRequests
    ensures LogInv(IssueRequest(db, p, id).0, NotingEvent(log, db, Authorize(p, id)))
  {
    hide LogInv, Sweep, AddRequest;
    SweepLogs(db, log);
    assert Sweep(db).usedRequests == db.usedRequests && Sweep(db).now == db.now by { SweepKeepsTime(db); }
    if Admissible(p) {
      AskLogs(Sweep(db), log, p, id);
    }
  }

  lemma SweepKeepsTime(db: Db)
    ensures Sweep(db).usedRequests == db.usedRequests && Sweep(db).now == db.now
  {
  }

  /** A consent answers its request. */
  lemma AnswerLogs(db: Db, log: Log, id: RequestId)
    requires LogInv(db, log) && id in db.requests
    ensures LogInv(UseRequest(db, id), log.(answered := log.answered + {id}))
  {
    var after, noted := UseRequest(db, id), log.(answered := log.answered + {id});
    assert RequestsLogged(after, noted);
    RestStays(db, after, log, noted);
  }

  /** The row of a consent's code before it is redeemed. */
  function CodeFor(k: Consented, q: AuthParams): Code
    requires Admissible(q) && MergeScopes(ParseScope(q.scope).value, k.extras).Ok?
  {
    Code(k.user, k.company, q.client, q.redirect, MergeScopes(ParseScope(q.scope).value, k.extras).value, q.challenge.value, RESOURCE,
         k.at + CODE_TTL, false, k.request)
  }

  /** A consent that may be entered now. */
  predicate Consentable(db: Db, log: Log, code: Hash, k: Consented) {
    && code !in db.usedHashes && k.request in log.asked && Admissible(log.asked[k.request].query)
    && k.at == db.now && log.asked[k.request].at <= k.at < log.asked[k.request].at + REQUEST_TTL
    && MergeScopes(ParseScope(log.asked[k.request].query.scope).value, k.extras).Ok?
  }

  lemma ConsentEntered(db: Db, to: Db, log: Log, code: Hash, k: Consented)
    requires ConsentsLogged(db, log) && Consentable(db, log, code, k)
    requires to.usedHashes == db.usedHashes + {code} && to.now == db.now
    ensures var noted := log.(consents := log.consents[code := k]);
            && ConsentsLogged(to, noted) && code !in log.consents
            && forall c :: c in log.consents ==> Grants(noted, c) == Grants(log, c)
  {
    hide Admissible;
  }

  lemma CodeEntered(db: Db, log: Log, code: Hash, k: Consented)
    requires ConsentsLogged(db, log) && CodesLogged(db, log) && RedeemedLogged(db, log) && Consentable(db, log, code, k)
    ensures var to := AddCode(db, code, CodeFor(k, log.asked[k.request].query));
            var noted := log.(consents := log.consents[code := k]);
            ConsentsLogged(to, noted) && CodesLogged(to, noted)
  {
    var to := AddCode(db, code, CodeFor(k, log.asked[k.request].query));
    ConsentEntered(db, to, log, code, k);
    assert code !in log.redeemed;
  }

  lemma CodeEnteredRedeemed(db: Db, log: Log, code: Hash, k: Consented)
    requires ConsentsLogged(db, log) && RedeemedLogged(db, log) && Consentable(db, log, code, k)
    ensures var to := AddCode(db, code, CodeFor(k, log.asked[k.request].query));
            var noted := log.(consents := log.consents[code := k]);
            ConsentsLogged(to, noted) && RedeemedLogged(to, noted)
  {
    var to := AddCode(db, code, CodeFor(k, log.asked[k.request].query));
    ConsentEntered(db, to, log, code, k);
    hide Admissible, Grants;
  }

  lemma AddCodeLogs(db: Db, log: Log, code: Hash, k: Consented)
    requires LogInv(db, log) && Consentable(db, log, code, k)
    ensures LogInv(AddCode(db, code, CodeFor(k, log.asked[k.request].query)), log.(consents := log.consents[code := k]))
  {
    hide Consentable, ConsentsLogged, CodesLogged, RedeemedLogged;
    CodeEntered(db, log, code, k);
    CodeEnteredRedeemed(db, log, code, k);
    assert Admissible(log.asked[k.request].query) && MergeScopes(ParseScope(log.asked[k.request].query.scope).value, k.extras).Ok?
      by { MayConsent(db, log, code, k); }
    var to, noted := AddCode(db, code, CodeFor(k, log.asked[k.request].query)), log.(consents := log.consents[code := k]);
    TokensStay(db, to, log, noted);
    assert RequestsLogged(to, noted);
  }

  lemma MayConsent(db: Db, log: Log, code: Hash, k: Consented)
    requires Consentable(db, log, code, k)
    ensures k.request in log.asked && Admissible(log.asked[k.request].query)
    ensures MergeScopes(ParseScope(log.asked[k.request].query.scope).value, k.extras).Ok?
  {
  }

  /** An open request is one that has been asked, not answered, and is in time. */
  lemma RequestIsOpenIff(db: Db, log: Log, id: RequestId)
    requires RequestsLogged(db, log)
    ensures id in db.requests && !db.requests[id].consumed && db.requests[id].expires > db.now <==>
            id in log.asked && id !in log.answered && db.now < log.asked[id].at + REQUEST_TTL
    ensures id in db.requests ==>
              && id in log.asked && Admissible(log.asked[id].query)
              && var q := log.asked[id].query;
                 && log.asked[id].at <= db.now
                 && db.requests[id].client == q.client && db.requests[id].redirect == q.redirect
                 && db.requests[id].scopes == ParseScope(q.scope).value && db.requests[id].challenge == q.challenge.value
                 && db.requests[id].resource == RESOURCE && db.requests[id].expires == log.asked[id].at + REQUEST_TTL
  {
  }

  lemma ConsentLogs(db: Db, log: Log, id: RequestId, user: User, company: Option<Company>, approve: bool, extras: seq<Scope>, code: Hash)
    requires LogInv(db, log) && code !in db.usedHashes
    ensures LogInv(CompleteConsent(db, id, user, company, approve, extras, code).0,
                   NotingEvent(log, db, Consent(id, user, company, approve, extras, code)))
  {
    hide MergeScopes, ParseScope, AddCode, UseRequest;
    if CompleteConsent(db, id, user, company, approve, extras, code).1.Ok? {
      assert RequestsLogged(db, log);
      RequestIsOpenIff(db, log, id);
      AnswerLogs(db, log, id);
      if approve {
        var k := Consented(id, user, company.value, extras, db.now);
        var used, answered := UseRequest(db, id), log.(answered := log.answered + {id});
        assert used.usedHashes == db.usedHashes && used.now == db.now by { UseKeepsRest(db, id); }
        MergeNeverFails(db.requests[id].scopes, extras);
        hide LogInv;
        AddCodeLogs(used, answered, code, k);
      }
    }
  }

  lemma UseKeepsRest(db: Db, id: RequestId)
    requires id in db.requests
    ensures UseRequest(db, id).usedHashes == db.usedHashes && UseRequest(db, id).now == db.now
  {
  }

  // ----- exchanges -----

  /** A code that may be redeemed is one that has been consented to, not redeemed, and is in time, shown
      with what its authorize request needs. */
  lemma CodeIsGoodIff(db: Db, log: Log, p: CodeParams)
    requires ConsentsLogged(db, log) && CodesLogged(db, log)
    ensures CodeValid(db, p) && (p.resource.None? || p.resource.value == db.codes[p.code].resource) <==>
            && p.code in log.consents && p.code !in log.redeemed && db.now <= log.consents[p.code].at + CODE_TTL
            && Shows(p, log.asked[log.consents[p.code].request].query)
    ensures p.code in db.codes ==>
              && p.code in log.consents && log.consents[p.code].at <= db.now
              && var a := Grants(log, p.code);
                 && Allows(db.codes[p.code]) == a && db.codes[p.code].from == log.consents[p.code].request
  {
  }

  /** An upsert keeps tokens, or drops them with their grant, and keeps the clients of grants. */
  lemma UpsertKeepsClients(db: Db, user: User, company: Company, client: Client, scopes: set<Scope>, id: GrantId)
    requires Inv(db) && id !in db.usedGrants
    ensures var (r, g) := UpsertGrant(db, user, company, client, scopes, id);
            && (forall t :: t in r.tokens ==> t in db.tokens && r.tokens[t] == db.tokens[t] && r.tokens[t].grant in r.grants)
            && (forall h :: h in r.grants && h in db.grants ==> r.grants[h].client == db.grants[h].client)
  {
    hide UpsertGrant, CodeInv, UniqueSlots;
    UpsertKeepsTokens(db, user, company, client, scopes, id);
    UpsertKeepsGrants(db, user, company, client, scopes, id);
  }

  lemma UpsertKeepsTokens(db: Db, user: User, company: Company, client: Client, scopes: set<Scope>, id: GrantId)
    requires TokensGranted(db)
    ensures var r := UpsertGrant(db, user, company, client, scopes, id).0;
            forall t :: t in r.tokens ==> t in db.tokens && r.tokens[t] == db.tokens[t] && r.tokens[t].grant in r.grants
  {
    hide SameSlot, Slot;
  }

  lemma UpsertKeepsGrants(db: Db, user: User, company: Company, client: Client, scopes: set<Scope>, id: GrantId)
    requires db.grants.Keys <= db.usedGrants && id !in db.usedGrants
    ensures var r := UpsertGrant(db, user, company, client, scopes, id).0;
            forall h :: h in r.grants && h in db.grants ==> r.grants[h].client == db.grants[h].client
  {
    hide SameSlot, Slot;
  }

  /** What an exchange does to the tables, as far as the past goes. */
  ghost predicate RedeemedStep(db: Db, to: Db, p: CodeParams, x: Exchange, token: Hash) {
    && p.code in db.codes && to.requests == db.requests && to.usedRequests == db.usedRequests
    && to.now == db.now && db.usedHashes <= to.usedHashes
    && to.codes == (map c | c in db.codes :: if c == p.code then db.codes[c].(consumed := true) else db.codes[c])
    && x.given == Allows(db.codes[p.code])
    && x.grant in to.grants && to.grants[x.grant].client == x.given.client
    && token in to.tokens && to.tokens[token].grant == x.grant && to.tokens[token].expires == db.now + REFRESH_TTL
    && (forall t :: t in to.tokens && t != token ==> t in db.tokens && to.tokens[t] == db.tokens[t] && to.tokens[t].grant in to.grants)
    && (forall h :: h in to.grants && h in db.grants ==> to.grants[h].client == db.grants[h].client)
  }

  lemma ExchangeIsStep(db: Db, p: CodeParams, id: GrantId, token: Hash, family: Family)
    requires Inv(db) && Unused(db, Redeem(p, id, token, family)) && ExchangeCode(db, p, id, token, family).1.Ok?
    ensures var (to, x) := ExchangeCode(db, p, id, token, family); RedeemedStep(db, to, p, x.value, token)
  {
    hide UpsertGrant, Inv;
    var c := db.codes[p.code];
    assert TokenInv(db) by { InvTokens(db); }
    UpsertKeepsInv(db, c.user, c.company, c.client, c.scopes, id);
    UpsertKeepsClients(db, c.user, c.company, c.client, c.scopes, id);
    UpsertFrame(db, c.user, c.company, c.client, c.scopes, id);
    hide TokenInv;
  }

  lemma InvTokens(db: Db)
    requires Inv(db)
    ensures TokenInv(db)
  {
  }

  function NotedRedeem(log: Log, p: CodeParams, at: int, given: Approval, token: Hash): Log {
    log.(redeemed := log.redeemed[p.code := Redeemed(p, at, given)], minted := log.minted[token := Minted(p.code, at)])
  }

  lemma RedeemCodes(db: Db, to: Db, log: Log, p: CodeParams, x: Exchange, token: Hash)
    requires ConsentsLogged(db, log) && CodesLogged(db, log) && RedeemedStep(db, to, p, x, token)
    ensures var noted := NotedRedeem(log, p, db.now, x.given, token); ConsentsLogged(to, noted) && CodesLogged(to, noted)
  {
    var noted := NotedRedeem(log, p, db.now, x.given, token);
    ConsentsStay(db, to, log, noted);
    hide Admissible, Grants;
  }

  lemma RedeemRedeemed(db: Db, to: Db, log: Log, p: CodeParams, x: Exchange, token: Hash)
    requires ConsentsLogged(db, log) && CodesLogged(db, log) && RedeemedLogged(db, log) && RedeemedStep(db, to, p, x, token)
    requires CodeValid(db, p) && (p.resource.None? || p.resource.value == db.codes[p.code].resource)
    ensures var noted := NotedRedeem(log, p, db.now, x.given, token); ConsentsLogged(to, noted) && RedeemedLogged(to, noted)
    ensures p.code !in log.redeemed
  {
    var noted := NotedRedeem(log, p, db.now, x.given, token);
    CodeIsGoodIff(db, log, p);
    ConsentsStay(db, to, log, noted);
    hide Admissible, Grants, CodeValid, CodesLogged;
  }

  lemma RedeemTokens(db: Db, to: Db, log: Log, p: CodeParams, x: Exchange, token: Hash)
    requires ConsentsLogged(db, log) && RedeemedLogged(db, log) && TokensLogged(db, log) && RedeemedStep(db, to, p, x, token)
    requires p.code !in log.redeemed
    requires var noted := NotedRedeem(log, p, db.now, x.given, token); ConsentsLogged(to, noted) && RedeemedLogged(to, noted)
    ensures TokensLogged(to, NotedRedeem(log, p, db.now, x.given, token))
  {
    hide ConsentsLogged, RedeemedLogged;
  }

  lemma RedeemLogs(db: Db, log: Log, p: CodeParams, id: GrantId, token: Hash, family: Family)
    requires Inv(db) && LogInv(db, log) && Unused(db, Redeem(p, id, token, family))
    ensures LogInv(ExchangeCode(db, p, id, token, family).0, NotingEvent(log, db, Redeem(p, id, token, family)))
  {
    hide Inv, UpsertGrant, ConsentsLogged, CodesLogged, RedeemedLogged, TokensLogged, CodeValid, Unused;
    var (to, x) := ExchangeCode(db, p, id, token, family);
    if x.Ok? {
      ExchangeIsStep(db, p, id, token, family);
      RedeemCodes(db, to, log, p, x.value, token);
      RedeemRedeemed(db, to, log, p, x.value, token);
      RedeemTokens(db, to, log, p, x.value, token);
      hide ExchangeCode;
    }
  }

  // ----- tokens and grants -----

  /** Codes and requests stay as they were. */
  predicate SameCodes(db: Db, to: Db) {
    && to.requests == db.requests && to.codes == db.codes && to.now == db.now
    && to.usedRequests == db.usedRequests && db.usedHashes <= to.usedHashes
  }

  lemma TokensOnly(db: Db, to: Db, log: Log, after: Log)
    requires LogInv(db, log) && SameCodes(db, to) && after == log.(minted := after.minted)
    ensures RequestsLogged(to, after) && ConsentsLogged(to, after) && CodesLogged(to, after) && RedeemedLogged(to, after)
  {
    CodesStay(db, to, log, after);
    RedeemedStay(db, to, log, after);
  }

  lemma ReplacedTokens(db: Db, log: Log, token: Hash, next: Hash)
    requires ConsentsLogged(db, log) && RedeemedLogged(db, log) && TokensLogged(db, log)
    requires token in db.tokens && next !in db.usedHashes
    requires token in log.minted
    requires var noted := log.(minted := log.minted[next := Minted(log.minted[token].code, db.now)]);
             ConsentsLogged(Replaced(db, token, next), noted) && RedeemedLogged(Replaced(db, token, next), noted)
    ensures TokensLogged(Replaced(db, token, next), log.(minted := log.minted[next := Minted(log.minted[token].code, db.now)]))
  {
    hide ConsentsLogged, RedeemedLogged;
  }

  lemma ReplacedLogs(db: Db, log: Log, token: Hash, next: Hash)
    requires LogInv(db, log) && token in db.tokens && next !in db.usedHashes
    ensures token in log.minted
    ensures LogInv(Replaced(db, token, next), log.(minted := log.minted[next := Minted(log.minted[token].code, db.now)]))
  {
    assert token in log.minted;
    var to, noted := Replaced(db, token, next), log.(minted := log.minted[next := Minted(log.minted[token].code, db.now)]);
    hide ConsentsLogged, CodesLogged, RedeemedLogged, RequestsLogged, TokensLogged;
    TokensOnly(db, to, log, noted);
    ReplacedTokens(db, log, token, next);
  }

  lemma GrantsOfTokens(db: Db, log: Log)
    requires ConsentsLogged(db, log) && RedeemedLogged(db, log) && TokensLogged(db, log)
    ensures forall t :: t in db.tokens ==> db.tokens[t].grant in db.grants
  {
    hide ConsentsLogged, RedeemedLogged;
  }

  lemma KilledLogs(db: Db, log: Log, f: Family)
    requires LogInv(db, log)
    ensures LogInv(Killed(db, f), log)
  {
    hide ConsentsLogged, CodesLogged, RedeemedLogged, RequestsLogged, TokensLogged;
    GrantsOfTokens(db, log);
    var to := Killed(db, f);
    TokensOnly(db, to, log, log);
    TokensStay(db, to, log, log);
  }

  lemma RotateLogs(db: Db, log: Log, token: Hash, client: Option<Client>, next: Hash)
    requires LogInv(db, log) && next !in db.usedHashes
    ensures LogInv(RotateRefresh(db, token, client, next).0, NotingEvent(log, db, Rotate(token, client, next)))
  {
    hide LogInv, Killed, Replaced;
    if token in db.tokens {
      ReplacedLogs(db, log, token, next);
      KilledLogs(db, log, db.tokens[token].family);
    }
  }

  lemma RevokeLogs(db: Db, log: Log, user: User, g: GrantId)
    requires LogInv(db, log)
    ensures LogInv(RevokeGrant(db, user, g).0, log)
  {
    hide ConsentsLogged, CodesLogged, RedeemedLogged, RequestsLogged, TokensLogged;
    GrantsOfTokens(db, log);
    var to := RevokeGrant(db, user, g).0;
    TokensOnly(db, to, log, log);
    TokensStay(db, to, log, log);
  }

  lemma IssueLogs(db: Db, log: Log, user: User, company: Company, client: Client, scopes: set<Scope>, g: GrantId)
    requires Inv(db) && LogInv(db, log) && g !in db.usedGrants
    ensures LogInv(IssueGrant(db, user, company, client, scopes, g).0, log)
  {
    assert g !in db.grants by { UnusedGrant(db, g); }
    hide Inv, ConsentsLogged, CodesLogged, RedeemedLogged, RequestsLogged, TokensLogged, Slot;
    var grant := Grant(user, company, client, scopes, false);
    var to := AddGrant(db, g, grant);
    TokensOnly(db, to, log, log);
    AddedTokens(db, log, g, grant);
  }

  lemma UnusedGrant(db: Db, g: GrantId)
    requires Inv(db) && g !in db.usedGrants
    ensures g !in db.grants
  {
  }

  lemma AddedTokens(db: Db, log: Log, g: GrantId, grant: Grant)
    requires ConsentsLogged(db, log) && RedeemedLogged(db, log) && TokensLogged(db, log) && g !in db.grants
    requires ConsentsLogged(AddGrant(db, g, grant), log) && RedeemedLogged(AddGrant(db, g, grant), log)
    ensures TokensLogged(AddGrant(db, g, grant), log)
  {
    hide ConsentsLogged, RedeemedLogged;
  }

  // ----- runs -----

  lemma StepLogs(db: Db, log: Log, s: Step)
    requires Inv(db) && LogInv(db, log) && Unused(db, s.event)
    ensures LogInv(Apply(db, s), Noting(log, db, s))
  {
    hide Inv, LogInv, IssueRequest, CompleteConsent, ExchangeCode, RotateRefresh, RevokeGrant, IssueGrant, NotingEvent;
    match s.event
    case Authorize(p, id) => AuthorizeLogs(db, log, p, id);
    case Consent(id, user, company, approve, extras, code) => ConsentLogs(db, log, id, user, company, approve, extras, code);
    case Redeem(p, g, token, family) => RedeemLogs(db, log, p, g, token, family);
    case Rotate(token, client, next) => RotateLogs(db, log, token, client, next);
    case Revoke(user, g) =>
      RevokeLogs(db, log, user, g);
      NothingNoted(log, db, s.event);
    case Issue(user, company, client, scopes, g) =>
      IssueLogs(db, log, user, company, client, scopes, g);
      NothingNoted(log, db, s.event);
    case Tick(d) =>
      TickLogs(db, log, d);
      NothingNoted(log, db, s.event);
  }

  lemma NothingNoted(log: Log, db: Db, e: Event)
    requires e.Revoke? || e.Issue? || e.Tick?
    ensures NotingEvent(log, db, e) == log
  {
  }

  lemma {:induction false} RunLogs(db: Db, log: Log, steps: seq<Step>)
    requires Inv(db) && LogInv(db, log) && Possible(db, steps)
    ensures Inv(Run(db, steps)) && LogInv(Run(db, steps), Logged(log, db, steps))
    decreases |steps|
  {
    hide Inv, LogInv, Apply, Unused, Noting;
    if steps != [] {
      StepKeepsInv(db, steps[0]);
      StepLogs(db, log, steps[0]);
      RunLogs(Apply(db, steps[0]), Noting(log, db, steps[0]), steps[1..]);
    }
  }

  // ----- exactly when the server says yes -----

  /** In every reachable state a code is exchanged exactly if it was consented to, not exchanged before, is
      at most its time old, and is shown by the client and redirect of the authorize request together with
      the verifier of the challenge that this request carried. */
  lemma RedeemsIff(steps: seq<Step>, p: CodeParams, id: GrantId, token: Hash, family: Family)
    requires Possible(Init, steps)
    ensures var db, log := Run(Init, steps), Logged(NoLog, Init, steps);
            ExchangeCode(db, p, id, token, family).1.Ok? <==>
              && p.code in log.consents && p.code !in log.redeemed && db.now <= log.consents[p.code].at + CODE_TTL
              && log.consents[p.code].request in log.asked
              && Shows(p, log.asked[log.consents[p.code].request].query)
  {
    InitInv();
    InitLog();
    RunLogs(Init, NoLog, steps);
    hide Possible, Run, Logged, Inv, CodeValid, Shows, UpsertGrant;
    CodeIsGoodIff(Run(Init, steps), Logged(NoLog, Init, steps), p);
    hide CodesLogged, RedeemedLogged, RequestsLogged, TokensLogged;
  }

  /** So every exchange of a run was made like that, and gave the consenting user's client for the chosen
      company what the request asked for and the step-up scopes that the user added. */
  lemma RedeemedRightly(steps: seq<Step>, c: Hash)
    requires Possible(Init, steps) && c in Logged(NoLog, Init, steps).redeemed
    ensures var log := Logged(NoLog, Init, steps);
            && c in log.consents && log.consents[c].request in log.asked
            && var x, k, a := log.redeemed[c], log.consents[c], log.asked[log.consents[c].request];
               && Admissible(a.query) && a.at <= k.at < a.at + REQUEST_TTL && k.at <= x.at <= k.at + CODE_TTL
               && x.shown.code == c && Shows(x.shown, a.query)
               && MergeScopes(ParseScope(a.query.scope).value, k.extras).Ok?
               && x.given == Approval(k.user, k.company, a.query.client, MergeScopes(ParseScope(a.query.scope).value, k.extras).value)
  {
    InitInv();
    InitLog();
    RunLogs(Init, NoLog, steps);
    hide Possible, Run, Logged, Inv, CodesLogged, RequestsLogged, TokensLogged, Admissible, Shows;
  }

  /** The scopes of an exchange are those that were asked for, or all but the step-up ones when none were,
      and those that the user added; a scope that was neither asked for nor added needs no step-up. */
  lemma GivesWhatWasChosen(steps: seq<Step>, c: Hash, s: Scope)
    requires Possible(Init, steps) && c in Logged(NoLog, Init, steps).redeemed
    ensures var log := Logged(NoLog, Init, steps);
            && c in log.consents && log.consents[c].request in log.asked
            && var asked, extras := log.asked[log.consents[c].request].query.scope, log.consents[c].extras;
               (s in log.redeemed[c].given.scopes <==>
                  s in asked || (asked == [] && s in KNOWN && s !in STEP_UP) || (s in extras && s != ""))
               && (s in asked ==> s in KNOWN) && (s in extras && s != "" ==> s in STEP_UP)
  {
    var log := Logged(NoLog, Init, steps);
    RedeemedRightly(steps, c);
    var asked, extras := log.asked[log.consents[c].request].query.scope, log.consents[c].extras;
    ParseScopeMeaning(asked);
    MergeAddsStepUpOnly(ParseScope(asked).value, extras);
    hide Possible, Run, Logged, ParseScope, MergeScopes, Shows;
  }

  /** An authorize request is accepted exactly from a known client for one of its redirects, with a challenge,
      for this server and for known scopes only; it drops the rows that are out of time and no others. */
  lemma AuthorizesIff(db: Db, p: AuthParams, id: RequestId)
    ensures IssueRequest(db, p, id).1.Ok? <==>
              && p.clientKnown && p.redirectAllowed && p.s256 && p.challenge.Some? && p.resource == RESOURCE
              && forall s :: s in p.scope ==> s in KNOWN
    ensures var after := IssueRequest(db, p, id).0;
            && (forall r :: r in after.requests && r != id ==> r in db.requests && db.requests[r].expires >= db.now)
            && (forall r :: r in db.requests && r != id && db.requests[r].expires >= db.now ==>
                  r in after.requests && after.requests[r] == db.requests[r])
            && (forall c :: c in after.codes <==> c in db.codes && db.codes[c].expires >= db.now)
            && (forall c :: c in after.codes ==> after.codes[c] == db.codes[c])
  {
    ParseScopeMeaning(p.scope);
    hide ParseScope;
  }

  /** A consent is completed exactly for an accepted authorize request that has not been answered and is in
      time: a denial by anyone, an approval by a user with a company who adds step-up scopes only. */
  lemma ConsentsIff(steps: seq<Step>, id: RequestId, user: User, company: Option<Company>, approve: bool, extras: seq<Scope>, code: Hash)
    requires Possible(Init, steps)
    ensures var db, log := Run(Init, steps), Logged(NoLog, Init, steps);
            CompleteConsent(db, id, user, company, approve, extras, code).1.Ok? <==>
              && id in log.asked && id !in log.answered && db.now < log.asked[id].at + REQUEST_TTL
              && (approve ==> company.Some? && forall s :: s in extras && s != "" ==> s in STEP_UP)
  {
    InitInv();
    InitLog();
    RunLogs(Init, NoLog, steps);
    MergeAddsStepUpOnly({}, extras);
    hide Possible, Run, Logged, Inv, MergeScopes, AddCode, UseRequest;
    var db, log := Run(Init, steps), Logged(NoLog, Init, steps);
    RequestIsOpenIff(db, log, id);
    hide LogInv;
    assert CompleteConsent(db, id, user, company, false, extras, code).1.Ok? <==>
           id in log.asked && id !in log.answered && db.now < log.asked[id].at + REQUEST_TTL;
  }

  /** A refresh token is rotated exactly if it is live, is at most its time old, and is shown by the client
      whose authorize request it goes back to. */
  lemma RotatesIff(steps: seq<Step>, token: Hash, client: Option<Client>, next: Hash)
    requires Possible(Init, steps)
    ensures var db, log := Run(Init, steps), Logged(NoLog, Init, steps);
            RotateRefresh(db, token, client, next).1.Ok? <==>
              && token in db.tokens && !db.tokens[token].revoked
              && token in log.minted && db.now <= log.minted[token].at + REFRESH_TTL
              && log.minted[token].code in log.redeemed && client == Some(log.redeemed[log.minted[token].code].shown.client)
  {
    InitInv();
    InitLog();
    RunLogs(Init, NoLog, steps);
    hide Possible, Run, Logged, Killed, Replaced, CodesLogged, RequestsLogged, CodesSound, ExchangesSound, FamiliesSingle, GrantsSound;
    var db, log := Run(Init, steps), Logged(NoLog, Init, steps);
    if token in db.tokens {
      assert log.redeemed[log.minted[token].code].given.client == log.redeemed[log.minted[token].code].shown.client;
    }
  }
}
