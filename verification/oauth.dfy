/** Grants, authorization codes and refresh-token families of the MCP authorization server
    (sections 4.1.2 and 6 of RFC 6749, section 4.6 of RFC 7636, section 4.14.2 of RFC 9700). */
module OAuth {
  import opened Wrappers

  datatype Error = InvalidClient | InvalidRequest | InvalidTarget | InvalidScope | InvalidGrant | Rejected

  datatype Result<+T> = Ok(value: T) | Err(error: Error)

  type User = string
  type Company = string
  type Client = string
  type Scope = string
  type RequestId = nat
  type GrantId = nat
  type Family = nat

  /** Secrets are stored hashed and challenges are digests of verifiers; both hash functions are
      taken to be injective. */
  datatype Hash = Hash(secret: string)
  datatype Digest = Digest(verifier: string)

  const KNOWN: set<Scope> := {"knowledge:read", "drafts:write", "images:generate"}
  const STEP_UP: set<Scope> := {"images:generate"}
  const RESOURCE := "mcp"

  const REQUEST_TTL := 600
  const CODE_TTL := 60
  const REFRESH_TTL := 2592000

  datatype Request = Request(client: Client, redirect: string, scopes: set<Scope>, challenge: Digest, resource: string,
                             expires: int, consumed: bool)

  /** `from` records the request that was approved; it is not stored. */
  datatype Code = Code(user: User, company: Company, client: Client, redirect: string, scopes: set<Scope>, challenge: Digest,
                       resource: string, expires: int, consumed: bool, from: RequestId)

  datatype Grant = Grant(user: User, company: Company, client: Client, scopes: set<Scope>, revoked: bool)

  datatype Token = Token(grant: GrantId, family: Family, expires: int, revoked: bool)

  /** Who let which client do what, for which company. */
  datatype Approval = Approval(user: User, company: Company, client: Client, scopes: set<Scope>)

  /** One code exchanged for tokens, with what the grant gave at that moment. */
  datatype Exchange = Exchange(code: Hash, from: RequestId, grant: GrantId, given: Approval)

  /** The tables, and what has happened so far: the ids and hashes ever used, the grants ever
      revoked, what each approved request allowed, and the exchanges. */
  datatype Db = Db(
    now: int, requests: map<RequestId, Request>, codes: map<Hash, Code>, grants: map<GrantId, Grant>, tokens: map<Hash, Token>,
    usedHashes: set<Hash>, usedGrants: set<GrantId>, usedFamilies: set<Family>, usedRequests: set<RequestId>,
    retired: set<GrantId>, approved: map<RequestId, Approval>, exchanges: seq<Exchange>)

  const Init := Db(0, map[], map[], map[], map[], {}, {}, {}, {}, {}, map[], [])

  // ----- scopes -----

  /** The scopes of an authorize request; none given means all but the step-up ones. */
  function ParseScope(requested: seq<Scope>): Result<set<Scope>> {
    if requested == [] then Ok(KNOWN - STEP_UP)
    else if forall i | 0 <= i < |requested| :: requested[i] in KNOWN then Ok(set s | s in requested)
    else Err(InvalidScope)
  }

  lemma ParseScopeMeaning(requested: seq<Scope>)
    ensures ParseScope(requested).Ok? <==> forall s :: s in requested ==> s in KNOWN
    ensures ParseScope(requested).Ok? ==> forall s ::
              s in ParseScope(requested).value <==> s in requested || (requested == [] && s in KNOWN && s !in STEP_UP)
  {
    if forall i | 0 <= i < |requested| :: requested[i] in KNOWN {
      assert forall s :: s in requested ==> s in KNOWN;
    }
  }

  /** The scopes of a consent: those requested and the step-up ones the user adds. */
  function MergeScopes(requested: set<Scope>, extras: seq<Scope>): Result<set<Scope>> {
    var added := set s | s in extras && s != "";
    if !(added <= KNOWN) then Err(InvalidScope)
    else if !(added <= STEP_UP) then Err(InvalidScope)
    else Ok(requested + added)
  }

  /** A consent adds nothing but step-up scopes, and drops nothing. */
  lemma MergeAddsStepUpOnly(requested: set<Scope>, extras: seq<Scope>)
    ensures MergeScopes(requested, extras).Ok? <==> forall s :: s in extras && s != "" ==> s in STEP_UP
    ensures MergeScopes(requested, extras).Ok? ==>
              var merged := MergeScopes(requested, extras).value;
              && requested <= merged <= requested + STEP_UP
              && forall s :: s in merged <==> s in requested || (s in extras && s != "")
  {
    var added := set s | s in extras && s != "";
    assert STEP_UP <= KNOWN;
    if forall s :: s in extras && s != "" ==> s in STEP_UP {
      assert added <= STEP_UP;
    }
    if added <= STEP_UP {
      forall s | s in extras && s != "" ensures s in STEP_UP {
        assert s in added;
      }
    }
  }

  lemma MergeNeverFails(requested: set<Scope>, extras: seq<Scope>)
    ensures MergeScopes(requested, extras).Ok? == MergeScopes({}, extras).Ok?
  {
  }

  // ----- the authorize request and the consent -----

  datatype AuthParams = AuthParams(client: Client, clientKnown: bool, redirect: string, redirectAllowed: bool, scope: seq<Scope>,
                                   s256: bool, challenge: Option<Digest>, resource: string)

  /** Rows whose time is over are dropped before a new request is entered. */
  function Sweep(db: Db): Db {
    db.(requests := map r | r in db.requests && db.requests[r].expires >= db.now :: db.requests[r],
        codes := map c | c in db.codes && db.codes[c].expires >= db.now :: db.codes[c])
  }

  function AddRequest(db: Db, id: RequestId, r: Request): Db {
    db.(requests := db.requests[id := r], usedRequests := db.usedRequests + {id})
  }

  function IssueRequest(db: Db, p: AuthParams, id: RequestId): (Db, Result<RequestId>) {
    var swept := Sweep(db);
    if !p.clientKnown then (swept, Err(InvalidClient))
    else if !p.redirectAllowed then (swept, Err(InvalidRequest))
    else if !p.s256 || p.challenge.None? then (swept, Err(InvalidRequest))
    else if p.resource != RESOURCE then (swept, Err(InvalidTarget))
    else match ParseScope(p.scope)
      case Err(e) => (swept, Err(e))
      case Ok(scopes) =>
        var r := Request(p.client, p.redirect, scopes, p.challenge.value, RESOURCE, db.now + REQUEST_TTL, false);
        (AddRequest(swept, id, r), Ok(id))
  }

  function UseRequest(db: Db, id: RequestId): Db
    requires id in db.requests
  {
    db.(requests := db.requests[id := db.requests[id].(consumed := true)])
  }

  function Allows(c: Code): Approval {
    Approval(c.user, c.company, c.client, c.scopes)
  }

  function AddCode(db: Db, code: Hash, c: Code): Db {
    db.(codes := db.codes[code := c], usedHashes := db.usedHashes + {code}, approved := db.approved[c.from := Allows(c)])
  }

  /** A consent uses up the request; approved, it leaves a code, denied, nothing. */
  function CompleteConsent(db: Db, id: RequestId, user: User, company: Option<Company>, approve: bool, extras: seq<Scope>, code: Hash)
    : (Db, Result<Option<Hash>>)
  {
    if approve && MergeScopes({}, extras).Err? then (db, Err(InvalidScope))
    else if id !in db.requests || db.requests[id].consumed || db.requests[id].expires <= db.now then (db, Err(InvalidRequest))
    else
      var r := db.requests[id];
      var used := UseRequest(db, id);
      if !approve then (used, Ok(None))
      else if company.None? then (db, Err(Rejected))
      else
        var scopes := MergeScopes(r.scopes, extras).value;
        var c := Code(user, company.value, r.client, r.redirect, scopes, r.challenge, r.resource, db.now + CODE_TTL, false, id);
        (AddCode(used, code, c), Ok(Some(code)))
  }

  // ----- grants -----

  predicate SameSlot(g: Grant, user: User, company: Company, client: Client) {
    g.user == user && g.company == company && g.client == client
  }

  ghost predicate UniqueSlots(grants: map<GrantId, Grant>) {
    forall a, b :: a in grants && b in grants && SameSlot(grants[b], grants[a].user, grants[a].company, grants[a].client) ==> a == b
  }

  /** The grant of a user, company and client. */
  ghost function Slot(grants: map<GrantId, Grant>, user: User, company: Company, client: Client): (id: Option<GrantId>)
    ensures id.Some? ==> id.value in grants && SameSlot(grants[id.value], user, company, client)
    ensures id.None? ==> forall g :: g in grants ==> !SameSlot(grants[g], user, company, client)
  {
    if g :| g in grants && SameSlot(grants[g], user, company, client) then Some(g) else None
  }

  /** Deleting a grant takes its refresh tokens with it. */
  function DropGrant(db: Db, g: GrantId): Db {
    db.(grants := db.grants - {g}, tokens := map t | t in db.tokens && db.tokens[t].grant != g :: db.tokens[t])
  }

  function AddGrant(db: Db, id: GrantId, g: Grant): Db {
    db.(grants := db.grants[id := g], usedGrants := db.usedGrants + {id})
  }

  /** The grant that a consent leads to: the existing one with its scopes refreshed, or a new one
      under `id`. A revoked grant is deleted, never revived. */
  ghost function UpsertGrant(db: Db, user: User, company: Company, client: Client, scopes: set<Scope>, id: GrantId): (r: (Db, GrantId))
    ensures r.1 in r.0.grants
  {
    var grant := Grant(user, company, client, scopes, false);
    var slot := Slot(db.grants, user, company, client);
    if slot.None? then (AddGrant(db, id, grant), id)
    else if db.grants[slot.value].revoked then (AddGrant(DropGrant(db, slot.value), id, grant), id)
    else (db.(grants := db.grants[slot.value := db.grants[slot.value].(scopes := scopes)]), slot.value)
  }

  function Gives(g: Grant): Approval {
    Approval(g.user, g.company, g.client, g.scopes)
  }

  function AddToken(db: Db, token: Hash, t: Token): Db {
    db.(tokens := db.tokens[token := t], usedHashes := db.usedHashes + {token}, usedFamilies := db.usedFamilies + {t.family})
  }

  function RevokeWhere(tokens: map<Hash, Token>, p: Token -> bool): map<Hash, Token> {
    map t | t in tokens :: if p(tokens[t]) then tokens[t].(revoked := true) else tokens[t]
  }

  /** Persists a grant directly; the slot must be free. */
  ghost function IssueGrant(db: Db, user: User, company: Company, client: Client, scopes: set<Scope>, id: GrantId): (Db, Result<GrantId>) {
    if !(scopes <= KNOWN) then (db, Err(InvalidScope))
    else if Slot(db.grants, user, company, client).Some? then (db, Err(Rejected))
    else (AddGrant(db, id, Grant(user, company, client, scopes, false)), Ok(id))
  }

  function RevokeGrant(db: Db, user: User, g: GrantId): (Db, bool) {
    if g !in db.grants || db.grants[g].revoked || db.grants[g].user != user then (db, false)
    else
      (db.(grants := db.grants[g := db.grants[g].(revoked := true)],
           tokens := RevokeWhere(db.tokens, (t: Token) => t.grant == g), retired := db.retired + {g}), true)
  }

  // ----- codes -----

  datatype CodeParams = CodeParams(code: Hash, redirect: string, client: Client, verifier: string, resource: Option<string>)

  predicate CodeValid(db: Db, p: CodeParams) {
    && p.code in db.codes
    && var c := db.codes[p.code];
       !c.consumed && c.expires >= db.now && c.client == p.client && c.redirect == p.redirect
       && p.verifier != "" && c.challenge == Digest(p.verifier)
  }

  /** The code is marked as used and the exchange entered. */
  function Spent(db: Db, x: Exchange): Db {
    db.(codes := map c | c in db.codes :: if c == x.code then db.codes[c].(consumed := true) else db.codes[c],
        exchanges := db.exchanges + [x])
  }

  /** A code is exchanged for a grant with its scopes and the first token of a new family. */
  ghost function ExchangeCode(db: Db, p: CodeParams, id: GrantId, token: Hash, family: Family): (Db, Result<Exchange>) {
    if !CodeValid(db, p) then (db, Err(InvalidGrant))
    else
      var c := db.codes[p.code];
      if p.resource.Some? && p.resource.value != c.resource then (db, Err(InvalidTarget))
      else
        var (granted, g) := UpsertGrant(db, c.user, c.company, c.client, c.scopes, id);
        var minted := AddToken(granted, token, Token(g, family, db.now + REFRESH_TTL, false));
        var x := Exchange(p.code, c.from, g, Gives(granted.grants[g]));
        (Spent(minted, x), Ok(x))
  }

  // ----- refresh tokens -----

  /** Every token of the family is revoked. */
  function Killed(db: Db, family: Family): Db {
    db.(tokens := RevokeWhere(db.tokens, (u: Token) => u.family == family))
  }

  /** The token is revoked and `next` takes its place in the family. */
  function Replaced(db: Db, token: Hash, next: Hash): Db
    requires token in db.tokens
  {
    var t := db.tokens[token];
    var used := db.(tokens := db.tokens[token := t.(revoked := true)]);
    AddToken(used, next, Token(t.grant, t.family, db.now + REFRESH_TTL, false))
  }

  /** A live token is replaced within its family; a replayed one kills the family. */
  function RotateRefresh(db: Db, token: Hash, client: Option<Client>, next: Hash): (Db, Result<Hash>) {
    if client.None? then (db, Err(InvalidRequest))
    else if token !in db.tokens || db.tokens[token].expires < db.now then (db, Err(InvalidGrant))
    else
      var t := db.tokens[token];
      if t.revoked then
        (Killed(db, t.family), Err(InvalidGrant))
      else if t.grant !in db.grants || db.grants[t.grant].revoked then (db, Err(InvalidGrant))
      else if db.grants[t.grant].client != client.value then (db, Err(InvalidClient))
      else (Replaced(db, token, next), Ok(next))
  }

  // ----- runs -----

  /** New ids and hashes are those the step makes up. A transaction whose effects are not committed
      leaves the tables as they were. */
  datatype Event =
    | Authorize(query: AuthParams, id: RequestId)
    | Consent(id: RequestId, user: User, company: Option<Company>, approve: bool, extras: seq<Scope>, code: Hash)
    | Redeem(params: CodeParams, newGrant: GrantId, token: Hash, family: Family)
    | Rotate(token: Hash, client: Option<Client>, next: Hash)
    | Revoke(user: User, grant: GrantId)
    | Issue(user: User, forCompany: Company, forClient: Client, scopes: set<Scope>, newGrant: GrantId)
    | Tick(seconds: nat)

  datatype Step = Step(event: Event, commit: bool)

  /** What a step makes up has never been used before. */
  predicate Unused(db: Db, e: Event) {
    match e
    case Authorize(_, id) => id !in db.usedRequests
    case Consent(_, _, _, _, _, code) => code !in db.usedHashes
    case Redeem(_, g, token, family) => g !in db.usedGrants && token !in db.usedHashes && family !in db.usedFamilies
    case Rotate(_, _, next) => next !in db.usedHashes
    case Issue(_, _, _, _, g) => g !in db.usedGrants
    case _ => true
  }

  ghost function Effect(db: Db, e: Event): Db {
    match e
    case Authorize(p, id) => IssueRequest(db, p, id).0
    case Consent(id, user, company, approve, extras, code) => CompleteConsent(db, id, user, company, approve, extras, code).0
    case Redeem(p, g, token, family) => ExchangeCode(db, p, g, token, family).0
    case Rotate(token, client, next) => RotateRefresh(db, token, client, next).0
    case Revoke(user, g) => RevokeGrant(db, user, g).0
    case Issue(user, company, client, scopes, g) => IssueGrant(db, user, company, client, scopes, g).0
    case Tick(d) => db.(now := db.now + d)
  }

  ghost function Apply(db: Db, s: Step): Db {
    if s.commit then Effect(db, s.event) else db
  }

  // ----- the invariant -----

  /** Every token belongs to a grant, and a live one to a live grant. */
  ghost predicate TokensGranted(db: Db) {
    forall t :: t in db.tokens ==>
      && db.tokens[t].grant in db.grants
      && (!db.tokens[t].revoked ==> !db.grants[db.tokens[t].grant].revoked)
      && t in db.usedHashes && db.tokens[t].family in db.usedFamilies
  }

  /** A family has one grant and at most one live token. */
  ghost predicate FamiliesSingle(db: Db) {
    forall t, u :: t in db.tokens && u in db.tokens && db.tokens[t].family == db.tokens[u].family ==>
      && db.tokens[t].grant == db.tokens[u].grant
      && (!db.tokens[t].revoked && !db.tokens[u].revoked ==> t == u)
  }

  ghost predicate GrantsSound(db: Db) {
    && UniqueSlots(db.grants)
    && db.grants.Keys + db.retired <= db.usedGrants
    && (forall g :: g in db.grants ==> (db.grants[g].revoked <==> g in db.retired))
  }

  /** A stored code stands for one approval and allows what it did; it is used exactly when an
      exchange of it is on record. */
  ghost predicate CodesSound(db: Db) {
    && (forall c :: c in db.codes ==>
          && c in db.usedHashes && db.codes[c].from in db.approved && db.approved[db.codes[c].from] == Allows(db.codes[c])
          && (db.codes[c].consumed <==> exists i :: 0 <= i < |db.exchanges| && db.exchanges[i].code == c))
    && (forall c, d :: c in db.codes && d in db.codes && db.codes[c].from == db.codes[d].from ==> c == d)
    && (forall r :: r in db.approved ==> r in db.usedRequests && (r in db.requests ==> db.requests[r].consumed))
    && (forall r :: r in db.requests ==> r in db.usedRequests)
  }

  /** Every exchange on record traces to an approval of its own and gave exactly what it allowed. */
  ghost predicate ExchangesSound(db: Db) {
    && (forall i :: 0 <= i < |db.exchanges| ==>
          && db.exchanges[i].code in db.usedHashes
          && db.exchanges[i].from in db.approved && db.approved[db.exchanges[i].from] == db.exchanges[i].given)
    && (forall i, c :: 0 <= i < |db.exchanges| && c in db.codes && db.codes[c].from == db.exchanges[i].from ==> c == db.exchanges[i].code)
    && (forall i, j :: 0 <= i < j < |db.exchanges| ==>
          db.exchanges[i].code != db.exchanges[j].code && db.exchanges[i].from != db.exchanges[j].from)
  }

  ghost predicate TokenInv(db: Db) {
    TokensGranted(db) && FamiliesSingle(db) && GrantsSound(db)
  }

  ghost predicate CodeInv(db: Db) {
    CodesSound(db) && ExchangesSound(db)
  }

  ghost predicate Inv(db: Db) {
    TokenInv(db) && CodeInv(db)
  }

  lemma InitInv()
    ensures Inv(Init)
  {
  }

  // ----- every operation keeps it -----

  lemma SweepKeepsInv(db: Db)
    requires Inv(db)
    ensures Inv(Sweep(db))
  {
  }

  lemma AddRequestKeepsInv(db: Db, id: RequestId, r: Request)
    requires Inv(db) && id !in db.usedRequests
    ensures Inv(AddRequest(db, id, r))
  {
    var after := AddRequest(db, id, r);
    assert TokensGranted(after) && FamiliesSingle(after) && GrantsSound(after);
    assert CodesSound(after);
    assert ExchangesSound(after);
  }

  /** An authorize request sweeps, and may enter one request that nobody has used. */
  lemma AuthorizeShape(db: Db, p: AuthParams, id: RequestId)
    ensures var after := IssueRequest(db, p, id).0;
            var swept := Sweep(db);
            || after == swept
            || exists r :: after == AddRequest(swept, id, r)
  {
  }

  lemma AuthorizeKeepsInv(db: Db, p: AuthParams, id: RequestId)
    requires Inv(db) && id !in db.usedRequests
    ensures Inv(IssueRequest(db, p, id).0)
  {
    hide Inv, IssueRequest;
    SweepKeepsInv(db);
    var swept := Sweep(db);
    AuthorizeShape(db, p, id);
    var after := IssueRequest(db, p, id).0;
    assert swept.usedRequests == db.usedRequests;
    if after != swept {
      var r :| after == AddRequest(swept, id, r);
      AddRequestKeepsInv(swept, id, r);
    }
  }

  lemma UseRequestKeepsInv(db: Db, id: RequestId)
    requires Inv(db) && id in db.requests && !db.requests[id].consumed
    ensures Inv(UseRequest(db, id)) && id !in db.approved
  {
  }

  /** The code of an approval that was not on record. */
  ghost predicate NewCode(db: Db, code: Hash, c: Code) {
    && code !in db.usedHashes && !c.consumed
    && c.from !in db.approved && c.from in db.requests && db.requests[c.from].consumed
  }

  lemma AddCodeStaysSound(db: Db, code: Hash, c: Code)
    requires CodesSound(db) && ExchangesSound(db) && NewCode(db, code, c)
    ensures CodesSound(AddCode(db, code, c))
  {
  }

  lemma AddCodeKeepsExchanges(db: Db, code: Hash, c: Code)
    requires ExchangesSound(db) && NewCode(db, code, c)
    ensures ExchangesSound(AddCode(db, code, c))
  {
  }

  lemma AddCodeKeepsInv(db: Db, code: Hash, c: Code)
    requires Inv(db) && NewCode(db, code, c)
    ensures Inv(AddCode(db, code, c))
  {
    hide CodesSound, ExchangesSound, NewCode, TokenInv;
    AddCodeStaysSound(db, code, c);
    AddCodeKeepsExchanges(db, code, c);
    SameTokens(db, AddCode(db, code, c));
  }

  lemma ConsentKeepsInv(db: Db, id: RequestId, user: User, company: Option<Company>, approve: bool, extras: seq<Scope>, code: Hash)
    requires Inv(db) && code !in db.usedHashes
    ensures Inv(CompleteConsent(db, id, user, company, approve, extras, code).0)
  {
    hide Inv;
    if id in db.requests && !db.requests[id].consumed {
      var r := db.requests[id];
      var used := UseRequest(db, id);
      UseRequestKeepsInv(db, id);
      if MergeScopes(r.scopes, extras).Ok? && company.Some? {
        AddCodeKeepsInv(used, code, Code(user, company.value, r.client, r.redirect, MergeScopes(r.scopes, extras).value,
                                         r.challenge, r.resource, db.now + CODE_TTL, false, id));
      }
    }
  }

  /** Killing a family leaves no live token in it. */
  lemma KillKeepsInv(db: Db, family: Family)
    requires TokenInv(db)
    ensures TokenInv(Killed(db, family))
  {
  }

  lemma ReplaceStaysGranted(db: Db, token: Hash, next: Hash)
    requires TokensGranted(db) && token in db.tokens && !db.tokens[token].revoked
    ensures TokensGranted(Replaced(db, token, next))
  {
  }

  lemma ReplaceStaysSingle(db: Db, token: Hash, next: Hash)
    requires TokensGranted(db) && FamiliesSingle(db) && token in db.tokens && !db.tokens[token].revoked && next !in db.usedHashes
    ensures FamiliesSingle(Replaced(db, token, next))
  {
  }

  /** Replacing the live token of a family by a new one. */
  lemma ReplaceKeepsInv(db: Db, token: Hash, next: Hash)
    requires TokenInv(db) && token in db.tokens && !db.tokens[token].revoked && next !in db.usedHashes
    ensures TokenInv(Replaced(db, token, next))
  {
    ReplaceStaysGranted(db, token, next);
    ReplaceStaysSingle(db, token, next);
    hide TokensGranted, FamiliesSingle;
  }

  /** The tables of requests, codes and exchanges do not depend on those of grants and tokens. */
  lemma OtherTables(a: Db, b: Db)
    requires CodeInv(a)
    requires a.codes == b.codes && a.requests == b.requests && a.exchanges == b.exchanges && a.approved == b.approved
    requires a.usedHashes <= b.usedHashes && a.usedRequests == b.usedRequests
    ensures CodeInv(b)
  {
  }

  /** A rotation does one of three things to the tables of tokens. */
  lemma RotateShape(db: Db, token: Hash, client: Option<Client>, next: Hash)
    ensures var after := RotateRefresh(db, token, client, next).0;
            || after == db
            || (token in db.tokens && after == Killed(db, db.tokens[token].family))
            || (token in db.tokens && !db.tokens[token].revoked && after == Replaced(db, token, next))
  {
  }

  lemma RotateKeepsInv(db: Db, token: Hash, client: Option<Client>, next: Hash)
    requires Inv(db) && next !in db.usedHashes
    ensures Inv(RotateRefresh(db, token, client, next).0)
  {
    hide RotateRefresh, TokenInv, CodeInv;
    RotateShape(db, token, client, next);
    if token in db.tokens {
      KillKeepsInv(db, db.tokens[token].family);
      OtherTables(db, Killed(db, db.tokens[token].family));
      if !db.tokens[token].revoked {
        ReplaceKeepsInv(db, token, next);
        OtherTables(db, Replaced(db, token, next));
      }
    }
  }

  lemma RevokeKeepsInv(db: Db, user: User, g: GrantId)
    requires Inv(db)
    ensures Inv(RevokeGrant(db, user, g).0)
  {
    hide CodeInv;
    var after := RevokeGrant(db, user, g).0;
    OtherTables(db, after);
    assert TokensGranted(after);
  }

  lemma IssueKeepsInv(db: Db, user: User, company: Company, client: Client, scopes: set<Scope>, g: GrantId)
    requires Inv(db) && g !in db.usedGrants
    ensures Inv(IssueGrant(db, user, company, client, scopes, g).0)
  {
  }

  lemma AddGrantKeepsInv(db: Db, id: GrantId, g: Grant)
    requires TokenInv(db) && id !in db.usedGrants && !g.revoked
    requires forall h :: h in db.grants ==> !SameSlot(db.grants[h], g.user, g.company, g.client)
    ensures TokenInv(AddGrant(db, id, g))
  {
  }

  lemma DropGrantKeepsInv(db: Db, g: GrantId)
    requires TokenInv(db) && g in db.grants
    ensures TokenInv(DropGrant(db, g))
  {
  }

  lemma RescopeKeepsInv(db: Db, g: GrantId, scopes: set<Scope>)
    requires TokenInv(db) && g in db.grants
    ensures TokenInv(db.(grants := db.grants[g := db.grants[g].(scopes := scopes)]))
  {
  }

  lemma UpsertKeepsInv(db: Db, user: User, company: Company, client: Client, scopes: set<Scope>, id: GrantId)
    requires TokenInv(db) && id !in db.usedGrants
    ensures var (r, g) := UpsertGrant(db, user, company, client, scopes, id);
            TokenInv(r) && !r.grants[g].revoked && r.grants[g].scopes == scopes && SameSlot(r.grants[g], user, company, client)
  {
    var grant := Grant(user, company, client, scopes, false);
    var slot := Slot(db.grants, user, company, client);
    if slot.None? {
      AddGrantKeepsInv(db, id, grant);
    } else if db.grants[slot.value].revoked {
      DropGrantKeepsInv(db, slot.value);
      var dropped := DropGrant(db, slot.value);
      assert UniqueSlots(db.grants);
      hide TokenInv;
      AddGrantKeepsInv(dropped, id, grant);
    } else {
      RescopeKeepsInv(db, slot.value, scopes);
    }
    hide TokenInv;
  }

  /** Nothing but grants and tokens is touched by an upsert. */
  lemma UpsertFrame(db: Db, user: User, company: Company, client: Client, scopes: set<Scope>, id: GrantId)
    ensures var r := UpsertGrant(db, user, company, client, scopes, id).0;
            r == db.(grants := r.grants, tokens := r.tokens, usedGrants := r.usedGrants)
  {
  }

  lemma MintKeepsInv(db: Db, token: Hash, t: Token)
    requires TokenInv(db) && token !in db.usedHashes && t.family !in db.usedFamilies
    requires t.grant in db.grants && !db.grants[t.grant].revoked
    ensures TokenInv(AddToken(db, token, t))
  {
    var after := AddToken(db, token, t);
    assert TokensGranted(after);
    assert FamiliesSingle(after);
  }

  lemma SpentExchanges(db: Db, x: Exchange)
    ensures var after := Spent(db, x);
            && |after.exchanges| == |db.exchanges| + 1
            && (forall i :: 0 <= i < |db.exchanges| ==> after.exchanges[i] == db.exchanges[i])
            && after.exchanges[|db.exchanges|] == x
  {
  }

  lemma SpentCodesSound(db: Db, x: Exchange)
    requires CodesSound(db) && x.code in db.codes
    ensures CodesSound(Spent(db, x))
  {
    var after := Spent(db, x);
    SpentExchanges(db, x);
    var n := |db.exchanges|;
    forall d | d in after.codes
      ensures after.codes[d].consumed <==> exists i :: 0 <= i < |after.exchanges| && after.exchanges[i].code == d
    {
      if d == x.code {
        assert after.exchanges[n].code == d;
      } else if exists i :: 0 <= i < n && db.exchanges[i].code == d {
        var i :| 0 <= i < n && db.exchanges[i].code == d;
        assert after.exchanges[i].code == d;
      }
    }
  }

  /** An unused code has no exchange, and no exchange has its approval. */
  lemma UnusedCode(db: Db, c: Hash)
    requires CodeInv(db) && c in db.codes && !db.codes[c].consumed
    ensures forall i :: 0 <= i < |db.exchanges| ==> db.exchanges[i].code != c && db.exchanges[i].from != db.codes[c].from
  {
  }

  /** What the exchange of a code records. */
  ghost predicate Records(db: Db, x: Exchange) {
    && x.code in db.codes && !db.codes[x.code].consumed
    && x.from == db.codes[x.code].from && x.given == Allows(db.codes[x.code])
  }

  lemma SpentExchangesSound(db: Db, x: Exchange)
    requires CodeInv(db) && Records(db, x)
    ensures ExchangesSound(Spent(db, x))
  {
    SpentExchanges(db, x);
    UnusedCode(db, x.code);
    assert CodesSound(db) && ExchangesSound(db);
  }

  lemma SpentKeepsInv(db: Db, x: Exchange)
    requires Inv(db) && Records(db, x)
    ensures Inv(Spent(db, x))
  {
    hide CodesSound, ExchangesSound, Records;
    assert x.code in db.codes by { RecordsCode(db, x); }
    SpentCodesSound(db, x);
    SpentExchangesSound(db, x);
    SameTokens(db, Spent(db, x));
  }

  lemma RecordsCode(db: Db, x: Exchange)
    requires Records(db, x)
    ensures x.code in db.codes
  {
  }

  lemma RedeemKeepsInv(db: Db, p: CodeParams, id: GrantId, token: Hash, family: Family)
    requires Inv(db) && id !in db.usedGrants && token !in db.usedHashes && family !in db.usedFamilies
    ensures Inv(ExchangeCode(db, p, id, token, family).0)
  {
    hide UpsertGrant, TokenInv, CodeInv, Spent;
    if CodeValid(db, p) {
      var c := db.codes[p.code];
      UpsertKeepsInv(db, c.user, c.company, c.client, c.scopes, id);
      UpsertFrame(db, c.user, c.company, c.client, c.scopes, id);
      var (granted, g) := UpsertGrant(db, c.user, c.company, c.client, c.scopes, id);
      var t := Token(g, family, db.now + REFRESH_TTL, false);
      var minted := AddToken(granted, token, t);
      MintKeepsInv(granted, token, t);
      OtherTables(db, minted);
      SpentKeepsInv(minted, Exchange(p.code, c.from, g, Gives(granted.grants[g])));
    }
  }

  lemma SameTokens(a: Db, b: Db)
    requires TokenInv(a) && a.tokens == b.tokens && a.grants == b.grants && a.usedHashes <= b.usedHashes
    requires a.usedFamilies == b.usedFamilies && a.usedGrants == b.usedGrants && a.retired == b.retired
    ensures TokenInv(b)
  {
  }

  lemma StepKeepsInv(db: Db, s: Step)
    requires Inv(db) && Unused(db, s.event)
    ensures Inv(Apply(db, s))
  {
    hide Inv, IssueRequest, CompleteConsent, ExchangeCode, RotateRefresh, RevokeGrant, IssueGrant;
    match s.event
    case Authorize(p, id) => AuthorizeKeepsInv(db, p, id);
    case Consent(id, user, company, approve, extras, code) => ConsentKeepsInv(db, id, user, company, approve, extras, code);
    case Redeem(p, g, token, family) => RedeemKeepsInv(db, p, g, token, family);
    case Rotate(token, client, next) => RotateKeepsInv(db, token, client, next);
    case Revoke(user, g) => RevokeKeepsInv(db, user, g);
    case Issue(user, company, client, scopes, g) => IssueKeepsInv(db, user, company, client, scopes, g);
    case Tick(d) => TickKeepsInv(db, d);
  }

  lemma TickKeepsInv(db: Db, d: nat)
    requires Inv(db)
    ensures Inv(db.(now := db.now + d))
  {
  }

  ghost predicate Possible(db: Db, steps: seq<Step>)
    decreases |steps|
  {
    steps == [] || (Unused(db, steps[0].event) && Possible(Apply(db, steps[0]), steps[1..]))
  }

  ghost function Run(db: Db, steps: seq<Step>): Db
    decreases |steps|
  {
    if steps == [] then db else Run(Apply(db, steps[0]), steps[1..])
  }

  lemma {:induction false} RunKeepsInv(db: Db, steps: seq<Step>)
    requires Inv(db) && Possible(db, steps)
    ensures Inv(Run(db, steps))
    decreases |steps|
  {
    hide Inv, Apply, Unused;
    if steps != [] {
      StepKeepsInv(db, steps[0]);
      RunKeepsInv(Apply(db, steps[0]), steps[1..]);
    }
  }
}
