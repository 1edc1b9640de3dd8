/** The authorization server's tables, changed in place by the operations of the OAuth machine. */
module OAuthStore {
  import opened Wrappers
  import opened OAuth

  class Tables {
    var now: int
    var requests: map<RequestId, Request>
    var codes: map<Hash, Code>
    var grants: map<GrantId, Grant>
    var tokens: map<Hash, Token>
    /** Everything that has happened so far. */
    ghost var past: Db

    ghost predicate Valid()
      reads this
    {
      View() == past && Inv(past)
    }

    /** The tables as a value. */
    ghost function View(): Db
      reads this
    {
      past.(now := now, requests := requests, codes := codes, grants := grants, tokens := tokens)
    }

    constructor ()
      ensures Valid() && View() == Init
    {
      now, requests, codes, grants, tokens := 0, map[], map[], map[], map[];
      past := Init;
      new;
      InitInv();
    }

    method SweepExpiredRows()
      requires Valid()
      modifies this
      ensures Valid() && View() == Sweep(old(View()))
    {
      SweepKeepsInv(past);
      requests := map r | r in requests && requests[r].expires >= now :: requests[r];
      codes := map c | c in codes && codes[c].expires >= now :: codes[c];
      past := Sweep(past);
    }

    method IssueAuthRequest(p: AuthParams, id: RequestId) returns (r: Result<RequestId>)
      requires Valid() && id !in View().usedRequests
      modifies this
      ensures Valid() && (View(), r) == IssueRequest(old(View()), p, id)
    {
      hide Inv;
      AuthorizeKeepsInv(past, p, id);
      ghost var after := IssueRequest(past, p, id).0;
      SweepExpiredRows();
      if !p.clientKnown { return Err(InvalidClient); }
      if !p.redirectAllowed { return Err(InvalidRequest); }
      if !p.s256 || p.challenge.None? { return Err(InvalidRequest); }
      if p.resource != RESOURCE { return Err(InvalidTarget); }
      var scope := ParseScope(p.scope);
      if scope.Err? { return Err(scope.error); }
      requests := requests[id := Request(p.client, p.redirect, scope.value, p.challenge.value, RESOURCE, now + REQUEST_TTL, false)];
      past := after;
      r := Ok(id);
    }

    method CompleteConsent(id: RequestId, user: User, company: Option<Company>, approve: bool, extras: seq<Scope>, code: Hash)
      returns (r: Result<Option<Hash>>)
      requires Valid() && code !in View().usedHashes
      modifies this
      ensures Valid() && (View(), r) == OAuth.CompleteConsent(old(View()), id, user, company, approve, extras, code)
    {
      hide Inv, MergeScopes;
      ConsentKeepsInv(past, id, user, company, approve, extras, code);
      ghost var after := OAuth.CompleteConsent(past, id, user, company, approve, extras, code).0;
      if approve {
        var checked := MergeScopes({}, extras);
        if checked.Err? { return Err(InvalidScope); }
      }
      if id !in requests || requests[id].consumed || requests[id].expires <= now { return Err(InvalidRequest); }
      var request := requests[id];
      if approve && company.None? { return Err(Rejected); }
      requests := requests[id := request.(consumed := true)];
      if !approve {
        past := after;
        return Ok(None);
      }
      var scopes := MergeScopes(request.scopes, extras);
      MergeNeverFails(request.scopes, extras);
      codes := codes[code := Code(user, company.value, request.client, request.redirect, scopes.value, request.challenge,
                                  request.resource, now + CODE_TTL, false, id)];
      past := after;
      r := Ok(Some(code));
    }

    /** The grant a consent leads to, found by its slot. */
    method UpsertGrant(user: User, company: Company, client: Client, scopes: set<Scope>, id: GrantId) returns (g: GrantId)
      requires Valid() && id !in View().usedGrants
      modifies this
      ensures Valid() && (View(), g) == OAuth.UpsertGrant(old(View()), user, company, client, scopes, id)
      ensures g in grants && Gives(grants[g]) == Approval(user, company, client, scopes) && !grants[g].revoked
    {
      hide Inv, TokenInv, CodeInv, Slot;
      ghost var before := past;
      ghost var after := OAuth.UpsertGrant(before, user, company, client, scopes, id).0;
      UpsertKeepsWhole(before, user, company, client, scopes, id);
      SlotsAreUnique(before);
      var found: Option<GrantId> := None;
      if h :| h in grants && SameSlot(grants[h], user, company, client) {
        SlotIs(grants, user, company, client, h);
        found := Some(h);
      }
      assert found == Slot(before.grants, user, company, client);
      if found.Some? && grants[found.value].revoked {
        tokens := map t | t in tokens && tokens[t].grant != found.value :: tokens[t];
        grants := grants - {found.value};
        found := None;
      }
      if found.None? {
        grants := grants[id := Grant(user, company, client, scopes, false)];
        g := id;
      } else {
        g := found.value;
        grants := grants[g := grants[g].(scopes := scopes)];
      }
      past := after;
    }

    method ExchangeCode(p: CodeParams, id: GrantId, token: Hash, family: Family) returns (r: Result<Exchange>)
      requires Valid() && Unused(View(), Redeem(p, id, token, family))
      modifies this
      ensures Valid() && (View(), r) == OAuth.ExchangeCode(old(View()), p, id, token, family)
    {
      hide Inv, OAuth.UpsertGrant;
      ghost var before := past;
      RedeemKeepsInv(before, p, id, token, family);
      ghost var after := OAuth.ExchangeCode(before, p, id, token, family).0;
      if p.code !in codes { return Err(InvalidGrant); }
      var c := codes[p.code];
      if c.consumed || c.expires < now || c.client != p.client || c.redirect != p.redirect
        || p.verifier == "" || c.challenge != Digest(p.verifier)
      { return Err(InvalidGrant); }
      if p.resource.Some? && p.resource.value != c.resource { return Err(InvalidTarget); }
      UpsertFrame(before, c.user, c.company, c.client, c.scopes, id);
      var g := UpsertGrant(c.user, c.company, c.client, c.scopes, id);
      tokens := tokens[token := Token(g, family, now + REFRESH_TTL, false)];
      codes := map d | d in codes :: if d == p.code then codes[d].(consumed := true) else codes[d];
      past := after;
      r := Ok(Exchange(p.code, c.from, g, Gives(grants[g])));
    }

    method RotateRefresh(token: Hash, client: Option<Client>, next: Hash) returns (r: Result<Hash>)
      requires Valid() && next !in View().usedHashes
      modifies this
      ensures Valid() && (View(), r) == OAuth.RotateRefresh(old(View()), token, client, next)
    {
      hide Inv;
      RotateKeepsInv(past, token, client, next);
      ghost var after := OAuth.RotateRefresh(past, token, client, next).0;
      if client.None? { return Err(InvalidRequest); }
      if token !in tokens || tokens[token].expires < now { return Err(InvalidGrant); }
      var row := tokens[token];
      if row.revoked {
        tokens := RevokeWhere(tokens, (u: Token) => u.family == row.family);
        past := after;
        return Err(InvalidGrant);
      }
      if row.grant !in grants || grants[row.grant].revoked { return Err(InvalidGrant); }
      if grants[row.grant].client != client.value { return Err(InvalidClient); }
      tokens := tokens[token := row.(revoked := true)];
      tokens := tokens[next := Token(row.grant, row.family, now + REFRESH_TTL, false)];
      past := after;
      r := Ok(next);
    }

    method RevokeGrant(user: User, g: GrantId) returns (known: bool)
      requires Valid()
      modifies this
      ensures Valid() && (View(), known) == OAuth.RevokeGrant(old(View()), user, g)
    {
      hide Inv;
      RevokeKeepsInv(past, user, g);
      ghost var after := OAuth.RevokeGrant(past, user, g).0;
      if g !in grants || grants[g].revoked || grants[g].user != user { return false; }
      grants := grants[g := grants[g].(revoked := true)];
      tokens := RevokeWhere(tokens, (t: Token) => t.grant == g);
      past := after;
      known := true;
    }
  }

  lemma SlotsAreUnique(db: Db)
    requires Inv(db)
    ensures UniqueSlots(db.grants)
  {
  }

  /** With unique slots, the grant found is the grant meant. */
  lemma SlotIs(grants: map<GrantId, Grant>, user: User, company: Company, client: Client, g: GrantId)
    requires UniqueSlots(grants) && g in grants && SameSlot(grants[g], user, company, client)
    ensures Slot(grants, user, company, client) == Some(g)
  {
  }

  lemma UpsertKeepsWhole(db: Db, user: User, company: Company, client: Client, scopes: set<Scope>, id: GrantId)
    requires Inv(db) && id !in db.usedGrants
    ensures var (r, g) := OAuth.UpsertGrant(db, user, company, client, scopes, id);
            Inv(r) && g in r.grants && !r.grants[g].revoked && Gives(r.grants[g]) == Approval(user, company, client, scopes)
  {
    hide TokenInv, CodeInv, OAuth.UpsertGrant;
    UpsertKeepsInv(db, user, company, client, scopes, id);
    UpsertFrame(db, user, company, client, scopes, id);
    OtherTables(db, OAuth.UpsertGrant(db, user, company, client, scopes, id).0);
  }
}
