/** Which scopes are in force: those of the latest exchange. */
module OAuthScopes {
  import opened Wrappers
  import opened OAuth

  /** A grant that came from exchanges has the scopes of the latest of them. */
  ghost predicate ScopesInForce(db: Db) {
    && (forall i :: 0 <= i < |db.exchanges| ==> db.exchanges[i].grant in db.usedGrants)
    && (forall i :: 0 <= i < |db.exchanges| && db.exchanges[i].grant in db.grants
          && (forall j :: i < j < |db.exchanges| ==> db.exchanges[j].grant != db.exchanges[i].grant)
          ==> Gives(db.grants[db.exchanges[i].grant]) == db.exchanges[i].given)
  }

  /** Between exchanges no grant changes what it gives, and a new one takes an unused id. */
  ghost predicate Quiet(a: Db, b: Db) {
    && b.exchanges == a.exchanges && a.usedGrants <= b.usedGrants
    && forall g :: g in b.grants && g in a.usedGrants ==> g in a.grants && Gives(b.grants[g]) == Gives(a.grants[g])
  }

  lemma QuietStep(db: Db, s: Step)
    requires Unused(db, s.event) && !s.event.Redeem?
    ensures Quiet(db, Apply(db, s))
  {
    hide IssueRequest, CompleteConsent, RotateRefresh;
    match s.event
    case Authorize(p, id) => AuthorizeShape(db, p, id);
    case Consent(id, user, company, approve, extras, code) => QuietConsent(db, id, user, company, approve, extras, code);
    case Rotate(token, client, next) => RotateShape(db, token, client, next);
    case _ =>
  }

  lemma QuietConsent(db: Db, id: RequestId, user: User, company: Option<Company>, approve: bool, extras: seq<Scope>, code: Hash)
    ensures Quiet(db, CompleteConsent(db, id, user, company, approve, extras, code).0)
  {
    hide MergeScopes;
  }

  /** An upsert changes one grant and adds none but its own. */
  lemma UpsertTouchesOne(db: Db, user: User, company: Company, client: Client, scopes: set<Scope>, id: GrantId)
    requires id !in db.usedGrants
    ensures var (r, g) := UpsertGrant(db, user, company, client, scopes, id);
            && db.usedGrants <= r.usedGrants && (g in db.grants || g in r.usedGrants)
            && forall h :: h in r.grants && h != g ==> h in db.grants && r.grants[h] == db.grants[h]
  {
    hide SameSlot;
  }

  lemma QuietInForce(a: Db, b: Db)
    requires ScopesInForce(a) && Quiet(a, b)
    ensures ScopesInForce(b)
  {
  }

  /** The state after an exchange, as far as grants and exchanges go. */
  lemma RedeemInForce(db: Db, after: Db, x: Exchange)
    requires ScopesInForce(db) && db.usedGrants <= after.usedGrants && after.exchanges == db.exchanges + [x]
    requires x.grant in after.grants && x.grant in after.usedGrants && Gives(after.grants[x.grant]) == x.given
    requires forall h :: h in after.grants && h != x.grant ==> h in db.grants && after.grants[h] == db.grants[h]
    ensures ScopesInForce(after)
  {
    var n := |db.exchanges|;
    assert after.exchanges[n] == x;
    forall i | 0 <= i < n && after.exchanges[i].grant in after.grants
      && forall j :: i < j < n + 1 ==> after.exchanges[j].grant != after.exchanges[i].grant
      ensures Gives(after.grants[after.exchanges[i].grant]) == after.exchanges[i].given
    {
      assert after.exchanges[i] == db.exchanges[i];
      forall j | i < j < n ensures db.exchanges[j].grant != db.exchanges[i].grant {
        assert after.exchanges[j] == db.exchanges[j];
      }
      assert after.exchanges[n].grant != after.exchanges[i].grant;
    }
  }

  lemma RedeemKeepsInForce(db: Db, p: CodeParams, id: GrantId, token: Hash, family: Family)
    requires Inv(db) && ScopesInForce(db) && id !in db.usedGrants
    ensures ScopesInForce(ExchangeCode(db, p, id, token, family).0)
  {
    hide UpsertGrant, ScopesInForce;
    if CodeValid(db, p) {
      var c := db.codes[p.code];
      UpsertTouchesOne(db, c.user, c.company, c.client, c.scopes, id);
      UpsertFrame(db, c.user, c.company, c.client, c.scopes, id);
      var (after, r) := ExchangeCode(db, p, id, token, family);
      if r.Ok? {
        RedeemInForce(db, after, r.value);
      }
    }
  }

  /** What a live grant gives is what the latest exchange for it gave, in every reachable state. */
  lemma {:induction false} LatestConsentRules(db: Db, steps: seq<Step>)
    requires Inv(db) && ScopesInForce(db) && Possible(db, steps)
    ensures ScopesInForce(Run(db, steps))
    decreases |steps|
  {
    hide Inv, ScopesInForce, Quiet, ExchangeCode;
    if steps != [] {
      var s := steps[0];
      StepKeepsInv(db, s);
      if s.event.Redeem? {
        RedeemKeepsInForce(db, s.event.params, s.event.newGrant, s.event.token, s.event.family);
      } else {
        QuietStep(db, s);
        QuietInForce(db, Apply(db, s));
      }
      LatestConsentRules(Apply(db, s), steps[1..]);
    }
  }
}
