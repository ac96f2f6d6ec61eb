/**
 Refresh-token rotation: the store operations, and the protocol that many
 concurrent login, refresh, logout and revocation requests run over them.

 Every store operation is one atomic step.  A step can fail before its effect
 (`Lost`) or after it (`Unacknowledged`), a request can stop anywhere (`Crash`),
 and stored tokens can vanish through the expiry index (`Expire`).
 */
module RefreshRotation {
  import opened Prelude

  type Id = nat

  const REFRESH_CONCURRENCY_GRACE_MS: int := 5_000

  datatype Owner = Owner(orgId: Id, userId: Id, sessionId: Id)

  datatype Token = Token(
    familyId: Id,
    owner: Owner,
    expiresAt: int,
    usedAt: Option<int>,
    revokedAt: Option<int>,
    replacedBy: Option<Id>)
  {
    predicate Live() { usedAt.None? && revokedAt.None? }
  }

  // ---------------------------------------------------------------------
  // Store operations
  // ---------------------------------------------------------------------

  predicate Claimable(tokens: map<Id, Token>, id: Id, orgId: Id, usedAt: int) {
    && id in tokens
    && tokens[id].expiresAt > usedAt
    && tokens[id].owner.orgId == orgId
    && tokens[id].Live()
  }

  function Claimed(tokens: map<Id, Token>, id: Id, orgId: Id, replacement: Id, usedAt: int): map<Id, Token> {
    if Claimable(tokens, id, orgId, usedAt) then
      tokens[id := tokens[id].(usedAt := Some(usedAt), replacedBy := Some(replacement))]
    else tokens
  }

  predicate InFamily(t: Token, familyId: Id, owner: Owner) {
    t.familyId == familyId && t.owner == owner
  }

  function FamilyRevoked(tokens: map<Id, Token>, familyId: Id, owner: Owner, at: int): map<Id, Token> {
    map id | id in tokens ::
      if InFamily(tokens[id], familyId, owner) && tokens[id].revokedAt.None?
      then tokens[id].(revokedAt := Some(at)) else tokens[id]
  }

  function UserRevoked(tokens: map<Id, Token>, orgId: Id, userId: Id, at: int): map<Id, Token> {
    map id | id in tokens ::
      if tokens[id].owner.orgId == orgId && tokens[id].owner.userId == userId && tokens[id].revokedAt.None?
      then tokens[id].(revokedAt := Some(at)) else tokens[id]
  }

  /** The refresh-token collection; documents are updated in place. */
  class RefreshTokenStore {
    var tokens: map<Id, Token>

    constructor()
      ensures tokens == map[]
    {
      tokens := map[];
    }

    /** Compare-and-set: succeeds for at most one caller, and returns the document before the update. */
    method ClaimForRotation(id: Id, orgId: Id, replacement: Id, usedAt: int) returns (before: Option<Token>)
      modifies this
      ensures tokens == Claimed(old(tokens), id, orgId, replacement, usedAt)
      ensures before.Some? <==> Claimable(old(tokens), id, orgId, usedAt)
      ensures before.Some? ==> before.value == old(tokens)[id]
      ensures !Claimable(tokens, id, orgId, usedAt)
    {
      if id in tokens && tokens[id].expiresAt > usedAt && tokens[id].owner.orgId == orgId
         && tokens[id].revokedAt.None? && tokens[id].usedAt.None? {
        before := Some(tokens[id]);
        tokens := tokens[id := tokens[id].(usedAt := Some(usedAt), replacedBy := Some(replacement))];
      } else {
        before := None;
      }
    }

    /** The unique index on the token id makes a second insert fail. */
    method PersistReplacement(id: Id, familyId: Id, owner: Owner, expiresAt: int) returns (ok: bool)
      modifies this
      ensures ok <==> id !in old(tokens)
      ensures tokens == if ok then old(tokens)[id := Token(familyId, owner, expiresAt, None, None, None)]
                        else old(tokens)
    {
      ok := id !in tokens;
      if ok {
        tokens := tokens[id := Token(familyId, owner, expiresAt, None, None, None)];
      }
    }

    method RevokeFamily(familyId: Id, owner: Owner, at: int)
      modifies this
      ensures tokens == FamilyRevoked(old(tokens), familyId, owner, at)
      ensures forall id :: id in tokens && InFamily(tokens[id], familyId, owner) ==> !tokens[id].Live()
    {
      tokens := FamilyRevoked(tokens, familyId, owner, at);
    }
  }

  // ---------------------------------------------------------------------
  // The protocol
  // ---------------------------------------------------------------------

  datatype Outcome = Granted(tokenId: Id) | Concurrent | Invalid | Unavailable | LoggedOut

  /** Where an in-flight request stands; `doc` is the token document it read first. */
  datatype Pc =
    | Claiming(id: Id, doc: Token, newId: Id, now: int, newExpiry: int)
    | Loading(doc: Token, newId: Id, newExpiry: int)
    | Persisting(doc: Token, newId: Id, newExpiry: int)
    | Signing(doc: Token, newId: Id)
    | Revoking(doc: Token, after: Outcome)
    | LoggingOut(doc: Token)
    | Finished(outcome: Outcome)

  /** `place` and `chains` record the order in which a family's tokens were issued; they,
      `persisted`, `issued` and `grants` are history and are never read by a step. */
  datatype Pos = Pos(familyId: Id, index: nat)
  datatype Grant = Grant(familyId: Id, tokenId: Id)
  datatype State = State(
    tokens: map<Id, Token>,
    reqs: map<Id, Pc>,
    owners: map<Id, Owner>,
    chains: map<Id, seq<Id>>,
    place: map<Id, Pos>,
    persisted: set<Id>,
    issued: set<Id>,
    grants: seq<Grant>)

  const Init := State(map[], map[], map[], map[], map[], {}, {}, [])

  datatype Fault = Ok | Lost | Unacknowledged
  datatype Load = Active | OrganisationInactive | UserInactive | QueryFailed

  datatype Event =
    | Login(familyId: Id, tokenId: Id, owner: Owner, expiresAt: int)
    | RefreshFind(req: Id, id: Id, now: int, newId: Id, ttlMs: nat, queryFails: bool)
    | ClaimStep(req: Id, fault: Fault)
    | LoadStep(req: Id, load: Load)
    | PersistStep(req: Id, fault: Fault)
    | SignStep(req: Id, signs: bool)
    | RevokeStep(req: Id, at: int, fault: Fault)
    | LogoutFind(req: Id, id: Id, queryFails: bool)
    | LogoutStep(req: Id, at: int, fault: Fault)
    | AdminRevoke(orgId: Id, userId: Id, at: int)
    | Expire(id: Id)
    | Crash(req: Id)

  predicate WithinGrace(t: Token, now: int)
    requires t.usedAt.Some?
  {
    t.replacedBy.Some? && now - t.usedAt.value <= REFRESH_CONCURRENCY_GRACE_MS
  }

  /** The checks a refresh makes on the document it found, in source order. */
  function AfterFind(id: Id, doc: Token, now: int, newId: Id, ttlMs: nat): Pc {
    if doc.usedAt.Some? then
      if WithinGrace(doc, now) then Finished(Concurrent) else Revoking(doc, Invalid)
    else if doc.revokedAt.Some? then Finished(Invalid)
    else if doc.expiresAt <= now then Finished(Invalid)
    else Claiming(id, doc, newId, now, now + ttlMs)
  }

  function SetPc(s: State, req: Id, pc: Pc): State {
    s.(reqs := s.reqs[req := pc])
  }

  function ExecLogin(s: State, e: Event): State
    requires e.Login?
  {
    if e.familyId in s.chains || e.tokenId in s.issued then s
    else s.(tokens := s.tokens[e.tokenId := Token(e.familyId, e.owner, e.expiresAt, None, None, None)],
            owners := s.owners[e.familyId := e.owner],
            chains := s.chains[e.familyId := [e.tokenId]],
            place := s.place[e.tokenId := Pos(e.familyId, 0)],
            persisted := s.persisted + {e.tokenId},
            issued := s.issued + {e.tokenId})
  }

  function ExecRefreshFind(s: State, e: Event): State
    requires e.RefreshFind?
  {
    if e.req in s.reqs || e.newId in s.issued then s
    else if e.queryFails then SetPc(s, e.req, Finished(Unavailable))
    else if e.id !in s.tokens then SetPc(s, e.req, Finished(Invalid))
    else SetPc(s, e.req, AfterFind(e.id, s.tokens[e.id], e.now, e.newId, e.ttlMs))
         .(issued := s.issued + {e.newId})
  }

  function ExecClaim(s: State, req: Id, fault: Fault): State {
    if req !in s.reqs || !s.reqs[req].Claiming? then s
    else
      var pc := s.reqs[req];
      if fault.Lost? then SetPc(s, req, Finished(Unavailable))
      else if !Claimable(s.tokens, pc.id, pc.doc.owner.orgId, pc.now) then
        SetPc(s, req, Finished(if fault.Ok? then Concurrent else Unavailable))
      else
        var family := s.tokens[pc.id].familyId;
        var next := if fault.Ok? then Loading(pc.doc, pc.newId, pc.newExpiry) else Finished(Unavailable);
        var chain := if family in s.chains then s.chains[family] else [];
        SetPc(s, req, next).(
          tokens := Claimed(s.tokens, pc.id, pc.doc.owner.orgId, pc.newId, pc.now),
          chains := s.chains[family := chain + [pc.newId]],
          place := s.place[pc.newId := Pos(family, |chain|)])
  }

  function ExecLoad(s: State, req: Id, load: Load): State {
    if req !in s.reqs || !s.reqs[req].Loading? then s
    else
      var pc := s.reqs[req];
      match load
      case Active => SetPc(s, req, Persisting(pc.doc, pc.newId, pc.newExpiry))
      case QueryFailed => SetPc(s, req, Revoking(pc.doc, Unavailable))
      case _ => SetPc(s, req, Revoking(pc.doc, Invalid))
  }

  function ExecPersist(s: State, req: Id, fault: Fault): State {
    if req !in s.reqs || !s.reqs[req].Persisting? then s
    else
      var pc := s.reqs[req];
      if fault.Lost? || pc.newId in s.tokens then SetPc(s, req, Revoking(pc.doc, Unavailable))
      else
        var next := if fault.Ok? then Signing(pc.doc, pc.newId) else Revoking(pc.doc, Unavailable);
        SetPc(s, req, next).(
          tokens := s.tokens[pc.newId := Token(pc.doc.familyId, pc.doc.owner, pc.newExpiry, None, None, None)],
          persisted := s.persisted + {pc.newId})
  }

  function ExecSign(s: State, req: Id, signs: bool): State {
    if req !in s.reqs || !s.reqs[req].Signing? then s
    else
      var pc := s.reqs[req];
      if signs then
        SetPc(s, req, Finished(Granted(pc.newId))).(grants := s.grants + [Grant(pc.doc.familyId, pc.newId)])
      else SetPc(s, req, Revoking(pc.doc, Unavailable))
  }

  function ExecRevoke(s: State, req: Id, at: int, fault: Fault): State {
    if req !in s.reqs || !s.reqs[req].Revoking? then s
    else
      var pc := s.reqs[req];
      var s1 := SetPc(s, req, Finished(pc.after));
      if fault.Lost? then s1
      else s1.(tokens := FamilyRevoked(s.tokens, pc.doc.familyId, pc.doc.owner, at))
  }

  function ExecLogoutFind(s: State, req: Id, id: Id, queryFails: bool): State {
    if req in s.reqs then s
    else if queryFails then SetPc(s, req, Finished(Unavailable))
    else if id !in s.tokens then SetPc(s, req, Finished(LoggedOut))
    else SetPc(s, req, LoggingOut(s.tokens[id]))
  }

  function ExecLogout(s: State, req: Id, at: int, fault: Fault): State {
    if req !in s.reqs || !s.reqs[req].LoggingOut? then s
    else
      var pc := s.reqs[req];
      var s1 := SetPc(s, req, Finished(if fault.Ok? then LoggedOut else Unavailable));
      if fault.Lost? then s1
      else s1.(tokens := FamilyRevoked(s.tokens, pc.doc.familyId, pc.doc.owner, at))
  }

  function Exec(s: State, e: Event): State {
    match e
    case Login(_, _, _, _) => ExecLogin(s, e)
    case RefreshFind(_, _, _, _, _, _) => ExecRefreshFind(s, e)
    case ClaimStep(req, fault) => ExecClaim(s, req, fault)
    case LoadStep(req, load) => ExecLoad(s, req, load)
    case PersistStep(req, fault) => ExecPersist(s, req, fault)
    case SignStep(req, signs) => ExecSign(s, req, signs)
    case RevokeStep(req, at, fault) => ExecRevoke(s, req, at, fault)
    case LogoutFind(req, id, queryFails) => ExecLogoutFind(s, req, id, queryFails)
    case LogoutStep(req, at, fault) => ExecLogout(s, req, at, fault)
    case AdminRevoke(orgId, userId, at) => s.(tokens := UserRevoked(s.tokens, orgId, userId, at))
    case Expire(id) => s.(tokens := s.tokens - {id})
    case Crash(req) => if req in s.reqs then SetPc(s, req, Finished(Unavailable)) else s
  }

  function Run(s: State, es: seq<Event>): State
    decreases |es|
  {
    if es == [] then s else Run(Exec(s, es[0]), es[1..])
  }

  // ---------------------------------------------------------------------
  // Invariant
  // ---------------------------------------------------------------------

  /** Claimed a token of `f`, replacement not yet stored. */
  predicate Rotating(s: State, r: Id, f: Id) {
    r in s.reqs && (s.reqs[r].Loading? || s.reqs[r].Persisting?) && s.reqs[r].doc.familyId == f
  }

  /** Claimed a token of `f` and has not answered yet. */
  predicate InProgress(s: State, r: Id, f: Id) {
    Rotating(s, r, f) || (r in s.reqs && s.reqs[r].Signing? && s.reqs[r].doc.familyId == f)
  }

  predicate ChainOk(s: State, f: Id) {
    && f in s.chains && f in s.owners
    && |s.chains[f]| > 0
    && forall i :: 0 <= i < |s.chains[f]| ==> s.chains[f][i] in s.place && s.place[s.chains[f][i]] == Pos(f, i)
  }

  predicate PlaceOk(s: State, id: Id) {
    && id in s.place && id in s.issued
    && s.place[id].familyId in s.chains
    && s.place[id].index < |s.chains[s.place[id].familyId]|
    && s.chains[s.place[id].familyId][s.place[id].index] == id
  }

  predicate DocOk(s: State, doc: Token) {
    doc.familyId in s.owners && doc.familyId in s.chains && s.owners[doc.familyId] == doc.owner
  }

  /** A stored token is linked to its successor in the chain, or is the last one and unused. */
  predicate TokenOk(s: State, id: Id) {
    && id in s.tokens && id in s.persisted && id in s.place
    && DocOk(s, s.tokens[id])
    && s.place[id].familyId == s.tokens[id].familyId
    && var chain, i := s.chains[s.tokens[id].familyId], s.place[id].index;
       if i + 1 < |chain|
       then s.tokens[id].usedAt.Some? && s.tokens[id].replacedBy == Some(chain[i + 1])
       else s.tokens[id].usedAt.None? && s.tokens[id].replacedBy.None?
  }

  predicate ReqOk(s: State, r: Id) {
    && r in s.reqs
    && match s.reqs[r]
       case Claiming(id, doc, newId, _, _) =>
         && DocOk(s, doc) && newId in s.issued && newId !in s.place
         && id in s.place && s.place[id].familyId == doc.familyId
       case Loading(doc, newId, _) => DocOk(s, doc) && LastOf(s, doc.familyId, newId) && newId !in s.persisted
       case Persisting(doc, newId, _) => DocOk(s, doc) && LastOf(s, doc.familyId, newId) && newId !in s.persisted
       case Signing(doc, _) => DocOk(s, doc)
       case Revoking(doc, _) => DocOk(s, doc)
       case LoggingOut(doc) => DocOk(s, doc)
       case Finished(_) => true
  }

  predicate LastOf(s: State, f: Id, id: Id) {
    f in s.chains && |s.chains[f]| > 0 && s.chains[f][|s.chains[f]| - 1] == id
  }

  predicate HoldsNewId(pc: Pc) { pc.Claiming? || pc.Loading? || pc.Persisting? }

  predicate NewIdsDistinct(reqs: map<Id, Pc>) {
    forall q, r :: q in reqs && r in reqs && q != r && HoldsNewId(reqs[q]) && HoldsNewId(reqs[r]) ==>
      reqs[q].newId != reqs[r].newId
  }

  predicate HistoryInv(s: State) {
    && (forall f :: f in s.chains ==> ChainOk(s, f))
    && (forall id :: id in s.place ==> PlaceOk(s, id))
    && (forall id :: id in s.persisted ==> id in s.place)
  }

  predicate Inv(s: State) {
    && HistoryInv(s)
    && (forall id :: id in s.tokens ==> TokenOk(s, id))
    && (forall r :: r in s.reqs ==> ReqOk(s, r))
    && NewIdsDistinct(s.reqs)
  }

  // ---------------------------------------------------------------------
  // Every step keeps the invariant
  // ---------------------------------------------------------------------

  predicate SameHistory(s: State, s': State) {
    && s'.owners == s.owners && s'.chains == s.chains && s'.place == s.place
    && s'.persisted == s.persisted && s.issued <= s'.issued
  }

  /** Every stored token was stored before and differs at most in its revocation mark. */
  predicate OnlyRevokes(before: map<Id, Token>, after: map<Id, Token>) {
    forall id :: id in after ==> id in before && after[id] == before[id].(revokedAt := after[id].revokedAt)
  }

  predicate OthersKept(s: State, s': State, req: Id) {
    && (forall r :: r in s'.reqs && r != req ==> r in s.reqs && s'.reqs[r] == s.reqs[r])
  }

  lemma FrameHistory(s: State, s': State)
    requires HistoryInv(s) && SameHistory(s, s')
    ensures HistoryInv(s')
  {
    forall f | f in s'.chains ensures ChainOk(s', f) { assert ChainOk(s, f); }
    forall id | id in s'.place ensures PlaceOk(s', id) { assert PlaceOk(s, id); }
  }

  lemma FrameToken(s: State, s': State, id: Id)
    requires SameHistory(s, s') && OnlyRevokes(s.tokens, s'.tokens) && id in s'.tokens && TokenOk(s, id)
    ensures TokenOk(s', id)
  {
  }

  lemma FrameReq(s: State, s': State, r: Id)
    requires SameHistory(s, s') && ReqOk(s, r) && r in s'.reqs && s'.reqs[r] == s.reqs[r]
    ensures ReqOk(s', r)
  {
  }

  /** The steps that store no token and claim none: one request moves on, tokens may be
      revoked or dropped, and a new position's replacement id is its own. */
  lemma Frame(s: State, s': State, req: Id)
    requires Inv(s) && SameHistory(s, s') && OnlyRevokes(s.tokens, s'.tokens) && OthersKept(s, s', req)
    requires req in s'.reqs ==> ReqOk(s', req)
    requires req in s'.reqs && HoldsNewId(s'.reqs[req]) ==>
               || s'.reqs[req].newId !in s.issued
               || (req in s.reqs && HoldsNewId(s.reqs[req]) && s'.reqs[req].newId == s.reqs[req].newId)
    ensures Inv(s')
  {
    FrameHistory(s, s');
    forall id | id in s'.tokens ensures TokenOk(s', id) { FrameToken(s, s', id); }
    forall r | r in s'.reqs ensures ReqOk(s', r) { if r != req { FrameReq(s, s', r); } }
    forall r | r in s.reqs && HoldsNewId(s.reqs[r]) ensures s.reqs[r].newId in s.issued { NewIdIssued(s, r); }
  }

  lemma NewIdIssued(s: State, r: Id)
    requires Inv(s) && r in s.reqs && HoldsNewId(s.reqs[r])
    ensures s.reqs[r].newId in s.issued
  {
    assert ReqOk(s, r);
    if !s.reqs[r].Claiming? {
      assert ChainOk(s, s.reqs[r].doc.familyId);
      assert PlaceOk(s, s.reqs[r].newId);
    }
  }

  lemma LoginKeepsInv(s: State, e: Event)
    requires Inv(s) && e.Login?
    ensures Inv(ExecLogin(s, e))
  {
    var s' := ExecLogin(s, e);
    if e.familyId !in s.chains && e.tokenId !in s.issued {
      assert e.tokenId !in s.place by { assert e.tokenId in s.place ==> PlaceOk(s, e.tokenId); }
      forall f | f in s'.chains ensures ChainOk(s', f) { assert f != e.familyId ==> ChainOk(s, f); }
      forall id | id in s'.place ensures PlaceOk(s', id) { assert id != e.tokenId ==> PlaceOk(s, id); }
      forall id | id in s'.tokens ensures TokenOk(s', id) { assert id != e.tokenId ==> TokenOk(s, id); }
      forall r | r in s'.reqs ensures ReqOk(s', r) { LoginKeepsReq(s, e, r); }
    }
  }

  lemma LoginKeepsReq(s: State, e: Event, r: Id)
    requires Inv(s) && e.Login? && e.familyId !in s.chains && e.tokenId !in s.issued && r in s.reqs
    ensures ReqOk(ExecLogin(s, e), r)
  {
    assert ReqOk(s, r);
    if HoldsNewId(s.reqs[r]) { NewIdIssued(s, r); }
  }

  /** What a claim finds: the token is the last of its chain, its place is stored, and no rotation holds the chain. */
  lemma ClaimableIsLast(s: State, req: Id)
    requires Inv(s) && req in s.reqs && s.reqs[req].Claiming?
    requires Claimable(s.tokens, s.reqs[req].id, s.reqs[req].doc.owner.orgId, s.reqs[req].now)
    ensures var pc, t := s.reqs[req], s.tokens[s.reqs[req].id];
            && t.familyId == pc.doc.familyId && LastOf(s, t.familyId, pc.id) && pc.id in s.persisted
            && s.place[pc.id] == Pos(t.familyId, |s.chains[t.familyId]| - 1)
            && forall r :: !Rotating(s, r, t.familyId)
  {
    var pc, t := s.reqs[req], s.tokens[s.reqs[req].id];
    assert ReqOk(s, req);
    assert TokenOk(s, pc.id);
    assert PlaceOk(s, pc.id);
    forall r ensures !Rotating(s, r, t.familyId) {
      assert r in s.reqs ==> ReqOk(s, r);
    }
  }

  /** The state after an effective claim, apart from the claiming request's own position. */
  predicate ChainExtended(s: State, s': State, req: Id) {
    && req in s.reqs && s.reqs[req].Claiming?
    && var pc := s.reqs[req];
    && pc.id in s.tokens && s.tokens[pc.id].familyId in s.chains
    && var f := s.tokens[pc.id].familyId;
    && s'.owners == s.owners && s'.persisted == s.persisted && s'.issued == s.issued
    && s'.chains == s.chains[f := s.chains[f] + [pc.newId]]
    && s'.place == s.place[pc.newId := Pos(f, |s.chains[f]|)]
    && s'.tokens == Claimed(s.tokens, pc.id, pc.doc.owner.orgId, pc.newId, pc.now)
    && OthersKept(s, s', req) && req in s'.reqs
    && (s'.reqs[req] == Loading(pc.doc, pc.newId, pc.newExpiry) || s'.reqs[req].Finished?)
  }

  lemma ClaimKeepsHistory(s: State, s': State, req: Id)
    requires Inv(s) && ChainExtended(s, s', req)
    ensures HistoryInv(s')
  {
    assert ReqOk(s, req);
    forall f | f in s'.chains ensures ChainOk(s', f) { assert ChainOk(s, f); }
    forall id | id in s'.place ensures PlaceOk(s', id) { assert id != s.reqs[req].newId ==> PlaceOk(s, id); }
  }

  lemma ClaimKeepsTokens(s: State, s': State, req: Id, id: Id)
    requires Inv(s) && ChainExtended(s, s', req) && id in s'.tokens
    requires Claimable(s.tokens, s.reqs[req].id, s.reqs[req].doc.owner.orgId, s.reqs[req].now)
    ensures TokenOk(s', id)
  {
    assert ReqOk(s, req);
    ClaimableIsLast(s, req);
    assert TokenOk(s, id) && PlaceOk(s, id);
  }

  lemma ClaimKeepsReqs(s: State, s': State, req: Id, r: Id)
    requires Inv(s) && ChainExtended(s, s', req) && r in s'.reqs
    requires Claimable(s.tokens, s.reqs[req].id, s.reqs[req].doc.owner.orgId, s.reqs[req].now)
    ensures ReqOk(s', r)
  {
    assert ReqOk(s, req);
    ClaimableIsLast(s, req);
    if r != req {
      assert ReqOk(s, r);
      assert !Rotating(s, r, s.tokens[s.reqs[req].id].familyId);
    }
  }

  lemma ExtendingKeepsInv(s: State, s': State, req: Id)
    requires Inv(s) && ChainExtended(s, s', req)
    requires Claimable(s.tokens, s.reqs[req].id, s.reqs[req].doc.owner.orgId, s.reqs[req].now)
    ensures Inv(s')
  {
    ClaimKeepsHistory(s, s', req);
    forall id | id in s'.tokens ensures TokenOk(s', id) { ClaimKeepsTokens(s, s', req, id); }
    forall r | r in s'.reqs ensures ReqOk(s', r) { ClaimKeepsReqs(s, s', req, r); }
  }

  lemma ClaimExtends(s: State, req: Id, fault: Fault)
    requires req in s.reqs && s.reqs[req].Claiming? && !fault.Lost? && TokenOk(s, s.reqs[req].id)
    requires Claimable(s.tokens, s.reqs[req].id, s.reqs[req].doc.owner.orgId, s.reqs[req].now)
    ensures ChainExtended(s, ExecClaim(s, req, fault), req)
  {
  }

  lemma ClaimKeepsInv(s: State, req: Id, fault: Fault)
    requires Inv(s)
    ensures Inv(ExecClaim(s, req, fault))
  {
    if req in s.reqs && s.reqs[req].Claiming? {
      var s', pc := ExecClaim(s, req, fault), s.reqs[req];
      if !fault.Lost? && Claimable(s.tokens, pc.id, pc.doc.owner.orgId, pc.now) {
        ClaimExtends(s, req, fault);
        ExtendingKeepsInv(s, s', req);
      } else {
        Frame(s, s', req);
      }
    }
  }

  lemma PersistKeepsHistory(s: State, s': State, req: Id)
    requires Inv(s) && req in s.reqs && s.reqs[req].Persisting?
    requires s' == s.(reqs := s'.reqs, tokens := s'.tokens, persisted := s.persisted + {s.reqs[req].newId})
    ensures HistoryInv(s')
  {
    assert ReqOk(s, req);
    forall f | f in s'.chains ensures ChainOk(s', f) { assert ChainOk(s, f); }
    forall id | id in s'.place ensures PlaceOk(s', id) { assert PlaceOk(s, id); }
  }

  lemma PersistKeepsToken(s: State, s': State, req: Id, id: Id)
    requires Inv(s) && req in s.reqs && s.reqs[req].Persisting? && id in s'.tokens
    requires var pc := s.reqs[req];
             s' == s.(reqs := s'.reqs, persisted := s.persisted + {pc.newId},
               tokens := s.tokens[pc.newId := Token(pc.doc.familyId, pc.doc.owner, pc.newExpiry, None, None, None)])
    ensures TokenOk(s', id)
  {
    assert ReqOk(s, req);
    assert ChainOk(s, s.reqs[req].doc.familyId);
    assert id != s.reqs[req].newId ==> TokenOk(s, id);
  }

  lemma PersistKeepsReq(s: State, s': State, req: Id, r: Id)
    requires Inv(s) && req in s.reqs && s.reqs[req].Persisting? && r in s.reqs && r != req
    requires s'.reqs.Keys == s.reqs.Keys && s'.reqs[r] == s.reqs[r]
    requires s' == s.(reqs := s'.reqs, tokens := s'.tokens, persisted := s.persisted + {s.reqs[req].newId})
    ensures ReqOk(s', r)
  {
    assert ReqOk(s, r);
  }

  lemma PersistKeepsInv(s: State, req: Id, fault: Fault)
    requires Inv(s)
    ensures Inv(ExecPersist(s, req, fault))
  {
    if req in s.reqs && s.reqs[req].Persisting? {
      var s', pc := ExecPersist(s, req, fault), s.reqs[req];
      assert ReqOk(s, req);
      if fault.Lost? || pc.newId in s.tokens {
        Frame(s, s', req);
      } else {
        PersistKeepsHistory(s, s', req);
        forall id | id in s'.tokens ensures TokenOk(s', id) { PersistKeepsToken(s, s', req, id); }
        forall r | r in s'.reqs ensures ReqOk(s', r) { if r != req { PersistKeepsReq(s, s', req, r); } }
      }
    }
  }

  lemma RefreshFindKeepsInv(s: State, e: Event)
    requires Inv(s) && e.RefreshFind?
    ensures Inv(ExecRefreshFind(s, e))
  {
    if e.req !in s.reqs && e.newId !in s.issued {
      FoundOk(s, e);
      var s' := ExecRefreshFind(s, e);
      assert s'.tokens == s.tokens && OnlyRevokes(s.tokens, s'.tokens);
      assert HoldsNewId(s'.reqs[e.req]) ==> s'.reqs[e.req].newId == e.newId;
      Frame(s, s', e.req);
    }
  }

  lemma FoundOk(s: State, e: Event)
    requires Inv(s) && e.RefreshFind? && e.req !in s.reqs && e.newId !in s.issued
    ensures ReqOk(ExecRefreshFind(s, e), e.req)
  {
    var s' := ExecRefreshFind(s, e);
    if !s'.reqs[e.req].Finished? {
      assert TokenOk(s, e.id) && DocOk(s', s.tokens[e.id]);
      assert e.newId !in s.place by { assert e.newId in s.place ==> PlaceOk(s, e.newId); }
    }
  }

  lemma LogoutFindKeepsInv(s: State, req: Id, id: Id, queryFails: bool)
    requires Inv(s)
    ensures Inv(ExecLogoutFind(s, req, id, queryFails))
  {
    if req !in s.reqs {
      assert id in s.tokens ==> TokenOk(s, id);
      Frame(s, ExecLogoutFind(s, req, id, queryFails), req);
    }
  }

  lemma LoadKeepsInv(s: State, req: Id, load: Load)
    requires Inv(s)
    ensures Inv(ExecLoad(s, req, load))
  {
    if req in s.reqs {
      assert ReqOk(s, req);
      Frame(s, ExecLoad(s, req, load), req);
    }
  }

  lemma SignKeepsInv(s: State, req: Id, signs: bool)
    requires Inv(s)
    ensures Inv(ExecSign(s, req, signs))
  {
    if req in s.reqs {
      assert ReqOk(s, req);
      Frame(s, ExecSign(s, req, signs), req);
    }
  }

  lemma RevokeKeepsInv(s: State, req: Id, at: int, fault: Fault)
    requires Inv(s)
    ensures Inv(ExecRevoke(s, req, at, fault))
  {
    if req in s.reqs && s.reqs[req].Revoking? {
      var tokens := ExecRevoke(s, req, at, fault).tokens;
      assert OnlyRevokes(s.tokens, tokens);
      Frame(s, ExecRevoke(s, req, at, fault), req);
    }
  }

  lemma LogoutKeepsInv(s: State, req: Id, at: int, fault: Fault)
    requires Inv(s)
    ensures Inv(ExecLogout(s, req, at, fault))
  {
    if req in s.reqs && s.reqs[req].LoggingOut? {
      var tokens := ExecLogout(s, req, at, fault).tokens;
      assert OnlyRevokes(s.tokens, tokens);
      Frame(s, ExecLogout(s, req, at, fault), req);
    }
  }

  lemma SweepKeepsInv(s: State, tokens: map<Id, Token>)
    requires Inv(s) && OnlyRevokes(s.tokens, tokens)
    ensures Inv(s.(tokens := tokens))
  {
    var s' := s.(tokens := tokens);
    FrameHistory(s, s');
    forall id | id in s'.tokens ensures TokenOk(s', id) { FrameToken(s, s', id); }
    forall r | r in s'.reqs ensures ReqOk(s', r) { FrameReq(s, s', r); }
  }

  lemma AdminRevokeKeepsInv(s: State, e: Event)
    requires Inv(s) && e.AdminRevoke?
    ensures Inv(Exec(s, e))
  {
    assert OnlyRevokes(s.tokens, UserRevoked(s.tokens, e.orgId, e.userId, e.at));
    SweepKeepsInv(s, UserRevoked(s.tokens, e.orgId, e.userId, e.at));
  }

  lemma CrashKeepsInv(s: State, req: Id)
    requires Inv(s)
    ensures Inv(Exec(s, Crash(req)))
  {
    if req in s.reqs { Frame(s, SetPc(s, req, Finished(Unavailable)), req); }
  }

  lemma StepKeepsInv(s: State, e: Event)
    requires Inv(s)
    ensures Inv(Exec(s, e))
  {
    match e
    case Login(_, _, _, _) => LoginKeepsInv(s, e);
    case RefreshFind(_, _, _, _, _, _) => RefreshFindKeepsInv(s, e);
    case ClaimStep(req, fault) => ClaimKeepsInv(s, req, fault);
    case LoadStep(req, load) => LoadKeepsInv(s, req, load);
    case PersistStep(req, fault) => PersistKeepsInv(s, req, fault);
    case SignStep(req, signs) => SignKeepsInv(s, req, signs);
    case RevokeStep(req, at, fault) => RevokeKeepsInv(s, req, at, fault);
    case LogoutFind(req, id, queryFails) => LogoutFindKeepsInv(s, req, id, queryFails);
    case LogoutStep(req, at, fault) => LogoutKeepsInv(s, req, at, fault);
    case AdminRevoke(_, _, _) => AdminRevokeKeepsInv(s, e);
    case Expire(id) => SweepKeepsInv(s, s.tokens - {id});
    case Crash(req) => CrashKeepsInv(s, req);
  }

  lemma {:induction false} RunKeepsInv(s: State, es: seq<Event>)
    requires Inv(s)
    ensures Inv(Run(s, es))
    decreases |es|
  {
    if es != [] {
      StepKeepsInv(s, es[0]);
      RunKeepsInv(Exec(s, es[0]), es[1..]);
    }
  }

  // ---------------------------------------------------------------------
  // One live holder per family
  // ---------------------------------------------------------------------

  function LiveTokens(s: State, f: Id): set<Id> {
    set id | id in s.tokens && s.tokens[id].familyId == f && s.tokens[id].Live()
  }

  function Rotations(s: State, f: Id): set<Id> {
    set r | r in s.reqs && Rotating(s, r, f)
  }

  lemma SmallSet(xs: set<Id>)
    requires forall x, y :: x in xs && y in xs ==> x == y
    ensures |xs| <= 1
  {
    if xs != {} {
      var x :| x in xs;
      assert xs == {x};
    }
  }

  lemma LiveIsLast(s: State, f: Id, id: Id)
    requires Inv(s) && id in LiveTokens(s, f)
    ensures LastOf(s, f, id) && id in s.persisted
  {
    assert TokenOk(s, id) && PlaceOk(s, id);
  }

  lemma RotationIsLast(s: State, f: Id, r: Id)
    requires Inv(s) && Rotating(s, r, f)
    ensures LastOf(s, f, s.reqs[r].newId) && s.reqs[r].newId !in s.persisted
  {
    assert ReqOk(s, r);
  }

  /** In every interleaving a family's live tokens and unfinished rotations number at most one in all. */
  lemma {:induction false} AtMostOneHolder(es: seq<Event>, f: Id)
    ensures |LiveTokens(Run(Init, es), f)| + |Rotations(Run(Init, es), f)| <= 1
  {
    RunKeepsInv(Init, es);
    var s := Run(Init, es);
    forall x, y | x in LiveTokens(s, f) && y in LiveTokens(s, f) ensures x == y {
      LiveIsLast(s, f, x); LiveIsLast(s, f, y);
    }
    forall x, y | x in Rotations(s, f) && y in Rotations(s, f) ensures x == y {
      RotationIsLast(s, f, x); RotationIsLast(s, f, y);
    }
    SmallSet(LiveTokens(s, f));
    SmallSet(Rotations(s, f));
    if id, r :| id in LiveTokens(s, f) && r in Rotations(s, f) {
      LiveIsLast(s, f, id); RotationIsLast(s, f, r);
      assert false;
    }
  }

  /** A family is one unbranched chain of replacements that shares one organisation, user and session. */
  lemma {:induction false} FamilyIsAChain(es: seq<Event>, a: Id, b: Id)
    requires var s := Run(Init, es); a in s.tokens && b in s.tokens
    ensures var ta, tb := Run(Init, es).tokens[a], Run(Init, es).tokens[b];
            && (ta.familyId == tb.familyId ==> ta.owner == tb.owner)
            && (ta.replacedBy.Some? && ta.replacedBy == tb.replacedBy ==> a == b)
            && (ta.replacedBy == Some(b) ==> ta.familyId == tb.familyId && a != b)
            && (ta.familyId == tb.familyId && a != b ==> ta.usedAt.Some? || tb.usedAt.Some?)
            && (ta.usedAt.Some? <==> ta.replacedBy.Some?)
  {
    RunKeepsInv(Init, es);
    var s := Run(Init, es);
    assert TokenOk(s, a) && TokenOk(s, b) && PlaceOk(s, a) && PlaceOk(s, b);
    assert ChainOk(s, s.tokens[a].familyId) && ChainOk(s, s.tokens[b].familyId);
  }

  // ---------------------------------------------------------------------
  // A token is claimed at most once
  // ---------------------------------------------------------------------

  predicate EffectiveClaim(s: State, e: Event, id: Id) {
    && e.ClaimStep? && e.req in s.reqs && s.reqs[e.req].Claiming? && !e.fault.Lost?
    && s.reqs[e.req].id == id
    && Claimable(s.tokens, id, s.reqs[e.req].doc.owner.orgId, s.reqs[e.req].now)
  }

  function Claims(s: State, es: seq<Event>, id: Id): nat
    decreases |es|
  {
    if es == [] then 0
    else (if EffectiveClaim(s, es[0], id) then 1 else 0) + Claims(Exec(s, es[0]), es[1..], id)
  }

  predicate Spent(s: State, id: Id) {
    id in s.persisted && (id in s.tokens ==> s.tokens[id].usedAt.Some?)
  }

  /** The only steps that store a token store one that was not stored before. */
  lemma SpentKept(s: State, e: Event, id: Id)
    requires Spent(s, id) && id in s.issued
    requires e.PersistStep? && e.req in s.reqs && s.reqs[e.req].Persisting? ==> s.reqs[e.req].newId !in s.persisted
    ensures Spent(Exec(s, e), id) && !EffectiveClaim(s, e, id)
  {
    if e.ClaimStep? { assert Spent(ExecClaim(s, e.req, e.fault), id); }
    else if e.PersistStep? { assert Spent(ExecPersist(s, e.req, e.fault), id); }
    else if e.Login? { assert Spent(ExecLogin(s, e), id); }
  }

  lemma PersistedIsIssued(s: State, id: Id, req: Id)
    requires Inv(s) && id in s.persisted
    ensures id in s.issued && (req in s.reqs && s.reqs[req].Persisting? ==> s.reqs[req].newId !in s.persisted)
  {
    assert PlaceOk(s, id);
    assert req in s.reqs ==> ReqOk(s, req);
  }

  lemma ClaimSpends(s: State, e: Event, id: Id)
    requires Inv(s) && EffectiveClaim(s, e, id)
    ensures Spent(Exec(s, e), id)
  {
    assert TokenOk(s, id);
  }

  lemma {:induction false} SpentIsFinal(s: State, es: seq<Event>, id: Id)
    requires Inv(s) && Spent(s, id)
    ensures Claims(s, es, id) == 0
    decreases |es|
  {
    if es != [] {
      PersistedIsIssued(s, id, if es[0].PersistStep? then es[0].req else 0);
      SpentKept(s, es[0], id);
      StepKeepsInv(s, es[0]);
      SpentIsFinal(Exec(s, es[0]), es[1..], id);
    }
  }

  lemma {:induction false} ClaimedAtMostOnce(s: State, es: seq<Event>, id: Id)
    requires Inv(s)
    ensures Claims(s, es, id) <= 1
    decreases |es|
  {
    if es != [] {
      StepKeepsInv(s, es[0]);
      if EffectiveClaim(s, es[0], id) {
        ClaimSpends(s, es[0], id);
        SpentIsFinal(Exec(s, es[0]), es[1..], id);
      } else {
        ClaimedAtMostOnce(Exec(s, es[0]), es[1..], id);
      }
    }
  }

  // ---------------------------------------------------------------------
  // Every grant is a rotation of its own
  // ---------------------------------------------------------------------

  predicate Carries(pc: Pc) { HoldsNewId(pc) || pc.Signing? }

  /** The token has a predecessor in the family's chain. */
  predicate Successor(s: State, f: Id, id: Id) { id in s.place && s.place[id].familyId == f && s.place[id].index >= 1 }

  predicate CarrierOk(s: State, r: Id) {
    r in s.reqs && Carries(s.reqs[r]) ==>
      && s.reqs[r].newId in s.issued
      && (!s.reqs[r].Claiming? ==> Successor(s, s.reqs[r].doc.familyId, s.reqs[r].newId))
      && (s.reqs[r].Signing? ==> s.reqs[r].newId in s.persisted)
  }

  predicate GrantOk(s: State, g: Grant) {
    g.tokenId in s.issued && g.tokenId in s.persisted && Successor(s, g.familyId, g.tokenId)
  }

  predicate GrantInv(s: State) {
    && (forall r :: r in s.reqs ==> CarrierOk(s, r))
    && (forall q, r :: q in s.reqs && r in s.reqs && q != r && Carries(s.reqs[q]) && Carries(s.reqs[r]) ==>
           s.reqs[q].newId != s.reqs[r].newId)
    && (forall i :: 0 <= i < |s.grants| ==> GrantOk(s, s.grants[i]))
    && (forall i, r :: 0 <= i < |s.grants| && r in s.reqs && Carries(s.reqs[r]) ==>
           s.grants[i].tokenId != s.reqs[r].newId)
    && (forall i, j :: 0 <= i < j < |s.grants| ==> s.grants[i].tokenId != s.grants[j].tokenId)
  }

  predicate HistoryGrows(s: State, s': State) {
    && (forall id :: id in s.place ==> id in s'.place && s'.place[id] == s.place[id])
    && s.persisted <= s'.persisted && s.issued <= s'.issued && s'.grants == s.grants
  }

  /** A step that grants nothing: one request moves on and keeps its replacement id, or takes a fresh one. */
  predicate Quiet(s: State, s': State, req: Id) {
    && HistoryGrows(s, s') && OthersKept(s, s', req) && CarrierOk(s', req)
    && (req in s'.reqs && Carries(s'.reqs[req]) ==>
          s'.reqs[req].newId !in s.issued
            || (req in s.reqs && Carries(s.reqs[req]) && s'.reqs[req].newId == s.reqs[req].newId))
  }

  lemma QuietKeepsGrants(s: State, s': State, req: Id)
    requires GrantInv(s) && Quiet(s, s', req)
    ensures GrantInv(s')
  {
    forall r | r in s'.reqs ensures CarrierOk(s', r) { if r != req { assert CarrierOk(s, r); } }
    forall i | 0 <= i < |s'.grants| ensures GrantOk(s', s'.grants[i]) { assert GrantOk(s, s.grants[i]); }
    forall r | r in s.reqs && Carries(s.reqs[r]) ensures s.reqs[r].newId in s.issued { assert CarrierOk(s, r); }
  }

  lemma LoginKeepsGrants(s: State, e: Event)
    requires Inv(s) && GrantInv(s) && e.Login?
    ensures GrantInv(Exec(s, e))
  {
    if Exec(s, e) != s {
      var r := FreshId(s.reqs.Keys);
      assert e.tokenId in s.place ==> PlaceOk(s, e.tokenId);
      QuietKeepsGrants(s, Exec(s, e), r);
    }
  }

  lemma ClaimKeepsGrants(s: State, req: Id, fault: Fault)
    requires Inv(s) && GrantInv(s)
    ensures GrantInv(ExecClaim(s, req, fault))
  {
    if req in s.reqs && s.reqs[req].Claiming? {
      var s', pc := ExecClaim(s, req, fault), s.reqs[req];
      assert ReqOk(s, req) && CarrierOk(s, req);
      if Claimable(s.tokens, pc.id, pc.doc.owner.orgId, pc.now) { ClaimableIsLast(s, req); }
      QuietKeepsGrants(s, s', req);
    }
  }

  lemma MoveIsQuiet(s: State, e: Event)
    requires (e.LoadStep? || e.PersistStep?) && e.req in s.reqs && CarrierOk(s, e.req)
    ensures Quiet(s, Exec(s, e), e.req)
  {
    if e.LoadStep? { LoadIsQuiet(s, e.req, e.load); } else { PersistIsQuiet(s, e.req, e.fault); }
  }

  lemma LoadIsQuiet(s: State, req: Id, load: Load)
    requires req in s.reqs && CarrierOk(s, req)
    ensures Quiet(s, ExecLoad(s, req, load), req)
  {
  }

  lemma PersistIsQuiet(s: State, req: Id, fault: Fault)
    requires req in s.reqs && CarrierOk(s, req)
    ensures Quiet(s, ExecPersist(s, req, fault), req)
  {
  }

  /** Carrying no replacement id, before and after or only after, is quiet. */
  lemma StopIsQuiet(s: State, s': State, req: Id)
    requires HistoryGrows(s, s') && OthersKept(s, s', req) && (req in s'.reqs ==> !Carries(s'.reqs[req]))
    ensures Quiet(s, s', req)
  {
  }

  lemma RefreshFindIsQuiet(s: State, e: Event)
    requires e.RefreshFind? && e.req !in s.reqs
    ensures Quiet(s, ExecRefreshFind(s, e), e.req)
  {
    var s' := ExecRefreshFind(s, e);
    FindOnlyIssues(s, e);
    if e.req in s'.reqs && Carries(s'.reqs[e.req]) {
      assert s'.reqs[e.req].Claiming? && s'.reqs[e.req].newId == e.newId;
    } else {
      StopIsQuiet(s, s', e.req);
    }
  }

  lemma FindOnlyIssues(s: State, e: Event)
    requires e.RefreshFind? && e.req !in s.reqs
    ensures HistoryGrows(s, ExecRefreshFind(s, e)) && OthersKept(s, ExecRefreshFind(s, e), e.req)
  {
  }

  lemma LogoutFindIsQuiet(s: State, e: Event)
    requires e.LogoutFind? && e.req !in s.reqs
    ensures Quiet(s, Exec(s, e), e.req)
  {
    StopIsQuiet(s, Exec(s, e), e.req);
  }

  lemma MoveKeepsGrants(s: State, e: Event)
    requires GrantInv(s) && (e.LoadStep? || e.PersistStep?) && e.req in s.reqs
    ensures GrantInv(Exec(s, e))
  {
    assert CarrierOk(s, e.req);
    MoveIsQuiet(s, e);
    QuietKeepsGrants(s, Exec(s, e), e.req);
  }

  lemma EndKeepsGrants(s: State, req: Id, outcome: Outcome, tokens: map<Id, Token>)
    requires GrantInv(s)
    ensures GrantInv(SetPc(s, req, Finished(outcome)).(tokens := tokens))
  {
    var s' := SetPc(s, req, Finished(outcome)).(tokens := tokens);
    StopIsQuiet(s, s', req);
    QuietKeepsGrants(s, s', req);
  }

  lemma StopKeepsGrants(s: State, e: Event)
    requires GrantInv(s) && (e.RevokeStep? || e.LogoutStep? || e.Crash?) && Exec(s, e) != s
    ensures GrantInv(Exec(s, e))
  {
    EndKeepsGrants(s, e.req, Exec(s, e).reqs[e.req].outcome, Exec(s, e).tokens);
  }

  lemma FindKeepsGrants(s: State, e: Event)
    requires GrantInv(s) && (e.RefreshFind? || e.LogoutFind?) && e.req !in s.reqs
    ensures GrantInv(Exec(s, e))
  {
    if e.RefreshFind? { RefreshFindIsQuiet(s, e); } else { LogoutFindIsQuiet(s, e); }
    QuietKeepsGrants(s, Exec(s, e), e.req);
  }

  /** The signed token leaves the request and joins the grants. */
  lemma GrantingKeepsGrants(s: State, req: Id)
    requires GrantInv(s) && req in s.reqs && s.reqs[req].Signing?
    ensures GrantInv(ExecSign(s, req, true))
  {
    var s', g := ExecSign(s, req, true), Grant(s.reqs[req].doc.familyId, s.reqs[req].newId);
    assert CarrierOk(s, req);
    assert s'.grants == s.grants + [g] && !Carries(s'.reqs[req]);
    assert forall i :: 0 <= i < |s.grants| ==> s.grants[i].tokenId != g.tokenId;
    forall r | r in s'.reqs ensures CarrierOk(s', r) { assert CarrierOk(s, r); }
    forall i | 0 <= i < |s'.grants| ensures GrantOk(s', s'.grants[i]) {
      assert i < |s.grants| ==> GrantOk(s, s.grants[i]);
    }
  }

  lemma SignKeepsGrants(s: State, req: Id, signs: bool)
    requires GrantInv(s)
    ensures GrantInv(ExecSign(s, req, signs))
  {
    if req in s.reqs && s.reqs[req].Signing? {
      if signs { GrantingKeepsGrants(s, req); } else { QuietKeepsGrants(s, ExecSign(s, req, signs), req); }
    }
  }

  lemma SweepKeepsGrants(s: State, tokens: map<Id, Token>)
    requires GrantInv(s)
    ensures GrantInv(s.(tokens := tokens))
  {
    var s' := s.(tokens := tokens);
    forall r | r in s'.reqs ensures CarrierOk(s', r) { assert CarrierOk(s, r); }
    forall i | 0 <= i < |s'.grants| ensures GrantOk(s', s'.grants[i]) { assert GrantOk(s, s.grants[i]); }
  }

  lemma StepKeepsGrants(s: State, e: Event)
    requires Inv(s) && GrantInv(s)
    ensures GrantInv(Exec(s, e))
  {
    match e
    case Login(_, _, _, _) => LoginKeepsGrants(s, e);
    case RefreshFind(req, _, _, _, _, _) => if req !in s.reqs { FindKeepsGrants(s, e); }
    case ClaimStep(req, fault) => ClaimKeepsGrants(s, req, fault);
    case SignStep(req, signs) => SignKeepsGrants(s, req, signs);
    case LogoutFind(req, _, _) => if req !in s.reqs { FindKeepsGrants(s, e); }
    case AdminRevoke(orgId, userId, at) => SweepKeepsGrants(s, UserRevoked(s.tokens, orgId, userId, at));
    case Expire(id) => SweepKeepsGrants(s, s.tokens - {id});
    case LoadStep(req, _) => if req in s.reqs { MoveKeepsGrants(s, e); }
    case PersistStep(req, _) => if req in s.reqs { MoveKeepsGrants(s, e); }
    case _ => if Exec(s, e) != s { StopKeepsGrants(s, e); }
  }

  lemma {:induction false} RunKeepsGrants(s: State, es: seq<Event>)
    requires Inv(s) && GrantInv(s)
    ensures GrantInv(Run(s, es))
    decreases |es|
  {
    if es != [] {
      StepKeepsGrants(s, es[0]);
      StepKeepsInv(s, es[0]);
      RunKeepsGrants(Exec(s, es[0]), es[1..]);
    }
  }

  /** In every run no token is handed to two requests, and every token handed out was stored as the successor of an
      earlier token of the same family: one successful refresh for each effective claim, at most. */
  lemma {:induction false} GrantsAreRotations(es: seq<Event>, i: nat, j: nat)
    requires i < j < |Run(Init, es).grants|
    ensures var s := Run(Init, es);
            && s.grants[i].tokenId != s.grants[j].tokenId
            && s.grants[i].tokenId in s.persisted && Successor(s, s.grants[i].familyId, s.grants[i].tokenId)
            && s.grants[j].tokenId in s.persisted && Successor(s, s.grants[j].familyId, s.grants[j].tokenId)
  {
    RunKeepsGrants(Init, es);
    var s := Run(Init, es);
    assert GrantOk(s, s.grants[i]) && GrantOk(s, s.grants[j]);
  }

  // ---------------------------------------------------------------------
  // When a revocation is final
  // ---------------------------------------------------------------------

  function CountGrants(grants: seq<Grant>, f: Id): nat {
    if grants == [] then 0
    else CountGrants(grants[..|grants| - 1], f) + (if grants[|grants| - 1].familyId == f then 1 else 0)
  }

  /** No token of `f` is live and no claimed rotation of `f` could still store one. */
  predicate Barren(s: State, f: Id) {
    && f in s.chains
    && (forall id :: id in s.tokens && s.tokens[id].familyId == f ==> !s.tokens[id].Live())
    && (forall r :: r in s.reqs ==> !Rotating(s, r, f))
  }

  predicate Dead(s: State, f: Id) {
    Barren(s, f) && forall r :: r in s.reqs ==> !InProgress(s, r, f)
  }

  function Revoked(s: State, f: Id, at: int): State
    requires f in s.owners
  {
    s.(tokens := FamilyRevoked(s.tokens, f, s.owners[f], at))
  }

  lemma ClaimKeepsBarren(s: State, req: Id, fault: Fault, f: Id)
    requires Inv(s) && Barren(s, f)
    ensures Barren(ExecClaim(s, req, fault), f)
    ensures Dead(s, f) ==> Dead(ExecClaim(s, req, fault), f)
  {
    if req in s.reqs && s.reqs[req].Claiming?
       && Claimable(s.tokens, s.reqs[req].id, s.reqs[req].doc.owner.orgId, s.reqs[req].now) {
      ClaimableIsLast(s, req);
    }
  }

  lemma LoginKeepsBarren(s: State, e: Event, f: Id)
    requires Barren(s, f) && e.Login?
    ensures Barren(Exec(s, e), f) && (Dead(s, f) ==> Dead(Exec(s, e), f)) && Exec(s, e).grants == s.grants
  {
  }

  lemma RefreshFindKeepsBarren(s: State, e: Event, f: Id)
    requires Barren(s, f) && e.RefreshFind?
    ensures Barren(Exec(s, e), f) && (Dead(s, f) ==> Dead(Exec(s, e), f)) && Exec(s, e).grants == s.grants
  {
  }

  lemma LogoutFindKeepsBarren(s: State, e: Event, f: Id)
    requires Barren(s, f) && e.LogoutFind?
    ensures Barren(Exec(s, e), f) && (Dead(s, f) ==> Dead(Exec(s, e), f)) && Exec(s, e).grants == s.grants
  {
  }

  lemma LoadKeepsBarren(s: State, e: Event, f: Id)
    requires Barren(s, f) && e.LoadStep?
    ensures Barren(Exec(s, e), f) && (Dead(s, f) ==> Dead(Exec(s, e), f)) && Exec(s, e).grants == s.grants
  {
  }

  lemma PersistKeepsBarren(s: State, e: Event, f: Id)
    requires Barren(s, f) && e.PersistStep?
    ensures Barren(Exec(s, e), f) && (Dead(s, f) ==> Dead(Exec(s, e), f)) && Exec(s, e).grants == s.grants
  {
  }

  lemma {:induction false} SignKeepsBarren(s: State, e: Event, f: Id)
    requires Barren(s, f) && e.SignStep?
    ensures Barren(Exec(s, e), f) && (Dead(s, f) ==> Dead(Exec(s, e), f))
    ensures Dead(s, f) ==> CountGrants(Exec(s, e).grants, f) == CountGrants(s.grants, f)
  {
    if Dead(s, f) && e.req in s.reqs {
      assert !InProgress(s, e.req, f);
      assert (s.grants + [Grant(0, 0)])[..|s.grants|] == s.grants;
    }
  }

  lemma {:induction false} LossKeepsBarren(s: State, e: Event, f: Id)
    requires Barren(s, f) && (e.AdminRevoke? || e.Expire? || e.Crash?)
    ensures Barren(Exec(s, e), f)
    ensures Dead(s, f) ==> Dead(Exec(s, e), f)
    ensures Dead(s, f) ==> CountGrants(Exec(s, e).grants, f) == CountGrants(s.grants, f)
  {
  }

  lemma SweepKeepsBarren(s: State, e: Event, f: Id)
    requires Barren(s, f) && (e.RevokeStep? || e.LogoutStep?)
    ensures Barren(Exec(s, e), f)
    ensures Dead(s, f) ==> Dead(Exec(s, e), f)
    ensures Exec(s, e).grants == s.grants
  {
  }

  lemma {:induction false} BarrenForever(s: State, es: seq<Event>, f: Id)
    requires Inv(s) && Barren(s, f)
    ensures Barren(Run(s, es), f)
    ensures Dead(s, f) ==> CountGrants(Run(s, es).grants, f) == CountGrants(s.grants, f)
    decreases |es|
  {
    if es != [] {
      match es[0] {
        case ClaimStep(req, fault) => ClaimKeepsBarren(s, req, fault, f);
        case RevokeStep(_, _, _) => SweepKeepsBarren(s, es[0], f);
        case LogoutStep(_, _, _) => SweepKeepsBarren(s, es[0], f);
        case Login(_, _, _, _) => LoginKeepsBarren(s, es[0], f);
        case RefreshFind(_, _, _, _, _, _) => RefreshFindKeepsBarren(s, es[0], f);
        case LogoutFind(_, _, _) => LogoutFindKeepsBarren(s, es[0], f);
        case LoadStep(_, _) => LoadKeepsBarren(s, es[0], f);
        case PersistStep(_, _) => PersistKeepsBarren(s, es[0], f);
        case SignStep(_, _) => SignKeepsBarren(s, es[0], f);
        case _ => LossKeepsBarren(s, es[0], f);
      }
      StepKeepsInv(s, es[0]);
      BarrenForever(Exec(s, es[0]), es[1..], f);
    }
  }

  /** Everything a revocation's four-field filter must match, it matches. */
  lemma RevocationLeavesNoneLive(s: State, f: Id, at: int)
    requires Inv(s) && f in s.owners
    ensures LiveTokens(Revoked(s, f, at), f) == {}
    ensures Inv(Revoked(s, f, at))
  {
    FamilyDies(s, f, at);
    SweepKeepsInv(s, FamilyRevoked(s.tokens, f, s.owners[f], at));
  }

  /** The steps that carry a claimed rotation through to its answer. */
  function Completion(pc: Pc, r: Id): seq<Event>
    requires pc.Loading? || pc.Persisting? || pc.Signing?
  {
    match pc
    case Loading(_, _, _) => [LoadStep(r, Active), PersistStep(r, Ok), SignStep(r, true)]
    case Persisting(_, _, _) => [PersistStep(r, Ok), SignStep(r, true)]
    case Signing(_, _) => [SignStep(r, true)]
  }

  lemma {:induction false} SigningGrants(s: State, r: Id, f: Id)
    requires r in s.reqs && s.reqs[r].Signing? && s.reqs[r].doc.familyId == f
    ensures CountGrants(Run(s, [SignStep(r, true)]).grants, f) == CountGrants(s.grants, f) + 1
    ensures Run(s, [SignStep(r, true)]).tokens == s.tokens
  {
    var s1 := Exec(s, SignStep(r, true));
    assert Run(s, [SignStep(r, true)]) == s1 by { assert [SignStep(r, true)][1..] == []; }
    assert s1.grants[..|s1.grants| - 1] == s.grants;
  }

  lemma {:induction false} PersistingGrants(s: State, r: Id, f: Id)
    requires Inv(s) && r in s.reqs && s.reqs[r].Persisting? && s.reqs[r].doc.familyId == f
    ensures var s' := Run(s, [PersistStep(r, Ok), SignStep(r, true)]);
            CountGrants(s'.grants, f) == CountGrants(s.grants, f) + 1 && LiveTokens(s', f) != {}
  {
    assert ReqOk(s, r);
    assert s.reqs[r].newId !in s.tokens by {
      assert s.reqs[r].newId in s.tokens ==> TokenOk(s, s.reqs[r].newId);
    }
    var es := [PersistStep(r, Ok), SignStep(r, true)];
    assert es[1..] == [SignStep(r, true)];
    var s1 := Exec(s, es[0]);
    SigningGrants(s1, r, f);
    assert s.reqs[r].newId in LiveTokens(Run(s1, es[1..]), f);
  }

  lemma {:induction false} CompletionGrants(s: State, r: Id, f: Id)
    requires Inv(s) && InProgress(s, r, f)
    ensures CountGrants(Run(s, Completion(s.reqs[r], r)).grants, f) == CountGrants(s.grants, f) + 1
    ensures Rotating(s, r, f) ==> LiveTokens(Run(s, Completion(s.reqs[r], r)), f) != {}
  {
    match s.reqs[r]
    case Signing(_, _) => SigningGrants(s, r, f);
    case Persisting(_, _, _) => PersistingGrants(s, r, f);
    case Loading(_, _, _) =>
      StepKeepsInv(s, LoadStep(r, Active));
      var es := Completion(s.reqs[r], r);
      assert es[1..] == [PersistStep(r, Ok), SignStep(r, true)];
      PersistingGrants(Exec(s, LoadStep(r, Active)), r, f);
  }

  lemma NoneLiveIsBarren(s: State, f: Id)
    requires f in s.chains && LiveTokens(s, f) == {} && Rotations(s, f) == {}
    ensures Barren(s, f)
  {
    forall id | id in s.tokens && s.tokens[id].familyId == f ensures !s.tokens[id].Live() {
      assert id !in LiveTokens(s, f);
    }
    forall r | r in s.reqs ensures !Rotating(s, r, f) { assert r !in Rotations(s, f); }
  }

  /** A family without live tokens can come back to life exactly when a claimed rotation is still to be stored. */
  lemma {:induction false} StaysDeadIff(s: State, f: Id)
    requires Inv(s) && f in s.chains && LiveTokens(s, f) == {}
    ensures (forall es :: LiveTokens(Run(s, es), f) == {}) <==> Rotations(s, f) == {}
  {
    if Rotations(s, f) == {} {
      NoneLiveIsBarren(s, f);
      forall es ensures LiveTokens(Run(s, es), f) == {} { BarrenForever(s, es, f); }
    } else {
      var r :| r in Rotations(s, f);
      CompletionGrants(s, r, f);
    }
  }

  /** A family without live tokens grants nothing more exactly when no rotation of it is in progress. */
  lemma {:induction false} GrantsNoMoreIff(s: State, f: Id)
    requires Inv(s) && f in s.chains && LiveTokens(s, f) == {}
    ensures (forall es :: CountGrants(Run(s, es).grants, f) == CountGrants(s.grants, f))
       <==> (forall r :: r in s.reqs ==> !InProgress(s, r, f))
  {
    if r :| r in s.reqs && InProgress(s, r, f) {
      CompletionGrants(s, r, f);
    } else {
      assert Rotations(s, f) == {} by {
        forall r | r in s.reqs ensures !Rotating(s, r, f) { assert !InProgress(s, r, f); }
      }
      NoneLiveIsBarren(s, f);
      assert Dead(s, f);
      forall es ensures CountGrants(Run(s, es).grants, f) == CountGrants(s.grants, f) { BarrenForever(s, es, f); }
    }
  }

  /** The steps that revoke a family: a logout, the revocation a refresh falls back on, and an administrator's. */
  predicate Revokes(s: State, e: Event, f: Id) {
    || (e.LogoutStep? && !e.fault.Lost? && e.req in s.reqs && s.reqs[e.req].LoggingOut?
         && s.reqs[e.req].doc.familyId == f)
    || (e.RevokeStep? && !e.fault.Lost? && e.req in s.reqs && s.reqs[e.req].Revoking?
         && s.reqs[e.req].doc.familyId == f)
    || (e.AdminRevoke? && f in s.owners && s.owners[f].orgId == e.orgId && s.owners[f].userId == e.userId)
  }

  lemma RevokingTokens(s: State, e: Event, f: Id)
    requires Inv(s) && Revokes(s, e, f)
    ensures f in s.owners
    ensures var tokens := Exec(s, e).tokens;
            forall id :: id in tokens && tokens[id].familyId == f ==> !tokens[id].Live()
  {
    if e.AdminRevoke? {
      FamilyIsOwned(s, f);
    } else {
      assert ReqOk(s, e.req);
      RequestRevokes(s, e, f);
      FamilyDies(s, f, e.at);
    }
  }

  lemma RequestRevokes(s: State, e: Event, f: Id)
    requires Revokes(s, e, f) && !e.AdminRevoke? && f in s.owners && s.reqs[e.req].doc.owner == s.owners[f]
    ensures Exec(s, e).tokens == FamilyRevoked(s.tokens, f, s.owners[f], e.at)
  {
  }

  lemma FamilyDies(s: State, f: Id, at: int)
    requires Inv(s) && f in s.owners
    ensures var tokens := FamilyRevoked(s.tokens, f, s.owners[f], at);
            forall id :: id in tokens && tokens[id].familyId == f ==> !tokens[id].Live()
  {
    FamilyIsOwned(s, f);
  }

  lemma FamilyIsOwned(s: State, f: Id)
    requires Inv(s) && f in s.owners
    ensures forall id :: id in s.tokens && s.tokens[id].familyId == f ==> s.tokens[id].owner == s.owners[f]
  {
    forall id | id in s.tokens && s.tokens[id].familyId == f ensures s.tokens[id].owner == s.owners[f] {
      assert TokenOk(s, id);
    }
  }

  /** They leave no token live, and no rotation of any family begins or ends with them. */
  lemma RevokingStep(s: State, e: Event, f: Id)
    requires Inv(s) && Revokes(s, e, f)
    ensures LiveTokens(Exec(s, e), f) == {} && Exec(s, e).grants == s.grants && Exec(s, e).chains == s.chains
    ensures forall r :: InProgress(Exec(s, e), r, f) <==> InProgress(s, r, f)
    ensures Rotations(Exec(s, e), f) == Rotations(s, f)
  {
    RevokingTokens(s, e, f);
    assert forall r :: Rotating(Exec(s, e), r, f) <==> Rotating(s, r, f);
  }

  /** A revoked family can come back to life exactly when the revocation landed between a claim and its persist. */
  lemma RevocationRemovesIff(s: State, e: Event, f: Id)
    requires Inv(s) && f in s.chains && Revokes(s, e, f)
    ensures (forall es :: LiveTokens(Run(Exec(s, e), es), f) == {}) <==> Rotations(s, f) == {}
  {
    RevokingStep(s, e, f);
    StepKeepsInv(s, e);
    StaysDeadIff(Exec(s, e), f);
  }

  /** After a logout, a reuse revocation or an administrator's revocation, no refresh of the family ever succeeds again,
      exactly when none was in progress. */
  lemma {:induction false} RevocationIsFinalIff(s: State, e: Event, f: Id)
    requires Inv(s) && f in s.chains && Revokes(s, e, f)
    ensures (forall es :: CountGrants(Run(Exec(s, e), es).grants, f) == CountGrants(s.grants, f))
       <==> (forall r :: r in s.reqs ==> !InProgress(s, r, f))
  {
    RevokingStep(s, e, f);
    StepKeepsInv(s, e);
    GrantsNoMoreIff(Exec(s, e), f);
    SameProgress(s, Exec(s, e), f);
  }

  lemma SameProgress(s: State, t: State, f: Id)
    requires forall r :: InProgress(t, r, f) <==> InProgress(s, r, f)
    ensures (forall r :: r in t.reqs ==> !InProgress(t, r, f)) <==> (forall r :: r in s.reqs ==> !InProgress(s, r, f))
  {
    if r :| r in t.reqs && InProgress(t, r, f) { assert InProgress(s, r, f); }
    if r :| r in s.reqs && InProgress(s, r, f) { assert InProgress(t, r, f); }
  }

  lemma ReuseFound(s: State, req: Id, id: Id, now: int, newId: Id, ttlMs: nat)
    requires id in s.tokens && s.tokens[id].usedAt.Some? && s.tokens[id].replacedBy.Some? && req !in s.reqs
             && newId !in s.issued
    ensures var s1 := Exec(s, RefreshFind(req, id, now, newId, ttlMs, false));
            && s1.tokens == s.tokens && req in s1.reqs
            && s1.reqs[req] == if now - s.tokens[id].usedAt.value <= REFRESH_CONCURRENCY_GRACE_MS
                               then Finished(Concurrent) else Revoking(s.tokens[id], Invalid)
  {
  }

  lemma RevokeStepRevokes(s: State, req: Id, at: int)
    requires req in s.reqs
    ensures var s2, pc := Exec(s, RevokeStep(req, at, Ok)), s.reqs[req];
            && req in s2.reqs
            && (pc.Finished? ==> s2 == s)
            && (pc.Revoking? ==>
                  && s2.reqs[req] == Finished(pc.after)
                  && s2.tokens == FamilyRevoked(s.tokens, pc.doc.familyId, pc.doc.owner, at))
  {
  }

  /** Presenting a token again: within the grace window a plain refusal that changes no token, after it the
      whole family is revoked.  The stored link to a successor never decides, because it is set with `usedAt`. */
  lemma ReuseDetection(s: State, req: Id, id: Id, now: int, newId: Id, ttlMs: nat, at: int)
    requires Inv(s) && id in s.tokens && s.tokens[id].usedAt.Some? && req !in s.reqs && newId !in s.issued
    ensures var s1 := Exec(s, RefreshFind(req, id, now, newId, ttlMs, false));
            var s2 := Exec(s1, RevokeStep(req, at, Ok));
            && req in s2.reqs
            && if now - s.tokens[id].usedAt.value <= REFRESH_CONCURRENCY_GRACE_MS
               then s2.tokens == s.tokens && s2.reqs[req] == Finished(Concurrent)
               else s2.tokens == FamilyRevoked(s.tokens, s.tokens[id].familyId, s.tokens[id].owner, at)
                    && LiveTokens(s2, s.tokens[id].familyId) == {} && s2.reqs[req] == Finished(Invalid)
  {
    assert TokenOk(s, id);
    ReuseFound(s, req, id, now, newId, ttlMs);
    RevokeStepRevokes(Exec(s, RefreshFind(req, id, now, newId, ttlMs, false)), req, at);
    RevocationLeavesNoneLive(s, s.tokens[id].familyId, at);
  }

  // ---------------------------------------------------------------------
  // What one refresh answers
  // ---------------------------------------------------------------------

  /** What the calls of one refresh run into, as far as it makes them. */
  datatype Calls = Calls(query: bool, claim: Fault, load: Load, persist: Fault, signs: bool, revoke: Fault)

  /** A refresh with nothing in between; the steps it does not come to change nothing. */
  function Refresh(req: Id, id: Id, now: int, newId: Id, ttlMs: nat, at: int, c: Calls): seq<Event> {
    [RefreshFind(req, id, now, newId, ttlMs, !c.query), ClaimStep(req, c.claim)] + Ending(req, at, c)
  }

  /** What follows the claim. */
  function Ending(req: Id, at: int, c: Calls): seq<Event> {
    [LoadStep(req, c.load), PersistStep(req, c.persist), SignStep(req, c.signs), RevokeStep(req, at, c.revoke)]
  }

  lemma {:induction false} RunTwo(s: State, a: Event, b: Event, rest: seq<Event>)
    ensures Run(s, [a, b] + rest) == Run(Exec(Exec(s, a), b), rest)
  {
    var es := [a, b] + rest;
    assert es[1..] == [b] + rest && es[1..][1..] == rest;
    assert Run(s, es) == Run(Exec(s, a), es[1..]);
    assert Run(Exec(s, a), es[1..]) == Run(Exec(Exec(s, a), b), es[1..][1..]);
  }

  lemma {:induction false} EndingRuns(s: State, req: Id, at: int, c: Calls)
    ensures Run(s, Ending(req, at, c))
         == Exec(Exec(Exec(Exec(s, LoadStep(req, c.load)), PersistStep(req, c.persist)), SignStep(req, c.signs)),
                 RevokeStep(req, at, c.revoke))
  {
    var es := Ending(req, at, c);
    assert es == [es[0], es[1]] + es[2..] && es[2..] == [es[2], es[3]] + [];
    RunTwo(s, es[0], es[1], es[2..]);
    RunTwo(Exec(Exec(s, es[0]), es[1]), es[2], es[3], []);
  }

  predicate Answered(s: State, req: Id, outcome: Outcome) { req in s.reqs && s.reqs[req] == Finished(outcome) }

  /** Past its answer a request does nothing. */
  lemma AnsweredStays(s: State, req: Id, outcome: Outcome, c: Calls, at: int)
    requires Answered(s, req, outcome)
    ensures Exec(s, ClaimStep(req, c.claim)) == s && Exec(s, LoadStep(req, c.load)) == s
    ensures Exec(s, PersistStep(req, c.persist)) == s && Exec(s, SignStep(req, c.signs)) == s
    ensures Exec(s, RevokeStep(req, at, c.revoke)) == s
  {
  }

  /** A failed rotation waits for its last step. */
  lemma RevokingStays(s: State, req: Id, c: Calls)
    requires req in s.reqs && s.reqs[req].Revoking?
    ensures Exec(s, ClaimStep(req, c.claim)) == s && Exec(s, LoadStep(req, c.load)) == s
    ensures Exec(s, PersistStep(req, c.persist)) == s && Exec(s, SignStep(req, c.signs)) == s
  {
  }

  /** The answer to a token that cannot be rotated.  Only late reuse changes any token. */
  lemma {:induction false} RefreshIsRefused(s: State, req: Id, id: Id, now: int, newId: Id, ttlMs: nat, at: int,
                                            c: Calls)
    requires Inv(s) && req !in s.reqs && newId !in s.issued
    requires !c.query || id !in s.tokens || s.tokens[id].usedAt.Some? || s.tokens[id].revokedAt.Some?
             || s.tokens[id].expiresAt <= now
    ensures var t := Run(s, Refresh(req, id, now, newId, ttlMs, at, c));
            if !c.query then Answered(t, req, Unavailable) && t.tokens == s.tokens
            else if id !in s.tokens then Answered(t, req, Invalid) && t.tokens == s.tokens
            else if s.tokens[id].usedAt.None? then Answered(t, req, Invalid) && t.tokens == s.tokens
            else if now <= s.tokens[id].usedAt.value + 5_000 then Answered(t, req, Concurrent) && t.tokens == s.tokens
            else
              && Answered(t, req, Invalid)
              && (c.revoke.Lost? ==> t.tokens == s.tokens)
              && (!c.revoke.Lost? ==> OnlyFamilyRevoked(s.tokens, t.tokens, s.tokens[id], at))
  {
    var find := RefreshFind(req, id, now, newId, ttlMs, !c.query);
    RunTwo(s, find, ClaimStep(req, c.claim), Ending(req, at, c));
    EndingRuns(Exec(Exec(s, find), ClaimStep(req, c.claim)), req, at, c);
    var s1 := Exec(s, find);
    if c.query && id in s.tokens && s.tokens[id].usedAt.Some? {
      assert TokenOk(s, id);
      ReuseFound(s, req, id, now, newId, ttlMs);
    }
    assert s1.tokens == s.tokens && req in s1.reqs;
    if s1.reqs[req].Finished? {
      AnsweredStays(s1, req, s1.reqs[req].outcome, c, at);
    } else {
      assert s1.reqs[req] == Revoking(s.tokens[id], Invalid);
      RevokingStays(s1, req, c);
      RevokeAnswers(s1, req, at, c.revoke);
    }
  }

  /** Exactly the live-marked tokens of the document's family and owner are marked, at the given time. */
  predicate OnlyFamilyRevoked(before: map<Id, Token>, after: map<Id, Token>, doc: Token, at: int) {
    && after.Keys == before.Keys
    && forall id :: id in before ==>
         if before[id].familyId == doc.familyId && before[id].owner == doc.owner && before[id].revokedAt.None?
         then after[id] == before[id].(revokedAt := Some(at))
         else after[id] == before[id]
  }

  lemma RevokeAnswers(s: State, req: Id, at: int, fault: Fault)
    requires req in s.reqs && s.reqs[req].Revoking?
    ensures var t := Exec(s, RevokeStep(req, at, fault));
            && Answered(t, req, s.reqs[req].after)
            && (fault.Lost? ==> t.tokens == s.tokens)
            && (!fault.Lost? ==> OnlyFamilyRevoked(s.tokens, t.tokens, s.reqs[req].doc, at))
  {
  }

  function Used(tokens: map<Id, Token>, id: Id, newId: Id, now: int): map<Id, Token>
    requires id in tokens
  {
    tokens[id := tokens[id].(usedAt := Some(now), replacedBy := Some(newId))]
  }

  /** How a rotation ends whose claim left these tokens: granted exactly when the account is active and no call fails,
      and then the replacement is stored.  Any failure revokes the family, whatever was stored before. */
  ghost predicate RotationEnded(t: State, req: Id, tokens: map<Id, Token>, doc: Token, newId: Id, expiry: int, c: Calls,
                                at: int)
  {
    var stored := tokens[newId := Token(doc.familyId, doc.owner, expiry, None, None, None)];
    if c.load.Active? && c.persist.Ok? && c.signs then Answered(t, req, Granted(newId)) && t.tokens == stored
    else
      && Answered(t, req, if c.load.OrganisationInactive? || c.load.UserInactive? then Invalid else Unavailable)
      && var left := if c.load.Active? && !c.persist.Lost? then stored else tokens;
         if c.revoke.Lost? then t.tokens == left else OnlyFamilyRevoked(left, t.tokens, doc, at)
  }

  /** The answer to a live token in time: it is used up when the claim arrives, and the rotation goes on when the claim
      is answered. */
  lemma {:induction false} RefreshIsAnswered(s: State, req: Id, id: Id, now: int, newId: Id, ttlMs: nat, at: int,
                                             c: Calls)
    requires Inv(s) && req !in s.reqs && newId !in s.issued
    requires c.query && id in s.tokens && s.tokens[id].Live() && now < s.tokens[id].expiresAt
    ensures var t := Run(s, Refresh(req, id, now, newId, ttlMs, at, c));
            match c.claim
            case Lost => Answered(t, req, Unavailable) && t.tokens == s.tokens
            case Unacknowledged => Answered(t, req, Unavailable) && t.tokens == Used(s.tokens, id, newId, now)
            case Ok => RotationEnded(t, req, Used(s.tokens, id, newId, now), s.tokens[id], newId, now + ttlMs, c, at)
  {
    NewIdNotStored(s, newId);
    var claimed := RefreshClaims(s, req, id, now, newId, ttlMs, at, c);
    ClaimedEnds(claimed, req, c, at);
  }

  /** From an answered or granted claim on. */
  lemma {:induction false} ClaimedEnds(s: State, req: Id, c: Calls, at: int)
    requires Answered(s, req, Unavailable) || (req in s.reqs && s.reqs[req].Loading? && s.reqs[req].newId !in s.tokens)
    ensures var t := Run(s, Ending(req, at, c));
            if s.reqs[req].Finished? then t == s
            else var pc := s.reqs[req];
                 RotationEnded(t, req, s.tokens, pc.doc, pc.newId, pc.newExpiry, c, at)
  {
    EndingRuns(s, req, at, c);
    if s.reqs[req].Finished? { AnsweredStays(s, req, Unavailable, c, at); } else { RotationEnds(s, req, c, at); }
  }

  lemma NewIdNotStored(s: State, newId: Id)
    requires Inv(s) && newId !in s.issued
    ensures newId !in s.tokens
  {
    assert newId in s.tokens ==> TokenOk(s, newId) && PlaceOk(s, newId);
  }

  /** The first two steps. */
  lemma {:induction false} RefreshClaims(s: State, req: Id, id: Id, now: int, newId: Id, ttlMs: nat, at: int, c: Calls)
    returns (claimed: State)
    requires req !in s.reqs && newId !in s.issued && c.query
    requires id in s.tokens && s.tokens[id].Live() && now < s.tokens[id].expiresAt
    ensures Run(s, Refresh(req, id, now, newId, ttlMs, at, c)) == Run(claimed, Ending(req, at, c))
    ensures match c.claim
            case Lost => Answered(claimed, req, Unavailable) && claimed.tokens == s.tokens
            case Unacknowledged => Answered(claimed, req, Unavailable)
              && claimed.tokens == Used(s.tokens, id, newId, now)
            case Ok =>
              && req in claimed.reqs && claimed.reqs[req] == Loading(s.tokens[id], newId, now + ttlMs)
              && claimed.tokens == Used(s.tokens, id, newId, now)
  {
    var find := RefreshFind(req, id, now, newId, ttlMs, false);
    RunTwo(s, find, ClaimStep(req, c.claim), Ending(req, at, c));
    var s1 := Exec(s, find);
    assert s1.tokens == s.tokens && req in s1.reqs;
    assert s1.reqs[req] == Claiming(id, s.tokens[id], newId, now, now + ttlMs);
    claimed := Exec(s1, ClaimStep(req, c.claim));
  }

  /** The last four steps, from the claim on. */
  lemma RotationEnds(s: State, req: Id, c: Calls, at: int)
    requires req in s.reqs && s.reqs[req].Loading? && s.reqs[req].newId !in s.tokens
    ensures var t := Exec(Exec(Exec(Exec(s, LoadStep(req, c.load)), PersistStep(req, c.persist)),
                               SignStep(req, c.signs)), RevokeStep(req, at, c.revoke));
            var pc := s.reqs[req];
            RotationEnded(t, req, s.tokens, pc.doc, pc.newId, pc.newExpiry, c, at)
  {
    var pc := s.reqs[req];
    var s1 := Exec(s, LoadStep(req, c.load));
    if !c.load.Active? {
      assert s1.tokens == s.tokens && req in s1.reqs && s1.reqs[req].Revoking? && s1.reqs[req].doc == pc.doc;
      RevokingStays(s1, req, c);
      RevokeAnswers(s1, req, at, c.revoke);
    } else {
      assert s1.tokens == s.tokens && req in s1.reqs && s1.reqs[req] == Persisting(pc.doc, pc.newId, pc.newExpiry);
      var s2 := Exec(s1, PersistStep(req, c.persist));
      if !c.persist.Ok? {
        assert req in s2.reqs && s2.reqs[req] == Revoking(pc.doc, Unavailable);
        RevokingStays(s2, req, c);
        RevokeAnswers(s2, req, at, c.revoke);
      } else {
        assert req in s2.reqs && s2.reqs[req] == Signing(pc.doc, pc.newId);
        var s3 := Exec(s2, SignStep(req, c.signs));
        assert s3.tokens == s2.tokens && req in s3.reqs;
        if c.signs { AnsweredStays(s3, req, Granted(pc.newId), c, at); } else { RevokeAnswers(s3, req, at, c.revoke); }
      }
    }
  }

  /** Whoever comes to claim a token that was used, revoked or dropped meanwhile changes nothing, and is told so. */
  lemma LateClaimIsAnswered(s: State, req: Id, fault: Fault)
    requires req in s.reqs && s.reqs[req].Claiming? && (s.reqs[req].id in s.tokens ==> !s.tokens[s.reqs[req].id].Live())
    ensures var t := Exec(s, ClaimStep(req, fault));
            t.tokens == s.tokens && Answered(t, req, if fault.Ok? then Concurrent else Unavailable)
  {
  }

  /** Of two refreshes that both find a live token, the one whose claim comes second is answered Concurrent, whatever
      becomes of the first. */
  lemma RaceHasOneClaim(s: State, first: Id, second: Id)
    requires first in s.reqs && second in s.reqs && first != second
    requires s.reqs[first].Claiming? && s.reqs[second].Claiming? && s.reqs[first].id == s.reqs[second].id
    requires Claimable(s.tokens, s.reqs[first].id, s.reqs[first].doc.owner.orgId, s.reqs[first].now)
    ensures var t := Exec(Exec(s, ClaimStep(first, Ok)), ClaimStep(second, Ok));
            && first in t.reqs && t.reqs[first].Loading? && Answered(t, second, Concurrent)
            && t.tokens == Used(s.tokens, s.reqs[first].id, s.reqs[first].newId, s.reqs[first].now)
  {
    var s1 := Exec(s, ClaimStep(first, Ok));
    assert s1.tokens == Used(s.tokens, s.reqs[first].id, s.reqs[first].newId, s.reqs[first].now);
    assert second in s1.reqs && s1.reqs[second] == s.reqs[second] && first in s1.reqs && s1.reqs[first].Loading?;
    LateClaimIsAnswered(s1, second, Ok);
    StepUnmoves(s1, ClaimStep(second, Ok), first);
  }

  /** A logout of a known token revokes its family and no other; unknown tokens log out as well. */
  lemma LogoutAnswers(s: State, req: Id, id: Id, query: bool, at: int, fault: Fault)
    requires req !in s.reqs
    ensures var t := Exec(Exec(s, LogoutFind(req, id, !query)), LogoutStep(req, at, fault));
            && Answered(t, req, if query && (id !in s.tokens || fault.Ok?) then LoggedOut else Unavailable)
            && if query && id in s.tokens && !fault.Lost? then OnlyFamilyRevoked(s.tokens, t.tokens, s.tokens[id], at)
               else t.tokens == s.tokens
  {
    var s1 := Exec(s, LogoutFind(req, id, !query));
    assert s1.tokens == s.tokens && req in s1.reqs;
    if s1.reqs[req].Finished? { assert Exec(s1, LogoutStep(req, at, fault)) == s1; }
  }

  /** A fresh login can be refreshed until it expires, and then stands one token further. */
  lemma {:induction false} LoginCanRefresh(s: State, f: Id, id: Id, owner: Owner, expiresAt: int, req: Id, now: int,
                                           newId: Id, ttlMs: nat, at: int)
    requires Inv(s) && f !in s.chains && id !in s.issued && newId !in s.issued && newId != id && req !in s.reqs
    requires now < expiresAt
    ensures var t := Run(s, [Login(f, id, owner, expiresAt)]
                            + Refresh(req, id, now, newId, ttlMs, at, Calls(true, Ok, Active, Ok, true, Ok)));
            && Answered(t, req, Granted(newId))
            && t.tokens == s.tokens[id := Token(f, owner, expiresAt, Some(now), None, Some(newId))]
                                   [newId := Token(f, owner, now + ttlMs, None, None, None)]
  {
    var c := Calls(true, Ok, Active, Ok, true, Ok);
    var s1 := LoginStores(s, Login(f, id, owner, expiresAt), Refresh(req, id, now, newId, ttlMs, at, c));
    RefreshIsGranted(s1, req, id, now, newId, ttlMs, at);
  }

  lemma {:induction false} RefreshIsGranted(s: State, req: Id, id: Id, now: int, newId: Id, ttlMs: nat, at: int)
    requires Inv(s) && req !in s.reqs && newId !in s.issued
    requires id in s.tokens && s.tokens[id].Live() && now < s.tokens[id].expiresAt
    ensures var t := Run(s, Refresh(req, id, now, newId, ttlMs, at, Calls(true, Ok, Active, Ok, true, Ok)));
            && Answered(t, req, Granted(newId))
            && t.tokens == s.tokens[id := s.tokens[id].(usedAt := Some(now), replacedBy := Some(newId))]
                                   [newId := Token(s.tokens[id].familyId, s.tokens[id].owner, now + ttlMs, None, None,
                                       None)]
  {
    RefreshIsAnswered(s, req, id, now, newId, ttlMs, at, Calls(true, Ok, Active, Ok, true, Ok));
  }

  lemma {:induction false} LoginStores(s: State, e: Event, rest: seq<Event>) returns (t: State)
    requires Inv(s) && e.Login? && e.familyId !in s.chains && e.tokenId !in s.issued
    ensures Run(s, [e] + rest) == Run(t, rest) && Inv(t)
    ensures t.tokens == s.tokens[e.tokenId := Token(e.familyId, e.owner, e.expiresAt, None, None, None)]
    ensures t.reqs == s.reqs && t.issued == s.issued + {e.tokenId}
  {
    assert ([e] + rest)[1..] == rest;
    StepKeepsInv(s, e);
    t := Exec(s, e);
  }

  /** An administrator's revocation marks the user's unmarked tokens of the organisation, and no others. */
  lemma AdminRevokeIsExact(s: State, orgId: Id, userId: Id, at: int)
    ensures var t := Exec(s, AdminRevoke(orgId, userId, at));
            && t.reqs == s.reqs && t.tokens.Keys == s.tokens.Keys
            && forall id :: id in s.tokens ==>
                 if s.tokens[id].owner.userId == userId && s.tokens[id].owner.orgId == orgId
                 then t.tokens[id] == s.tokens[id].(revokedAt := Some(if s.tokens[id].revokedAt.Some?
                                                                      then s.tokens[id].revokedAt.value else at))
                 else t.tokens[id] == s.tokens[id]
  {
  }

  // ---------------------------------------------------------------------
  // What stands behind a grant, whatever runs beside it
  // ---------------------------------------------------------------------

  /** The events occur in the run, in this order. */
  predicate Among(trail: seq<Event>, es: seq<Event>) {
    trail == [] || (es != [] && (
      || Among(trail, es[..|es| - 1])
      || (trail[|trail| - 1] == es[|es| - 1] && Among(trail[..|trail| - 1], es[..|es| - 1]))))
  }

  lemma {:induction false} AmongMore(trail: seq<Event>, es: seq<Event>, e: Event)
    requires Among(trail, es)
    ensures Among(trail, es + [e]) && Among(trail + [e], es + [e])
  {
    assert (es + [e])[..|es|] == es && (trail + [e])[..|trail|] == trail;
  }

  /** The steps of a successful refresh. */
  function Way(r: Id, find: Event): seq<Event> {
    [find, ClaimStep(r, Ok), LoadStep(r, Active), PersistStep(r, Ok), SignStep(r, true)]
  }

  /** How many of them a request in this position has behind it. */
  function Stage(pc: Pc): (n: nat)
    ensures n <= 5
  {
    match pc
    case Claiming(_, _, _, _, _) => 1
    case Loading(_, _, _) => 2
    case Persisting(_, _, _) => 3
    case Signing(_, _) => 4
    case Finished(_) => 5
    case _ => 0
  }

  function NewIdOf(pc: Pc): Option<Id> {
    if Carries(pc) then Some(pc.newId) else if pc.Finished? && pc.outcome.Granted? then Some(pc.outcome.tokenId)
      else None
  }

  /** Behind a request that is to hand out a token, or has, lies its own way there. */
  ghost predicate HasTrail(es: seq<Event>, s: State, r: Id) {
    r in s.reqs ==>
      && RevokesInVain(s.reqs[r])
      && (NewIdOf(s.reqs[r]).Some? ==>
            exists find: Event :: IsFind(find, r, NewIdOf(s.reqs[r]).value)
              && Among(Way(r, find)[..Stage(s.reqs[r])], es))
  }

  predicate IsFind(e: Event, r: Id, newId: Id) {
    e.RefreshFind? && e.req == r && e.newId == newId && !e.queryFails
  }

  lemma {:induction false} RunSnoc(s: State, es: seq<Event>, e: Event)
    ensures Run(s, es + [e]) == Exec(Run(s, es), e)
    decreases |es|
  {
    if es == [] {
      assert [e][1..] == [];
    } else {
      assert (es + [e])[1..] == es[1..] + [e];
      RunSnoc(Exec(s, es[0]), es[1..], e);
    }
  }

  /** A step of its own takes a request one step further on its trail, or ends it without a token. */
  lemma StepExtendsTrail(s: State, e: Event, r: Id)
    requires r in s.reqs && RevokesInVain(s.reqs[r])
    ensures r in Exec(s, e).reqs && Extends(s.reqs[r], Exec(s, e).reqs[r], e, r)
  {
    if !Own(e, r) {
      OthersUnmoved(s, e, r);
    } else {
      match e
      case ClaimStep(_, fault) => ClaimExtendsTrail(s, r, fault);
      case LoadStep(_, load) => LoadExtendsTrail(s, r, load);
      case PersistStep(_, fault) => PersistExtendsTrail(s, r, fault);
      case SignStep(_, signs) => SignExtendsTrail(s, r, signs);
      case RevokeStep(_, at, fault) => RevokeExtendsTrail(s, r, at, fault);
      case LogoutStep(_, at, fault) => LogoutExtendsTrail(s, r, at, fault);
      case Crash(_) =>
    }
  }

  predicate Extends(x: Pc, y: Pc, e: Event, r: Id) {
    && RevokesInVain(y)
    && (NewIdOf(y).Some? ==>
          && NewIdOf(x) == NewIdOf(y) && 1 <= Stage(x)
          && (Stage(y) == Stage(x) || (Stage(y) == Stage(x) + 1 && e == Way(r, e)[Stage(x)])))
  }

  /** A request that revokes ends without a token. */
  predicate RevokesInVain(pc: Pc) { pc.Revoking? ==> !pc.after.Granted? }

  lemma ClaimExtendsTrail(s: State, r: Id, fault: Fault)
    requires r in s.reqs && RevokesInVain(s.reqs[r])
    ensures r in ExecClaim(s, r, fault).reqs
    ensures Extends(s.reqs[r], ExecClaim(s, r, fault).reqs[r], ClaimStep(r, fault), r)
  {
  }

  lemma LoadExtendsTrail(s: State, r: Id, load: Load)
    requires r in s.reqs && RevokesInVain(s.reqs[r])
    ensures r in ExecLoad(s, r, load).reqs
    ensures Extends(s.reqs[r], ExecLoad(s, r, load).reqs[r], LoadStep(r, load), r)
  {
  }

  lemma PersistExtendsTrail(s: State, r: Id, fault: Fault)
    requires r in s.reqs && RevokesInVain(s.reqs[r])
    ensures r in ExecPersist(s, r, fault).reqs
    ensures Extends(s.reqs[r], ExecPersist(s, r, fault).reqs[r], PersistStep(r, fault), r)
  {
  }

  lemma SignExtendsTrail(s: State, r: Id, signs: bool)
    requires r in s.reqs && RevokesInVain(s.reqs[r])
    ensures r in ExecSign(s, r, signs).reqs
    ensures Extends(s.reqs[r], ExecSign(s, r, signs).reqs[r], SignStep(r, signs), r)
  {
  }

  /** A later step of the request itself. */
  predicate Own(e: Event, r: Id) { IsStep(e) && e.req == r }

  lemma OthersUnmoved(s: State, e: Event, r: Id)
    requires r in s.reqs && !Own(e, r)
    ensures r in Exec(s, e).reqs && Exec(s, e).reqs[r] == s.reqs[r]
  {
    if e.Login? { LoginUnmoves(s, e, r); }
    else if e.RefreshFind? || e.LogoutFind? { FindUnmoves(s, e, r); }
    else if !e.AdminRevoke? && !e.Expire? { StepUnmoves(s, e, r); }
  }

  lemma LoginUnmoves(s: State, e: Event, r: Id)
    requires r in s.reqs && e.Login?
    ensures r in ExecLogin(s, e).reqs && ExecLogin(s, e).reqs[r] == s.reqs[r]
  {
  }

  lemma FindUnmoves(s: State, e: Event, r: Id)
    requires r in s.reqs && (e.RefreshFind? || e.LogoutFind?)
    ensures r in Exec(s, e).reqs && Exec(s, e).reqs[r] == s.reqs[r]
  {
  }

  /** A step moves its own request, if there is one, and nobody else. */
  lemma StepUnmoves(s: State, e: Event, r: Id)
    requires IsStep(e) && (r in s.reqs ==> e.req != r)
    ensures r in Exec(s, e).reqs <==> r in s.reqs
    ensures r in s.reqs ==> Exec(s, e).reqs[r] == s.reqs[r]
  {
    match e {
      case ClaimStep(req, fault) => ClaimMovesOnly(s, req, fault);
      case LoadStep(req, load) => LoadMovesOnly(s, req, load);
      case PersistStep(req, fault) => PersistMovesOnly(s, req, fault);
      case SignStep(req, signs) => SignMovesOnly(s, req, signs);
      case RevokeStep(req, at, fault) => RevokeMovesOnly(s, req, at, fault);
      case LogoutStep(req, at, fault) => LogoutMovesOnly(s, req, at, fault);
      case Crash(req) =>
    }
    assert MovesOnly(s, Exec(s, e), e.req);
  }

  predicate IsStep(e: Event) {
    e.ClaimStep? || e.LoadStep? || e.PersistStep? || e.SignStep? || e.RevokeStep? || e.LogoutStep? || e.Crash?
  }

  predicate MovesOnly(s: State, t: State, req: Id) {
    t.reqs == s.reqs || (req in s.reqs && req in t.reqs && t.reqs == s.reqs[req := t.reqs[req]])
  }

  lemma ClaimMovesOnly(s: State, req: Id, fault: Fault)
    ensures MovesOnly(s, ExecClaim(s, req, fault), req)
  {
  }

  lemma LoadMovesOnly(s: State, req: Id, load: Load)
    ensures MovesOnly(s, ExecLoad(s, req, load), req)
  {
  }

  lemma PersistMovesOnly(s: State, req: Id, fault: Fault)
    ensures MovesOnly(s, ExecPersist(s, req, fault), req)
  {
  }

  lemma SignMovesOnly(s: State, req: Id, signs: bool)
    ensures MovesOnly(s, ExecSign(s, req, signs), req)
  {
  }

  lemma RevokeMovesOnly(s: State, req: Id, at: int, fault: Fault)
    ensures MovesOnly(s, ExecRevoke(s, req, at, fault), req)
  {
  }

  lemma LogoutMovesOnly(s: State, req: Id, at: int, fault: Fault)
    ensures MovesOnly(s, ExecLogout(s, req, at, fault), req)
  {
  }

  lemma RevokeExtendsTrail(s: State, r: Id, at: int, fault: Fault)
    requires r in s.reqs && RevokesInVain(s.reqs[r])
    ensures r in ExecRevoke(s, r, at, fault).reqs
    ensures Extends(s.reqs[r], ExecRevoke(s, r, at, fault).reqs[r], RevokeStep(r, at, fault), r)
  {
  }

  lemma LogoutExtendsTrail(s: State, r: Id, at: int, fault: Fault)
    requires r in s.reqs && RevokesInVain(s.reqs[r])
    ensures r in ExecLogout(s, r, at, fault).reqs
    ensures Extends(s.reqs[r], ExecLogout(s, r, at, fault).reqs[r], LogoutStep(r, at, fault), r)
  {
  }

  lemma NewRequestFinds(s: State, e: Event, r: Id)
    requires r !in s.reqs && r in Exec(s, e).reqs
    ensures RevokesInVain(Exec(s, e).reqs[r])
    ensures NewIdOf(Exec(s, e).reqs[r]).Some? ==>
              IsFind(e, r, NewIdOf(Exec(s, e).reqs[r]).value) && Stage(Exec(s, e).reqs[r]) == 1
  {
    if IsStep(e) { StepUnmoves(s, e, r); }
    else if e.RefreshFind? { FindStarts(s, e); }
    else if e.LogoutFind? { LogoutStarts(s, e); }
  }

  lemma FindStarts(s: State, e: Event)
    requires e.RefreshFind?
    ensures var t := ExecRefreshFind(s, e);
            t.reqs == s.reqs || (e.req in t.reqs && t.reqs == s.reqs[e.req := t.reqs[e.req]]
                                 && StartsAt(t.reqs[e.req], e))
  {
  }

  /** A refresh starts by claiming with its fresh id, or ends without a token. */
  predicate StartsAt(pc: Pc, e: Event)
    requires e.RefreshFind?
  {
    || (pc.Claiming? && !e.queryFails && pc.newId == e.newId)
    || (pc.Revoking? && RevokesInVain(pc))
    || (pc.Finished? && !pc.outcome.Granted?)
  }

  lemma LogoutStarts(s: State, e: Event)
    requires e.LogoutFind?
    ensures var t := ExecLogoutFind(s, e.req, e.id, e.queryFails);
            t.reqs == s.reqs || (e.req in t.reqs && t.reqs == s.reqs[e.req := t.reqs[e.req]]
                                 && NewIdOf(t.reqs[e.req]).None? && !t.reqs[e.req].Revoking?)
  {
  }

  lemma {:induction false} TrailsExist(es: seq<Event>, r: Id)
    ensures HasTrail(es, Run(Init, es), r)
  {
    if es != [] {
      var before, e := es[..|es| - 1], es[|es| - 1];
      TrailsExist(before, r);
      assert es == before + [e];
      RunSnoc(Init, before, e);
      var s, t := Run(Init, before), Run(Init, es);
      if r in s.reqs {
        StepExtendsTrail(s, e, r);
        if NewIdOf(t.reqs[r]).Some? {
          var find: Event :| IsFind(find, r, NewIdOf(s.reqs[r]).value)
            && Among(Way(r, find)[..Stage(s.reqs[r])], before);
          var n := Stage(s.reqs[r]);
          AmongMore(Way(r, find)[..n], before, e);
          assert n < 5 ==> Way(r, find)[..n + 1] == Way(r, find)[..n] + [Way(r, find)[n]];
        }
      } else if r in t.reqs {
        NewRequestFinds(s, e, r);
        AmongMore([], before, e);
        assert Way(r, e)[..1] == [] + [e];
      }
    }
  }

  /** In every run, whoever is granted a token found a stored one, claimed it, loaded an active account, stored the
      replacement and signed, in this order. */
  lemma {:induction false} GrantedTheWholeWay(es: seq<Event>, r: Id, newId: Id)
    requires Answered(Run(Init, es), r, Granted(newId))
    ensures exists find: Event :: IsFind(find, r, newId)
              && Among([find, ClaimStep(r, Ok), LoadStep(r, Active), PersistStep(r, Ok), SignStep(r, true)], es)
  {
    TrailsExist(es, r);
    var find: Event :| IsFind(find, r, newId) && Among(Way(r, find)[..5], es);
    assert Way(r, find)[..5] == Way(r, find);
  }
}
