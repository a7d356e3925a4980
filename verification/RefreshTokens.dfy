/** Refresh-token rotation: find, conditional revoke and store as separate steps of any number of
    concurrent requests, with revoke-all on a replayed token and a janitor that deletes expired ones. */
module RefreshTokens {
  import opened Base

  const REFRESH_TOKEN_TTL := 2_592_000

  /** A stored token; its id stands for the secret presented. `chain` and `origin` are history: the login it
      descends from and the token it was exchanged for, which the column `rotatedFrom` forgets when that
      token is deleted. */
  datatype Token = Token(
    user: Id, chain: nat, origin: Option<Id>, rotatedFrom: Option<Id>, revoked: Option<Time>, expires: Time)

  function NewToken(user: Id, chain: nat, rotatedFrom: Option<Id>, at: Time): Token {
    Token(user, chain, rotatedFrom, rotatedFrom, None, at + REFRESH_TOKEN_TTL)
  }

  type Tokens = map<Id, Token>

  /** A request between two statements. */
  datatype Request =
    | Found(id: Id, token: Token, blocked: bool)                  // the row as it was found
    | RevokingAll(user: Id, at: Time)                             // `at` is the one clock reading of the request
    | Revoking(id: Id, user: Id, at: Time)
    | Issuing(user: Id, chain: nat, rotatedFrom: Option<Id>, at: Time)
    | LoggingOut(id: Id, at: Time)

  /** `issued` is history: every id ever stored. */
  datatype System = System(
    tokens: Tokens, blocked: set<Id>, requests: map<Id, Request>, now: Time, logins: nat, issued: set<Id>)

  datatype Step =
    | Tick(elapsed: nat)
    | Block(user: Id)
    | Unblock(user: Id)
    | Login(request: Id, user: Id)
    | Find(request: Id, id: Id)
    | FindForLogout(request: Id, id: Id)
    | Go(request: Id, newId: Id)               // the request's next statement; `newId` is the id a store uses
    | Crash(request: Id)
    | Prune(ids: set<Id>)                      // one batch of the janitor

  predicate Live(token: Token) { token.revoked.None? }

  function Revoke(tokens: Tokens, id: Id, now: Time): Tokens {
    if id in tokens && Live(tokens[id]) then tokens[id := tokens[id].(revoked := Some(now))] else tokens
  }

  function RevokeAll(tokens: Tokens, user: Id, now: Time): Tokens {
    map id | id in tokens :: if tokens[id].user == user && Live(tokens[id]) then tokens[id].(revoked := Some(now)) else tokens[id]
  }

  /** Deleting rows; a column that refers to one of them becomes null. */
  function Pruned(tokens: Tokens, ids: set<Id>): Tokens {
    map id | id in tokens && id !in ids ::
      if tokens[id].rotatedFrom.Some? && tokens[id].rotatedFrom.value in ids then tokens[id].(rotatedFrom := None) else tokens[id]
  }

  /** The row a new one refers to must be there. */
  predicate Refers(tokens: Tokens, rotatedFrom: Option<Id>) { rotatedFrom.Some? ==> rotatedFrom.value in tokens }

  predicate Enabled(s: System, step: Step) {
    match step
    case Login(request, user) => request !in s.requests && user !in s.blocked
    case Find(request, _) => request !in s.requests
    case FindForLogout(request, _) => request !in s.requests
    case Go(request, newId) => request in s.requests && newId !in s.issued
    case Crash(request) => request in s.requests
    case Prune(ids) => forall id | id in ids :: id in s.tokens && s.tokens[id].expires < s.now
    case _ => true
  }

  function Leave(s: System, request: Id): System { s.(requests := s.requests - {request}) }

  function At(s: System, request: Id, r: Request): System { s.(requests := s.requests[request := r]) }

  function Advance(s: System, request: Id, newId: Id): System
    requires request in s.requests
  {
    match s.requests[request]
    case Found(id, token, blocked) =>
      if !Live(token) || blocked then At(s, request, RevokingAll(token.user, s.now))
      else if s.now >= token.expires then Leave(s, request)
      else At(s, request, Revoking(id, token.user, s.now))
    case RevokingAll(user, at) => Leave(s, request).(tokens := RevokeAll(s.tokens, user, at))
    case Revoking(id, user, at) =>
      if id in s.tokens && Live(s.tokens[id]) then
        At(s, request, Issuing(user, s.tokens[id].chain, Some(id), at)).(tokens := Revoke(s.tokens, id, at))
      else Leave(s, request)
    case Issuing(user, chain, rotatedFrom, at) =>
      if Refers(s.tokens, rotatedFrom) then
        Leave(s, request).(tokens := s.tokens[newId := NewToken(user, chain, rotatedFrom, at)], issued := s.issued + {newId})
      else Leave(s, request)
    case LoggingOut(id, at) => Leave(s, request).(tokens := Revoke(s.tokens, id, at))
  }

  function Next(s: System, step: Step): System
    requires Enabled(s, step)
  {
    match step
    case Tick(elapsed) => s.(now := s.now + elapsed)
    case Block(user) => s.(blocked := s.blocked + {user})
    case Unblock(user) => s.(blocked := s.blocked - {user})
    case Login(request, user) => At(s, request, Issuing(user, s.logins, None, s.now)).(logins := s.logins + 1)
    case Find(request, id) =>
      if id in s.tokens then At(s, request, Found(id, s.tokens[id], s.tokens[id].user in s.blocked)) else s
    case FindForLogout(request, id) => if id in s.tokens then At(s, request, LoggingOut(id, s.now)) else s
    case Go(request, newId) => Advance(s, request, newId)
    case Crash(request) => Leave(s, request)
    case Prune(ids) => s.(tokens := Pruned(s.tokens, ids))
  }

  function Run(s: System, steps: seq<Step>): System {
    if steps == [] then s
    else
      var before := Run(s, steps[..|steps| - 1]);
      if Enabled(before, steps[|steps| - 1]) then Next(before, steps[|steps| - 1]) else before
  }

  function Start(now: Time): System { System(map[], {}, map[], now, 0, {}) }

  // ---- one successor, one live token per login ----

  /** A token's parent, while it is kept, is a revoked token of the same user and login, and the column says so. */
  predicate TokenOk(s: System, id: Id)
    requires id in s.tokens
  {
    var t := s.tokens[id];
    && id in s.issued && t.chain < s.logins
    && (t.origin.Some? ==> ParentOk(s, t.origin.value, t.user, t.chain))
    && t.rotatedFrom == if Refers(s.tokens, t.origin) then t.origin else None
  }

  predicate ParentOk(s: System, parent: Id, user: Id, chain: nat) {
    && parent in s.issued
    && (parent in s.tokens ==> !Live(s.tokens[parent]) && s.tokens[parent].user == user && s.tokens[parent].chain == chain)
  }

  predicate RequestOk(s: System, r: Request) {
    match r
    case Found(id, token, _) =>
      id in s.issued && (id in s.tokens ==> s.tokens[id].user == token.user && (Live(s.tokens[id]) ==> Live(token)))
    case Revoking(id, user, _) => id in s.issued && (id in s.tokens ==> s.tokens[id].user == user)
    case Issuing(user, chain, from, _) => chain < s.logins && (from.Some? ==> ParentOk(s, from.value, user, chain))
    case _ => true
  }

  /** Two tokens of one login are never both live, nor both from the same parent. */
  predicate Apart(a: Token, b: Token) {
    a.chain == b.chain ==> !(Live(a) && Live(b)) && a.origin != b.origin
  }

  /** While a request is about to store for a login, the login has no live token and the parent no child. */
  predicate Clear(token: Token, r: Request) {
    r.Issuing? && token.chain == r.chain ==> !Live(token) && token.origin != r.rotatedFrom
  }

  ghost predicate Inv(s: System) {
    && (forall id | id in s.tokens :: TokenOk(s, id))
    && (forall r | r in s.requests :: RequestOk(s, s.requests[r]))
    && (forall a, b | a in s.tokens && b in s.tokens && a != b :: Apart(s.tokens[a], s.tokens[b]))
    && (forall id, r | id in s.tokens && r in s.requests :: Clear(s.tokens[id], s.requests[r]))
    && (forall q, r | q in s.requests && r in s.requests && q != r && s.requests[q].Issuing? && s.requests[r].Issuing? ::
          s.requests[q].chain != s.requests[r].chain)
  }

  /** Tokens only ever go from live to revoked. */
  predicate Revokes(tokens: Tokens, tokens': Tokens) {
    && tokens.Keys == tokens'.Keys
    && forall id | id in tokens ::
         tokens'[id].(revoked := None) == tokens[id].(revoked := None) && (Live(tokens'[id]) ==> Live(tokens[id]))
  }

  lemma RevokingKeepsInv(s: System, tokens: Tokens)
    requires Inv(s) && Revokes(s.tokens, tokens)
    ensures Inv(s.(tokens := tokens))
  {
    var s' := s.(tokens := tokens);
    forall id | id in s'.tokens ensures TokenOk(s', id) { assert TokenOk(s, id); }
    forall r | r in s'.requests ensures RequestOk(s', s'.requests[r]) { assert RequestOk(s, s.requests[r]); }
    forall a, b | a in s'.tokens && b in s'.tokens && a != b ensures Apart(s'.tokens[a], s'.tokens[b]) {
      assert Apart(s.tokens[a], s.tokens[b]);
    }
    forall id, r | id in s'.tokens && r in s'.requests ensures Clear(s'.tokens[id], s'.requests[r]) {
      assert Clear(s.tokens[id], s.requests[r]);
    }
  }

  /** Changing one request keeps the rest. */
  lemma RequestKeepsInv(s: System, request: Id, r: Request, logins: nat)
    requires Inv(s) && logins >= s.logins
    requires RequestOk(s.(logins := logins), r)
    requires forall id | id in s.tokens :: Clear(s.tokens[id], r)
    requires r.Issuing? ==> forall q | q in s.requests && q != request && s.requests[q].Issuing? :: s.requests[q].chain != r.chain
    ensures Inv(At(s, request, r).(logins := logins))
  {
    var s' := At(s, request, r).(logins := logins);
    hide Clear, Apart;
    forall id | id in s'.tokens ensures TokenOk(s', id) { assert TokenOk(s, id); }
    forall q | q in s'.requests ensures RequestOk(s', s'.requests[q]) {
      if q != request { assert RequestOk(s, s.requests[q]); }
    }
  }

  lemma LeavingKeepsInv(s: System, request: Id)
    requires Inv(s)
    ensures Inv(Leave(s, request))
  {
    var s' := Leave(s, request);
    hide Clear, Apart;
    forall id | id in s'.tokens ensures TokenOk(s', id) { assert TokenOk(s, id); }
    forall q | q in s'.requests ensures RequestOk(s', s'.requests[q]) { assert RequestOk(s, s.requests[q]); }
  }

  lemma StoringKeepsInv(s: System, request: Id, newId: Id)
    requires Inv(s) && request in s.requests && s.requests[request].Issuing? && newId !in s.issued
    requires Refers(s.tokens, s.requests[request].rotatedFrom)
    ensures Inv(Advance(s, request, newId))
  {
    var s', r := Advance(s, request, newId), s.requests[request];
    assert RequestOk(s, r);
    forall id | id in s'.tokens ensures TokenOk(s', id) {
      if id != newId { assert TokenOk(s, id); }
    }
    forall q | q in s'.requests ensures RequestOk(s', s'.requests[q]) { assert RequestOk(s, s.requests[q]); }
    forall a, b | a in s'.tokens && b in s'.tokens && a != b ensures Apart(s'.tokens[a], s'.tokens[b]) {
      if a == newId {
        assert Clear(s.tokens[b], r);
      } else if b == newId {
        assert Clear(s.tokens[a], r);
      } else {
        assert Apart(s.tokens[a], s.tokens[b]);
      }
    }
    forall id, q | id in s'.tokens && q in s'.requests ensures Clear(s'.tokens[id], s'.requests[q]) {
      if id != newId { assert Clear(s.tokens[id], s.requests[q]); }
    }
  }

  /** The conditional revoke hands its login over: no other live token, no other rotation, no child yet. */
  lemma RotatingKeepsInv(s: System, request: Id, newId: Id)
    requires Inv(s) && request in s.requests && s.requests[request].Revoking?
    ensures Inv(Advance(s, request, newId))
  {
    var id, user := s.requests[request].id, s.requests[request].user;
    if id in s.tokens && Live(s.tokens[id]) {
      assert RequestOk(s, s.requests[request]);
      var at := s.requests[request].at;
      var mid := s.(tokens := Revoke(s.tokens, id, at));
      RevokingKeepsInv(s, mid.tokens);
      var r := Issuing(user, s.tokens[id].chain, Some(id), at);
      forall other | other in mid.tokens ensures Clear(mid.tokens[other], r) {
        assert TokenOk(s, other);
        if other != id { assert Apart(s.tokens[other], s.tokens[id]); }
      }
      forall q | q in mid.requests && q != request && mid.requests[q].Issuing? ensures mid.requests[q].chain != r.chain {
        assert Clear(s.tokens[id], s.requests[q]);
      }
      assert TokenOk(s, id);
      RequestKeepsInv(mid, request, r, s.logins);
    } else {
      LeavingKeepsInv(s, request);
    }
  }

  lemma AdvanceKeepsInv(s: System, request: Id, newId: Id)
    requires Inv(s) && request in s.requests && newId !in s.issued
    ensures Inv(Advance(s, request, newId))
  {
    var r := s.requests[request];
    match r
    case Found(id, token, blocked) =>
      assert RequestOk(s, r);
      hide Inv;
      if !Live(token) || blocked {
        RequestKeepsInv(s, request, RevokingAll(token.user, s.now), s.logins);
      } else if s.now >= token.expires {
        LeavingKeepsInv(s, request);
      } else {
        RequestKeepsInv(s, request, Revoking(id, token.user, s.now), s.logins);
      }
    case RevokingAll(user, at) =>
      hide Inv;
      LeavingKeepsInv(s, request);
      RevokingKeepsInv(Leave(s, request), RevokeAll(s.tokens, user, at));
    case Revoking(_, _, _) => RotatingKeepsInv(s, request, newId);
    case Issuing(_, _, rotatedFrom, _) =>
      hide Inv;
      if Refers(s.tokens, rotatedFrom) { StoringKeepsInv(s, request, newId); } else { LeavingKeepsInv(s, request); }
    case LoggingOut(id, at) =>
      hide Inv;
      LeavingKeepsInv(s, request);
      RevokingKeepsInv(Leave(s, request), Revoke(s.tokens, id, at));
  }

  lemma LoginKeepsInv(s: System, request: Id, user: Id)
    requires Inv(s)
    ensures Inv(At(s, request, Issuing(user, s.logins, None, s.now)).(logins := s.logins + 1))
  {
    var r := Issuing(user, s.logins, None, s.now);
    forall id | id in s.tokens ensures Clear(s.tokens[id], r) { assert TokenOk(s, id); }
    forall q | q in s.requests && s.requests[q].Issuing? ensures s.requests[q].chain != r.chain {
      assert RequestOk(s, s.requests[q]);
    }
    RequestKeepsInv(s, request, r, s.logins + 1);
  }

  lemma PruningKeepsInv(s: System, ids: set<Id>)
    requires Inv(s)
    ensures Inv(s.(tokens := Pruned(s.tokens, ids)))
  {
    var s' := s.(tokens := Pruned(s.tokens, ids));
    assert forall id | id in s'.tokens :: id in s.tokens && s'.tokens[id].(rotatedFrom := s.tokens[id].rotatedFrom) == s.tokens[id];
    forall id | id in s'.tokens ensures TokenOk(s', id) { assert TokenOk(s, id); }
    hide Pruned;
    forall r | r in s'.requests ensures RequestOk(s', s'.requests[r]) { assert RequestOk(s, s.requests[r]); }
    forall a, b | a in s'.tokens && b in s'.tokens && a != b ensures Apart(s'.tokens[a], s'.tokens[b]) {
      assert Apart(s.tokens[a], s.tokens[b]);
    }
    forall id, r | id in s'.tokens && r in s'.requests ensures Clear(s'.tokens[id], s'.requests[r]) {
      assert Clear(s.tokens[id], s.requests[r]);
    }
  }

  lemma FindingKeepsInv(s: System, request: Id, id: Id)
    requires Inv(s) && id in s.tokens
    ensures Inv(At(s, request, Found(id, s.tokens[id], s.tokens[id].user in s.blocked)))
  {
    assert TokenOk(s, id);
    hide Inv;
    RequestKeepsInv(s, request, Found(id, s.tokens[id], s.tokens[id].user in s.blocked), s.logins);
  }

  lemma NextKeepsInv(s: System, step: Step)
    requires Inv(s) && Enabled(s, step)
    ensures Inv(Next(s, step))
  {
    match step
    case Login(request, user) =>
      hide Inv;
      LoginKeepsInv(s, request, user);
    case Find(request, id) =>
      hide Inv;
      if id in s.tokens { FindingKeepsInv(s, request, id); }
    case FindForLogout(request, id) =>
      hide Inv;
      if id in s.tokens { RequestKeepsInv(s, request, LoggingOut(id, s.now), s.logins); }
    case Go(request, newId) =>
      hide Inv;
      AdvanceKeepsInv(s, request, newId);
    case Crash(request) =>
      hide Inv;
      LeavingKeepsInv(s, request);
    case Prune(ids) =>
      hide Inv;
      PruningKeepsInv(s, ids);
    case _ =>
      var s' := Next(s, step);
      hide Apart, Clear;
      forall id | id in s'.tokens ensures TokenOk(s', id) { assert TokenOk(s, id); }
      forall q | q in s'.requests ensures RequestOk(s', s'.requests[q]) { assert RequestOk(s, s.requests[q]); }
  }

  lemma {:induction false} RunKeepsInv(now: Time, steps: seq<Step>)
    ensures Inv(Run(Start(now), steps))
  {
    if steps != [] {
      hide Inv, Enabled, Next;
      RunKeepsInv(now, steps[..|steps| - 1]);
      var before := Run(Start(now), steps[..|steps| - 1]);
      if Enabled(before, steps[|steps| - 1]) { NextKeepsInv(before, steps[|steps| - 1]); }
    }
  }

  /** In every interleaving no two tokens were exchanged for the same one, whether or not that one is still
      kept, and each login has at most one live token. */
  lemma RotationIsLinear(now: Time, steps: seq<Step>, a: Id, b: Id)
    requires var t := Run(Start(now), steps).tokens; a in t && b in t && a != b
    ensures var t := Run(Start(now), steps).tokens;
      && (t[a].origin.Some? ==> t[a].origin != t[b].origin)
      && (t[a].chain == t[b].chain ==> !(Live(t[a]) && Live(t[b])))
  {
    RunKeepsInv(now, steps);
    var s := Run(Start(now), steps);
    assert Apart(s.tokens[a], s.tokens[b]);
    assert TokenOk(s, a) && TokenOk(s, b);
  }

  /** A login is what rotation preserves: while the token a successor was exchanged for is kept, it has the
      successor's user and login, is revoked, and is named by the successor's column; the column is null
      otherwise. Tokens that no rotation made belong to different logins. */
  lemma ChainsAreLogins(now: Time, steps: seq<Step>, a: Id)
    requires a in Run(Start(now), steps).tokens
    ensures var t := Run(Start(now), steps).tokens;
      && (t[a].rotatedFrom.Some? <==> t[a].origin.Some? && t[a].origin.value in t)
      && (t[a].rotatedFrom.Some? ==>
            var p := t[a].rotatedFrom.value;
            t[a].origin == Some(p) && t[p].chain == t[a].chain && t[p].user == t[a].user && !Live(t[p]))
      && (t[a].origin.None? ==> forall b | b in t && b != a && t[b].origin.None? :: t[b].chain != t[a].chain)
  {
    RunKeepsInv(now, steps);
    var s := Run(Start(now), steps);
    assert TokenOk(s, a);
    assert forall b | b in s.tokens && b != a :: Apart(s.tokens[a], s.tokens[b]);
  }

  lemma NextKeepsUnexpired(s: System, step: Step, id: Id)
    requires Enabled(s, step) && id in s.tokens && s.now <= s.tokens[id].expires
    requires step.Go? ==> step.newId != id
    ensures var s' := Next(s, step);
      s'.now >= s.now && id in s'.tokens && s'.tokens[id].expires == s.tokens[id].expires && s'.tokens[id].user == s.tokens[id].user
  {
  }

  /** A token is kept at least until it has expired, however often the janitor passes. */
  lemma {:induction false} RunKeepsUnexpired(s: System, steps: seq<Step>, id: Id)
    requires Inv(s) && id in s.tokens && Run(s, steps).now <= s.tokens[id].expires
    ensures Inv(Run(s, steps)) && s.now <= Run(s, steps).now
    ensures id in Run(s, steps).tokens && Run(s, steps).tokens[id].expires == s.tokens[id].expires
    ensures Run(s, steps).tokens[id].user == s.tokens[id].user
  {
    if steps != [] {
      var before, step := Run(s, steps[..|steps| - 1]), steps[|steps| - 1];
      TimeGoesOn(before, step);
      RunKeepsUnexpired(s, steps[..|steps| - 1], id);
      if Enabled(before, step) {
        assert TokenOk(before, id);
        NextKeepsInv(before, step);
        hide Inv, Next;
        NextKeepsUnexpired(before, step, id);
      }
    }
  }

  lemma TimeGoesOn(s: System, step: Step)
    ensures Enabled(s, step) ==> Next(s, step).now >= s.now
  {
  }

  // ---- revoke-all ----

  predicate NoneLive(s: System, user: Id) { forall id | id in s.tokens && s.tokens[id].user == user :: !Live(s.tokens[id]) }

  /** No request is about to store a token for the user, unless the token it exchanged has been deleted. */
  predicate NothingPending(s: System, user: Id) {
    forall r | r in s.requests && s.requests[r].Issuing? && s.requests[r].user == user :: !Refers(s.tokens, s.requests[r].rotatedFrom)
  }

  predicate NoLogin(steps: seq<Step>, user: Id) { forall i | 0 <= i < |steps| && steps[i].Login? :: steps[i].user != user }

  lemma {:induction false} QuietStaysOut(s: System, user: Id, steps: seq<Step>)
    requires Inv(s) && NoneLive(s, user) && NothingPending(s, user) && NoLogin(steps, user)
    ensures Inv(Run(s, steps)) && NoneLive(Run(s, steps), user) && NothingPending(Run(s, steps), user)
  {
    if steps != [] {
      var before := Run(s, steps[..|steps| - 1]);
      QuietStaysOut(s, user, steps[..|steps| - 1]);
      if Enabled(before, steps[|steps| - 1]) {
        NextKeepsInv(before, steps[|steps| - 1]);
        QuietStep(before, user, steps[|steps| - 1]);
      }
    }
  }

  lemma QuietStep(s: System, user: Id, step: Step)
    requires Inv(s) && NoneLive(s, user) && NothingPending(s, user) && Enabled(s, step)
    requires step.Login? ==> step.user != user
    ensures NoneLive(Next(s, step), user) && NothingPending(Next(s, step), user)
  {
    assert forall r | r in s.requests :: RequestOk(s, s.requests[r]);
    hide Inv;
  }

  ghost function Unused(ids: set<Id>): (newId: Id)
    ensures forall id | id in ids :: id < newId
  {
    if ids == {} then 0
    else
      var id :| id in ids;
      var rest := Unused(ids - {id});
      assert forall other | other in ids :: other == id || other in ids - {id};
      Max(id + 1, rest)
  }

  /** After a revoke-all, the user stays without a live token until the next login exactly when no request
      was about to store one: a rotation or a login already past its check still hands out a live token. */
  lemma RevokeAllHoldsIff(s: System, user: Id)
    requires Inv(s) && NoneLive(s, user)
    ensures NothingPending(s, user) <==> forall steps: seq<Step> | NoLogin(steps, user) :: NoneLive(Run(s, steps), user)
  {
    if NothingPending(s, user) {
      forall steps: seq<Step> | NoLogin(steps, user) ensures NoneLive(Run(s, steps), user) {
        QuietStaysOut(s, user, steps);
      }
    } else {
      var r :| r in s.requests && s.requests[r].Issuing? && s.requests[r].user == user && Refers(s.tokens, s.requests[r].rotatedFrom);
      var newId := Unused(s.issued);
      var steps := [Go(r, newId)];
      assert newId !in s.issued;
      assert steps[..0] == [];
      assert Run(s, steps[..0]) == s;
      assert Run(s, steps) == Advance(s, r, newId);
      assert newId in Run(s, steps).tokens;
      assert NoLogin(steps, user) && !NoneLive(Run(s, steps), user);
    }
  }

  lemma {:induction false} RunCat(s: System, first: seq<Step>, rest: seq<Step>)
    ensures Run(s, first + rest) == Run(Run(s, first), rest)
  {
    if rest == [] {
      assert first + rest == first;
    } else {
      RunCat(s, first, rest[..|rest| - 1]);
      assert (first + rest)[..|first + rest| - 1] == first + rest[..|rest| - 1];
      hide Enabled, Next;
    }
  }

  lemma RunOne(s: System, step: Step)
    ensures Run(s, [step]) == if Enabled(s, step) then Next(s, step) else s
  {
    assert [step][..0] == [];
    hide Enabled, Next;
  }

  lemma RunThree(s: System, a: Step, b: Step, c: Step)
    ensures Run(s, [a, b, c]) == Run(Run(Run(s, [a]), [b]), [c])
  {
    assert [a, b, c] == ([a] + [b]) + [c];
    RunCat(s, [a] + [b], [c]);
    RunCat(s, [a], [b]);
  }

  function LogsIn(user: Id, request: Id, id: Id): seq<Step> { [Login(request, user)] + [Go(request, id)] }

  /** A refresh, up to its store if the token is live, to its end if it was revoked. */
  function Presents(request: Id, id: Id, newId: Id): seq<Step> { [Find(request, id), Go(request, newId), Go(request, newId)] }

  lemma LogsInStores(now: Time, user: Id, request: Id, id: Id)
    ensures Run(Start(now), LogsIn(user, request, id)) == System(map[id := NewToken(user, 0, None, now)], {}, map[], now, 1, {id})
  {
    var s := Start(now);
    RunCat(s, [Login(request, user)], [Go(request, id)]);
    RunOne(s, Login(request, user));
    RunOne(Run(s, [Login(request, user)]), Go(request, id));
    hide Run;
  }

  lemma PresentsLive(s: System, request: Id, id: Id, newId: Id)
    requires id in s.tokens && Live(s.tokens[id]) && s.tokens[id].user !in s.blocked && s.now < s.tokens[id].expires
    requires request !in s.requests && newId !in s.issued
    ensures Run(s, Presents(request, id, newId))
         == At(s, request, Issuing(s.tokens[id].user, s.tokens[id].chain, Some(id), s.now)).(tokens := Revoke(s.tokens, id, s.now))
  {
    RunThree(s, Find(request, id), Go(request, newId), Go(request, newId));
    RunOne(s, Find(request, id));
    var s1 := Run(s, [Find(request, id)]);
    RunOne(s1, Go(request, newId));
    var s2 := Run(s1, [Go(request, newId)]);
    RunOne(s2, Go(request, newId));
    hide Run;
    assert s2.requests == s.requests[request := Revoking(id, s.tokens[id].user, s.now)];
  }

  lemma PresentsRevoked(s: System, request: Id, id: Id, newId: Id)
    requires id in s.tokens && !Live(s.tokens[id]) && request !in s.requests && newId !in s.issued
    ensures Run(s, Presents(request, id, newId)) == s.(tokens := RevokeAll(s.tokens, s.tokens[id].user, s.now))
  {
    RunThree(s, Find(request, id), Go(request, newId), Go(request, newId));
    RunOne(s, Find(request, id));
    var s1 := Run(s, [Find(request, id)]);
    RunOne(s1, Go(request, newId));
    var s2 := Run(s1, [Go(request, newId)]);
    RunOne(s2, Go(request, newId));
    hide Run, RevokeAll;
    assert s.requests[request := RevokingAll(s.tokens[id].user, s.now)] - {request} == s.requests;
  }

  /** From the start: q's refresh is about to store when r presents the same token again and revokes all; the
      user then has no live token, until q's store leaves one. */
  lemma RevokeAllMissIsReachable(now: Time, user: Id, p: Id, q: Id, r: Id, a: Id, b: Id)
    requires q != r && a != b
    ensures var steps := LogsIn(user, p, a) + Presents(q, a, b) + Presents(r, a, b);
      && var s := Run(Start(now), steps);
      && Inv(s) && a in s.tokens && s.tokens[a].user == user && NoneLive(s, user) && !NothingPending(s, user)
      && var s' := Run(Start(now), steps + [Go(q, b)]);
      && b in s'.tokens && s'.tokens[b].user == user && Live(s'.tokens[b])
  {
    var s0, p1 := Start(now), LogsIn(user, p, a);
    var p2 := p1 + Presents(q, a, b);
    var p3 := p2 + Presents(r, a, b);
    RunKeepsInv(now, p3);
    RunCat(s0, p1, Presents(q, a, b));
    RunCat(s0, p2, Presents(r, a, b));
    RunCat(s0, p3, [Go(q, b)]);
    hide Run, Inv, LogsIn, Presents;
    LogsInStores(now, user, p, a);
    PresentsLive(Run(s0, p1), q, a, b);
    PresentsRevoked(Run(s0, p2), r, a, b);
    var s := Run(s0, p3);
    assert q in s.requests && s.requests[q] == Issuing(user, 0, Some(a), now);
    RunOne(s, Go(q, b));
  }

  // ---- one request at a time ----

  datatype Answer = Issued(id: Id) | InvalidSession | Blocked

  /** Refresh with nothing in between. */
  function Refreshed(tokens: Tokens, blocked: set<Id>, presented: Id, now: Time, newId: Id): (Tokens, Answer) {
    if presented !in tokens then (tokens, InvalidSession)
    else
      var t := tokens[presented];
      if !Live(t) then (RevokeAll(tokens, t.user, now), InvalidSession)
      else if t.user in blocked then (RevokeAll(tokens, t.user, now), Blocked)
      else if now >= t.expires then (tokens, InvalidSession)
      else
        (Revoke(tokens, presented, now)[newId := NewToken(t.user, t.chain, Some(presented), now)],
         Issued(newId))
  }

  /** The statements of one request, run without interruption, are that function. */
  lemma StatementsAreRefresh(s: System, request: Id, presented: Id, newId: Id)
    requires request !in s.requests && newId !in s.tokens
    ensures var s' := Drive(Next(s, Find(request, presented)), request, newId, 3);
      request !in s'.requests && s'.tokens == Refreshed(s.tokens, s.blocked, presented, s.now, newId).0
  {
    var s1 := Next(s, Find(request, presented));
    if presented in s.tokens {
      var s2 := Advance(s1, request, newId);
      if request in s2.requests {
        var s3 := Advance(s2, request, newId);
        if request in s3.requests { assert Drive(s3, request, newId, 1).tokens == Advance(s3, request, newId).tokens; }
        assert Drive(s2, request, newId, 2) == Drive(s3, request, newId, 1);
      }
      assert Drive(s1, request, newId, 3) == Drive(s2, request, newId, 2);
    }
  }

  function Drive(s: System, request: Id, newId: Id, n: nat): System
    decreases n
  {
    if n == 0 || request !in s.requests then s else Drive(Advance(s, request, newId), request, newId, n - 1)
  }

  /** Presenting a revoked token, or one of a blocked user, leaves its user without a live token, and only a
      live one of a blocked user is answered as blocked; a live one is exchanged for exactly one new one, good
      for thirty days; an unknown or expired one changes nothing. */
  lemma RefreshIsSafe(tokens: Tokens, blocked: set<Id>, presented: Id, now: Time, newId: Id)
    requires newId !in tokens
    ensures var (tokens', answer) := Refreshed(tokens, blocked, presented, now, newId);
      && (presented in tokens && (!Live(tokens[presented]) || tokens[presented].user in blocked) ==>
            !answer.Issued? && forall id | id in tokens' && tokens'[id].user == tokens[presented].user :: !Live(tokens'[id]))
      && (answer.Issued? <==> presented in tokens && Live(tokens[presented]) && tokens[presented].user !in blocked
                              && now < tokens[presented].expires)
      && (answer.Issued? ==> (
            && tokens'.Keys == tokens.Keys + {newId} && Live(tokens'[newId]) && tokens'[newId].user == tokens[presented].user
            && !Live(tokens'[presented])
            && tokens'[newId] == Token(tokens[presented].user, tokens[presented].chain, Some(presented), Some(presented), None,
                                       now + 2_592_000)
            && tokens'[presented] == tokens[presented].(revoked := Some(now))
            && forall id | id in tokens && id != presented :: tokens'[id] == tokens[id]))
      && (answer == Blocked <==> presented in tokens && Live(tokens[presented]) && tokens[presented].user in blocked)
      && (!answer.Issued? && answer != Blocked ==> answer == InvalidSession)
      && (presented in tokens ==>
            forall id | id in tokens && (tokens[id].user != tokens[presented].user || !Live(tokens[id])) ::
              id in tokens' && tokens'[id] == tokens[id])
      && (presented !in tokens || (Live(tokens[presented]) && tokens[presented].user !in blocked && now >= tokens[presented].expires)
          ==> tokens' == tokens)
  {
  }

  /** The identity service, one request at a time. New ids are drawn from a counter. */
  class IdentityService {
    var tokens: Tokens
    var blocked: set<Id>
    var nextId: Id
    var logins: nat

    ghost predicate Valid()
      reads this
    {
      forall id | id in tokens :: id < nextId
    }

    constructor ()
      ensures Valid() && tokens == map[] && blocked == {} && logins == 0
    {
      tokens, blocked, nextId, logins := map[], {}, 0, 0;
    }

    /** Refused when the token to refer to is gone. */
    method Issue(user: Id, chain: nat, rotatedFrom: Option<Id>, now: Time) returns (stored: Option<Id>)
      requires Valid()
      modifies this`tokens, this`nextId
      ensures Valid() && stored == if Refers(old(tokens), rotatedFrom) then Some(old(nextId)) else None
      ensures stored.Some? ==> stored.value !in old(tokens)
      ensures tokens == if stored.Some? then old(tokens)[stored.value := NewToken(user, chain, rotatedFrom, now)] else old(tokens)
    {
      if rotatedFrom.Some? && rotatedFrom.value !in tokens { return None; }
      stored := Some(nextId);
      tokens := tokens[nextId := NewToken(user, chain, rotatedFrom, now)];
      nextId := nextId + 1;
    }

    method Login(user: Id, now: Time) returns (answer: Answer)
      requires Valid()
      modifies this
      ensures Valid() && blocked == old(blocked)
      ensures user in blocked ==> answer == Blocked && tokens == old(tokens)
      ensures user !in blocked ==> answer.Issued? && answer.id !in old(tokens)
      ensures answer.Issued? ==> tokens == old(tokens)[answer.id := NewToken(user, old(logins), None, now)]
    {
      if user in blocked { return Blocked; }
      var stored := Issue(user, logins, None, now);
      logins := logins + 1;
      return Issued(stored.value);
    }

    method Refresh(presented: Id, now: Time) returns (answer: Answer)
      requires Valid()
      modifies this`tokens, this`nextId
      ensures Valid() && (tokens, answer) == Refreshed(old(tokens), blocked, presented, now, old(nextId))
    {
      if presented !in tokens { return InvalidSession; }
      var token := tokens[presented];
      if token.revoked.Some? {
        tokens := RevokeAll(tokens, token.user, now);
        return InvalidSession;
      }
      if token.user in blocked {
        tokens := RevokeAll(tokens, token.user, now);
        return Blocked;
      }
      if now >= token.expires { return InvalidSession; }
      tokens := Revoke(tokens, presented, now);
      var stored := Issue(token.user, token.chain, Some(presented), now);
      return Issued(stored.value);
    }

    method Logout(presented: Id, now: Time)
      requires Valid()
      modifies this`tokens
      ensures Valid() && tokens == Revoke(old(tokens), presented, now)
      ensures presented in tokens ==> !Live(tokens[presented])
    {
      tokens := Revoke(tokens, presented, now);
    }
  }
}
