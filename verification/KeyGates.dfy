/** When the user's keys can leave the server: which key-fetch tokens are open, why, and
    what TOTP means for them. */
module KeyGates {
  import opened Wrappers
  import opened Assurance
  import opened SecondFactor
  import opened KeyTokens
  import opened SecondFactorRuns

  // ---------- Tokens minted under TOTP ----------

  /** The token a request mints, whatever the request. */
  function MintedBy(t: Tables, r: KeyRequest): Option<KeyToken> {
    match r
    case Plain(q, _) => Minted(t, q)
    case StartPasswordChange(uid, _) => if uid in t.accounts then Some(KeyToken(uid, None)) else None
    case FetchKeys(_) => None
  }

  /** While a user has TOTP, a token minted for the user is open from the start if and
      only if it belongs to the beginning or the end of a password change, or to signing in
      again from a verified session; no login and no reset mints one. */
  lemma MintedOpenUnderTotp(v: Vault, r: KeyRequest, uid: Uid)
    requires Consistent(v.tables) && HasTotp(v.tables, uid) && HasTotp(KeyStep(v, r).tables, uid)
    ensures MintedBy(v.tables, r) == Some(KeyToken(uid, None)) <==>
              || (r.StartPasswordChange? && r.uid == uid)
              || (r.Plain? && MintsOpen(v.tables, r.q, uid))
  {
    if r.Plain? {
      if r.q.Signup? {
        SignupMintsForNewUsers(v.tables, r.q, uid);
      } else {
        PlainMintsOpen(v.tables, r.q, uid);
      }
    }
  }

  predicate MintsOpen(t: Tables, q: Request, uid: Uid) {
    || (q.FinishPasswordChange? && q.uid == uid && q.wantsKeys && FinishPasswordChangeStep(t, q).1.Ok?)
    || (q.Reauth? && q.uid == uid && q.wantsKeys && q.sid in t.sessions && TokenVerified(t.sessions[q.sid]))
  }

  lemma SignupMintsForNewUsers(t: Tables, q: Request, uid: Uid)
    requires Consistent(t) && q.Signup? && HasTotp(t, uid) && HasTotp(SignupStep(t, q).0, uid)
    ensures !(Minted(t, q).Some? && Minted(t, q).value.uid == uid)
  {
  }

  lemma PlainMintsOpen(t: Tables, q: Request, uid: Uid)
    requires Consistent(t) && HasTotp(t, uid) && !q.Signup?
    ensures Minted(t, q) == Some(KeyToken(uid, None)) <==> MintsOpen(t, q, uid)
  {
  }

  /** The beginning of a password change takes the password alone: it hands the keys of
      every user with a verified address out at once, whether or not there is TOTP. */
  lemma PasswordChangeNeedsNoFactor(v: Vault, uid: Uid, kid: Kid)
    requires uid in v.tables.accounts
    ensures Fetchable(KeyStep(v, StartPasswordChange(uid, kid)), kid) <==> EmailVerified(v.tables, uid)
  {
  }

  // ---------- Why a token is open ----------

  const EMPTY := Vault(START.tables, map[])

  function KeyRun(v: Vault, requests: seq<KeyRequest>): Vault {
    if requests == [] then v
    else KeyStep(KeyRun(v, requests[..|requests| - 1]), requests[|requests| - 1])
  }

  function NewKid(r: KeyRequest): Option<Kid> {
    match r
    case Plain(_, newKid) => Some(newKid)
    case StartPasswordChange(_, newKid) => Some(newKid)
    case FetchKeys(_) => None
  }

  /** The request in this place minted the token like this. */
  ghost predicate MintedAt(requests: seq<KeyRequest>, i: nat, kid: Kid, k: KeyToken) {
    && i < |requests|
    && NewKid(requests[i]) == Some(kid)
    && MintedBy(KeyRun(EMPTY, requests[..i]).tables, requests[i]) == Some(k)
  }

  /** The request in this place ended the wait for the id. */
  ghost predicate EndedAt(requests: seq<KeyRequest>, j: nat, w: Wait) {
    && j < |requests| && requests[j].Plain?
    && EndedBy(KeyRun(EMPTY, requests[..j]).tables, requests[j].q) == Some(w)
  }

  /** A token minted locked, and the later end of the wait for its id. */
  ghost predicate UnlockedAt(requests: seq<KeyRequest>, i: nat, j: nat, kid: Kid, w: Wait) {
    i < j && MintedAt(requests, i, kid, KeyToken(w.uid, Some(w.id))) && EndedAt(requests, j, w)
  }

  /** The token is as it was minted, or was minted locked and unlocked later. */
  ghost predicate Explained(requests: seq<KeyRequest>, kid: Kid, k: KeyToken) {
    || (exists i: nat :: MintedAt(requests, i, kid, k))
    || (k.tokenVerificationId.None? &&
        exists i: nat, j: nat, w: Wait :: w.uid == k.uid && UnlockedAt(requests, i, j, kid, w))
  }

  /** On every run from the empty server each key-fetch token is explained: an open one was
      minted open, or the wait for the id it was minted with has been ended. */
  lemma {:induction false} EveryTokenIsExplained(requests: seq<KeyRequest>, kid: Kid)
    requires kid in KeyRun(EMPTY, requests).keys
    ensures Explained(requests, kid, KeyRun(EMPTY, requests).keys[kid])
  {
    if requests == [] {
    } else {
      var front, r := requests[..|requests| - 1], requests[|requests| - 1];
      assert requests == front + [r];
      var v := KeyRun(EMPTY, front);
      var k := KeyRun(EMPTY, requests).keys[kid];
      StepExplains(v, r, kid);
      if MintedBy(v.tables, r) == Some(k) && NewKid(r) == Some(kid) {
        assert MintedAt(requests, |front|, kid, k);
      } else {
        EveryTokenIsExplained(front, kid);
        if k == v.keys[kid] {
          StaysExplained(front, r, kid, k);
        } else {
          UnlockingExplains(front, r, kid, v.keys[kid]);
        }
      }
    }
  }

  /** A token of the next moment is new, or was there and is unlocked at most. */
  lemma StepExplains(v: Vault, r: KeyRequest, kid: Kid)
    requires kid in KeyStep(v, r).keys
    ensures var k := KeyStep(v, r).keys[kid];
            || (MintedBy(v.tables, r) == Some(k) && NewKid(r) == Some(kid))
            || (kid in v.keys && k == v.keys[kid])
            || (&& kid in v.keys && r.Plain? && v.keys[kid].tokenVerificationId.Some?
                && EndedBy(v.tables, r.q) == Some(Wait(k.uid, v.keys[kid].tokenVerificationId.value))
                && k == KeyToken(v.keys[kid].uid, None))
  {
  }

  lemma MintedExtends(front: seq<KeyRequest>, r: KeyRequest, i: nat, kid: Kid, k: KeyToken)
    requires MintedAt(front, i, kid, k)
    ensures MintedAt(front + [r], i, kid, k)
  {
    assert (front + [r])[..i] == front[..i];
  }

  lemma StaysExplained(front: seq<KeyRequest>, r: KeyRequest, kid: Kid, k: KeyToken)
    requires Explained(front, kid, k)
    ensures Explained(front + [r], kid, k)
  {
    if i: nat :| MintedAt(front, i, kid, k) {
      MintedExtends(front, r, i, kid, k);
    } else {
      var i: nat, j: nat, w: Wait :| w.uid == k.uid && UnlockedAt(front, i, j, kid, w);
      MintedExtends(front, r, i, kid, KeyToken(w.uid, Some(w.id)));
      assert (front + [r])[..j] == front[..j];
      assert UnlockedAt(front + [r], i, j, kid, w);
    }
  }

  lemma UnlockingExplains(front: seq<KeyRequest>, r: KeyRequest, kid: Kid, k: KeyToken)
    requires Explained(front, kid, k) && k.tokenVerificationId.Some? && r.Plain?
    requires EndedBy(KeyRun(EMPTY, front).tables, r.q) == Some(Wait(k.uid, k.tokenVerificationId.value))
    ensures Explained(front + [r], kid, KeyToken(k.uid, None))
  {
    var w := Wait(k.uid, k.tokenVerificationId.value);
    var i: nat :| MintedAt(front, i, kid, k);
    MintedExtends(front, r, i, kid, k);
    assert (front + [r])[..|front|] == front;
    assert EndedAt(front + [r], |front|, w);
    assert UnlockedAt(front + [r], i, |front|, kid, w);
  }

  // ---------- Locked tokens stay locked ----------

  predicate LockedOrGone(v: Vault, kid: Kid, w: Wait) {
    kid in v.keys ==> v.keys[kid] == KeyToken(w.uid, Some(w.id))
  }

  /** The request ends the wait for the id, or draws the same token again. */
  predicate Disturbs(t: Tables, r: KeyRequest, kid: Kid, w: Wait) {
    NewKid(r) == Some(kid) || (r.Plain? && EndedBy(t, r.q) == Some(w))
  }

  lemma StepKeepsLocked(v: Vault, r: KeyRequest, kid: Kid, w: Wait)
    requires LockedOrGone(v, kid, w) && !Disturbs(v.tables, r, kid, w)
    ensures LockedOrGone(KeyStep(v, r), kid, w)
  {
    if kid in KeyStep(v, r).keys {
      StepExplains(v, r, kid);
    }
  }

  /** A locked token hands out nothing, whatever is requested, until the wait for its
      verification id is ended. */
  lemma {:induction false} LockedUntilEnded(v: Vault, requests: seq<KeyRequest>, kid: Kid, w: Wait)
    requires LockedOrGone(v, kid, w)
    requires forall i :: 0 <= i < |requests| ==> !Disturbs(KeyRun(v, requests[..i]).tables, requests[i], kid, w)
    ensures LockedOrGone(KeyRun(v, requests), kid, w) && !Fetchable(KeyRun(v, requests), kid)
  {
    if requests == [] {
    } else {
      var front := requests[..|requests| - 1];
      forall i | 0 <= i < |front|
        ensures !Disturbs(KeyRun(v, front[..i]).tables, front[i], kid, w)
      {
        assert front[..i] == requests[..i];
      }
      LockedUntilEnded(v, front, kid, w);
      StepKeepsLocked(KeyRun(v, front), requests[|front|], kid, w);
    }
  }

  // ---------- Tokens follow their sessions ----------

  /** A successful request that opens or goes on with a session mints a token if and only
      if keys were asked for, and but for the end of a password change the token waits for
      what the session waits for. */
  lemma MintedWithItsSession(t: Tables, q: Request)
    requires q.Signup? || q.Login? || q.Reauth? || q.FinishReset? || q.FinishPasswordChange?
    requires Step(t, q).1.Ok?
    ensures var asked := if q.Login? then q.facts.wantsKeys else q.wantsKeys;
            var minted := Minted(t, q);
            && (minted.Some? <==> asked)
            && (minted.Some? ==> minted.value.uid == q.uid)
            && (minted.Some? && q.FinishPasswordChange? ==> minted.value.tokenVerificationId.None?)
            && (minted.Some? && !q.FinishPasswordChange? ==>
                  var sid := if q.Reauth? then q.sid else q.newSid;
                  && sid in Step(t, q).0.sessions
                  && minted.value.tokenVerificationId == Step(t, q).0.sessions[sid].tokenVerificationId)
  {
  }

  /** No other request mints one, and no refused one does. */
  lemma MintedByThese(t: Tables, q: Request)
    requires Minted(t, q).Some?
    ensures Step(t, q).1.Ok?
    ensures q.Signup? || q.Login? || q.Reauth? || q.FinishReset? || q.FinishPasswordChange?
  {
  }

  /** Locks open together: a request that verifies a waiting session ends the wait for its
      id, which opens every token of its user that waits for it. */
  lemma TokensOpenWithTheirSession(v: Vault, q: Request, newKid: Kid, sid: Sid, kid: Kid)
    requires sid in v.tables.sessions && v.tables.sessions[sid].tokenVerificationId.Some?
    requires kid in v.keys && kid != newKid
    requires v.keys[kid] == KeyToken(v.tables.sessions[sid].uid, v.tables.sessions[sid].tokenVerificationId)
    requires sid in Step(v.tables, q).0.sessions && !Begun(Events(v.tables, q), sid)
    requires Step(v.tables, q).0.sessions[sid].tokenVerificationId.None?
    ensures kid in KeysAfter(v, q, newKid) && KeysAfter(v, q, newKid)[kid].tokenVerificationId.None?
  {
    VerifyingEndsTheWait(v.tables, q, sid);
  }

  lemma VerifyingEndsTheWait(t: Tables, q: Request, sid: Sid)
    requires sid in t.sessions && t.sessions[sid].tokenVerificationId.Some?
    requires sid in Step(t, q).0.sessions && !Begun(Events(t, q), sid)
    requires Step(t, q).0.sessions[sid].tokenVerificationId.None?
    ensures EndedBy(t, q) == WaitOf(t.sessions[sid]) && Dropped(t, q).None? && Minted(t, q).None?
  {
    if IsAddressRequest(q) {
      AddressKeepsSessions(t, q, sid);
    } else if IsSessionRequest(q) {
      OnlyCodesVerify(t, q, sid);
    } else {
      FactorsEndTheWait(t, q, sid);
    }
  }

  lemma FactorsEndTheWait(t: Tables, q: Request, sid: Sid)
    requires IsFactorRequest(q) && sid in t.sessions && t.sessions[sid].tokenVerificationId.Some?
    requires sid in FactorStep(t, q).0.sessions && FactorStep(t, q).0.sessions[sid].tokenVerificationId.None?
    ensures EndedBy(t, q) == WaitOf(t.sessions[sid]) && Dropped(t, q).None? && Minted(t, q).None?
  {
  }

  /** Of the session requests only codes verify a session that goes on. */
  lemma OnlyCodesVerify(t: Tables, q: Request, sid: Sid)
    requires IsSessionRequest(q) && sid in t.sessions && t.sessions[sid].tokenVerificationId.Some?
    requires sid in SessionStep(t, q).0.sessions && !Begun(Events(t, q), sid)
    requires SessionStep(t, q).0.sessions[sid].tokenVerificationId.None?
    ensures EndedBy(t, q) == WaitOf(t.sessions[sid]) && Dropped(t, q).None? && Minted(t, q).None?
  {
    if q.Signup? || q.Login? || q.Duplicate? {
      OpeningKeepsOthers(t, q, sid);
    } else if q.FinishReset? || q.FinishPasswordChange? {
      ResetKeepsOthers(t, q, sid);
    } else if q.VerifyCode? || q.VerifyTokenCode? {
    } else {
      OthersKeepWaiting(t, q, sid);
    }
  }

  lemma OthersKeepWaiting(t: Tables, q: Request, sid: Sid)
    requires (q.Reauth? || q.DestroySession? || q.ResendCode?) && sid in t.sessions
    requires sid in SessionStep(t, q).0.sessions
    ensures SessionStep(t, q).0.sessions[sid].tokenVerificationId == t.sessions[sid].tokenVerificationId
  {
  }

  /** And the wait that a request ends was a session's of that user: afterwards no session
      waits for that id any more. */
  lemma WaitsEndForGood(t: Tables, q: Request)
    requires EndedBy(t, q).Some? && (q.VerifyCode? || q.VerifyTokenCode?)
    ensures var w := EndedBy(t, q).value;
            && (exists x :: x in t.sessions && t.sessions[x].uid == w.uid
                            && t.sessions[x].tokenVerificationId == Some(w.id))
            && (forall x :: x in Step(t, q).0.sessions && Step(t, q).0.sessions[x].uid == w.uid ==>
                  Step(t, q).0.sessions[x].tokenVerificationId != Some(w.id))
  {
  }

  /** A token is lost exactly when its user's are dropped. */
  lemma LostWhenDropped(v: Vault, q: Request, newKid: Kid, kid: Kid)
    requires kid in v.keys && kid != newKid
    ensures kid in KeysAfter(v, q, newKid) <==> Dropped(v.tables, q) != Some(v.keys[kid].uid)
  {
  }

  /** The session goes on unchanged. */
  predicate GoesOn(t: Tables, q: Request, x: Sid) {
    && x in t.sessions && x in Step(t, q).0.sessions && Step(t, q).0.sessions[x] == t.sessions[x]
    && !Begun(Events(t, q), x)
  }

  /** None of the user's sessions does. */
  ghost predicate SessionsGo(t: Tables, q: Request, uid: Uid) {
    forall x :: GoesOn(t, q, x) ==> t.sessions[x].uid != uid
  }

  /** Tokens are dropped with the account, and otherwise only together with all sessions of
      the user. */
  lemma DroppedWithTheAccount(t: Tables, q: Request, uid: Uid)
    requires Consistent(t) && uid in t.accounts
    ensures uid !in Step(t, q).0.accounts ==> Dropped(t, q) == Some(uid)
    ensures Dropped(t, q) == Some(uid) ==> uid !in Step(t, q).0.accounts || SessionsGo(t, q, uid)
  {
    if IsAddressRequest(q) {
      AddressDrops(t, q, uid);
    } else if q.Signup? {
      SignupDrops(t, q, uid);
    } else if q.FinishReset? || q.FinishPasswordChange? {
      ResetDrops(t, q, uid);
    } else {
      NothingDrops(t, q);
    }
  }

  lemma AddressDrops(t: Tables, q: Request, uid: Uid)
    requires Consistent(t) && IsAddressRequest(q) && uid in t.accounts
    ensures Dropped(t, q) == Some(uid) <==> uid !in Step(t, q).0.accounts
  {
  }

  lemma SignupDrops(t: Tables, q: Request, uid: Uid)
    requires Consistent(t) && q.Signup? && uid in t.accounts
    ensures uid !in Step(t, q).0.accounts ==> Dropped(t, q) == Some(uid)
    ensures Dropped(t, q) == Some(uid) ==> SessionsGo(t, q, uid)
  {
  }

  lemma ResetDrops(t: Tables, q: Request, uid: Uid)
    requires q.FinishReset? || q.FinishPasswordChange?
    ensures Step(t, q).0.accounts == t.accounts
    ensures Dropped(t, q) == Some(uid) ==> SessionsGo(t, q, uid)
  {
  }

  /** After a reset, or a successful password change, the user has no token but the one the
      request itself mints. */
  lemma ResetsLeaveNoTokens(v: Vault, q: Request, newKid: Kid, kid: Kid)
    requires (q.FinishReset? && q.uid in v.tables.accounts) || (q.FinishPasswordChange? && Step(v.tables, q).1.Ok?)
    requires kid in KeysAfter(v, q, newKid) && KeysAfter(v, q, newKid)[kid].uid == q.uid
    ensures kid == newKid
  {
  }

  lemma NothingDrops(t: Tables, q: Request)
    requires !IsAddressRequest(q) && !q.Signup? && !q.FinishReset? && !q.FinishPasswordChange?
    ensures Step(t, q).0.accounts == t.accounts && Dropped(t, q).None?
  {
  }
}
