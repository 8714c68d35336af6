/** What a second factor protects, on every run and in every single request. */
module SecondFactorRuns {
  import opened Wrappers
  import opened Assurance
  import opened SecondFactor

  // ---------- What enables a TOTP token ----------

  /** On every run a user has an enabled TOTP token if and only if the user has one that
      is verified; and the one request that brings this about is a valid code presented by a
      session of the user, which leaves that session at level two. */
  lemma {:induction false} EnabledByCodeOnly(requests: seq<Request>, q: Request, uid: Uid)
    ensures var t := Run(START, requests).tables;
            var t' := Next(Run(START, requests), q).tables;
            && (HasTotp(t, uid) <==> uid in t.totp && t.totp[uid].verified)
            && (HasTotp(t', uid) && !HasTotp(t, uid) <==> EnablesTotp(t, q, uid))
            && (EnablesTotp(t, q, uid) ==> LevelAt(t', q.sid) == 2 && CodesOf(t', uid) == q.newCodes)
  {
    RunIsConsistent(START, requests);
    EnablingStep(Run(START, requests).tables, q, uid);
  }

  /** The request is a valid code for the user's token, which was not verified yet. */
  predicate EnablesTotp(t: Tables, q: Request, uid: Uid) {
    && q.VerifyTotp? && q.isValidCode
    && q.sid in t.sessions && t.sessions[q.sid].uid == uid
    && uid in t.totp && !t.totp[uid].verified
  }

  lemma EnablingStep(t: Tables, q: Request, uid: Uid)
    requires Consistent(t)
    ensures var t' := Step(t, q).0;
            && (HasTotp(t', uid) && !HasTotp(t, uid) <==> EnablesTotp(t, q, uid))
            && (EnablesTotp(t, q, uid) ==> LevelAt(t', q.sid) == 2 && CodesOf(t', uid) == q.newCodes)
  {
    if IsSessionRequest(q) {
      SessionRequestsEnableNothing(t, q, uid);
    } else if IsAddressRequest(q) {
      AddressRequestsEnableNothing(t, q, uid);
    } else if q.VerifyTotp? {
      VerifyingEnables(t, q, uid);
    } else {
      assert !HasTotp(t, uid) ==> !HasTotp(FactorStep(t, q).0, uid);
    }
  }

  function SessionAt(t: Tables, sid: Sid): Option<Session> {
    if sid in t.sessions then Some(t.sessions[sid]) else None
  }

  /** The level of a session, zero if it is not stored. */
  function LevelAt(t: Tables, sid: Sid): nat {
    if sid in t.sessions then AssuranceLevel(t.sessions[sid]) else 0
  }

  lemma SessionRequestsEnableNothing(t: Tables, q: Request, uid: Uid)
    requires IsSessionRequest(q)
    ensures HasTotp(Step(t, q).0, uid) ==> HasTotp(t, uid)
  {
  }

  lemma AddressRequestsEnableNothing(t: Tables, q: Request, uid: Uid)
    requires IsAddressRequest(q)
    ensures HasTotp(Step(t, q).0, uid) ==> HasTotp(t, uid)
  {
  }

  lemma VerifyingEnables(t: Tables, q: Request, uid: Uid)
    requires q.VerifyTotp? && Consistent(t)
    ensures var t' := VerifyTotpStep(t, q).0;
            && (HasTotp(t', uid) && !HasTotp(t, uid) <==> EnablesTotp(t, q, uid))
            && (EnablesTotp(t, q, uid) ==> LevelAt(t', q.sid) == 2 && CodesOf(t', uid) == q.newCodes)
  {
  }

  // ---------- What removes one ----------

  /** The session is stored, verified and at level two. */
  predicate Strong(t: Tables, sid: Sid) {
    sid in t.sessions && !Insufficient(t.sessions[sid])
  }

  /** The user's token is removed at the request of a strong session: of that user on the
      TOTP route, of anybody on the route that deletes the account. */
  predicate RemovedByGate(t: Tables, q: Request, uid: Uid) {
    || (q.DestroyTotp? && Strong(t, q.sid) && t.sessions[q.sid].uid == uid)
    || (q.DestroyAccount? && q.uid == uid && q.session.Some? && Strong(t, q.session.value))
  }

  /** The request deletes the user's account because nobody has verified its primary
      address: the address is signed up again or claimed by another account, mail to it
      bounces, or it turns out to be invalid. */
  predicate RemovedAsUnverified(t: Tables, q: Request, uid: Uid) {
    && uid in t.accounts && !EmailVerified(t, uid)
    && (|| (q.Signup? && q.email == t.accounts[uid])
        || (q.CreateEmail? && q.email == t.accounts[uid] && q.oldEnough && MayAddEmail(t, q.sid))
        || (q.Bounced? && q.recent && q.email in t.emails && t.emails[q.email].uid == uid)
        || (q.PollStatus? && !q.validAddress && q.sid in t.sessions && t.sessions[q.sid].uid == uid))
  }

  predicate MayAddEmail(t: Tables, sid: Sid) {
    sid in t.sessions && TokenVerified(t.sessions[sid]) && EmailVerified(t, t.sessions[sid].uid)
  }

  predicate Removes(t: Tables, q: Request, uid: Uid) {
    RemovedByGate(t, q, uid) || RemovedAsUnverified(t, q, uid) || q == OperatorDelete(uid)
  }

  /** On every run an enabled TOTP token disappears if and only if the request comes from a
      verified session at level two, or purges an account whose primary address is
      unverified, or is an operator's. The session then has shown a second factor. */
  lemma {:induction false} EnabledTotpIsProtected(requests: seq<Request>, q: Request, uid: Uid)
    requires HasTotp(Run(START, requests).tables, uid)
    ensures var s := Run(START, requests);
            && (!HasTotp(Next(s, q).tables, uid) <==> Removes(s.tables, q, uid))
            && (q.DestroyTotp? && RemovedByGate(s.tables, q, uid) ==> SecondFactorShown(s.log, q.sid))
            && (q.DestroyAccount? && RemovedByGate(s.tables, q, uid) ==> SecondFactorShown(s.log, q.session.value))
  {
    LevelTwoIsEarned(requests);
    RunIsConsistent(START, requests);
    RemovingStep(Run(START, requests).tables, q, uid);
  }

  lemma RemovingStep(t: Tables, q: Request, uid: Uid)
    requires HasTotp(t, uid) && Consistent(t)
    ensures !HasTotp(Step(t, q).0, uid) <==> Removes(t, q, uid)
  {
    if IsFactorRequest(q) {
      FactorRequestsRemove(t, q, uid);
    } else if IsSessionRequest(q) {
      SessionRequestsRemove(t, q, uid);
    } else {
      AddressRequestsRemove(t, q, uid);
    }
  }

  lemma FactorRequestsRemove(t: Tables, q: Request, uid: Uid)
    requires HasTotp(t, uid) && IsFactorRequest(q)
    ensures !HasTotp(Step(t, q).0, uid) <==> Removes(t, q, uid)
  {
  }

  lemma SessionRequestsRemove(t: Tables, q: Request, uid: Uid)
    requires HasTotp(t, uid) && IsSessionRequest(q) && Consistent(t)
    ensures !HasTotp(Step(t, q).0, uid) <==> Removes(t, q, uid)
  {
    if q.Signup? {
      SignupRemoves(t, q, uid);
    } else if q.VerifyCode? {
      VerifyCodeRemovesNothing(t, q, uid);
    } else {
      OthersRemoveNothing(t, q, uid);
    }
  }

  lemma OthersRemoveNothing(t: Tables, q: Request, uid: Uid)
    requires HasTotp(t, uid) && IsSessionRequest(q) && !q.Signup? && !q.VerifyCode?
    ensures HasTotp(Step(t, q).0, uid) && !Removes(t, q, uid)
  {
    OnlySessionsChange(t, q);
  }

  lemma VerifyCodeRemovesNothing(t: Tables, q: Request, uid: Uid)
    requires HasTotp(t, uid) && q.VerifyCode?
    ensures HasTotp(Step(t, q).0, uid) && !Removes(t, q, uid)
  {
  }

  lemma SignupRemoves(t: Tables, q: Request, uid: Uid)
    requires HasTotp(t, uid) && q.Signup? && Consistent(t)
    ensures !HasTotp(Step(t, q).0, uid) <==> Removes(t, q, uid)
  {
    SignupClears(t, q);
  }

  lemma AddressRequestsRemove(t: Tables, q: Request, uid: Uid)
    requires HasTotp(t, uid) && IsAddressRequest(q) && Consistent(t)
    ensures !HasTotp(Step(t, q).0, uid) <==> Removes(t, q, uid)
  {
    if q.CreateEmail? {
      CreateEmailRemoves(t, q, uid);
    } else if q.PollStatus? {
      PollStatusRemoves(t, q, uid);
    } else if q.Bounced? {
      BouncedRemoves(t, q, uid);
    } else if q.DestroyAccount? {
      DestroyAccountRemoves(t, q, uid);
    }
  }

  lemma CreateEmailRemoves(t: Tables, q: Request, uid: Uid)
    requires HasTotp(t, uid) && q.CreateEmail? && Consistent(t)
    ensures !HasTotp(CreateEmailStep(t, q).0, uid) <==> Removes(t, q, uid)
  {
  }

  lemma PollStatusRemoves(t: Tables, q: Request, uid: Uid)
    requires HasTotp(t, uid) && Consistent(t) && q.PollStatus?
    ensures !HasTotp(PollStatusStep(t, q).0, uid) <==> Removes(t, q, uid)
  {
  }

  lemma BouncedRemoves(t: Tables, q: Request, uid: Uid)
    requires HasTotp(t, uid) && Consistent(t) && q.Bounced?
    ensures !HasTotp(BouncedStep(t, q).0, uid) <==> Removes(t, q, uid)
  {
  }

  lemma DestroyAccountRemoves(t: Tables, q: Request, uid: Uid)
    requires HasTotp(t, uid) && Consistent(t) && q.DestroyAccount?
    ensures !HasTotp(DestroyAccountStep(t, q).0, uid) <==> Removes(t, q, uid)
  {
  }

  /** A signup leaves of TOTP tokens and of accounts what making room left. */
  lemma SignupClears(t: Tables, q: Request)
    requires q.Signup?
    ensures var cleared := ClearForSignup(t, q.email);
            var t' := SignupStep(t, q).0;
            if cleared.Err? then t' == t
            else
              && t'.totp == cleared.value.totp
              && (t' == cleared.value ||
                  (&& q.uid !in cleared.value.accounts
                   && t'.accounts == cleared.value.accounts[q.uid := q.email]
                   && t'.emails == cleared.value.emails[q.email := EmailRow(q.uid, q.preVerified, q.tvid)]))
  {
  }

  // ---------- Verified accounts keep theirs ----------

  /** The request deletes the account whatever its address. */
  predicate DeletesAccount(t: Tables, q: Request, uid: Uid) {
    (q.DestroyAccount? && q.uid == uid && DestroyAccountStep(t, q).1.Ok?) || q == OperatorDelete(uid)
  }

  /** A verified primary address stays verified, through changes of address too, until the
      account is deleted on request: no purge ever reaches it. */
  lemma VerifiedStaysVerified(t: Tables, q: Request, uid: Uid)
    requires Consistent(t) && EmailVerified(t, uid)
    ensures EmailVerified(Step(t, q).0, uid) <==> !DeletesAccount(t, q, uid)
  {
    if IsSessionRequest(q) {
      SessionRequestsKeepVerified(t, q, uid);
    } else if IsFactorRequest(q) {
      FactorRequestsKeepVerified(t, q, uid);
    } else {
      AddressRequestsKeepVerified(t, q, uid);
    }
  }

  lemma FactorRequestsKeepVerified(t: Tables, q: Request, uid: Uid)
    requires EmailVerified(t, uid) && IsFactorRequest(q)
    ensures EmailVerified(FactorStep(t, q).0, uid)
  {
  }

  lemma SessionRequestsKeepVerified(t: Tables, q: Request, uid: Uid)
    requires Consistent(t) && EmailVerified(t, uid) && IsSessionRequest(q)
    ensures EmailVerified(SessionStep(t, q).0, uid)
  {
    match q {
      case Signup(_, _, _, _, _, _) => SignupKeepsVerified(t, q, uid);
      case VerifyCode(_, _) => LinkKeepsVerified(t, q, uid);
      case _ => OnlySessionsChange(t, q);
    }
  }

  lemma SignupKeepsVerified(t: Tables, q: Request, uid: Uid)
    requires Consistent(t) && EmailVerified(t, uid) && q.Signup?
    ensures EmailVerified(SignupStep(t, q).0, uid)
  {
    SignupClears(t, q);
  }

  lemma LinkKeepsVerified(t: Tables, q: Request, uid: Uid)
    requires Consistent(t) && EmailVerified(t, uid) && q.VerifyCode?
    ensures EmailVerified(VerifyCodeStep(t, q).0, uid)
  {
  }

  lemma AddressRequestsKeepVerified(t: Tables, q: Request, uid: Uid)
    requires Consistent(t) && EmailVerified(t, uid) && IsAddressRequest(q)
    ensures EmailVerified(AddressStep(t, q).0, uid) <==> !DeletesAccount(t, q, uid)
  {
    if q.CreateEmail? {
      CreateEmailKeepsVerified(t, q, uid);
    } else if q.VerifySecondary? || q.DestroyEmail? || q.SetPrimary? {
      AddressChangeKeepsVerified(t, q, uid);
    } else {
      DeletionOfVerified(t, q, uid);
    }
  }

  lemma CreateEmailKeepsVerified(t: Tables, q: Request, uid: Uid)
    requires Consistent(t) && EmailVerified(t, uid) && q.CreateEmail?
    ensures EmailVerified(CreateEmailStep(t, q).0, uid)
  {
  }

  lemma AddressChangeKeepsVerified(t: Tables, q: Request, uid: Uid)
    requires Consistent(t) && EmailVerified(t, uid) && (q.VerifySecondary? || q.DestroyEmail? || q.SetPrimary?)
    ensures EmailVerified(AddressStep(t, q).0, uid)
  {
  }

  lemma DeletionOfVerified(t: Tables, q: Request, uid: Uid)
    requires Consistent(t) && EmailVerified(t, uid)
    requires q.PollStatus? || q.Bounced? || q.DestroyAccount? || q.OperatorDelete?
    ensures EmailVerified(AddressStep(t, q).0, uid) <==> !DeletesAccount(t, q, uid)
  {
  }

  /** No request of the sequence removes the user's token at a gate or as an operator. */
  ghost predicate Untouched(s: System, requests: seq<Request>, uid: Uid)
    decreases |requests|
  {
    requests == [] ||
    (&& !RemovedByGate(s.tables, requests[0], uid) && requests[0] != OperatorDelete(uid)
     && Untouched(Next(s, requests[0]), requests[1..], uid))
  }

  /** From any point of a run on, an account with a verified primary address and an
      enabled TOTP token keeps both for as long as no session at level two and no
      operator takes them away, whatever else is requested. */
  lemma {:induction false} VerifiedAccountKeepsTotp(before: seq<Request>, after: seq<Request>, uid: Uid)
    requires var s := Run(START, before);
             HasTotp(s.tables, uid) && EmailVerified(s.tables, uid) && Untouched(s, after, uid)
    ensures var t := Run(START, before + after).tables;
            HasTotp(t, uid) && EmailVerified(t, uid)
  {
    RunIsConsistent(START, before);
    RunSplits(START, before, after);
    UntouchedKeepsTotp(Run(START, before), after, uid);
  }

  lemma {:induction false} UntouchedKeepsTotp(s: System, requests: seq<Request>, uid: Uid)
    requires Consistent(s.tables) && HasTotp(s.tables, uid) && EmailVerified(s.tables, uid)
    requires Untouched(s, requests, uid)
    ensures HasTotp(Run(s, requests).tables, uid) && EmailVerified(Run(s, requests).tables, uid)
    decreases |requests|
  {
    if requests == [] {
    } else {
      KeptByOne(s.tables, requests[0], uid);
      StepIsConsistent(s.tables, requests[0]);
      UntouchedKeepsTotp(Next(s, requests[0]), requests[1..], uid);
    }
  }

  lemma KeptByOne(t: Tables, q: Request, uid: Uid)
    requires Consistent(t) && HasTotp(t, uid) && EmailVerified(t, uid)
    requires !RemovedByGate(t, q, uid) && q != OperatorDelete(uid)
    ensures HasTotp(Step(t, q).0, uid) && EmailVerified(Step(t, q).0, uid)
  {
    RemovingStep(t, q, uid);
    VerifiedStaysVerified(t, q, uid);
    assert !DeletesAccount(t, q, uid);
  }

  // ---------- Single requests ----------

  /** Under an enabled TOTP token every login and every reset of an existing account mints
      a session that is unverified, must be verified and is at level one, whatever the
      heuristics say; so the client is told to verify. */
  lemma TotpForcesVerification(t: Tables, q: Request)
    requires q.Login? || (q.FinishReset? && q.wantsSession)
    requires HasTotp(t, q.uid)
    ensures var (t', r) := Step(t, q);
            && (r.Ok? <==> q.uid in t.accounts)
            && (r.Ok? ==>
                  && q.newSid in t'.sessions
                  && var s := t'.sessions[q.newSid];
                     && !TokenVerified(s) && s.mustVerify && AssuranceLevel(s) == 1
                     && r.value.LoggedIn? && r.value.status.Unverified?
                     && (EmailVerified(t, q.uid) ==> r.value.status.through == AskTotp2fa))
  {
  }

  /** A valid TOTP code always lifts the session to level two. A consumed recovery code
      does so if and only if the session was still unverified or already there: a
      session confirmed by e-mail spends the code and stays at level one. */
  lemma WhatVerifyingAchieves(t: Tables, q: Request)
    requires (q.VerifyTotp? && q.isValidCode) || q.VerifyRecoveryCode?
    requires Step(t, q).1.Ok?
    ensures var s := t.sessions[q.sid];
            var s' := Step(t, q).0.sessions[q.sid];
            && (q.VerifyTotp? ==> AssuranceLevel(s') == 2 && HasVerifiedTotp(Step(t, q).0, s.uid))
            && (q.VerifyRecoveryCode? ==>
                  && (AssuranceLevel(s') == 2 <==> !TokenVerified(s) || AssuranceLevel(s) == 2)
                  && TokenVerified(s')
                  && q.code in CodesOf(t, s.uid) && q.code !in CodesOf(Step(t, q).0, s.uid))
  {
  }

  predicate HasVerifiedTotp(t: Tables, uid: Uid) {
    uid in t.totp && t.totp[uid].verified
  }

  /** While a session lives, its level never drops. */
  lemma LevelNeverDrops(t: Tables, q: Request, sid: Sid)
    requires sid in t.sessions && sid in Step(t, q).0.sessions
    requires !Begun(Events(t, q), sid)
    ensures AssuranceLevel(Step(t, q).0.sessions[sid]) >= AssuranceLevel(t.sessions[sid])
  {
    if IsSessionRequest(q) {
      SessionLevelKept(t, q, sid);
    } else if IsFactorRequest(q) {
      FactorLevelKept(t, q, sid);
    } else {
      AddressLevelKept(t, q, sid);
    }
  }

  lemma FactorLevelKept(t: Tables, q: Request, sid: Sid)
    requires IsFactorRequest(q) && sid in t.sessions && sid in Step(t, q).0.sessions
    ensures AssuranceLevel(Step(t, q).0.sessions[sid]) >= AssuranceLevel(t.sessions[sid])
  {
  }

  lemma AddressLevelKept(t: Tables, q: Request, sid: Sid)
    requires IsAddressRequest(q) && sid in t.sessions && sid in Step(t, q).0.sessions
    ensures AssuranceLevel(Step(t, q).0.sessions[sid]) >= AssuranceLevel(t.sessions[sid])
  {
    AddressKeepsSessions(t, q, sid);
  }

  lemma SessionLevelKept(t: Tables, q: Request, sid: Sid)
    requires IsSessionRequest(q) && sid in t.sessions && sid in Step(t, q).0.sessions
    requires !Begun(Events(t, q), sid)
    ensures AssuranceLevel(Step(t, q).0.sessions[sid]) >= AssuranceLevel(t.sessions[sid])
  {
    SessionMethodKept(t, q, sid);
  }

  lemma SessionMethodKept(t: Tables, q: Request, sid: Sid)
    requires IsSessionRequest(q) && sid in t.sessions && sid in SessionStep(t, q).0.sessions
    requires !Begun(Events(t, q), sid)
    ensures SessionStep(t, q).0.sessions[sid].verificationMethod == t.sessions[sid].verificationMethod
  {
    if q.Signup? || q.Login? || q.Duplicate? {
      OpeningKeepsOthers(t, q, sid);
    } else if q.FinishReset? || q.FinishPasswordChange? {
      ResetKeepsOthers(t, q, sid);
    } else {
      OtherSessions(t, q, sid);
    }
  }

  lemma OpeningKeepsOthers(t: Tables, q: Request, sid: Sid)
    requires (q.Signup? || q.Login? || q.Duplicate?) && sid in t.sessions && sid in SessionStep(t, q).0.sessions
    requires !Begun(Events(t, q), sid)
    ensures SessionStep(t, q).0.sessions[sid] == t.sessions[sid]
  {
  }

  lemma ResetKeepsOthers(t: Tables, q: Request, sid: Sid)
    requires (q.FinishReset? || q.FinishPasswordChange?) && sid in t.sessions && sid in SessionStep(t, q).0.sessions
    requires !Begun(Events(t, q), sid)
    ensures SessionStep(t, q).0.sessions[sid] == t.sessions[sid]
  {
  }

  /** Requests that are refused only after they have changed something: polling the status
      of an account with an unverified invalid address deletes it, a reset that asks for
      keys without a session has ended the other sessions, and a signup whose random id
      is taken has made room. */
  predicate RefusedLate(t: Tables, q: Request) {
    || (q.PollStatus? && q.sid in t.sessions && !q.validAddress && !EmailVerified(t, t.sessions[q.sid].uid))
    || (q.FinishReset? && q.uid in t.accounts && !q.wantsSession && q.wantsKeys)
    || (q.Signup? && ClearForSignup(t, q.email).Ok? && q.uid in ClearForSignup(t, q.email).value.accounts)
  }

  /** A refused request changes nothing, with exactly these exceptions. */
  lemma RefusalChangesNothing(t: Tables, q: Request)
    requires Step(t, q).1.Err?
    ensures Step(t, q).0 ==
              if !RefusedLate(t, q) then t
              else if q.PollStatus? then WithoutAccount(t, t.sessions[q.sid].uid)
              else if q.FinishReset? then t.(sessions := WithoutUser(t.sessions, q.uid))
              else ClearForSignup(t, q.email).value
  {
  }

  // ---------- Requests on behalf of a user ----------

  /** A session of this very user that has shown a second factor. */
  predicate OwnFactorShown(s: System, session: Option<Sid>, uid: Uid) {
    && session.Some? && session.value in s.tables.sessions
    && s.tables.sessions[session.value].uid == uid && SecondFactorShown(s.log, session.value)
  }

  /** On every run a password change under TOTP succeeds if and only if a stored session
      at level two comes with it; that session has shown a second factor. It need not be
      a session of the user: that holds exactly when its own user is the one whose
      password changes, which the handler does not compare. */
  lemma {:induction false} PasswordChangeUnderTotp(requests: seq<Request>, q: Request)
    requires q.FinishPasswordChange? && HasTotp(Run(START, requests).tables, q.uid)
    ensures var s := Run(START, requests);
            && (Step(s.tables, q).1.Ok? <==>
                  && q.session.Some? && q.session.value in s.tables.sessions
                  && AssuranceLevel(s.tables.sessions[q.session.value]) >= 2)
            && (Step(s.tables, q).1.Ok? ==>
                  && SecondFactorShown(s.log, q.session.value)
                  && (OwnFactorShown(s, q.session, q.uid) <==> s.tables.sessions[q.session.value].uid == q.uid))
  {
    LevelTwoIsEarned(requests);
    RunIsConsistent(START, requests);
  }

  /** Deleting an account under TOTP asks in addition that the session be verified, and
      does not compare the users either. */
  lemma {:induction false} AccountDeletionUnderTotp(requests: seq<Request>, q: Request)
    requires q.DestroyAccount? && HasTotp(Run(START, requests).tables, q.uid)
    ensures var s := Run(START, requests);
            && (Step(s.tables, q).1.Ok? <==> q.session.Some? && Strong(s.tables, q.session.value))
            && (Step(s.tables, q).1.Ok? ==>
                  && SecondFactorShown(s.log, q.session.value)
                  && (OwnFactorShown(s, q.session, q.uid) <==> s.tables.sessions[q.session.value].uid == q.uid))
  {
    LevelTwoIsEarned(requests);
    RunIsConsistent(START, requests);
  }

  // ---------- Inputs at which the stronger claims fail ----------

  /** A new account, verified or not, enrols in TOTP from a login that the heuristics
      exempt from verification. */
  function Enrolment(email: Address, uid: Uid, preVerified: bool, sid: Sid, codes: set<string>): seq<Request> {
    [Signup(email, uid, preVerified, false, sid + "'", "id"),
     Login(uid, LoginFacts(false, false, true, false, None), sid, "id'"),
     CreateTotp(sid),
     VerifyTotp(sid, true, codes)]
  }

  /** After an enrolment the user has TOTP and a session at level two, and of what belongs
      to others nothing has changed. */
  ghost predicate Enrolled(t: Tables, t': Tables, email: Address, uid: Uid, preVerified: bool, sid: Sid,
                           codes: set<string>) {
    && t'.accounts == t.accounts[uid := email] && t'.emails == t.emails[email := EmailRow(uid, preVerified, "id")]
    && t'.sessions == t.sessions[sid + "'" := SignupSession(uid, preVerified)]
                                [sid := Session(uid, None, Some(2), false)]
    && t'.totp == t.totp[uid := Totp(true, true)]
    && t'.recoveryCodes == t.recoveryCodes[uid := codes]
  }

  function SignupSession(uid: Uid, preVerified: bool): Session {
    Session(uid, if preVerified then None else Some("id"), None, false)
  }

  lemma EnrolmentWorks(s: System, email: Address, uid: Uid, preVerified: bool, sid: Sid, codes: set<string>)
    requires email !in s.tables.emails && uid !in s.tables.accounts && uid !in s.tables.totp
    ensures Enrolled(s.tables, Run(s, Enrolment(email, uid, preVerified, sid, codes)).tables,
                     email, uid, preVerified, sid, codes)
  {
    var qs := Enrolment(email, uid, preVerified, sid, codes);
    var s1 := Next(s, qs[0]);
    var s2 := Next(s1, qs[1]);
    var s3 := Next(s2, qs[2]);
    var s4 := Next(s3, qs[3]);
    var exempt := Session(uid, None, None, false);
    assert s2.tables == s1.tables.(sessions := s1.tables.sessions[sid := exempt]);
    assert s3.tables == s2.tables.(totp := s.tables.totp[uid := Totp(false, false)]);
    FourSteps(s, qs);
  }

  lemma FourSteps(s: System, qs: seq<Request>)
    requires |qs| == 4
    ensures Run(s, qs) == Next(Next(Next(Next(s, qs[0]), qs[1]), qs[2]), qs[3])
  {
    ThreeSteps(Next(s, qs[0]), qs[1..]);
  }

  /** An account enrols in TOTP before its address is verified, and the next signup with
      that address removes the enabled token without any session. */
  lemma UnverifiedAccountLosesTotp()
    ensures var s := Run(START, Enrolment("a@example.com", "u", false, "s", {}));
            var q := Signup("a@example.com", "v", false, false, "s2", "id2");
            && HasTotp(s.tables, "u") && !EmailVerified(s.tables, "u")
            && Next(s, q) == Run(START, Enrolment("a@example.com", "u", false, "s", {}) + [q])
            && Step(s.tables, q).1.Ok? && !HasTotp(Next(s, q).tables, "u")
  {
    EnrolmentWorks(START, "a@example.com", "u", false, "s", {});
    var qs := Enrolment("a@example.com", "u", false, "s", {});
    var q := Signup("a@example.com", "v", false, false, "s2", "id2");
    RunSplits(START, qs, [q]);
    assert Run(Run(START, qs), [q]) == Next(Run(START, qs), q);
  }

  /** Two users enrol in TOTP. */
  function TwoEnrolments(u: Uid, v: Uid): seq<Request> {
    Enrolment("a@example.com", u, true, "s1", {}) + Enrolment("b@example.com", v, true, "s2", {})
  }

  lemma TwoUsersEnrolled(u: Uid, v: Uid)
    requires u != v
    ensures var t := Run(START, TwoEnrolments(u, v)).tables;
            && u in t.accounts && HasTotp(t, u)
            && SessionAt(t, "s2") == Some(Session(v, None, Some(2), false))
  {
    var first := Enrolment("a@example.com", u, true, "s1", {});
    EnrolmentWorks(START, "a@example.com", u, true, "s1", {});
    RunSplits(START, first, Enrolment("b@example.com", v, true, "s2", {}));
    SecondEnrolment(Run(START, first), u, v);
  }

  lemma SecondEnrolment(s: System, u: Uid, v: Uid)
    requires u != v && Enrolled(START.tables, s.tables, "a@example.com", u, true, "s1", {})
    ensures var t := Run(s, Enrolment("b@example.com", v, true, "s2", {})).tables;
            && u in t.accounts && HasTotp(t, u)
            && SessionAt(t, "s2") == Some(Session(v, None, Some(2), false))
  {
    assert s.tables.accounts == map[u := "a@example.com"] && s.tables.totp == map[u := Totp(true, true)];
    EnrolmentWorks(s, "b@example.com", v, true, "s2", {});
  }

  /** A session of one user carries through a password change of another user whose
      account has TOTP, and the change opens a verified session for the latter. */
  lemma AnyStrongSessionChangesPasswords(u: Uid, v: Uid)
    requires u != v
    ensures var s := Run(START, TwoEnrolments(u, v));
            && HasTotp(s.tables, u)
            && SessionAt(s.tables, "s2") == Some(Session(v, None, Some(2), false))
            && CarriesThrough(s, "s2", u, "s3", "id")
  {
    TwoUsersEnrolled(u, v);
    ChangedByStranger(Run(START, TwoEnrolments(u, v)), "s2", u, "s3", "id");
  }

  /** The session gets the user's password changed and the user a verified new session,
      without being a session of the user. */
  ghost predicate CarriesThrough(s: System, sid: Sid, uid: Uid, newSid: Sid, tvid: string) {
    var q := FinishPasswordChange(uid, Some(sid), false, newSid, tvid);
    && Step(s.tables, q).1.Ok?
    && SessionAt(Next(s, q).tables, newSid) == Some(Session(uid, None, None, false))
    && !OwnFactorShown(s, q.session, uid)
  }

  /** The same session gets the other user's account deleted. */
  lemma AnyStrongSessionDeletesAccounts(u: Uid, v: Uid)
    requires u != v
    ensures var s := Run(START, TwoEnrolments(u, v));
            && HasTotp(s.tables, u)
            && SessionAt(s.tables, "s2") == Some(Session(v, None, Some(2), false))
            && DeletesForOther(s, "s2", u)
  {
    TwoUsersEnrolled(u, v);
    DeletedByStranger(Run(START, TwoEnrolments(u, v)), "s2", u);
  }

  /** The session gets the user's account deleted without being a session of the user. */
  ghost predicate DeletesForOther(s: System, sid: Sid, uid: Uid) {
    && Step(s.tables, DestroyAccount(uid, Some(sid))).1.Ok?
    && uid !in Next(s, DestroyAccount(uid, Some(sid))).tables.accounts
    && !OwnFactorShown(s, Some(sid), uid)
  }

  lemma DeletedByStranger(s: System, sid: Sid, uid: Uid)
    requires uid in s.tables.accounts && sid in s.tables.sessions && s.tables.sessions[sid].uid != uid
    requires TokenVerified(s.tables.sessions[sid]) && SecondFactorMethod(s.tables.sessions[sid])
    ensures DeletesForOther(s, sid, uid)
  {
  }

  lemma ChangedByStranger(s: System, sid: Sid, uid: Uid, newSid: Sid, tvid: string)
    requires uid in s.tables.accounts && sid in s.tables.sessions && s.tables.sessions[sid].uid != uid
    requires TokenVerified(s.tables.sessions[sid]) && SecondFactorMethod(s.tables.sessions[sid])
    ensures CarriesThrough(s, sid, uid, newSid, tvid)
  {
  }

  /** A session is confirmed by e-mail, another one of the user enrols in TOTP, and then
      a recovery code presented by the first is spent and leaves it at level one. */
  lemma RecoveryCodeSpentInVain(u: Uid)
    ensures var t := Run(START, Confirmation(u) + LateEnrolment("code")).tables;
            HasTotp(t, u) && SpentInVain(t, u, "s2", "code")
  {
    ConfirmationRun(u);
    RunSplits(START, Confirmation(u), LateEnrolment("code"));
    LateEnrolmentRun(Run(START, Confirmation(u)), u, "code");
  }

  ghost predicate SpentInVain(t: Tables, uid: Uid, sid: Sid, code: string) {
    var t' := Step(t, VerifyRecoveryCode(sid, code)).0;
    && Step(t, VerifyRecoveryCode(sid, code)).1 == Ok(Done)
    && code in CodesOf(t, uid) && code !in CodesOf(t', uid)
    && SessionAt(t, sid) == SessionAt(t', sid) && LevelAt(t', sid) == 1
  }

  function Confirmation(u: Uid): seq<Request> {
    [Signup("a@example.com", u, true, false, "s1", "id1"),
     Login(u, LoginFacts(false, false, false, false, None), "s2", "id2"),
     VerifyCode(u, "id2")]
  }

  function LateEnrolment(code: string): seq<Request> {
    [CreateTotp("s1"), VerifyTotp("s1", true, {code})]
  }

  /** A verified session at level one. */
  function OpenSession(u: Uid): Session {
    Session(u, None, None, false)
  }

  lemma ConfirmationRun(u: Uid)
    ensures Run(START, Confirmation(u)).tables ==
            Tables(map[u := "a@example.com"], map["a@example.com" := EmailRow(u, true, "id1")],
                   map["s1" := OpenSession(u), "s2" := OpenSession(u)], map[], map[])
  {
    var qs := Confirmation(u);
    var open := OpenSession(u);
    var s1 := Next(START, qs[0]);
    assert s1.tables == Tables(map[u := "a@example.com"], map["a@example.com" := EmailRow(u, true, "id1")],
                               map["s1" := open], map[], map[]);
    var s2 := Next(s1, qs[1]);
    assert s2.tables == s1.tables.(sessions := map["s1" := open, "s2" := open.(tokenVerificationId := Some("id2"))]);
    assert s2.tables.sessions["s2"].tokenVerificationId == Some("id2");
    ThreeSteps(START, qs);
  }

  lemma ThreeSteps(s: System, qs: seq<Request>)
    requires |qs| == 3
    ensures Run(s, qs) == Next(Next(Next(s, qs[0]), qs[1]), qs[2])
  {
    TwoSteps(Next(s, qs[0]), qs[1..]);
  }

  lemma TwoSteps(s: System, qs: seq<Request>)
    requires |qs| == 2
    ensures Run(s, qs) == Next(Next(s, qs[0]), qs[1])
  {
    assert qs[1..][1..] == [];
    assert Run(Next(s, qs[0]), qs[1..]) == Run(Next(Next(s, qs[0]), qs[1]), []);
  }

  lemma LateEnrolmentRun(s: System, u: Uid, code: string)
    requires s.tables.sessions == map["s1" := OpenSession(u), "s2" := OpenSession(u)] && s.tables.totp == map[]
    ensures var t := Run(s, LateEnrolment(code)).tables;
            HasTotp(t, u) && SpentInVain(t, u, "s2", code)
  {
    var qs := LateEnrolment(code);
    var t := Next(s, qs[0]).tables;
    assert t == s.tables.(totp := map[u := Totp(false, false)]);
    TwoSteps(s, qs);
    LateCode(Next(s, qs[0]), u, code);
  }

  lemma LateCode(s: System, u: Uid, code: string)
    requires s.tables.sessions == map["s1" := OpenSession(u), "s2" := OpenSession(u)]
    requires s.tables.totp == map[u := Totp(false, false)]
    ensures var t := Next(s, VerifyTotp("s1", true, {code})).tables;
            HasTotp(t, u) && SpentInVain(t, u, "s2", code)
  {
    var t := Next(s, VerifyTotp("s1", true, {code})).tables;
    assert t.sessions["s2"] == OpenSession(u);
    assert t.totp == map[u := Totp(true, true)] && CodesOf(t, u) == {code};
    SpendingInVain(t, u, "s2", code);
  }

  lemma SpendingInVain(t: Tables, uid: Uid, sid: Sid, code: string)
    requires SessionAt(t, sid) == Some(OpenSession(uid)) && code in CodesOf(t, uid)
    ensures SpentInVain(t, uid, sid, code)
  {
  }
}
