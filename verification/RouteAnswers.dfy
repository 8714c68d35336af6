/** What each request on accounts, sessions and factors answers and changes, stated of the
    tables before and after. */
module RouteAnswers {
  import opened Wrappers
  import opened Assurance
  import opened SecondFactor
  import opened KeyTokens

  // ---------- Frames ----------

  /** Only this session may differ; it is there afterwards. */
  ghost predicate OnlySession(t: Tables, t': Tables, sid: Sid) {
    && t' == t.(sessions := t'.sessions) && sid in t'.sessions
    && (forall x :: x != sid ==> (x in t'.sessions <==> x in t.sessions))
    && (forall x :: x != sid && x in t.sessions ==> t'.sessions[x] == t.sessions[x])
  }

  /** The user's sessions are gone but for this one; everybody else's are as they were. */
  ghost predicate SessionsEnded(t: Tables, t': Tables, uid: Uid, but: Option<Sid>) {
    && t' == t.(sessions := t'.sessions)
    && (forall x :: x in t'.sessions && t'.sessions[x].uid == uid ==> but == Some(x))
    && (forall x :: x in t.sessions && t.sessions[x].uid != uid && but != Some(x) ==>
          x in t'.sessions && t'.sessions[x] == t.sessions[x])
    && (forall x :: x in t'.sessions && but != Some(x) ==> x in t.sessions)
  }

  /** Of the user nothing is left, and of everybody else everything. */
  ghost predicate Erased(t: Tables, t': Tables, uid: Uid) {
    && (forall u :: u in t'.accounts <==> u in t.accounts && u != uid)
    && (forall u :: u in t'.accounts ==> t'.accounts[u] == t.accounts[u])
    && (forall a :: a in t'.emails <==> a in t.emails && t.emails[a].uid != uid)
    && (forall a :: a in t'.emails ==> t'.emails[a] == t.emails[a])
    && (forall x :: x in t'.sessions <==> x in t.sessions && t.sessions[x].uid != uid)
    && (forall x :: x in t'.sessions ==> t'.sessions[x] == t.sessions[x])
    && (forall u :: u in t'.totp <==> u in t.totp && u != uid)
    && (forall u :: u in t'.totp ==> t'.totp[u] == t.totp[u])
    && (forall u :: u in t'.recoveryCodes <==> u in t.recoveryCodes && u != uid)
    && (forall u :: u in t'.recoveryCodes ==> t'.recoveryCodes[u] == t.recoveryCodes[u])
  }

  lemma WithoutAccountErases(t: Tables, uid: Uid)
    ensures Erased(t, WithoutAccount(t, uid), uid)
  {
  }

  /** The waiting sessions of the user that carry the id are verified; nothing else about
      any session changes. */
  ghost predicate WaitEnded(t: Tables, t': Tables, uid: Uid, id: string) {
    && t'.sessions.Keys == t.sessions.Keys
    && (forall x :: x in t.sessions ==>
          && t'.sessions[x].(tokenVerificationId := None) == t.sessions[x].(tokenVerificationId := None)
          && t'.sessions[x].tokenVerificationId ==
             if t.sessions[x].uid == uid && t.sessions[x].tokenVerificationId == Some(id) then None
             else t.sessions[x].tokenVerificationId)
  }

  /** How a session presents itself: verified if the address is and nothing due is left. */
  predicate Tells(status: Status, emailVerified: bool, s: Session, asked: Option<Requested>) {
    && (status.Verified? <==> emailVerified && (s.mustVerify ==> s.tokenVerificationId.None?))
    && (status.Unverified? && !emailVerified ==> status.signup && status.through == AskEmail)
    && (status.Unverified? && emailVerified ==>
          !status.signup && status.through == (if asked.Some? then asked.value else AskEmail))
  }

  // ---------- Signing up and in ----------

  /** A login opens one session and changes nothing else. The session waits for its id if
      there is TOTP, or if neither an unblock code was given nor, unless verification is
      forced, a heuristic skips it; it must be verified under TOTP, or if it waits and keys
      were asked for. */
  lemma LoginAnswer(t: Tables, q: Request)
    requires q.Login?
    ensures var (t', r) := LoginStep(t, q);
            && (r == Err(UnknownAccount) <==> q.uid !in t.accounts)
            && (r == Err(TotpRequired) <==>
                  q.uid in t.accounts && q.facts.requested == Some(AskTotp2fa) && !HasTotp(t, q.uid))
            && (r.Err? ==> t' == t && r.error in {UnknownAccount, TotpRequired})
            && (r.Ok? ==>
                  && OnlySession(t, t', q.newSid) && r.value.LoggedIn?
                  && var s := t'.sessions[q.newSid];
                     && s.uid == q.uid && s.verificationMethod.None?
                     && (s.tokenVerificationId == Some(q.tvid) <==>
                           || HasTotp(t, q.uid)
                           || (!q.facts.didSigninUnblock && (q.facts.forceVerification || !q.facts.skipVerification)))
                     && (s.tokenVerificationId == Some(q.tvid) || s.tokenVerificationId.None?)
                     && (s.mustVerify <==> HasTotp(t, q.uid) || (s.tokenVerificationId.Some? && q.facts.wantsKeys))
                     && Tells(r.value.status, EmailVerified(t, q.uid), s,
                              if HasTotp(t, q.uid) then Some(AskTotp2fa) else q.facts.requested))
  {
  }

  /** A login mails the account's verification while the address is unverified, and else
      the session's, by the method asked for, if it waits and must be verified. */
  lemma LoginMails(t: Tables, q: Request)
    requires q.Login? && LoginStep(t, q).1.Ok?
    ensures var s := LoginStep(t, q).0.sessions[q.newSid];
            var due := s.mustVerify && s.tokenVerificationId.Some? && !HasTotp(t, q.uid);
            MailsOf(t, q) ==
              if !EmailVerified(t, q.uid)
              then {Link(q.uid, if s.tokenVerificationId.Some? then q.tvid else AccountCode(t, q.uid))}
              else if due && q.facts.requested in {None, Some(AskEmail)} then {Link(q.uid, q.tvid)}
              else if due && q.facts.requested == Some(AskEmail2fa) then {ShortCode(q.uid, q.tvid)}
              else {}
  {
  }

  /** A signup is refused only because of a verified holder of the address or a clash of
      ids. Otherwise the account, its address and its session are new, and what held the
      address is gone: the unverified account altogether, or the secondary address. */
  lemma SignupAnswer(t: Tables, q: Request)
    requires q.Signup? && Consistent(t)
    ensures var (t', r) := SignupStep(t, q);
            var holder := if q.email in t.emails then Some(t.emails[q.email]) else None;
            && (r == Err(VerifiedSecondaryEmailAlreadyExists) <==>
                  holder.Some? && holder.value.isVerified && t.accounts[holder.value.uid] != q.email)
            && (holder.Some? && holder.value.isVerified && t.accounts[holder.value.uid] == q.email ==>
                  r == Err(AccountExists))
            && (r.Ok? <==>
                  && !(holder.Some? && holder.value.isVerified)
                  && (q.uid !in t.accounts
                      || (holder.Some? && holder.value.uid == q.uid && t.accounts[q.uid] == q.email)))
            && (r.Ok? ==>
                  && q.uid in t'.accounts && t'.accounts[q.uid] == q.email
                  && q.email in t'.emails && t'.emails[q.email] == EmailRow(q.uid, q.preVerified, q.tvid)
                  && q.newSid in t'.sessions
                  && t'.sessions[q.newSid] ==
                     Session(q.uid, if q.preVerified then None else Some(q.tvid), None, q.wantsKeys))
  {
  }

  /** What is left of a user: the account, the factors, the sessions but for one and the
      addresses but for one. */
  ghost predicate Unharmed(t: Tables, t': Tables, u: Uid, sid: Sid, email: Address) {
    && (u in t.accounts ==> u in t'.accounts && t'.accounts[u] == t.accounts[u])
    && (u in t.totp ==> u in t'.totp && t'.totp[u] == t.totp[u])
    && (u in t.recoveryCodes ==> u in t'.recoveryCodes && t'.recoveryCodes[u] == t.recoveryCodes[u])
    && (forall x :: x != sid && x in t.sessions && t.sessions[x].uid == u ==>
          x in t'.sessions && t'.sessions[x] == t.sessions[x])
    && (forall a :: a != email && a in t.emails && t.emails[a].uid == u ==>
          a in t'.emails && t'.emails[a] == t.emails[a])
  }

  /** A successful signup harms nobody whose primary address is another. */
  lemma SignupKeepsOthers(t: Tables, q: Request, u: Uid)
    requires q.Signup? && Consistent(t) && SignupStep(t, q).1.Ok? && u in t.accounts && u != q.uid
    requires t.accounts[u] != q.email
    ensures Unharmed(t, SignupStep(t, q).0, u, q.newSid, q.email)
  {
    ClearingKeepsOthers(t, q.email, u, q.newSid);
  }

  lemma ClearingKeepsOthers(t: Tables, email: Address, u: Uid, sid: Sid)
    requires ClearForSignup(t, email).Ok? && u in t.accounts && t.accounts[u] != email
    ensures Unharmed(t, ClearForSignup(t, email).value, u, sid, email)
  {
    if email in t.emails && IsPrimary(t, email) {
      WithoutAccountErases(t, t.emails[email].uid);
    }
  }

  /** A reset of an existing account ends all its sessions. The one it may open waits and
      must be verified exactly under TOTP. */
  lemma FinishResetAnswer(t: Tables, q: Request)
    requires q.FinishReset?
    ensures var (t', r) := FinishResetStep(t, q);
            && (r == Err(InvalidToken) <==> q.uid !in t.accounts)
            && (r == Err(MissingRequestParameter) <==> q.uid in t.accounts && !q.wantsSession && q.wantsKeys)
            && (r.Err? ==> r.error in {InvalidToken, MissingRequestParameter})
            && (q.uid !in t.accounts ==> t' == t)
            && (q.uid in t.accounts ==>
                  SessionsEnded(t, t', q.uid, if q.wantsSession then Some(q.newSid) else None))
            && (q.uid in t.accounts && q.wantsSession ==>
                  && q.newSid in t'.sessions && r.value.LoggedIn?
                  && var s := t'.sessions[q.newSid];
                     && s.uid == q.uid && s.verificationMethod.None?
                     && s.tokenVerificationId == (if HasTotp(t, q.uid) then Some(q.tvid) else None)
                     && s.mustVerify == HasTotp(t, q.uid)
                     && Tells(r.value.status, EmailVerified(t, q.uid), s, Some(AskTotp2fa)))
  {
  }

  /** A password change ends the user's sessions and opens one that is verified exactly if
      the one presented was; under TOTP a session at level two has to be presented. */
  lemma FinishPasswordChangeAnswer(t: Tables, q: Request)
    requires q.FinishPasswordChange?
    ensures var (t', r) := FinishPasswordChangeStep(t, q);
            && (r.Ok? <==>
                  && q.uid in t.accounts
                  && (q.session.Some? ==> q.session.value in t.sessions)
                  && (HasTotp(t, q.uid) ==> q.session.Some? && SecondFactorMethod(t.sessions[q.session.value])))
            && (r.Err? ==> t' == t && r.error in {InvalidToken, UnverifiedSession})
            && (r == Err(UnverifiedSession) ==> HasTotp(t, q.uid))
            && (r.Ok? ==>
                  && SessionsEnded(t, t', q.uid, Some(q.newSid)) && q.newSid in t'.sessions
                  && var s := t'.sessions[q.newSid];
                     && s.uid == q.uid && s.verificationMethod.None? && s.mustVerify == q.wantsKeys
                     && s.tokenVerificationId ==
                        if q.session.Some? && t.sessions[q.session.value].tokenVerificationId.None? then None
                        else Some(q.tvid))
  {
  }

  /** Signing in again raises the duty to verify of the session, and tells how the session
      stands with the method of the user who signed in. */
  lemma ReauthAnswer(t: Tables, q: Request)
    requires q.Reauth?
    ensures var (t', r) := ReauthStep(t, q);
            && (r.Ok? <==>
                  && q.sid in t.sessions && q.uid in t.accounts
                  && !(q.requested == Some(AskTotp2fa) && !HasTotp(t, q.uid)))
            && (r.Err? ==> t' == t && r.error in {InvalidToken, UnknownAccount, TotpRequired})
            && (r.Ok? ==>
                  && OnlySession(t, t', q.sid) && r.value.LoggedIn?
                  && var (s, s') := (t.sessions[q.sid], t'.sessions[q.sid]);
                     && s'.(mustVerify := s.mustVerify) == s
                     && (s'.mustVerify <==> s.mustVerify || q.wantsKeys || q.requested.Some? || HasTotp(t, q.uid))
                     && Tells(r.value.status, EmailVerified(t, s.uid), s',
                              if HasTotp(t, q.uid) then Some(AskTotp2fa) else q.requested))
  {
  }

  // ---------- Sessions ----------

  /** A duplicate has the user, the method and the duty of its original, is verified exactly
      if the original is, and otherwise waits for an id of its own. */
  lemma DuplicateAnswer(t: Tables, q: Request)
    requires q.Duplicate?
    ensures var (t', r) := DuplicateStep(t, q);
            && (r.Ok? <==> q.sid in t.sessions)
            && (r.Err? ==> t' == t && r == Err(InvalidToken))
            && (r.Ok? ==>
                  && OnlySession(t, t', q.newSid)
                  && var (s, d) := (t.sessions[q.sid], t'.sessions[q.newSid]);
                     && d.uid == s.uid && d.verificationMethod == s.verificationMethod && d.mustVerify == s.mustVerify
                     && (d.tokenVerificationId.None? <==> s.tokenVerificationId.None?)
                     && (d.tokenVerificationId.Some? ==> d.tokenVerificationId.value == q.tvid))
  {
  }

  /** A session ends itself, or another one of the same user. */
  lemma DestroySessionAnswer(t: Tables, q: Request)
    requires q.DestroySession?
    ensures var (t', r) := DestroySessionStep(t, q);
            var target := if q.custom.Some? then q.custom.value else q.sid;
            && (r.Ok? <==>
                  && q.sid in t.sessions && target in t.sessions
                  && t.sessions[target].uid == t.sessions[q.sid].uid)
            && (r.Err? ==> t' == t && r == Err(InvalidToken))
            && (r.Ok? ==>
                  && t' == t.(sessions := t'.sessions) && target !in t'.sessions
                  && (forall x :: x != target ==> (x in t'.sessions <==> x in t.sessions))
                  && (forall x :: x in t'.sessions ==> t'.sessions[x] == t.sessions[x]))
  {
  }

  /** A link ends the wait for its code, and verifies the account's address whichever code
      it was. */
  lemma VerifyCodeAnswer(t: Tables, q: Request)
    requires q.VerifyCode? && Consistent(t)
    ensures var (t', r) := VerifyCodeStep(t, q);
            && (r == Err(UnknownAccount) <==> q.uid !in t.accounts)
            && (r == Err(InvalidVerificationCode) <==>
                  && q.uid in t.accounts && q.code != t.emails[t.accounts[q.uid]].emailCode
                  && !exists x :: x in t.sessions && t.sessions[x].uid == q.uid
                                  && t.sessions[x].tokenVerificationId == Some(q.code))
            && (r.Err? ==> t' == t && r.error in {UnknownAccount, InvalidVerificationCode})
            && (r.Ok? ==>
                  && WaitEnded(t, t', q.uid, q.code) && EmailVerified(t', q.uid)
                  && t' == t.(sessions := t'.sessions, emails := t'.emails)
                  && t'.emails.Keys == t.emails.Keys
                  && (forall a :: a in t.emails ==>
                        t'.emails[a] == t.emails[a].(isVerified := t.emails[a].isVerified || a == t.accounts[q.uid])))
  {
  }

  /** A short code ends the wait for its id among the user's sessions. */
  lemma VerifyTokenCodeAnswer(t: Tables, q: Request)
    requires q.VerifyTokenCode?
    ensures var (t', r) := VerifyTokenCodeStep(t, q);
            && (r == Err(InvalidToken) <==> q.sid !in t.sessions)
            && (r == Err(InvalidTokenCode) <==>
                  && q.sid in t.sessions
                  && !exists x :: x in t.sessions && t.sessions[x].uid == t.sessions[q.sid].uid
                                  && t.sessions[x].tokenVerificationId == Some(q.tvid))
            && (r.Err? ==> t' == t && r.error in {InvalidToken, InvalidTokenCode})
            && (r.Ok? ==> t' == t.(sessions := t'.sessions) && WaitEnded(t, t', t.sessions[q.sid].uid, q.tvid))
  {
  }

  // ---------- TOTP and recovery codes ----------

  /** Only this user's token may differ. */
  ghost predicate OnlyTotp(t: Tables, t': Tables, uid: Uid) {
    && t' == t.(totp := t'.totp)
    && (forall u :: u != uid ==> (u in t'.totp <==> u in t.totp))
    && (forall u :: u != uid && u in t.totp ==> t'.totp[u] == t.totp[u])
  }

  lemma CreateTotpAnswer(t: Tables, q: Request)
    requires q.CreateTotp?
    ensures var (t', r) := CreateTotpStep(t, q);
            && (r == Err(InvalidToken) <==> q.sid !in t.sessions)
            && (r == Err(UnverifiedSession) <==> q.sid in t.sessions && t.sessions[q.sid].tokenVerificationId.Some?)
            && (r.Err? ==> t' == t && r.error in {InvalidToken, UnverifiedSession, TotpTokenAlreadyExists})
            && (r == Err(TotpTokenAlreadyExists) ==> t.sessions[q.sid].uid in t.totp)
            && (r.Ok? ==>
                  && t.sessions[q.sid].uid !in t.totp
                  && OnlyTotp(t, t', t.sessions[q.sid].uid) && t.sessions[q.sid].uid in t'.totp
                  && !t'.totp[t.sessions[q.sid].uid].verified && !t'.totp[t.sessions[q.sid].uid].enabled)
  {
  }

  /** A token that is not both verified and enabled goes at the request of any session of
      the user; an enabled one at that of a verified session at level two alone. */
  lemma DestroyTotpAnswer(t: Tables, q: Request)
    requires q.DestroyTotp?
    ensures var (t', r) := DestroyTotpStep(t, q);
            && (r.Ok? <==>
                  && q.sid in t.sessions && t.sessions[q.sid].uid in t.totp
                  && var (s, token) := (t.sessions[q.sid], t.totp[t.sessions[q.sid].uid]);
                     token.verified && token.enabled ==> s.tokenVerificationId.None? && SecondFactorMethod(s))
            && (r.Err? ==> t' == t)
            && (r == Err(TotpTokenNotFound) <==> q.sid in t.sessions && t.sessions[q.sid].uid !in t.totp)
            && (r.Ok? ==> OnlyTotp(t, t', t.sessions[q.sid].uid) && t.sessions[q.sid].uid !in t'.totp)
  {
  }

  /** The answer is whether there is a verified token, and an unverified one is cleared. */
  lemma TotpExistsAnswer(t: Tables, q: Request)
    requires q.TotpExists?
    ensures var (t', r) := TotpExistsStep(t, q);
            && (r.Ok? <==> q.sid in t.sessions && t.sessions[q.sid].tokenVerificationId.None?)
            && (r.Err? ==> t' == t)
            && (r.Ok? ==>
                  var uid := t.sessions[q.sid].uid;
                  && r.value.Exists? && (r.value.present <==> uid in t.totp && t.totp[uid].verified)
                  && OnlyTotp(t, t', uid)
                  && (uid in t'.totp <==> r.value.present)
                  && (r.value.present ==> t' == t))
  {
  }

  lemma VerifyTotpAnswer(t: Tables, q: Request)
    requires q.VerifyTotp?
    ensures var (t', r) := VerifyTotpStep(t, q);
            && (r == Err(InvalidToken) <==> q.sid !in t.sessions)
            && (r == Err(TotpTokenNotFound) <==> q.sid in t.sessions && t.sessions[q.sid].uid !in t.totp)
            && (r.Ok? <==> q.sid in t.sessions && t.sessions[q.sid].uid in t.totp)
            && (r.Ok? ==> r.value == Success(q.isValidCode))
            && (r.Err? || !q.isValidCode ==> t' == t)
  {
  }

  /** A valid code enables a token that was not verified and then replaces the user's
      recovery codes. */
  lemma VerifyTotpEnables(t: Tables, q: Request)
    requires q.VerifyTotp? && VerifyTotpStep(t, q).1 == Ok(Success(true))
    ensures var t' := VerifyTotpStep(t, q).0;
            var uid := t.sessions[q.sid].uid;
            var isNew := !t.totp[uid].verified;
            && t'.accounts == t.accounts && t'.emails == t.emails
            && OnlyTotp(t, t.(totp := t'.totp), uid)
            && uid in t'.totp && t'.totp[uid] == (if isNew then Totp(true, true) else t.totp[uid])
            && CodesOf(t', uid) == (if isNew then q.newCodes else CodesOf(t, uid))
            && (forall u :: u != uid ==> CodesOf(t', u) == CodesOf(t, u))
  {
  }

  /** It lifts a session at level one, verified, to level two, and leaves one that is
      there as it is. */
  lemma VerifyTotpLifts(t: Tables, q: Request)
    requires q.VerifyTotp? && VerifyTotpStep(t, q).1 == Ok(Success(true))
    ensures var t' := VerifyTotpStep(t, q).0;
            var s := t.sessions[q.sid];
            && OnlySession(t, t.(sessions := t'.sessions), q.sid)
            && t'.sessions[q.sid] ==
               if SecondFactorMethod(s) then s
               else s.(tokenVerificationId := None, verificationMethod := Some(2))
  {
  }

  /** A recovery code is used up by the session that presents it, and verifies it if it
      was waiting. */
  lemma VerifyRecoveryCodeAnswer(t: Tables, q: Request)
    requires q.VerifyRecoveryCode?
    ensures var (t', r) := VerifyRecoveryCodeStep(t, q);
            && (r == Err(InvalidToken) <==> q.sid !in t.sessions)
            && (r == Err(RecoveryCodeNotFound) <==>
                  && q.sid in t.sessions
                  && !(t.sessions[q.sid].uid in t.recoveryCodes && q.code in t.recoveryCodes[t.sessions[q.sid].uid]))
            && (r.Err? ==> t' == t && r.error in {InvalidToken, RecoveryCodeNotFound})
            && (r.Ok? ==>
                  var s := t.sessions[q.sid];
                  && t' == t.(sessions := t'.sessions, recoveryCodes := t'.recoveryCodes)
                  && (forall u, code :: code in CodesOf(t', u) <==>
                        code in CodesOf(t, u) && !(u == s.uid && code == q.code))
                  && OnlySession(t, t.(sessions := t'.sessions), q.sid)
                  && t'.sessions[q.sid] ==
                     if s.tokenVerificationId.None? then s
                     else s.(tokenVerificationId := None, verificationMethod := Some(3)))
  {
  }

  lemma ReplaceRecoveryCodesAnswer(t: Tables, q: Request)
    requires q.ReplaceRecoveryCodes?
    ensures var (t', r) := ReplaceRecoveryCodesStep(t, q);
            && (r.Ok? <==> q.sid in t.sessions && SecondFactorMethod(t.sessions[q.sid]))
            && (r.Err? ==> t' == t)
            && (r.Ok? ==>
                  && t' == t.(recoveryCodes := t'.recoveryCodes)
                  && CodesOf(t', t.sessions[q.sid].uid) == q.newCodes
                  && (forall u :: u != t.sessions[q.sid].uid ==> CodesOf(t', u) == CodesOf(t, u)))
  {
  }

  // ---------- Addresses and accounts ----------

  /** Only this address may differ. */
  ghost predicate OnlyAddress(t: Tables, t': Tables, a: Address) {
    && t' == t.(emails := t'.emails)
    && (forall b :: b != a ==> (b in t'.emails <==> b in t.emails))
    && (forall b :: b != a && b in t.emails ==> t'.emails[b] == t.emails[b])
  }

  lemma VerifySecondaryAnswer(t: Tables, q: Request)
    requires q.VerifySecondary?
    ensures var (t', r) := VerifySecondaryStep(t, q);
            && (r.Ok? <==> q.uid in t.accounts && q.email in t.emails && t.emails[q.email].uid == q.uid)
            && (r.Err? ==> t' == t)
            && (r.Ok? ==>
                  && OnlyAddress(t, t', q.email) && q.email in t'.emails
                  && t'.emails[q.email] == EmailRow(q.uid, true, t.emails[q.email].emailCode))
  {
  }

  /** A new address is accepted from a verified session of a verified account, unless it is
      verified somewhere, the user's already, or the primary one of too young an account. */
  lemma CreateEmailAnswer(t: Tables, q: Request)
    requires q.CreateEmail? && Consistent(t)
    ensures var (t', r) := CreateEmailStep(t, q);
            && (r.Ok? <==>
                  && q.sid in t.sessions && EmailVerified(t, t.sessions[q.sid].uid)
                  && t.sessions[q.sid].tokenVerificationId.None?
                  && (q.email in t.emails ==>
                        var row := t.emails[q.email];
                        && !row.isVerified && row.uid != t.sessions[q.sid].uid
                        && (t.accounts[row.uid] == q.email ==> q.oldEnough)))
            && (r.Err? ==> t' == t)
  {
  }

  /** It is then the session user's and unverified; an unverified account whose primary
      address it was is erased, and an unverified secondary address changes hands. */
  lemma CreateEmailChanges(t: Tables, q: Request)
    requires q.CreateEmail? && Consistent(t) && CreateEmailStep(t, q).1.Ok?
    ensures var t' := CreateEmailStep(t, q).0;
            var uid := t.sessions[q.sid].uid;
            && q.email in t'.emails && t'.emails[q.email] == EmailRow(uid, false, q.emailCode)
            && (if IsPrimary(t, q.email)
                then Erased(t, t'.(emails := t'.emails - {q.email}), t.emails[q.email].uid)
                else OnlyAddress(t, t', q.email))
  {
    var uid := t.sessions[q.sid].uid;
    if IsPrimary(t, q.email) {
      WithoutAccountErases(t, t.emails[q.email].uid);
      assert WithoutAccount(t, t.emails[q.email].uid).emails ==
             CreateEmailStep(t, q).0.emails - {q.email};
    }
  }

  lemma DestroyEmailAnswer(t: Tables, q: Request)
    requires q.DestroyEmail? && Consistent(t)
    ensures var (t', r) := DestroyEmailStep(t, q);
            && (r == Err(InvalidToken) <==> q.sid !in t.sessions)
            && (r == Err(UnverifiedSession) <==> q.sid in t.sessions && t.sessions[q.sid].tokenVerificationId.Some?)
            && (r == Err(CannotDeletePrimaryEmail) <==>
                  && q.sid in t.sessions && t.sessions[q.sid].tokenVerificationId.None?
                  && t.accounts[t.sessions[q.sid].uid] == q.email)
            && (r.Err? ==> t' == t)
            && (r.Ok? ==>
                  && OnlyAddress(t, t', q.email)
                  && (q.email in t'.emails <==> q.email in t.emails && t.emails[q.email].uid != t.sessions[q.sid].uid)
                  && (q.email in t'.emails ==> t'.emails[q.email] == t.emails[q.email]))
  {
  }

  lemma SetPrimaryAnswer(t: Tables, q: Request)
    requires q.SetPrimary? && Consistent(t)
    ensures var (t', r) := SetPrimaryStep(t, q);
            && (r.Ok? <==>
                  && q.sid in t.sessions && t.sessions[q.sid].tokenVerificationId.None?
                  && q.email in t.emails && t.emails[q.email].isVerified
                  && t.emails[q.email].uid == t.sessions[q.sid].uid)
            && (r.Err? ==> t' == t)
            && (r.Ok? ==>
                  && t' == t.(accounts := t'.accounts) && t'.accounts.Keys == t.accounts.Keys
                  && t'.accounts[t.sessions[q.sid].uid] == q.email
                  && (forall u :: u in t.accounts && u != t.sessions[q.sid].uid ==> t'.accounts[u] == t.accounts[u]))
  {
  }

  /** The three answers of the status are exact: the address, the session, and both with
      the session counted only if it must be verified. An invalid unverified address costs
      the account its existence, and the answer is that the session is unknown. */
  lemma PollStatusAnswer(t: Tables, q: Request)
    requires q.PollStatus?
    ensures var (t', r) := PollStatusStep(t, q);
            && (r.Ok? <==> q.sid in t.sessions && (EmailVerified(t, t.sessions[q.sid].uid) || q.validAddress))
            && (r.Err? ==> r == Err(InvalidToken))
            && (r.Ok? ==>
                  && t' == t && r.value.EmailStatus?
                  && var s := t.sessions[q.sid];
                     && (r.value.emailVerified <==> EmailVerified(t, s.uid))
                     && (r.value.sessionVerified <==> s.tokenVerificationId.None?)
                     && (r.value.verified <==>
                           EmailVerified(t, s.uid) && (s.tokenVerificationId.None? || !s.mustVerify)))
            && (r.Err? ==> if q.sid in t.sessions then Erased(t, t', t.sessions[q.sid].uid) else t' == t)
  {
    if q.sid in t.sessions {
      WithoutAccountErases(t, t.sessions[q.sid].uid);
    }
  }

  /** A bounce erases a recent account whose primary address is unverified, and no other. */
  lemma BouncedAnswer(t: Tables, q: Request)
    requires q.Bounced?
    ensures var (t', r) := BouncedStep(t, q);
            && (r == Err(UnknownAccount) <==> q.email !in t.emails)
            && (r.Err? ==> t' == t)
            && (if q.email in t.emails && q.recent && !EmailVerified(t, t.emails[q.email].uid)
                then Erased(t, t', t.emails[q.email].uid) else t' == t)
  {
    if q.email in t.emails {
      WithoutAccountErases(t, t.emails[q.email].uid);
    }
  }

  /** Without TOTP the password is enough; a session that is named must be stored. */
  lemma DestroyAccountAnswer(t: Tables, q: Request)
    requires q.DestroyAccount?
    ensures var (t', r) := DestroyAccountStep(t, q);
            && (r.Ok? <==>
                  && q.uid in t.accounts && (q.session.Some? ==> q.session.value in t.sessions)
                  && (HasTotp(t, q.uid) ==>
                        && q.session.Some? && t.sessions[q.session.value].tokenVerificationId.None?
                        && SecondFactorMethod(t.sessions[q.session.value])))
            && (if r.Ok? then Erased(t, t', q.uid) else t' == t)
  {
    WithoutAccountErases(t, q.uid);
  }

  lemma OperatorDeleteAnswer(t: Tables, q: Request)
    requires q.OperatorDelete?
    ensures var (t', r) := OperatorDeleteStep(t, q);
            && (r.Ok? <==> q.uid in t.accounts) && (if r.Ok? then Erased(t, t', q.uid) else t' == t)
  {
    WithoutAccountErases(t, q.uid);
  }

  // ---------- Mails ----------

  /** A signup mails the code of its address unless that is verified already, and a new
      address is mailed its own code. */
  lemma FirstMails(t: Tables, q: Request)
    requires q.Signup? || q.CreateEmail?
    ensures MailsOf(t, q) ==
              if q.Signup? then (if SignupStep(t, q).1.Ok? && !q.preVerified then {Link(q.uid, q.tvid)} else {})
              else if CreateEmailStep(t, q).1.Ok? then {Link(t.sessions[q.sid].uid, q.emailCode)} else {}
  {
  }

  /** Without an address given, what is mailed again is the session's id while it waits,
      though not under TOTP, and else the account's code while its address is unverified. */
  lemma MailedAgain(t: Tables, q: Request)
    requires q.ResendCode? && q.given.None?
    ensures ResendCodeStep(t, q).1.Ok? <==> q.sid in t.sessions
    ensures q.sid in t.sessions ==>
              var s := t.sessions[q.sid];
              && (s.tokenVerificationId.Some? && !HasTotp(t, s.uid) ==>
                    MailsOf(t, q) == {Link(s.uid, s.tokenVerificationId.value)})
              && (s.tokenVerificationId.Some? && HasTotp(t, s.uid) ==> MailsOf(t, q) == {})
              && (s.tokenVerificationId.None? ==>
                    MailsOf(t, q) == if EmailVerified(t, s.uid) then {} else {Link(s.uid, AccountCode(t, s.uid))})
  {
  }

  /** Nothing else is mailed a code, and no refused request mails any. */
  lemma OnlyTheseMail(t: Tables, q: Request)
    requires MailsOf(t, q) != {}
    ensures q.Signup? || q.Login? || q.Reauth? || q.ResendCode? || q.CreateEmail?
    ensures Step(t, q).1.Ok?
  {
  }
}
