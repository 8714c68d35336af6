/** The session, TOTP, recovery-code, address and account routes as they run against
    the auth database. */
module AuthRoutes {
  import opened Wrappers
  import opened Assurance
  import opened SecondFactor
  import opened KeyTokens

  datatype PrimaryEmail = PrimaryEmail(email: Address, isVerified: bool, emailCode: string)

  datatype EmailRecord = EmailRecord(uid: Uid, isPrimary: bool, isVerified: bool, emailCode: string)

  /** The calls of the auth database that these routes make, each atomic. */
  class AuthDb {
    var accounts: map<Uid, Address>
    var emails: map<Address, EmailRow>
    var sessions: map<Sid, Session>
    var totp: map<Uid, Totp>
    var recoveryCodes: map<Uid, set<string>>
    var keys: map<Kid, KeyToken>

    constructor ()
      ensures State() == START.tables && keys == map[]
    {
      accounts, emails, sessions, totp, recoveryCodes, keys := map[], map[], map[], map[], map[], map[];
    }

    function State(): Tables
      reads this
    {
      Tables(accounts, emails, sessions, totp, recoveryCodes)
    }

    function KeyVault(): Vault
      reads this
    {
      Vault(State(), keys)
    }

    /** The primary address of an account, whether it is verified, and its code. */
    method Account(uid: Uid) returns (r: Option<PrimaryEmail>)
      ensures r == if uid in accounts
                   then Some(PrimaryEmail(accounts[uid], EmailVerified(State(), uid), AccountCode(State(), uid)))
                   else None
    {
      r := None;
      if uid in accounts {
        var email := accounts[uid];
        var known := email in emails;
        r := Some(PrimaryEmail(email, known && emails[email].isVerified,
                               if known then emails[email].emailCode else ""));
      }
    }

    /** False when the random id is taken. */
    method CreateAccount(uid: Uid, email: Address, emailVerified: bool, emailCode: string) returns (ok: bool)
      modifies this`accounts, this`emails
      ensures ok == (uid !in old(accounts))
      ensures accounts == if ok then old(accounts)[uid := email] else old(accounts)
      ensures emails == if ok then old(emails)[email := EmailRow(uid, emailVerified, emailCode)] else old(emails)
    {
      ok := uid !in accounts;
      if ok {
        accounts, emails := accounts[uid := email], emails[email := EmailRow(uid, emailVerified, emailCode)];
      }
    }

    method GetSecondaryEmail(email: Address) returns (r: Option<EmailRecord>)
      ensures r == if email !in emails then None
                   else var row := emails[email];
                        Some(EmailRecord(row.uid, IsPrimary(State(), email), row.isVerified, row.emailCode))
    {
      r := None;
      if email in emails {
        var row := emails[email];
        r := Some(EmailRecord(row.uid, row.uid in accounts && accounts[row.uid] == email, row.isVerified,
                              row.emailCode));
      }
    }

    /** False when the address is taken. */
    method CreateEmail(uid: Uid, email: Address, emailCode: string) returns (ok: bool)
      modifies this`emails
      ensures ok == (email !in old(emails))
      ensures emails == if ok then old(emails)[email := EmailRow(uid, false, emailCode)] else old(emails)
    {
      ok := email !in emails;
      if ok {
        emails := emails[email := EmailRow(uid, false, emailCode)];
      }
    }

    /** Deletes an address of the user; false when it is the primary one. */
    method DeleteEmail(uid: Uid, email: Address) returns (ok: bool)
      modifies this`emails
      ensures var owned := email in old(emails) && old(emails)[email].uid == uid;
              && ok == !(owned && IsPrimary(old(State()), email))
              && emails == if owned && ok then old(emails) - {email} else old(emails)
    {
      ok := true;
      if email in emails && emails[email].uid == uid {
        ok := !(uid in accounts && accounts[uid] == email);
        if ok {
          emails := emails - {email};
        }
      }
    }

    method SetPrimaryEmail(uid: Uid, email: Address)
      modifies this`accounts
      ensures accounts == old(accounts)[uid := email]
    {
      accounts := accounts[uid := email];
    }

    method VerifyEmail(email: Address)
      modifies this`emails
      ensures State() == AddressVerified(old(State()), email)
    {
      if email in emails {
        emails := emails[email := emails[email].(isVerified := true)];
      }
    }

    method SessionToken(sid: Sid) returns (r: Option<Session>)
      ensures r == if sid in sessions then Some(sessions[sid]) else None
    {
      r := if sid in sessions then Some(sessions[sid]) else None;
    }

    method CreateSessionToken(sid: Sid, s: Session)
      modifies this`sessions
      ensures sessions == old(sessions)[sid := s]
    {
      sessions := sessions[sid := s];
    }

    method UpdateSessionToken(sid: Sid, mustVerify: bool)
      requires sid in sessions
      modifies this`sessions
      ensures sessions == old(sessions)[sid := old(sessions)[sid].(mustVerify := mustVerify)]
    {
      sessions := sessions[sid := sessions[sid].(mustVerify := mustVerify)];
    }

    method DeleteSessionToken(sid: Sid)
      modifies this`sessions
      ensures sessions == old(sessions) - {sid}
    {
      sessions := sessions - {sid};
    }

    /** Ends the sessions and deletes the tokens of a user. */
    method ResetAccount(uid: Uid)
      modifies this`sessions, this`keys
      ensures sessions == WithoutUser(old(sessions), uid) && keys == WithoutKeysOf(old(keys), uid)
    {
      sessions, keys := WithoutUser(sessions, uid), WithoutKeysOf(keys, uid);
    }

    method DeleteAccount(uid: Uid)
      modifies this
      ensures State() == WithoutAccount(old(State()), uid) && keys == WithoutKeysOf(old(keys), uid)
    {
      keys := WithoutKeysOf(keys, uid);
      accounts, emails := accounts - {uid}, WithoutAddresses(emails, uid);
      sessions, totp, recoveryCodes := WithoutUser(sessions, uid), totp - {uid}, recoveryCodes - {uid};
    }

    /** Verifies a session and what waits with it. */
    method VerifyTokensWithMethod(sid: Sid, m: Method)
      requires sid in sessions
      modifies this`sessions, this`keys
      ensures State() == VerifiedWith(old(State()), sid, m)
      ensures keys == match WaitOf(old(sessions)[sid])
                      case None => old(keys)
                      case Some(w) => Unlocked(old(keys), w.uid, w.id)
    {
      var s := sessions[sid];
      if s.tokenVerificationId.Some? {
        keys := Unlocked(keys, s.uid, s.tokenVerificationId.value);
      }
      sessions := sessions[sid := sessions[sid].(tokenVerificationId := None,
                                                 verificationMethod := Some(MethodNumber(m)))];
    }

    /** False when no session of the user waits for this id. */
    method VerifyTokens(tvid: string, uid: Uid) returns (ok: bool)
      modifies this`sessions, this`keys
      ensures ok == Awaited(old(sessions), tvid, uid)
      ensures sessions == Confirmed(old(sessions), tvid, uid)
      ensures keys == if ok then Unlocked(old(keys), uid, tvid) else old(keys)
    {
      ok := Awaited(sessions, tvid, uid);
      if ok {
        keys := Unlocked(keys, uid, tvid);
      }
      sessions := Confirmed(sessions, tvid, uid);
    }

    method CreateKeyFetchToken(kid: Kid, k: KeyToken)
      modifies this`keys
      ensures keys == old(keys)[kid := k]
    {
      keys := keys[kid := k];
    }

    method KeyFetchToken(kid: Kid) returns (r: Option<KeyToken>)
      ensures r == if kid in keys then Some(keys[kid]) else None
    {
      r := if kid in keys then Some(keys[kid]) else None;
    }

    method DeleteKeyFetchToken(kid: Kid)
      modifies this`keys
      ensures keys == old(keys) - {kid}
    {
      keys := keys - {kid};
    }

    method TotpToken(uid: Uid) returns (r: Option<Totp>)
      ensures r == if uid in totp then Some(totp[uid]) else None
    {
      r := if uid in totp then Some(totp[uid]) else None;
    }

    method PutTotpToken(uid: Uid, t: Totp)
      modifies this`totp
      ensures totp == old(totp)[uid := t]
    {
      totp := totp[uid := t];
    }

    /** False when there is no token. */
    method DeleteTotpToken(uid: Uid) returns (ok: bool)
      modifies this`totp
      ensures ok == (uid in old(totp)) && totp == old(totp) - {uid}
    {
      ok := uid in totp;
      totp := totp - {uid};
    }

    method PutRecoveryCodes(uid: Uid, codes: set<string>)
      modifies this`recoveryCodes
      ensures recoveryCodes == old(recoveryCodes)[uid := codes]
    {
      recoveryCodes := recoveryCodes[uid := codes];
    }

    /** False when the user has no such code. */
    method ConsumeRecoveryCode(uid: Uid, code: string) returns (ok: bool)
      modifies this`recoveryCodes
      ensures ok == (code in CodesOf(old(State()), uid))
      ensures recoveryCodes == if ok then old(recoveryCodes)[uid := CodesOf(old(State()), uid) - {code}]
                               else old(recoveryCodes)
    {
      ok := uid in recoveryCodes && code in recoveryCodes[uid];
      if ok {
        recoveryCodes := recoveryCodes[uid := recoveryCodes[uid] - {code}];
      }
    }
  }

  /** The mails with codes that were sent. */
  class Outbox {
    var sent: set<Mail>

    constructor ()
      ensures sent == {}
    {
      sent := {};
    }

    method Send(m: Mail)
      modifies this
      ensures sent == old(sent) + {m}
    {
      sent := sent + {m};
    }
  }

  /** The mail of a sign-in as `uid` in the session `s`. */
  method SendSigninNotifications(mailer: Outbox, uid: Uid, account: PrimaryEmail, s: Session,
                                 verificationMethod: Option<Requested>, ghost t: Tables)
    requires account.isVerified == EmailVerified(t, uid) && account.emailCode == AccountCode(t, uid)
    modifies mailer
    ensures mailer.sent == old(mailer.sent) + SigninMails(t, uid, s, verificationMethod)
  {
    var isUnverifiedAccount := !account.isVerified;
    var mustVerifySession := s.mustVerify && !TokenVerified(s);
    if isUnverifiedAccount {
      mailer.Send(Link(uid, if s.tokenVerificationId.Some? then s.tokenVerificationId.value else account.emailCode));
      return;
    }
    if mustVerifySession {
      match verificationMethod {
        case Some(AskEmail2fa) => mailer.Send(ShortCode(uid, s.tokenVerificationId.value));
        case Some(AskEmailCaptcha) =>
        case Some(AskTotp2fa) =>
        case _ => mailer.Send(Link(uid, s.tokenVerificationId.value));
      }
    }
  }

  /** The key-fetch token of a sign-in waits for the same id as its session. */
  method CreateSigninKeys(db: AuthDb, wantsKeys: bool, uid: Uid, s: Session, newKid: Kid)
    modifies db`keys
    ensures db.keys == if wantsKeys then old(db.keys)[newKid := KeyToken(uid, s.tokenVerificationId)] else old(db.keys)
  {
    if wantsKeys {
      db.CreateKeyFetchToken(newKid, KeyToken(uid, s.tokenVerificationId));
    }
  }

  // ---------- Signing up and in ----------

  /** Deletes the unverified account or secondary address that holds the address. */
  method DeleteAccountIfUnverified(db: AuthDb, email: Address) returns (error: Option<Error>)
    modifies db
    ensures var cleared := ClearForSignup(old(db.State()), email);
            if cleared.Ok? then error == None && db.State() == cleared.value
            else error == Some(cleared.error) && db.State() == old(db.State())
    ensures db.keys == if IsPrimary(old(db.State()), email) && !old(db.emails)[email].isVerified
                       then WithoutKeysOf(old(db.keys), old(db.emails)[email].uid) else old(db.keys)
  {
    error := None;
    var record := db.GetSecondaryEmail(email);
    if record.Some? {
      if record.value.isPrimary {
        if record.value.isVerified {
          return Some(AccountExists);
        }
        db.DeleteAccount(record.value.uid);
      } else {
        if record.value.isVerified {
          return Some(VerifiedSecondaryEmailAlreadyExists);
        }
        var _ := db.DeleteEmail(record.value.uid, email);
      }
    }
  }

  /** An account is replaced by a new one only if its primary address is the same and not
      verified, and only a preverified account starts with a verified session. */
  method AccountCreate(db: AuthDb, mailer: Outbox, email: Address, uid: Uid, preVerified: bool, wantsKeys: bool,
                       newSid: Sid, tvid: string, newKid: Kid) returns (r: Result<Reply, Error>)
    modifies db, mailer
    ensures (db.State(), r) == SignupStep(old(db.State()), Signup(email, uid, preVerified, wantsKeys, newSid, tvid))
    ensures db.keys == KeysAfter(old(db.KeyVault()), Signup(email, uid, preVerified, wantsKeys, newSid, tvid), newKid)
    ensures mailer.sent == old(mailer.sent) +
                           MailsOf(old(db.State()), Signup(email, uid, preVerified, wantsKeys, newSid, tvid))
    ensures forall u :: u in old(db.accounts) && u !in db.accounts ==>
              old(db.accounts)[u] == email && !EmailVerified(old(db.State()), u)
    ensures r.Ok? ==> uid in db.accounts && db.accounts[uid] == email
                      && (EmailVerified(db.State(), uid) <==> preVerified)
    ensures r.Ok? ==> newSid in db.sessions && (TokenVerified(db.sessions[newSid]) <==> preVerified)
  {
    var error := DeleteAccountIfUnverified(db, email);
    if error.Some? {
      return Err(error.value);
    }
    var emailCode := tvid;
    var tokenVerificationId := Some(emailCode);
    var ok := db.CreateAccount(uid, email, preVerified, emailCode);
    if !ok {
      return Err(AccountExists);
    }
    if preVerified {
      tokenVerificationId := None;
    }
    db.CreateSessionToken(newSid, Session(uid, tokenVerificationId, None, wantsKeys));
    if !preVerified {
      mailer.Send(Link(uid, emailCode));
    }
    if wantsKeys {
      db.CreateKeyFetchToken(newKid, KeyToken(uid, tokenVerificationId));
    }
    return Ok(Done);
  }

  method HasTotpToken(db: AuthDb, uid: Uid) returns (r: bool)
    ensures r == HasTotp(db.State(), uid)
  {
    var t := db.TotpToken(uid);
    return t.Some? && t.value.verified && t.value.enabled;
  }

  /** A user with TOTP is made to verify by it; without TOTP it cannot be asked for, and
      any other choice is kept. */
  method CheckTotpToken(db: AuthDb, uid: Uid, requested: Option<Requested>)
    returns (r: Result<Option<Requested>, Error>)
    ensures r == VerificationChoice(db.State(), uid, requested)
    ensures r.Ok? ==> (r.value == Some(AskTotp2fa) <==> HasTotp(db.State(), uid))
    ensures r.Ok? && !HasTotp(db.State(), uid) ==> r.value == requested
    ensures r.Err? <==> requested == Some(AskTotp2fa) && !HasTotp(db.State(), uid)
  {
    var verificationMethod := requested;
    var result := HasTotpToken(db, uid);
    if result {
      verificationMethod := Some(AskTotp2fa);
    } else if verificationMethod == Some(AskTotp2fa) {
      return Err(TotpRequired);
    }
    return Ok(verificationMethod);
  }

  /** Under TOTP the new session always waits and must be verified. Otherwise it waits unless
      an unblock code was given, or a heuristic skips it that is not overruled. */
  method AccountLogin(db: AuthDb, mailer: Outbox, uid: Uid, facts: LoginFacts, newSid: Sid, tvid: string, newKid: Kid)
    returns (r: Result<Reply, Error>)
    modifies db, mailer
    ensures (db.State(), r) == LoginStep(old(db.State()), Login(uid, facts, newSid, tvid))
    ensures db.keys == KeysAfter(old(db.KeyVault()), Login(uid, facts, newSid, tvid), newKid)
    ensures mailer.sent == old(mailer.sent) + MailsOf(old(db.State()), Login(uid, facts, newSid, tvid))
    ensures r.Ok? <==> uid in old(db.accounts)
                       && !(facts.requested == Some(AskTotp2fa) && !HasTotp(old(db.State()), uid))
    ensures r.Ok? ==> newSid in db.sessions
    ensures r.Ok? ==>
              var (s, totp) := (db.sessions[newSid], HasTotp(old(db.State()), uid));
              && s.uid == uid && s.verificationMethod.None?
              && (TokenVerified(s) <==>
                    !totp && (facts.didSigninUnblock || (facts.skipVerification && !facts.forceVerification)))
              && (s.mustVerify <==> totp || (facts.wantsKeys && !TokenVerified(s)))
  {
    var account := db.Account(uid);
    if account.None? {
      return Err(UnknownAccount);
    }
    var choice := CheckTotpToken(db, uid, facts.requested);
    if choice.Err? {
      return Err(choice.error);
    }
    var verificationMethod := choice.value;
    var needsVerificationId := true;
    if !facts.forceVerification {
      if facts.skipVerification {
        needsVerificationId := false;
      }
    }
    if facts.didSigninUnblock {
      needsVerificationId := false;
    }
    var mustVerifySession := needsVerificationId && facts.wantsKeys;
    if verificationMethod == Some(AskTotp2fa) {
      mustVerifySession := true;
      needsVerificationId := true;
    }
    var s := Session(uid, if needsVerificationId then Some(tvid) else None, None, mustVerifySession);
    db.CreateSessionToken(newSid, s);
    SendSigninNotifications(mailer, uid, account.value, s, verificationMethod, old(db.State()));
    CreateSigninKeys(db, facts.wantsKeys, uid, s, newKid);
    return Ok(LoggedIn(VerificationStatus(s, account.value.isVerified, verificationMethod)));
  }

  method AccountReset(db: AuthDb, uid: Uid, wantsSession: bool, wantsKeys: bool, newSid: Sid, tvid: string,
                      newKid: Kid) returns (r: Result<Reply, Error>)
    modifies db
    ensures (db.State(), r) == FinishResetStep(old(db.State()), FinishReset(uid, wantsSession, wantsKeys, newSid, tvid))
    ensures db.keys == KeysAfter(old(db.KeyVault()), FinishReset(uid, wantsSession, wantsKeys, newSid, tvid), newKid)
  {
    var account := db.Account(uid);
    if account.None? {
      return Err(InvalidToken);
    }
    var hasTotpToken := HasTotpToken(db, uid);
    db.ResetAccount(uid);
    if !wantsSession {
      return if wantsKeys then Err(MissingRequestParameter) else Ok(Done);
    }
    var tokenVerificationId := None;
    if hasTotpToken {
      tokenVerificationId := Some(tvid);
    }
    var s := Session(uid, tokenVerificationId, None, tokenVerificationId.Some?);
    db.CreateSessionToken(newSid, s);
    if wantsKeys {
      db.CreateKeyFetchToken(newKid, KeyToken(uid, tokenVerificationId));
    }
    var choice := if hasTotpToken then Some(AskTotp2fa) else None;
    return Ok(LoggedIn(VerificationStatus(s, account.value.isVerified, choice)));
  }

  /** Under TOTP the change takes a stored session at level two, of whatever user. */
  method PasswordChangeFinish(db: AuthDb, uid: Uid, session: Option<Sid>, wantsKeys: bool, newSid: Sid, tvid: string,
                              newKid: Kid) returns (r: Result<Reply, Error>)
    modifies db
    ensures var q := FinishPasswordChange(uid, session, wantsKeys, newSid, tvid);
            && (db.State(), r) == FinishPasswordChangeStep(old(db.State()), q)
            && db.keys == KeysAfter(old(db.KeyVault()), q, newKid)
    ensures HasTotp(old(db.State()), uid) && uid in old(db.accounts) ==>
              (r.Ok? <==> session.Some? && session.value in old(db.sessions)
                          && SecondFactorMethod(old(db.sessions)[session.value]))
    ensures r.Ok? ==> forall sid :: sid in db.sessions && db.sessions[sid].uid == uid ==> sid == newSid
    ensures r.Ok? ==> newSid in db.sessions
    ensures r.Ok? ==> (TokenVerified(db.sessions[newSid]) <==>
                         session.Some? && TokenVerified(old(db.sessions)[session.value]))
  {
    var account := db.Account(uid);
    if account.None? {
      return Err(InvalidToken);
    }
    var hasTotp := HasTotpToken(db, uid);
    if hasTotp && session.None? {
      return Err(UnverifiedSession);
    }
    var verifiedStatus := false;
    if session.Some? {
      var tokenData := db.SessionToken(session.value);
      if tokenData.None? {
        return Err(InvalidToken);
      }
      verifiedStatus := TokenVerified(tokenData.value);
      if hasTotp && AssuranceLevel(tokenData.value) <= 1 {
        return Err(UnverifiedSession);
      }
    }
    db.ResetAccount(uid);
    var maybeToken := if !verifiedStatus then Some(tvid) else None;
    db.CreateSessionToken(newSid, Session(uid, maybeToken, None, wantsKeys));
    if wantsKeys {
      db.CreateKeyFetchToken(newKid, KeyToken(uid, None));
    }
    return Ok(Done);
  }

  // ---------- Sessions ----------

  /** The parts of what signing in again amounts to. */
  lemma ReauthParts(v: Vault, q: Request, s: Session, choice: Option<Requested>, newKid: Kid)
    requires q.Reauth? && q.sid in v.tables.sessions && q.uid in v.tables.accounts
    requires VerificationChoice(v.tables, q.uid, q.requested) == Ok(choice)
    requires s == Raised(v.tables.sessions[q.sid], q.wantsKeys, choice)
    ensures ReauthStep(v.tables, q) ==
            (Open(v.tables, q.sid, s),
             Ok(LoggedIn(VerificationStatus(s, EmailVerified(v.tables, s.uid), choice))))
    ensures MailsOf(v.tables, q) == SigninMails(v.tables, q.uid, s, choice)
    ensures KeysAfter(v, q, newKid) ==
              if q.wantsKeys then v.keys[newKid := KeyToken(q.uid, s.tokenVerificationId)] else v.keys
  {
  }

  function Raised(s: Session, wantsKeys: bool, choice: Option<Requested>): Session {
    s.(mustVerify := s.mustVerify || wantsKeys || choice.Some?)
  }

  method RaiseMustVerify(db: AuthDb, sid: Sid, wantsKeys: bool, choice: Option<Requested>) returns (s: Session)
    requires sid in db.sessions
    modifies db`sessions
    ensures s == Raised(old(db.sessions)[sid], wantsKeys, choice)
    ensures db.sessions == old(db.sessions)[sid := s]
  {
    var stored := db.SessionToken(sid);
    s := stored.value;
    if !s.mustVerify && (wantsKeys || choice.Some?) {
      s := s.(mustVerify := true);
    }
    db.UpdateSessionToken(sid, s.mustVerify);
  }

  datatype Reauthenticating = Reauthenticating(s: Session, account: PrimaryEmail, choice: Option<Requested>)

  /** The session, the account that signs in, and the method it is to verify by. */
  method LoadForReauth(db: AuthDb, sid: Sid, uid: Uid, requested: Option<Requested>)
    returns (r: Result<Reauthenticating, Error>)
    ensures r.Err? <==>
              sid !in db.sessions || uid !in db.accounts || VerificationChoice(db.State(), uid, requested).Err?
    ensures r.Err? ==> forall wantsKeys ::
              ReauthStep(db.State(), Reauth(sid, uid, wantsKeys, requested)) == (db.State(), Err(r.error))
    ensures r.Ok? ==>
              && r.value.s == db.sessions[sid]
              && r.value.account == PrimaryEmail(db.accounts[uid], EmailVerified(db.State(), uid),
                                                 AccountCode(db.State(), uid))
              && VerificationChoice(db.State(), uid, requested) == Ok(r.value.choice)
  {
    var s := db.SessionToken(sid);
    if s.None? {
      return Err(InvalidToken);
    }
    var account := db.Account(uid);
    if account.None? {
      return Err(UnknownAccount);
    }
    var choice := CheckTotpToken(db, uid, requested);
    if choice.Err? {
      return Err(choice.error);
    }
    return Ok(Reauthenticating(s.value, account.value, choice.value));
  }

  /** Signing in again touches of the tables nothing but the session's duty to verify,
      which it raises when asked for keys, for a method or under TOTP, and never lifts. The
      mail goes to the user who signs in, whoever's the session is. */
  method SessionReauth(db: AuthDb, mailer: Outbox, sid: Sid, uid: Uid, wantsKeys: bool, requested: Option<Requested>,
                       newKid: Kid) returns (r: Result<Reply, Error>)
    modifies db, mailer
    ensures (db.State(), r) == ReauthStep(old(db.State()), Reauth(sid, uid, wantsKeys, requested))
    ensures db.keys == KeysAfter(old(db.KeyVault()), Reauth(sid, uid, wantsKeys, requested), newKid)
    ensures mailer.sent == old(mailer.sent) + MailsOf(old(db.State()), Reauth(sid, uid, wantsKeys, requested))
    ensures r.Ok? ==> sid in db.sessions && sid in old(db.sessions)
    ensures r.Ok? ==> db.State() == Open(old(db.State()), sid,
                                         old(db.sessions)[sid].(mustVerify := db.sessions[sid].mustVerify))
    ensures r.Ok? && (old(db.sessions)[sid].mustVerify || HasTotp(old(db.State()), uid)) ==> db.sessions[sid].mustVerify
    ensures r.Err? ==> db.State() == old(db.State())
  {
    var loaded := LoadForReauth(db, sid, uid, requested);
    if loaded.Err? {
      return Err(loaded.error);
    }
    var Reauthenticating(sessionToken, account, choice) := loaded.value;
    var own := db.Account(sessionToken.uid);
    var emailVerified := own.Some? && own.value.isVerified;
    var raised := RaiseMustVerify(db, sid, wantsKeys, choice);
    ReauthParts(old(db.KeyVault()), Reauth(sid, uid, wantsKeys, requested), raised, choice, newKid);
    SendSigninNotifications(mailer, uid, account, raised, choice, old(db.State()));
    CreateSigninKeys(db, wantsKeys, uid, raised, newKid);
    return Ok(LoggedIn(VerificationStatus(raised, emailVerified, choice)));
  }

  /** The copy is the original's user's, at its level and with its duty; it is verified
      exactly if the original is, and otherwise waits for an id of its own. */
  method SessionDuplicate(db: AuthDb, sid: Sid, newSid: Sid, tvid: string) returns (r: Result<Reply, Error>)
    modifies db
    ensures (db.State(), r) == DuplicateStep(old(db.State()), Duplicate(sid, newSid, tvid))
    ensures forall newKid :: db.keys == KeysAfter(old(db.KeyVault()), Duplicate(sid, newSid, tvid), newKid)
    ensures r.Ok? <==> sid in old(db.sessions)
    ensures r.Ok? ==> newSid in db.sessions
    ensures r.Ok? ==>
              var (s, d) := (old(db.sessions)[sid], db.sessions[newSid]);
              && d.uid == s.uid && d.verificationMethod == s.verificationMethod && d.mustVerify == s.mustVerify
              && (TokenVerified(d) <==> TokenVerified(s))
              && (!TokenVerified(d) ==> d.tokenVerificationId.value == tvid)
    ensures forall x :: x in old(db.sessions) && x != newSid ==>
              x in db.sessions && db.sessions[x] == old(db.sessions)[x]
    ensures forall x :: x in db.sessions && x != newSid ==> x in old(db.sessions)
  {
    var s := db.SessionToken(sid);
    if s.None? {
      return Err(InvalidToken);
    }
    var copy := s.value;
    if copy.tokenVerificationId.Some? {
      copy := copy.(tokenVerificationId := Some(tvid));
    }
    db.CreateSessionToken(newSid, copy);
    return Ok(Done);
  }

  /** Ends the session itself, or another one of the same user. */
  method SessionDestroy(db: AuthDb, sid: Sid, custom: Option<Sid>) returns (r: Result<Reply, Error>)
    modifies db
    ensures (db.State(), r) == DestroySessionStep(old(db.State()), DestroySession(sid, custom))
    ensures forall newKid :: db.keys == KeysAfter(old(db.KeyVault()), DestroySession(sid, custom), newKid)
    ensures forall x :: x in old(db.sessions) && x !in db.sessions ==>
              sid in old(db.sessions) && old(db.sessions)[x].uid == old(db.sessions)[sid].uid
  {
    var s := db.SessionToken(sid);
    if s.None? {
      return Err(InvalidToken);
    }
    var target := sid;
    if custom.Some? {
      var tokenData := db.SessionToken(custom.value);
      if tokenData.None? || s.value.uid != tokenData.value.uid {
        return Err(InvalidToken);
      }
      target := custom.value;
    }
    db.DeleteSessionToken(target);
    return Ok(Done);
  }

  // ---------- Codes sent by e-mail ----------

  /** A followed link verifies the sessions that wait for its code, and with them the
      account; the account's own code verifies the account alone. */
  method RecoveryEmailVerify(db: AuthDb, uid: Uid, code: string) returns (r: Result<Reply, Error>)
    modifies db
    ensures (db.State(), r) == VerifyCodeStep(old(db.State()), VerifyCode(uid, code))
    ensures forall newKid :: db.keys == KeysAfter(old(db.KeyVault()), VerifyCode(uid, code), newKid)
    ensures r.Ok? ==> !Awaited(db.sessions, code, uid)
    ensures r.Ok? <==> && uid in old(db.accounts)
                       && (code == AccountCode(old(db.State()), uid) || Awaited(old(db.sessions), code, uid))
    ensures forall sid :: sid in old(db.sessions) ==>
              sid in db.sessions && AssuranceLevel(db.sessions[sid]) == AssuranceLevel(old(db.sessions)[sid])
  {
    var account := db.Account(uid);
    if account.None? {
      return Err(UnknownAccount);
    }
    var isAccountVerification := code == account.value.emailCode;
    var ok := db.VerifyTokens(code, uid);
    if !ok && !isAccountVerification {
      assert Confirmed(old(db.sessions), code, uid) == old(db.sessions);
      return Err(InvalidVerificationCode);
    }
    if account.value.isVerified {
      assert AddressVerified(db.State(), account.value.email) == db.State();
      return Ok(Done);
    }
    db.VerifyEmail(account.value.email);
    return Ok(Done);
  }

  /** A short code verifies what waits for it among the user's own sessions, and leaves the
      account as it is. */
  method SessionVerifyTokenCode(db: AuthDb, sid: Sid, tvid: string) returns (r: Result<Reply, Error>)
    modifies db
    ensures (db.State(), r) == VerifyTokenCodeStep(old(db.State()), VerifyTokenCode(sid, tvid))
    ensures forall newKid :: db.keys == KeysAfter(old(db.KeyVault()), VerifyTokenCode(sid, tvid), newKid)
    ensures r.Ok? <==> sid in old(db.sessions) && Awaited(old(db.sessions), tvid, old(db.sessions)[sid].uid)
    ensures r.Ok? ==> !Awaited(db.sessions, tvid, old(db.sessions)[sid].uid) && db.emails == old(db.emails)
  {
    var s := db.SessionToken(sid);
    if s.None? {
      return Err(InvalidToken);
    }
    var ok := db.VerifyTokens(tvid, s.value.uid);
    if !ok {
      assert Confirmed(old(db.sessions), tvid, s.value.uid) == old(db.sessions);
      return Err(InvalidTokenCode);
    }
    return Ok(Done);
  }

  /** Mails a code again. The id of a session whose user has TOTP is withheld. */
  method RecoveryEmailResendCode(db: AuthDb, mailer: Outbox, sid: Sid, given: Option<Address>)
    returns (r: Result<Reply, Error>)
    modifies mailer
    ensures (db.State(), r) == ResendCodeStep(db.State(), ResendCode(sid, given))
    ensures mailer.sent == old(mailer.sent) + MailsOf(db.State(), ResendCode(sid, given))
    ensures given.None? && sid in db.sessions && !TokenVerified(db.sessions[sid]) ==>
              (HasTotp(db.State(), db.sessions[sid].uid) ==> mailer.sent == old(mailer.sent))
    ensures given.Some? && r.Ok? ==>
              mailer.sent == old(mailer.sent) + {Link(db.sessions[sid].uid, db.emails[given.value].emailCode)}
  {
    var s := db.SessionToken(sid);
    if s.None? {
      return Err(InvalidToken);
    }
    var sessionToken := s.value;
    var account := db.Account(sessionToken.uid);
    var emailVerified := account.Some? && account.value.isVerified;
    if emailVerified && TokenVerified(sessionToken) && given.None? {
      return Ok(Done);
    }
    var code := "";
    var sendEmail := true;
    if given.Some? {
      var record := db.GetSecondaryEmail(given.value);
      if record.None? || record.value.uid != sessionToken.uid {
        return Err(CannotResendEmailCodeToUnownedEmail);
      }
      code := record.value.emailCode;
    } else if sessionToken.tokenVerificationId.Some? {
      code := sessionToken.tokenVerificationId.value;
      var hasTotp := HasTotpToken(db, sessionToken.uid);
      if hasTotp {
        sendEmail := false;
      }
    } else {
      code := if account.Some? then account.value.emailCode else "";
    }
    if sendEmail {
      mailer.Send(Link(sessionToken.uid, code));
    }
    return Ok(Done);
  }

  // ---------- Keys ----------

  /** A token is used up by handing out its bundle, and kept while it is locked. */
  method FetchAccountKeys(db: AuthDb, kid: Kid) returns (r: Result<KeyToken, Error>)
    modifies db
    ensures db.KeyVault() == KeyStep(old(db.KeyVault()), FetchKeys(kid))
    ensures r.Ok? <==> Fetchable(old(db.KeyVault()), kid)
    ensures r.Ok? ==> r.value == old(db.keys)[kid] && kid !in db.keys
    ensures r == Err(InvalidToken) <==> kid !in old(db.keys)
  {
    var token := db.KeyFetchToken(kid);
    if token.None? {
      return Err(InvalidToken);
    }
    var account := db.Account(token.value.uid);
    var verified := token.value.tokenVerificationId.None? && account.Some? && account.value.isVerified;
    if !verified {
      return Err(UnverifiedAccount);
    }
    db.DeleteKeyFetchToken(kid);
    return Ok(token.value);
  }

  method PasswordChangeStart(db: AuthDb, uid: Uid, newKid: Kid) returns (r: Result<Kid, Error>)
    modifies db
    ensures db.KeyVault() == KeyStep(old(db.KeyVault()), StartPasswordChange(uid, newKid))
    ensures r == if uid in db.accounts then Ok(newKid) else Err(UnknownAccount)
  {
    var account := db.Account(uid);
    if account.None? {
      return Err(UnknownAccount);
    }
    db.CreateKeyFetchToken(newKid, KeyToken(uid, None));
    return Ok(newKid);
  }

  // ---------- TOTP and recovery codes ----------

  /** Only a verified session of a user without a token starts the setup, and the new
      token protects nothing yet. */
  method TotpCreate(db: AuthDb, sid: Sid) returns (r: Result<Reply, Error>)
    modifies db
    ensures (db.State(), r) == CreateTotpStep(old(db.State()), CreateTotp(sid))
    ensures forall newKid :: db.keys == KeysAfter(old(db.KeyVault()), CreateTotp(sid), newKid)
    ensures r.Ok? <==> sid in old(db.sessions) && TokenVerified(old(db.sessions)[sid])
                       && old(db.sessions)[sid].uid !in old(db.totp)
    ensures r.Ok? ==> old(db.sessions)[sid].uid in db.totp
    ensures forall u :: HasTotp(db.State(), u) <==> HasTotp(old(db.State()), u)
  {
    var s := db.SessionToken(sid);
    if s.None? {
      return Err(InvalidToken);
    }
    if s.value.tokenVerificationId.Some? {
      return Err(UnverifiedSession);
    }
    var existing := db.TotpToken(s.value.uid);
    if existing.Some? {
      return Err(TotpTokenAlreadyExists);
    }
    db.PutTotpToken(s.value.uid, Totp(false, false));
    return Ok(Done);
  }

  method TotpDestroy(db: AuthDb, sid: Sid) returns (r: Result<Reply, Error>)
    modifies db
    ensures (db.State(), r) == DestroyTotpStep(old(db.State()), DestroyTotp(sid))
    ensures forall newKid :: db.keys == KeysAfter(old(db.KeyVault()), DestroyTotp(sid), newKid)
  {
    var s := db.SessionToken(sid);
    if s.None? {
      return Err(InvalidToken);
    }
    var hasEnabledToken := HasTotpToken(db, s.value.uid);
    if hasEnabledToken && (s.value.tokenVerificationId.Some? || AssuranceLevel(s.value) <= 1) {
      return Err(UnverifiedSession);
    }
    var ok := db.DeleteTotpToken(s.value.uid);
    assert !ok ==> db.totp == old(db.totp);
    return if ok then Ok(Done) else Err(TotpTokenNotFound);
  }

  method TotpExistsRoute(db: AuthDb, sid: Sid) returns (r: Result<Reply, Error>)
    modifies db
    ensures (db.State(), r) == TotpExistsStep(old(db.State()), TotpExists(sid))
    ensures forall newKid :: db.keys == KeysAfter(old(db.KeyVault()), TotpExists(sid), newKid)
  {
    var s := db.SessionToken(sid);
    if s.None? {
      return Err(InvalidToken);
    }
    if s.value.tokenVerificationId.Some? {
      return Err(UnverifiedSession);
    }
    var token := db.TotpToken(s.value.uid);
    if token.None? {
      return Ok(Exists(false));
    }
    if !token.value.verified {
      var _ := db.DeleteTotpToken(s.value.uid);
      return Ok(Exists(false));
    }
    return Ok(Exists(true));
  }

  method SessionVerifyTotp(db: AuthDb, sid: Sid, isValidCode: bool, newCodes: set<string>)
    returns (r: Result<Reply, Error>)
    modifies db
    ensures (db.State(), r) == VerifyTotpStep(old(db.State()), VerifyTotp(sid, isValidCode, newCodes))
    ensures forall newKid :: db.keys == KeysAfter(old(db.KeyVault()), VerifyTotp(sid, isValidCode, newCodes), newKid)
  {
    var s := db.SessionToken(sid);
    if s.None? {
      return Err(InvalidToken);
    }
    var sessionToken := s.value;
    var token := db.TotpToken(sessionToken.uid);
    if token.None? {
      return Err(TotpTokenNotFound);
    }
    var tokenVerified := token.value.verified;
    if isValidCode && !tokenVerified {
      db.PutTotpToken(sessionToken.uid, Totp(true, true));
    }
    if isValidCode && !tokenVerified {
      db.PutRecoveryCodes(sessionToken.uid, newCodes);
    }
    if isValidCode && AssuranceLevel(sessionToken) <= 1 {
      db.VerifyTokensWithMethod(sid, Totp2fa);
    }
    return Ok(Success(isValidCode));
  }

  method SessionVerifyRecoveryCode(db: AuthDb, sid: Sid, code: string) returns (r: Result<Reply, Error>)
    modifies db
    ensures (db.State(), r) == VerifyRecoveryCodeStep(old(db.State()), VerifyRecoveryCode(sid, code))
    ensures forall newKid :: db.keys == KeysAfter(old(db.KeyVault()), VerifyRecoveryCode(sid, code), newKid)
  {
    var s := db.SessionToken(sid);
    if s.None? {
      return Err(InvalidToken);
    }
    var ok := db.ConsumeRecoveryCode(s.value.uid, code);
    if !ok {
      return Err(RecoveryCodeNotFound);
    }
    if s.value.tokenVerificationId.Some? {
      db.VerifyTokensWithMethod(sid, RecoveryCodeMethod);
    }
    return Ok(Done);
  }

  /** Codes are replaced, the user's own and all of them, from a session at level two and
      from no other. */
  method RecoveryCodesReplace(db: AuthDb, sid: Sid, newCodes: set<string>) returns (r: Result<Reply, Error>)
    modifies db
    ensures (db.State(), r) == ReplaceRecoveryCodesStep(old(db.State()), ReplaceRecoveryCodes(sid, newCodes))
    ensures forall newKid :: db.keys == KeysAfter(old(db.KeyVault()), ReplaceRecoveryCodes(sid, newCodes), newKid)
    ensures r.Ok? <==> sid in old(db.sessions) && SecondFactorMethod(old(db.sessions)[sid])
    ensures r.Ok? ==> CodesOf(db.State(), old(db.sessions)[sid].uid) == newCodes
    ensures forall u :: CodesOf(db.State(), u) != CodesOf(old(db.State()), u) ==>
              r.Ok? && u == old(db.sessions)[sid].uid
  {
    var s := db.SessionToken(sid);
    if s.None? {
      return Err(InvalidToken);
    }
    if AssuranceLevel(s.value) <= 1 {
      return Err(UnverifiedSession);
    }
    db.PutRecoveryCodes(s.value.uid, newCodes);
    return Ok(Done);
  }

  // ---------- Addresses and accounts ----------

  /** The code of an address verifies it, for the user who has it alone. */
  method VerifySecondaryEmail(db: AuthDb, uid: Uid, email: Address) returns (r: Result<Reply, Error>)
    modifies db
    ensures (db.State(), r) == VerifySecondaryStep(old(db.State()), VerifySecondary(uid, email))
    ensures forall newKid :: db.keys == KeysAfter(old(db.KeyVault()), VerifySecondary(uid, email), newKid)
    ensures r.Ok? <==> uid in old(db.accounts) && email in old(db.emails) && old(db.emails)[email].uid == uid
    ensures r.Ok? ==> email in db.emails && db.emails[email].isVerified && db.emails[email].uid == uid
    ensures forall u :: EmailVerified(old(db.State()), u) ==> EmailVerified(db.State(), u)
  {
    var account := db.Account(uid);
    if account.None? {
      return Err(UnknownAccount);
    }
    var matched := db.GetSecondaryEmail(email);
    if matched.None? || matched.value.uid != uid {
      return Err(InvalidVerificationCode);
    }
    if matched.value.isVerified {
      assert AddressVerified(db.State(), email) == db.State();
      return Ok(Done);
    }
    db.VerifyEmail(email);
    return Ok(Done);
  }

  /** The new address belongs to the session's user and is unverified; another account gives
      way to it only if it is old enough and its primary address is that one, unverified. */
  method RecoveryEmailCreate(db: AuthDb, mailer: Outbox, sid: Sid, email: Address, oldEnough: bool, emailCode: string)
    returns (r: Result<Reply, Error>)
    modifies db, mailer
    ensures (db.State(), r) == CreateEmailStep(old(db.State()), CreateEmail(sid, email, oldEnough, emailCode))
    ensures forall newKid ::
              db.keys == KeysAfter(old(db.KeyVault()), CreateEmail(sid, email, oldEnough, emailCode), newKid)
    ensures mailer.sent == old(mailer.sent) +
                           MailsOf(old(db.State()), CreateEmail(sid, email, oldEnough, emailCode))
    ensures forall u :: u in old(db.accounts) && u !in db.accounts ==>
              oldEnough && old(db.accounts)[u] == email && !EmailVerified(old(db.State()), u)
    ensures r.Ok? ==> email in db.emails && !db.emails[email].isVerified
    ensures r.Ok? ==> sid in old(db.sessions) && db.emails[email].uid == old(db.sessions)[sid].uid
    ensures r.Err? ==> db.State() == old(db.State())
  {
    var s := db.SessionToken(sid);
    if s.None? {
      return Err(InvalidToken);
    }
    var uid := s.value.uid;
    var account := db.Account(uid);
    if account.None? || !account.value.isVerified {
      return Err(UnverifiedAccount);
    }
    if s.value.tokenVerificationId.Some? {
      return Err(UnverifiedSession);
    }
    if account.value.email == email {
      return Err(YourPrimaryEmailExists);
    }
    var record := db.GetSecondaryEmail(email);
    if record.Some? {
      if record.value.isPrimary {
        if record.value.isVerified {
          return Err(VerifiedPrimaryEmailAlreadyExists);
        }
        if !oldEnough {
          return Err(UnverifiedPrimaryEmailNewlyCreated);
        }
        db.DeleteAccount(record.value.uid);
      } else if !record.value.isVerified && record.value.uid != uid {
        var _ := db.DeleteEmail(record.value.uid, email);
      }
    }
    var ok := db.CreateEmail(uid, email, emailCode);
    if !ok {
      return Err(EmailExists);
    }
    mailer.Send(Link(uid, emailCode));
    return Ok(Done);
  }

  /** Nobody loses a primary address, and nobody else an address. */
  method RecoveryEmailDestroy(db: AuthDb, sid: Sid, email: Address) returns (r: Result<Reply, Error>)
    modifies db
    ensures (db.State(), r) == DestroyEmailStep(old(db.State()), DestroyEmail(sid, email))
    ensures forall newKid :: db.keys == KeysAfter(old(db.KeyVault()), DestroyEmail(sid, email), newKid)
    ensures forall a :: IsPrimary(old(db.State()), a) ==> IsPrimary(db.State(), a)
    ensures forall a :: a in old(db.emails) && a !in db.emails ==>
              && r.Ok? && a == email
              && sid in old(db.sessions) && old(db.emails)[a].uid == old(db.sessions)[sid].uid
  {
    var s := db.SessionToken(sid);
    if s.None? {
      return Err(InvalidToken);
    }
    if s.value.tokenVerificationId.Some? {
      return Err(UnverifiedSession);
    }
    var ok := db.DeleteEmail(s.value.uid, email);
    return if ok then Ok(Done) else Err(CannotDeletePrimaryEmail);
  }

  /** A primary address is replaced by a verified one of the same user and by no other. */
  method RecoveryEmailSetPrimary(db: AuthDb, sid: Sid, email: Address) returns (r: Result<Reply, Error>)
    modifies db
    ensures (db.State(), r) == SetPrimaryStep(old(db.State()), SetPrimary(sid, email))
    ensures forall newKid :: db.keys == KeysAfter(old(db.KeyVault()), SetPrimary(sid, email), newKid)
    ensures r.Ok? ==> sid in old(db.sessions) && EmailVerified(db.State(), old(db.sessions)[sid].uid)
    ensures r.Ok? ==> db.accounts[old(db.sessions)[sid].uid] == email
    ensures r.Ok? <==> && sid in old(db.sessions) && TokenVerified(old(db.sessions)[sid])
                       && email in old(db.emails)
                       && old(db.emails)[email].uid == old(db.sessions)[sid].uid && old(db.emails)[email].isVerified
  {
    var s := db.SessionToken(sid);
    if s.None? {
      return Err(InvalidToken);
    }
    if s.value.tokenVerificationId.Some? {
      return Err(UnverifiedSession);
    }
    var record := db.GetSecondaryEmail(email);
    if record.None? {
      return Err(SecondaryEmailUnknown);
    }
    if record.value.uid != s.value.uid {
      return Err(CannotChangeEmailToUnownedEmail);
    }
    if !record.value.isVerified {
      return Err(CannotChangeEmailToUnverifiedEmail);
    }
    if record.value.isPrimary {
      assert db.accounts[s.value.uid := email] == db.accounts;
      return Ok(Done);
    }
    db.SetPrimaryEmail(s.value.uid, email);
    return Ok(Done);
  }

  /** What is reported as verified has a verified address, and a verified session where one
      is due; an invalid address costs an unverified account its existence. */
  method RecoveryEmailStatus(db: AuthDb, sid: Sid, validAddress: bool) returns (r: Result<Reply, Error>)
    modifies db
    ensures (db.State(), r) == PollStatusStep(old(db.State()), PollStatus(sid, validAddress))
    ensures forall newKid :: db.keys == KeysAfter(old(db.KeyVault()), PollStatus(sid, validAddress), newKid)
    ensures r.Ok? ==> db.State() == old(db.State())
    ensures r.Ok? && r.value.verified ==>
              && EmailVerified(db.State(), db.sessions[sid].uid)
              && (db.sessions[sid].mustVerify ==> TokenVerified(db.sessions[sid]))
    ensures forall u :: u in old(db.accounts) && u !in db.accounts ==>
              !validAddress && !EmailVerified(old(db.State()), u)
    ensures r.Ok? <==> && sid in old(db.sessions)
                       && (validAddress || EmailVerified(old(db.State()), old(db.sessions)[sid].uid))
    ensures r.Ok? ==>
              var s := db.sessions[sid];
              && (r.value.emailVerified <==> EmailVerified(db.State(), s.uid))
              && (r.value.sessionVerified <==> TokenVerified(s))
              && (r.value.verified <==> EmailVerified(db.State(), s.uid) && (TokenVerified(s) || !s.mustVerify))
  {
    var s := db.SessionToken(sid);
    if s.None? {
      return Err(InvalidToken);
    }
    var account := db.Account(s.value.uid);
    var emailVerified := account.Some? && account.value.isVerified;
    if !emailVerified {
      if !validAddress {
        db.DeleteAccount(s.value.uid);
        return Err(InvalidToken);
      }
    }
    var sessionVerified := TokenVerified(s.value);
    var isVerified := emailVerified;
    if s.value.mustVerify {
      isVerified := isVerified && sessionVerified;
    }
    return Ok(EmailStatus(isVerified, sessionVerified, emailVerified));
  }

  /** A bounce removes none but a recent account with an unverified primary address. */
  method HandleBounce(db: AuthDb, email: Address, recent: bool) returns (r: Result<Reply, Error>)
    modifies db
    ensures (db.State(), r) == BouncedStep(old(db.State()), Bounced(email, recent))
    ensures forall newKid :: db.keys == KeysAfter(old(db.KeyVault()), Bounced(email, recent), newKid)
    ensures forall u :: u in old(db.accounts) && u !in db.accounts ==>
              recent && !EmailVerified(old(db.State()), u)
    ensures !recent ==> db.State() == old(db.State())
  {
    var record := db.GetSecondaryEmail(email);
    if record.None? {
      return Err(UnknownAccount);
    }
    var account := db.Account(record.value.uid);
    if !(account.Some? && account.value.isVerified) && recent {
      db.DeleteAccount(record.value.uid);
    }
    return Ok(Done);
  }

  method AccountDestroy(db: AuthDb, uid: Uid, session: Option<Sid>) returns (r: Result<Reply, Error>)
    modifies db
    ensures (db.State(), r) == DestroyAccountStep(old(db.State()), DestroyAccount(uid, session))
    ensures forall newKid :: db.keys == KeysAfter(old(db.KeyVault()), DestroyAccount(uid, session), newKid)
  {
    var credentials := None;
    if session.Some? {
      credentials := db.SessionToken(session.value);
      if credentials.None? {
        return Err(InvalidToken);
      }
    }
    var account := db.Account(uid);
    if account.None? {
      return Err(UnknownAccount);
    }
    var hasToken := HasTotpToken(db, uid);
    if credentials.None? && hasToken {
      return Err(UnverifiedSession);
    }
    if credentials.Some? && hasToken &&
       (credentials.value.tokenVerificationId.Some? || AssuranceLevel(credentials.value) <= 1) {
      return Err(UnverifiedSession);
    }
    db.DeleteAccount(uid);
    return Ok(Done);
  }

  /** The operators' script, which answers the check for TOTP and that of the password
      itself and then runs the route. */
  method DeleteAccountScript(db: AuthDb, uid: Uid) returns (r: Result<Reply, Error>)
    modifies db
    ensures (db.State(), r) == OperatorDeleteStep(old(db.State()), OperatorDelete(uid))
    ensures forall newKid :: db.keys == KeysAfter(old(db.KeyVault()), OperatorDelete(uid), newKid)
  {
    var account := db.Account(uid);
    if account.None? {
      return Err(UnknownAccount);
    }
    db.DeleteAccount(uid);
    return Ok(Done);
  }
}
