/** The routes that create, verify and use sessions, the addresses and accounts these
    belong to, and the gates that a second factor puts in front of them. */
module SecondFactor {
  import opened Wrappers
  import opened Assurance

  type Sid = string

  /** An e-mail address in lower case. */
  type Address = string

  /** `emailCode` is the code that verifies the address. */
  datatype EmailRow = EmailRow(uid: Uid, isVerified: bool, emailCode: string)

  datatype Totp = Totp(verified: bool, enabled: bool)

  /** `accounts` holds the primary address of each account. */
  datatype Tables = Tables(
    accounts: map<Uid, Address>,
    emails: map<Address, EmailRow>,
    sessions: map<Sid, Session>,
    totp: map<Uid, Totp>,
    recoveryCodes: map<Uid, set<string>>)

  datatype Error =
    | InvalidToken
    | UnknownAccount
    | AccountExists
    | MissingRequestParameter
    | UnverifiedAccount
    | UnverifiedSession
    | TotpRequired
    | TotpTokenAlreadyExists
    | TotpTokenNotFound
    | RecoveryCodeNotFound
    | InvalidVerificationCode
    | InvalidTokenCode
    | YourPrimaryEmailExists
    | VerifiedPrimaryEmailAlreadyExists
    | VerifiedSecondaryEmailAlreadyExists
    | UnverifiedPrimaryEmailNewlyCreated
    | EmailExists
    | SecondaryEmailUnknown
    | CannotDeletePrimaryEmail
    | CannotChangeEmailToUnownedEmail
    | CannotChangeEmailToUnverifiedEmail
    | CannotResendEmailCodeToUnownedEmail

  datatype Reply =
    | Done
    | Exists(present: bool)
    | Success(success: bool)
    | LoggedIn(status: Status)
    | EmailStatus(verified: bool, sessionVerified: bool, emailVerified: bool)

  /** What the server decides about a login beside the account's own state. */
  datatype LoginFacts = LoginFacts(
    wantsKeys: bool,
    forceVerification: bool,
    skipVerification: bool,
    didSigninUnblock: bool,
    requested: Option<Requested>)

  /** Requests whose password or account token, where one is needed, was right.
      `newSid`, `tvid`, `emailCode` and the `uid` of a new account are drawn at random. */
  datatype Request =
    | Signup(email: Address, uid: Uid, preVerified: bool, wantsKeys: bool, newSid: Sid, tvid: string)
    | Login(uid: Uid, facts: LoginFacts, newSid: Sid, tvid: string)
    | FinishReset(uid: Uid, wantsSession: bool, wantsKeys: bool, newSid: Sid, tvid: string)
    | FinishPasswordChange(uid: Uid, session: Option<Sid>, wantsKeys: bool, newSid: Sid, tvid: string)
    | Reauth(sid: Sid, uid: Uid, wantsKeys: bool, requested: Option<Requested>)
    | Duplicate(sid: Sid, newSid: Sid, tvid: string)
    | VerifyCode(uid: Uid, code: string)
    | VerifyTokenCode(sid: Sid, tvid: string)
    | DestroySession(sid: Sid, custom: Option<Sid>)
    | ResendCode(sid: Sid, given: Option<Address>)
    | CreateTotp(sid: Sid)
    | DestroyTotp(sid: Sid)
    | TotpExists(sid: Sid)
    | VerifyTotp(sid: Sid, isValidCode: bool, newCodes: set<string>)
    | VerifyRecoveryCode(sid: Sid, code: string)
    | ReplaceRecoveryCodes(sid: Sid, newCodes: set<string>)
    | VerifySecondary(uid: Uid, email: Address)
    | CreateEmail(sid: Sid, email: Address, oldEnough: bool, emailCode: string)
    | DestroyEmail(sid: Sid, email: Address)
    | SetPrimary(sid: Sid, email: Address)
    | PollStatus(sid: Sid, validAddress: bool)
    | Bounced(email: Address, recent: bool)
    | DestroyAccount(uid: Uid, session: Option<Sid>)
    | OperatorDelete(uid: Uid)

  predicate HasTotp(t: Tables, uid: Uid) {
    uid in t.totp && t.totp[uid].verified && t.totp[uid].enabled
  }

  predicate Insufficient(s: Session) {
    !TokenVerified(s) || AssuranceLevel(s) <= 1
  }

  predicate IsPrimary(t: Tables, a: Address) {
    a in t.emails && t.emails[a].uid in t.accounts && t.accounts[t.emails[a].uid] == a
  }

  /** Whether the primary address of an account is verified. */
  predicate EmailVerified(t: Tables, uid: Uid) {
    uid in t.accounts && t.accounts[uid] in t.emails && t.emails[t.accounts[uid]].isVerified
  }

  /** The code of an account's primary address. */
  function AccountCode(t: Tables, uid: Uid): string {
    if uid in t.accounts && t.accounts[uid] in t.emails then t.emails[t.accounts[uid]].emailCode else ""
  }

  function CodesOf(t: Tables, uid: Uid): set<string> {
    if uid in t.recoveryCodes then t.recoveryCodes[uid] else {}
  }

  function WithoutUser(sessions: map<Sid, Session>, uid: Uid): map<Sid, Session> {
    map sid | sid in sessions && sessions[sid].uid != uid :: sessions[sid]
  }

  function WithoutAddresses(emails: map<Address, EmailRow>, uid: Uid): map<Address, EmailRow> {
    map a | a in emails && emails[a].uid != uid :: emails[a]
  }

  function WithoutAccount(t: Tables, uid: Uid): Tables {
    Tables(t.accounts - {uid}, WithoutAddresses(t.emails, uid), WithoutUser(t.sessions, uid),
           t.totp - {uid}, t.recoveryCodes - {uid})
  }

  function Open(t: Tables, sid: Sid, s: Session): Tables {
    t.(sessions := t.sessions[sid := s])
  }

  /** Marks one session verified by a method. */
  function VerifiedWith(t: Tables, sid: Sid, m: Method): Tables
    requires sid in t.sessions
  {
    Open(t, sid, t.sessions[sid].(tokenVerificationId := None, verificationMethod := Some(MethodNumber(m))))
  }

  /** Some session of the user still waits for this verification id. */
  predicate Awaited(sessions: map<Sid, Session>, tvid: string, uid: Uid) {
    exists sid :: sid in sessions && sessions[sid].uid == uid && sessions[sid].tokenVerificationId == Some(tvid)
  }

  /** Marks the sessions with a verification id verified; their method stays. */
  function Confirmed(sessions: map<Sid, Session>, tvid: string, uid: Uid): map<Sid, Session> {
    map sid | sid in sessions ::
      if sessions[sid].uid == uid && sessions[sid].tokenVerificationId == Some(tvid)
      then sessions[sid].(tokenVerificationId := None) else sessions[sid]
  }

  function AddressVerified(t: Tables, a: Address): Tables {
    if a in t.emails then t.(emails := t.emails[a := t.emails[a].(isVerified := true)]) else t
  }

  function VerificationChoice(t: Tables, uid: Uid, requested: Option<Requested>): Result<Option<Requested>, Error> {
    if HasTotp(t, uid) then Ok(Some(AskTotp2fa))
    else if requested == Some(AskTotp2fa) then Err(TotpRequired)
    else Ok(requested)
  }

  function LoginSession(uid: Uid, facts: LoginFacts, choice: Option<Requested>, tvid: string): Session {
    var skipped := (!facts.forceVerification && facts.skipVerification) || facts.didSigninUnblock;
    var needsId := choice == Some(AskTotp2fa) || !skipped;
    var mustVerify := choice == Some(AskTotp2fa) || (!skipped && facts.wantsKeys);
    Session(uid, if needsId then Some(tvid) else None, None, mustVerify)
  }

  // ---------- The requests ----------

  type Outcome = (Tables, Result<Reply, Error>)

  predicate IsSessionRequest(q: Request) {
    || q.Signup? || q.Login? || q.FinishReset? || q.FinishPasswordChange? || q.Reauth? || q.Duplicate?
    || q.VerifyCode? || q.VerifyTokenCode? || q.DestroySession? || q.ResendCode?
  }

  predicate IsFactorRequest(q: Request) {
    || q.CreateTotp? || q.DestroyTotp? || q.TotpExists? || q.VerifyTotp? || q.VerifyRecoveryCode?
    || q.ReplaceRecoveryCodes?
  }

  predicate IsAddressRequest(q: Request) {
    !IsSessionRequest(q) && !IsFactorRequest(q)
  }

  /** Making room for a new account: an unverified account of the same address is
      deleted, and so is an unverified secondary address. */
  function ClearForSignup(t: Tables, email: Address): Result<Tables, Error> {
    if email !in t.emails then Ok(t)
    else if IsPrimary(t, email) then
      if t.emails[email].isVerified then Err(AccountExists) else Ok(WithoutAccount(t, t.emails[email].uid))
    else if t.emails[email].isVerified then Err(VerifiedSecondaryEmailAlreadyExists)
    else Ok(t.(emails := t.emails - {email}))
  }

  /** The account's own code is the verification id of its first session. */
  function SignupStep(t: Tables, q: Request): Outcome
    requires q.Signup?
  {
    match ClearForSignup(t, q.email)
    case Err(e) => (t, Err(e))
    case Ok(t') =>
      if q.uid in t'.accounts then (t', Err(AccountExists))
      else
        var t'' := t'.(accounts := t'.accounts[q.uid := q.email],
                       emails := t'.emails[q.email := EmailRow(q.uid, q.preVerified, q.tvid)]);
        (Open(t'', q.newSid, Session(q.uid, if q.preVerified then None else Some(q.tvid), None, q.wantsKeys)), Ok(Done))
  }

  function LoginStep(t: Tables, q: Request): Outcome
    requires q.Login?
  {
    if q.uid !in t.accounts then (t, Err(UnknownAccount))
    else
      match VerificationChoice(t, q.uid, q.facts.requested)
      case Err(e) => (t, Err(e))
      case Ok(choice) =>
        var s := LoginSession(q.uid, q.facts, choice, q.tvid);
        (Open(t, q.newSid, s), Ok(LoggedIn(VerificationStatus(s, EmailVerified(t, q.uid), choice))))
  }

  function FinishResetStep(t: Tables, q: Request): Outcome
    requires q.FinishReset?
  {
    if q.uid !in t.accounts then (t, Err(InvalidToken))
    else
      var t' := t.(sessions := WithoutUser(t.sessions, q.uid));
      var s := Session(q.uid, if HasTotp(t, q.uid) then Some(q.tvid) else None, None, HasTotp(t, q.uid));
      if q.wantsSession then
        var choice := if HasTotp(t, q.uid) then Some(AskTotp2fa) else None;
        (Open(t', q.newSid, s), Ok(LoggedIn(VerificationStatus(s, EmailVerified(t, q.uid), choice))))
      else (t', if q.wantsKeys then Err(MissingRequestParameter) else Ok(Done))
  }

  function FinishPasswordChangeStep(t: Tables, q: Request): Outcome
    requires q.FinishPasswordChange?
  {
    if q.uid !in t.accounts then (t, Err(InvalidToken))
    else if q.session.None? && HasTotp(t, q.uid) then (t, Err(UnverifiedSession))
    else if q.session.Some? && q.session.value !in t.sessions then (t, Err(InvalidToken))
    else if q.session.Some? && HasTotp(t, q.uid) && AssuranceLevel(t.sessions[q.session.value]) <= 1
    then (t, Err(UnverifiedSession))
    else
      var verified := q.session.Some? && TokenVerified(t.sessions[q.session.value]);
      var s := Session(q.uid, if verified then None else Some(q.tvid), None, q.wantsKeys);
      (Open(t.(sessions := WithoutUser(t.sessions, q.uid)), q.newSid, s), Ok(Done))
  }

  /** The user whose password was given need not be the user of the session. */
  function ReauthStep(t: Tables, q: Request): Outcome
    requires q.Reauth?
  {
    if q.sid !in t.sessions then (t, Err(InvalidToken))
    else if q.uid !in t.accounts then (t, Err(UnknownAccount))
    else
      match VerificationChoice(t, q.uid, q.requested)
      case Err(e) => (t, Err(e))
      case Ok(choice) =>
        var s := t.sessions[q.sid];
        var s' := s.(mustVerify := s.mustVerify || q.wantsKeys || choice.Some?);
        (Open(t, q.sid, s'), Ok(LoggedIn(VerificationStatus(s', EmailVerified(t, s.uid), choice))))
  }

  function DuplicateStep(t: Tables, q: Request): Outcome
    requires q.Duplicate?
  {
    if q.sid !in t.sessions then (t, Err(InvalidToken))
    else
      var s := t.sessions[q.sid];
      (Open(t, q.newSid, s.(tokenVerificationId := if TokenVerified(s) then None else Some(q.tvid))), Ok(Done))
  }

  /** A followed link: its code is a verification id, or the account's own code. */
  function VerifyCodeStep(t: Tables, q: Request): Outcome
    requires q.VerifyCode?
  {
    if q.uid !in t.accounts then (t, Err(UnknownAccount))
    else if !Awaited(t.sessions, q.code, q.uid) && q.code != AccountCode(t, q.uid)
    then (t, Err(InvalidVerificationCode))
    else (AddressVerified(t.(sessions := Confirmed(t.sessions, q.code, q.uid)), t.accounts[q.uid]), Ok(Done))
  }

  /** A short code typed in: the verification id it stands for is given. */
  function VerifyTokenCodeStep(t: Tables, q: Request): Outcome
    requires q.VerifyTokenCode?
  {
    if q.sid !in t.sessions then (t, Err(InvalidToken))
    else
      var uid := t.sessions[q.sid].uid;
      if !Awaited(t.sessions, q.tvid, uid) then (t, Err(InvalidTokenCode))
      else (t.(sessions := Confirmed(t.sessions, q.tvid, uid)), Ok(Done))
  }

  function DestroySessionStep(t: Tables, q: Request): Outcome
    requires q.DestroySession?
  {
    if q.sid !in t.sessions then (t, Err(InvalidToken))
    else if q.custom.None? then (t.(sessions := t.sessions - {q.sid}), Ok(Done))
    else if q.custom.value !in t.sessions || t.sessions[q.custom.value].uid != t.sessions[q.sid].uid
    then (t, Err(InvalidToken))
    else (t.(sessions := t.sessions - {q.custom.value}), Ok(Done))
  }

  /** Which code is mailed again is another matter. */
  function ResendCodeStep(t: Tables, q: Request): Outcome
    requires q.ResendCode?
  {
    if q.sid !in t.sessions then (t, Err(InvalidToken))
    else
      var s := t.sessions[q.sid];
      if EmailVerified(t, s.uid) && TokenVerified(s) && q.given.None? then (t, Ok(Done))
      else if q.given.Some? && !(q.given.value in t.emails && t.emails[q.given.value].uid == s.uid)
      then (t, Err(CannotResendEmailCodeToUnownedEmail))
      else (t, Ok(Done))
  }

  function SessionStep(t: Tables, q: Request): Outcome
    requires IsSessionRequest(q)
  {
    if q.Signup? then SignupStep(t, q)
    else if q.Login? then LoginStep(t, q)
    else if q.FinishReset? then FinishResetStep(t, q)
    else if q.FinishPasswordChange? then FinishPasswordChangeStep(t, q)
    else if q.Reauth? then ReauthStep(t, q)
    else if q.Duplicate? then DuplicateStep(t, q)
    else if q.VerifyCode? then VerifyCodeStep(t, q)
    else if q.VerifyTokenCode? then VerifyTokenCodeStep(t, q)
    else if q.ResendCode? then ResendCodeStep(t, q)
    else DestroySessionStep(t, q)
  }

  function CreateTotpStep(t: Tables, q: Request): Outcome
    requires q.CreateTotp?
  {
    if q.sid !in t.sessions then (t, Err(InvalidToken))
    else
      var s := t.sessions[q.sid];
      if !TokenVerified(s) then (t, Err(UnverifiedSession))
      else if s.uid in t.totp then (t, Err(TotpTokenAlreadyExists))
      else (t.(totp := t.totp[s.uid := Totp(false, false)]), Ok(Done))
  }

  function DestroyTotpStep(t: Tables, q: Request): Outcome
    requires q.DestroyTotp?
  {
    if q.sid !in t.sessions then (t, Err(InvalidToken))
    else
      var s := t.sessions[q.sid];
      if HasTotp(t, s.uid) && Insufficient(s) then (t, Err(UnverifiedSession))
      else if s.uid !in t.totp then (t, Err(TotpTokenNotFound))
      else (t.(totp := t.totp - {s.uid}), Ok(Done))
  }

  function TotpExistsStep(t: Tables, q: Request): Outcome
    requires q.TotpExists?
  {
    if q.sid !in t.sessions then (t, Err(InvalidToken))
    else
      var s := t.sessions[q.sid];
      if !TokenVerified(s) then (t, Err(UnverifiedSession))
      else if s.uid !in t.totp then (t, Ok(Exists(false)))
      else if !t.totp[s.uid].verified then (t.(totp := t.totp - {s.uid}), Ok(Exists(false)))
      else (t, Ok(Exists(true)))
  }

  function VerifyTotpStep(t: Tables, q: Request): Outcome
    requires q.VerifyTotp?
  {
    if q.sid !in t.sessions then (t, Err(InvalidToken))
    else
      var s := t.sessions[q.sid];
      if s.uid !in t.totp then (t, Err(TotpTokenNotFound))
      else if !q.isValidCode then (t, Ok(Success(false)))
      else
        var t' := if t.totp[s.uid].verified then t
                  else t.(totp := t.totp[s.uid := Totp(true, true)],
                          recoveryCodes := t.recoveryCodes[s.uid := q.newCodes]);
        (if AssuranceLevel(s) <= 1 then VerifiedWith(t', q.sid, Totp2fa) else t', Ok(Success(true)))
  }

  function VerifyRecoveryCodeStep(t: Tables, q: Request): Outcome
    requires q.VerifyRecoveryCode?
  {
    if q.sid !in t.sessions then (t, Err(InvalidToken))
    else
      var s := t.sessions[q.sid];
      if q.code !in CodesOf(t, s.uid) then (t, Err(RecoveryCodeNotFound))
      else
        var t' := t.(recoveryCodes := t.recoveryCodes[s.uid := CodesOf(t, s.uid) - {q.code}]);
        (if TokenVerified(s) then t' else VerifiedWith(t', q.sid, RecoveryCodeMethod), Ok(Done))
  }

  function ReplaceRecoveryCodesStep(t: Tables, q: Request): Outcome
    requires q.ReplaceRecoveryCodes?
  {
    if q.sid !in t.sessions then (t, Err(InvalidToken))
    else if AssuranceLevel(t.sessions[q.sid]) <= 1 then (t, Err(UnverifiedSession))
    else (t.(recoveryCodes := t.recoveryCodes[t.sessions[q.sid].uid := q.newCodes]), Ok(Done))
  }

  function FactorStep(t: Tables, q: Request): Outcome
    requires IsFactorRequest(q)
  {
    if q.CreateTotp? then CreateTotpStep(t, q)
    else if q.DestroyTotp? then DestroyTotpStep(t, q)
    else if q.TotpExists? then TotpExistsStep(t, q)
    else if q.VerifyTotp? then VerifyTotpStep(t, q)
    else if q.VerifyRecoveryCode? then VerifyRecoveryCodeStep(t, q)
    else ReplaceRecoveryCodesStep(t, q)
  }

  function VerifySecondaryStep(t: Tables, q: Request): Outcome
    requires q.VerifySecondary?
  {
    if q.uid !in t.accounts then (t, Err(UnknownAccount))
    else if q.email !in t.emails || t.emails[q.email].uid != q.uid then (t, Err(InvalidVerificationCode))
    else (AddressVerified(t, q.email), Ok(Done))
  }

  /** Making room for an additional address deletes the old enough unverified account, or
      the unverified secondary address of somebody else, that holds it. */
  function ClearForEmail(t: Tables, uid: Uid, email: Address, oldEnough: bool): Result<Tables, Error> {
    if email !in t.emails then Ok(t)
    else if IsPrimary(t, email) then
      if t.emails[email].isVerified then Err(VerifiedPrimaryEmailAlreadyExists)
      else if !oldEnough then Err(UnverifiedPrimaryEmailNewlyCreated)
      else Ok(WithoutAccount(t, t.emails[email].uid))
    else if t.emails[email].isVerified || t.emails[email].uid == uid then Err(EmailExists)
    else Ok(t.(emails := t.emails - {email}))
  }

  function CreateEmailStep(t: Tables, q: Request): Outcome
    requires q.CreateEmail?
  {
    if q.sid !in t.sessions then (t, Err(InvalidToken))
    else
      var s := t.sessions[q.sid];
      if !EmailVerified(t, s.uid) then (t, Err(UnverifiedAccount))
      else if !TokenVerified(s) then (t, Err(UnverifiedSession))
      else if t.accounts[s.uid] == q.email then (t, Err(YourPrimaryEmailExists))
      else
        match ClearForEmail(t, s.uid, q.email, q.oldEnough)
        case Err(e) => (t, Err(e))
        case Ok(t') => (t'.(emails := t'.emails[q.email := EmailRow(s.uid, false, q.emailCode)]), Ok(Done))
  }

  function DestroyEmailStep(t: Tables, q: Request): Outcome
    requires q.DestroyEmail?
  {
    if q.sid !in t.sessions then (t, Err(InvalidToken))
    else if !TokenVerified(t.sessions[q.sid]) then (t, Err(UnverifiedSession))
    else if q.email !in t.emails || t.emails[q.email].uid != t.sessions[q.sid].uid then (t, Ok(Done))
    else if IsPrimary(t, q.email) then (t, Err(CannotDeletePrimaryEmail))
    else (t.(emails := t.emails - {q.email}), Ok(Done))
  }

  function SetPrimaryStep(t: Tables, q: Request): Outcome
    requires q.SetPrimary?
  {
    if q.sid !in t.sessions then (t, Err(InvalidToken))
    else
      var s := t.sessions[q.sid];
      if !TokenVerified(s) then (t, Err(UnverifiedSession))
      else if q.email !in t.emails then (t, Err(SecondaryEmailUnknown))
      else if t.emails[q.email].uid != s.uid then (t, Err(CannotChangeEmailToUnownedEmail))
      else if !t.emails[q.email].isVerified then (t, Err(CannotChangeEmailToUnverifiedEmail))
      else (t.(accounts := t.accounts[s.uid := q.email]), Ok(Done))
  }

  function PollStatusStep(t: Tables, q: Request): Outcome
    requires q.PollStatus?
  {
    if q.sid !in t.sessions then (t, Err(InvalidToken))
    else
      var s := t.sessions[q.sid];
      var verified := EmailVerified(t, s.uid);
      if !verified && !q.validAddress then (WithoutAccount(t, s.uid), Err(InvalidToken))
      else (t, Ok(EmailStatus(verified && (s.mustVerify ==> TokenVerified(s)), TokenVerified(s), verified)))
  }

  /** A bounce or complaint about mail to a new account that is still unverified. */
  function BouncedStep(t: Tables, q: Request): Outcome
    requires q.Bounced?
  {
    if q.email !in t.emails then (t, Err(UnknownAccount))
    else if !EmailVerified(t, t.emails[q.email].uid) && q.recent
    then (WithoutAccount(t, t.emails[q.email].uid), Ok(Done))
    else (t, Ok(Done))
  }

  function DestroyAccountStep(t: Tables, q: Request): Outcome
    requires q.DestroyAccount?
  {
    if q.session.Some? && q.session.value !in t.sessions then (t, Err(InvalidToken))
    else if q.uid !in t.accounts then (t, Err(UnknownAccount))
    else if HasTotp(t, q.uid) && q.session.None? then (t, Err(UnverifiedSession))
    else if HasTotp(t, q.uid) && Insufficient(t.sessions[q.session.value]) then (t, Err(UnverifiedSession))
    else (WithoutAccount(t, q.uid), Ok(Done))
  }

  /** The operators' script runs the route that deletes accounts with its checks disabled. */
  function OperatorDeleteStep(t: Tables, q: Request): Outcome
    requires q.OperatorDelete?
  {
    if q.uid !in t.accounts then (t, Err(UnknownAccount)) else (WithoutAccount(t, q.uid), Ok(Done))
  }

  function AddressStep(t: Tables, q: Request): Outcome
    requires IsAddressRequest(q)
  {
    if q.VerifySecondary? then VerifySecondaryStep(t, q)
    else if q.CreateEmail? then CreateEmailStep(t, q)
    else if q.DestroyEmail? then DestroyEmailStep(t, q)
    else if q.SetPrimary? then SetPrimaryStep(t, q)
    else if q.PollStatus? then PollStatusStep(t, q)
    else if q.Bounced? then BouncedStep(t, q)
    else if q.DestroyAccount? then DestroyAccountStep(t, q)
    else OperatorDeleteStep(t, q)
  }

  function Step(t: Tables, q: Request): Outcome {
    if IsSessionRequest(q) then SessionStep(t, q)
    else if IsFactorRequest(q) then FactorStep(t, q)
    else AddressStep(t, q)
  }

  // ---------- Runs ----------

  /** What matters about a session's past: how it began, and the second factors it
      presented. */
  datatype Event = Opened(sid: Sid) | Duplicated(parent: Sid, sid: Sid) | Presented(sid: Sid)

  datatype System = System(tables: Tables, log: seq<Event>)

  function Events(t: Tables, q: Request): seq<Event> {
    if Step(t, q).1.Err? then []
    else
      match q
      case Login(_, _, newSid, _) => [Opened(newSid)]
      case Signup(_, _, _, _, newSid, _) => [Opened(newSid)]
      case FinishReset(_, wantsSession, _, newSid, _) => if wantsSession then [Opened(newSid)] else []
      case FinishPasswordChange(_, _, _, newSid, _) => [Opened(newSid)]
      case Duplicate(sid, newSid, _) => [Duplicated(sid, newSid)]
      case VerifyTotp(sid, isValidCode, _) => if isValidCode then [Presented(sid)] else []
      case VerifyRecoveryCode(sid, _) => [Presented(sid)]
      case _ => []
  }

  function Next(s: System, q: Request): System {
    System(Step(s.tables, q).0, s.log + Events(s.tables, q))
  }

  function Run(s: System, requests: seq<Request>): System
    decreases |requests|
  {
    if requests == [] then s else Run(Next(s, requests[0]), requests[1..])
  }

  const START := System(Tables(map[], map[], map[], map[], map[]), [])

  lemma {:induction false} RunSplits(s: System, before: seq<Request>, after: seq<Request>)
    ensures Run(s, before + after) == Run(Run(s, before), after)
    decreases |before|
  {
    if before == [] {
      assert before + after == after;
    } else {
      assert (before + after)[1..] == before[1..] + after;
      RunSplits(Next(s, before[0]), before[1..], after);
    }
  }

  /** The session presented a valid TOTP code or consumed a recovery code since it
      began, or was duplicated from a session that had. */
  predicate SecondFactorShown(log: seq<Event>, sid: Sid) {
    if log == [] then false
    else
      var (front, last) := (log[..|log| - 1], log[|log| - 1]);
      match last
      case Presented(x) => x == sid || SecondFactorShown(front, sid)
      case Duplicated(parent, x) => SecondFactorShown(front, if x == sid then parent else sid)
      case Opened(x) => x != sid && SecondFactorShown(front, sid)
  }

  ghost predicate LevelsEarned(s: System) {
    forall sid :: sid in s.tables.sessions && AssuranceLevel(s.tables.sessions[sid]) >= 2 ==>
      SecondFactorShown(s.log, sid)
  }

  /** Where a level two after a step can come from: a factor presented in the step, a
      parent at level two, or the session itself, not begun anew. */
  ghost predicate Traced(t: Tables, events: seq<Event>, sid: Sid) {
    || events == [Presented(sid)]
    || (exists parent :: events == [Duplicated(parent, sid)] && parent in t.sessions
                         && AssuranceLevel(t.sessions[parent]) >= 2)
    || (sid in t.sessions && AssuranceLevel(t.sessions[sid]) >= 2 && !Begun(events, sid))
  }

  predicate Begun(events: seq<Event>, sid: Sid) {
    events != [] && !events[0].Presented? && events[0].sid == sid
  }

  lemma StepLevels(t: Tables, q: Request, sid: Sid)
    requires sid in Step(t, q).0.sessions
    requires AssuranceLevel(Step(t, q).0.sessions[sid]) >= 2
    ensures |Events(t, q)| <= 1
    ensures Traced(t, Events(t, q), sid)
  {
    AtMostOneEvent(t, q);
    if IsFactorRequest(q) {
      FactorLevels(t, q, sid);
    } else if IsSessionRequest(q) {
      SessionLevels(t, q, sid);
    } else {
      AddressLevels(t, q, sid);
    }
  }

  lemma AtMostOneEvent(t: Tables, q: Request)
    ensures |Events(t, q)| <= 1
    ensures IsAddressRequest(q) ==> Events(t, q) == []
  {
  }

  lemma FactorLevels(t: Tables, q: Request, sid: Sid)
    requires IsFactorRequest(q) && sid in FactorStep(t, q).0.sessions
    requires SecondFactorMethod(FactorStep(t, q).0.sessions[sid])
    ensures Traced(t, Events(t, q), sid)
  {
    if q.VerifyTotp? {
      VerifyTotpLevels(t, q, sid);
    } else if q.VerifyRecoveryCode? {
      VerifyRecoveryCodeLevels(t, q, sid);
    } else {
      assert FactorStep(t, q).0.sessions == t.sessions && Events(t, q) == [];
    }
  }

  lemma VerifyTotpLevels(t: Tables, q: Request, sid: Sid)
    requires q.VerifyTotp? && sid in VerifyTotpStep(t, q).0.sessions
    requires SecondFactorMethod(VerifyTotpStep(t, q).0.sessions[sid])
    ensures Traced(t, Events(t, q), sid)
  {
  }

  lemma VerifyRecoveryCodeLevels(t: Tables, q: Request, sid: Sid)
    requires q.VerifyRecoveryCode? && sid in VerifyRecoveryCodeStep(t, q).0.sessions
    requires SecondFactorMethod(VerifyRecoveryCodeStep(t, q).0.sessions[sid])
    ensures Traced(t, Events(t, q), sid)
  {
  }

  lemma AddressLevels(t: Tables, q: Request, sid: Sid)
    requires IsAddressRequest(q) && sid in AddressStep(t, q).0.sessions
    requires SecondFactorMethod(AddressStep(t, q).0.sessions[sid])
    ensures Traced(t, Events(t, q), sid)
  {
    AddressKeepsSessions(t, q, sid);
    AtMostOneEvent(t, q);
  }

  lemma AddressKeepsSessions(t: Tables, q: Request, sid: Sid)
    requires IsAddressRequest(q) && sid in AddressStep(t, q).0.sessions
    ensures sid in t.sessions && AddressStep(t, q).0.sessions[sid] == t.sessions[sid]
  {
  }

  lemma SessionLevels(t: Tables, q: Request, sid: Sid)
    requires IsSessionRequest(q) && sid in SessionStep(t, q).0.sessions
    requires SecondFactorMethod(SessionStep(t, q).0.sessions[sid])
    ensures Traced(t, Events(t, q), sid)
  {
    if q.Duplicate? {
      DuplicateLevels(t, q, sid);
    } else {
      SessionGoesOn(t, q, sid);
    }
  }

  lemma DuplicateLevels(t: Tables, q: Request, sid: Sid)
    requires q.Duplicate? && sid in DuplicateStep(t, q).0.sessions
    requires SecondFactorMethod(DuplicateStep(t, q).0.sessions[sid])
    ensures Traced(t, Events(t, q), sid)
  {
    if q.sid in t.sessions && sid == q.newSid {
      assert Events(t, q) == [Duplicated(q.sid, sid)];
    }
  }

  /** No other session request opens a session at level two: one that is there has been
      there before, with the same method. */
  lemma SessionGoesOn(t: Tables, q: Request, sid: Sid)
    requires IsSessionRequest(q) && !q.Duplicate? && sid in SessionStep(t, q).0.sessions
    requires SecondFactorMethod(SessionStep(t, q).0.sessions[sid])
    ensures sid in t.sessions && SecondFactorMethod(t.sessions[sid]) && !Begun(Events(t, q), sid)
  {
    if q.Signup? {
      SignupSessions(t, q, sid);
    } else if q.FinishReset? || q.FinishPasswordChange? {
      ResetSessions(t, q, sid);
    } else if q.Login? {
      LoginSessions(t, q, sid);
    } else {
      OtherSessions(t, q, sid);
    }
  }

  lemma SignupSessions(t: Tables, q: Request, sid: Sid)
    requires q.Signup? && sid in SignupStep(t, q).0.sessions
    requires SecondFactorMethod(SignupStep(t, q).0.sessions[sid])
    ensures sid in t.sessions && SignupStep(t, q).0.sessions[sid] == t.sessions[sid]
    ensures !Begun(Events(t, q), sid)
  {
  }

  lemma LoginSessions(t: Tables, q: Request, sid: Sid)
    requires q.Login? && sid in LoginStep(t, q).0.sessions
    requires SecondFactorMethod(LoginStep(t, q).0.sessions[sid])
    ensures sid in t.sessions && LoginStep(t, q).0.sessions[sid] == t.sessions[sid]
    ensures !Begun(Events(t, q), sid)
  {
  }

  lemma ResetSessions(t: Tables, q: Request, sid: Sid)
    requires (q.FinishReset? || q.FinishPasswordChange?) && sid in SessionStep(t, q).0.sessions
    requires SecondFactorMethod(SessionStep(t, q).0.sessions[sid])
    ensures sid in t.sessions && SessionStep(t, q).0.sessions[sid] == t.sessions[sid]
    ensures !Begun(Events(t, q), sid)
  {
  }

  lemma OtherSessions(t: Tables, q: Request, sid: Sid)
    requires q.Reauth? || q.VerifyCode? || q.VerifyTokenCode? || q.DestroySession? || q.ResendCode?
    requires sid in SessionStep(t, q).0.sessions
    ensures sid in t.sessions && Events(t, q) == []
    ensures SessionStep(t, q).0.sessions[sid].verificationMethod == t.sessions[sid].verificationMethod
  {
  }

  lemma TracedIsShown(t: Tables, log: seq<Event>, events: seq<Event>, sid: Sid)
    requires LevelsEarned(System(t, log)) && |events| <= 1 && Traced(t, events, sid)
    ensures SecondFactorShown(log + events, sid)
  {
    if events == [] {
      assert log + events == log;
    } else {
      assert (log + events)[..|log|] == log && (log + events)[|log|] == events[0];
    }
  }

  lemma NextKeepsLevelsEarned(s: System, q: Request)
    requires LevelsEarned(s)
    ensures LevelsEarned(Next(s, q))
  {
    forall sid | sid in Next(s, q).tables.sessions && AssuranceLevel(Next(s, q).tables.sessions[sid]) >= 2
      ensures SecondFactorShown(Next(s, q).log, sid)
    {
      StepLevels(s.tables, q, sid);
      TracedIsShown(s.tables, s.log, Events(s.tables, q), sid);
    }
  }

  lemma {:induction false} RunKeepsLevelsEarned(s: System, requests: seq<Request>)
    requires LevelsEarned(s)
    ensures LevelsEarned(Run(s, requests))
    decreases |requests|
  {
    if requests == [] {
    } else {
      NextKeepsLevelsEarned(s, requests[0]);
      RunKeepsLevelsEarned(Next(s, requests[0]), requests[1..]);
    }
  }

  /** On every run a session is at level two only if it, or a session it was duplicated
      from, presented a valid TOTP code or consumed a recovery code. */
  lemma LevelTwoIsEarned(requests: seq<Request>)
    ensures LevelsEarned(Run(START, requests))
  {
    RunKeepsLevelsEarned(START, requests);
  }

  // ---------- Accounts and what belongs to them ----------

  /** Every account holds its primary address; sessions, addresses and TOTP tokens
      belong to accounts; a TOTP token is verified if and only if it is enabled. */
  ghost predicate Consistent(t: Tables) {
    && (forall u :: u in t.accounts ==> t.accounts[u] in t.emails && t.emails[t.accounts[u]].uid == u)
    && (forall a :: a in t.emails ==> t.emails[a].uid in t.accounts)
    && (forall sid :: sid in t.sessions ==> t.sessions[sid].uid in t.accounts)
    && (forall u :: u in t.totp ==> u in t.accounts && t.totp[u].verified == t.totp[u].enabled)
  }

  lemma WithoutAccountIsConsistent(t: Tables, uid: Uid)
    requires Consistent(t)
    ensures Consistent(WithoutAccount(t, uid))
  {
  }

  lemma StepIsConsistent(t: Tables, q: Request)
    requires Consistent(t)
    ensures Consistent(Step(t, q).0)
  {
    if IsSessionRequest(q) {
      SessionStepIsConsistent(t, q);
    } else if IsFactorRequest(q) {
      FactorStepIsConsistent(t, q);
    } else {
      AddressStepIsConsistent(t, q);
    }
  }

  lemma FactorStepIsConsistent(t: Tables, q: Request)
    requires Consistent(t) && IsFactorRequest(q)
    ensures Consistent(FactorStep(t, q).0)
  {
    if q.CreateTotp? {
      CreateTotpIsConsistent(t, q);
    } else if q.VerifyTotp? {
      VerifyTotpIsConsistent(t, q);
    } else if q.VerifyRecoveryCode? {
      VerifyRecoveryCodeIsConsistent(t, q);
    }
  }

  lemma CreateTotpIsConsistent(t: Tables, q: Request)
    requires Consistent(t) && q.CreateTotp?
    ensures Consistent(CreateTotpStep(t, q).0)
  {
  }

  lemma VerifyTotpIsConsistent(t: Tables, q: Request)
    requires Consistent(t) && q.VerifyTotp?
    ensures Consistent(VerifyTotpStep(t, q).0)
  {
  }

  lemma VerifyRecoveryCodeIsConsistent(t: Tables, q: Request)
    requires Consistent(t) && q.VerifyRecoveryCode?
    ensures Consistent(VerifyRecoveryCodeStep(t, q).0)
  {
  }

  lemma SessionStepIsConsistent(t: Tables, q: Request)
    requires Consistent(t) && IsSessionRequest(q)
    ensures Consistent(SessionStep(t, q).0)
  {
    match q {
      case Signup(_, _, _, _, _, _) => SignupIsConsistent(t, q);
      case VerifyCode(_, _) => VerifyCodeIsConsistent(t, q);
      case FinishReset(_, _, _, _, _) => ResetIsConsistent(t, q);
      case FinishPasswordChange(_, _, _, _, _) => ResetIsConsistent(t, q);
      case _ => SessionChangeIsConsistent(t, q);
    }
  }

  lemma ResetIsConsistent(t: Tables, q: Request)
    requires Consistent(t) && (q.FinishReset? || q.FinishPasswordChange?)
    ensures Consistent(SessionStep(t, q).0)
  {
    OnlySessionsChange(t, q);
  }

  lemma SessionChangeIsConsistent(t: Tables, q: Request)
    requires Consistent(t) && IsSessionRequest(q)
    requires !q.Signup? && !q.VerifyCode? && !q.FinishReset? && !q.FinishPasswordChange?
    ensures Consistent(SessionStep(t, q).0)
  {
    OnlySessionsChange(t, q);
    var t' := SessionStep(t, q).0;
    forall sid | sid in t'.sessions
      ensures t'.sessions[sid].uid in t.accounts
    {
    }
  }

  /** Apart from a signup and a followed link, session requests change only sessions. */
  lemma OnlySessionsChange(t: Tables, q: Request)
    requires IsSessionRequest(q) && !q.Signup? && !q.VerifyCode?
    ensures SessionStep(t, q).0 == t.(sessions := SessionStep(t, q).0.sessions)
  {
  }

  lemma VerifyCodeIsConsistent(t: Tables, q: Request)
    requires Consistent(t) && q.VerifyCode?
    ensures Consistent(SessionStep(t, q).0)
  {
  }

  lemma SignupIsConsistent(t: Tables, q: Request)
    requires Consistent(t) && q.Signup?
    ensures Consistent(SessionStep(t, q).0)
  {
    var cleared := ClearForSignup(t, q.email);
    if cleared.Ok? {
      ClearedIsConsistent(t, q.email);
    }
  }

  lemma ClearedIsConsistent(t: Tables, email: Address)
    requires Consistent(t) && ClearForSignup(t, email).Ok?
    ensures Consistent(ClearForSignup(t, email).value) && email !in ClearForSignup(t, email).value.emails
  {
    if email in t.emails {
      WithoutAccountIsConsistent(t, t.emails[email].uid);
    }
  }

  lemma AddressStepIsConsistent(t: Tables, q: Request)
    requires Consistent(t) && IsAddressRequest(q)
    ensures Consistent(AddressStep(t, q).0)
  {
    if q.CreateEmail? {
      CreateEmailIsConsistent(t, q);
    } else if q.VerifySecondary? || q.DestroyEmail? || q.SetPrimary? {
      AddressChangeIsConsistent(t, q);
    } else {
      DeletionIsConsistent(t, q);
    }
  }

  lemma CreateEmailIsConsistent(t: Tables, q: Request)
    requires Consistent(t) && q.CreateEmail?
    ensures Consistent(CreateEmailStep(t, q).0)
  {
    if CreateEmailStep(t, q).1.Ok? {
      var uid := t.sessions[q.sid].uid;
      EmailClearedIsConsistent(t, uid, q.email, q.oldEnough);
      AddedAddressIsConsistent(ClearForEmail(t, uid, q.email, q.oldEnough).value, q.email, uid, q.emailCode);
    }
  }

  lemma EmailClearedIsConsistent(t: Tables, uid: Uid, email: Address, oldEnough: bool)
    requires Consistent(t) && ClearForEmail(t, uid, email, oldEnough).Ok?
    requires uid in t.accounts && t.accounts[uid] != email
    ensures var t' := ClearForEmail(t, uid, email, oldEnough).value;
            Consistent(t') && email !in t'.emails && uid in t'.accounts
  {
    if email in t.emails {
      WithoutAccountIsConsistent(t, t.emails[email].uid);
    }
  }

  lemma AddedAddressIsConsistent(t: Tables, email: Address, uid: Uid, code: string)
    requires Consistent(t) && email !in t.emails && uid in t.accounts
    ensures Consistent(t.(emails := t.emails[email := EmailRow(uid, false, code)]))
  {
  }

  lemma AddressChangeIsConsistent(t: Tables, q: Request)
    requires Consistent(t) && (q.VerifySecondary? || q.DestroyEmail? || q.SetPrimary?)
    ensures Consistent(AddressStep(t, q).0)
  {
  }

  lemma DeletionIsConsistent(t: Tables, q: Request)
    requires Consistent(t) && (q.PollStatus? || q.Bounced? || q.DestroyAccount? || q.OperatorDelete?)
    ensures Consistent(AddressStep(t, q).0)
  {
    var t' := AddressStep(t, q).0;
    if t' != t {
      var uid := if q.PollStatus? then t.sessions[q.sid].uid else if q.Bounced? then t.emails[q.email].uid else q.uid;
      assert t' == WithoutAccount(t, uid);
      WithoutAccountIsConsistent(t, uid);
    }
  }

  lemma {:induction false} RunIsConsistent(s: System, requests: seq<Request>)
    requires Consistent(s.tables)
    ensures Consistent(Run(s, requests).tables)
    decreases |requests|
  {
    if requests == [] {
    } else {
      StepIsConsistent(s.tables, requests[0]);
      RunIsConsistent(Next(s, requests[0]), requests[1..]);
    }
  }
}
