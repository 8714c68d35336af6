/** Key-fetch tokens and verification mails: what the requests on sessions and accounts do
    beside changing these. */
module KeyTokens {
  import opened Wrappers
  import opened Assurance
  import opened SecondFactor

  // ---------- Key-fetch tokens ----------

  type Kid = string

  /** A key-fetch token is locked while something waits for its verification id. */
  datatype KeyToken = KeyToken(uid: Uid, tokenVerificationId: Option<string>)

  datatype Vault = Vault(tables: Tables, keys: map<Kid, KeyToken>)

  /** `newKid` is the token drawn if the request mints one. */
  datatype KeyRequest =
    | Plain(q: Request, newKid: Kid)
    | StartPasswordChange(uid: Uid, newKid: Kid)
    | FetchKeys(kid: Kid)

  function WithoutKeysOf(keys: map<Kid, KeyToken>, uid: Uid): map<Kid, KeyToken> {
    map k | k in keys && keys[k].uid != uid :: keys[k]
  }

  /** Ending the wait for a verification id opens the tokens of its user that carry it. */
  function Unlocked(keys: map<Kid, KeyToken>, uid: Uid, id: string): map<Kid, KeyToken> {
    map k | k in keys :: if keys[k] == KeyToken(uid, Some(id)) then KeyToken(uid, None) else keys[k]
  }

  /** The user whose account the request deletes, or whose tokens it ends by a reset. */
  function Dropped(t: Tables, q: Request): Option<Uid> {
    if q.Signup? then
      if IsPrimary(t, q.email) && !t.emails[q.email].isVerified then Some(t.emails[q.email].uid) else None
    else if q.CreateEmail? then
      if IsPrimary(t, q.email) && CreateEmailStep(t, q).1.Ok? then Some(t.emails[q.email].uid) else None
    else if q.PollStatus? then
      if q.sid in t.sessions && !q.validAddress && !EmailVerified(t, t.sessions[q.sid].uid)
      then Some(t.sessions[q.sid].uid) else None
    else if q.Bounced? then
      if q.email in t.emails && q.recent && !EmailVerified(t, t.emails[q.email].uid)
      then Some(t.emails[q.email].uid) else None
    else if q.DestroyAccount? then if DestroyAccountStep(t, q).1.Ok? then Some(q.uid) else None
    else if q.OperatorDelete? then if q.uid in t.accounts then Some(q.uid) else None
    else if q.FinishReset? then if q.uid in t.accounts then Some(q.uid) else None
    else if q.FinishPasswordChange? then if FinishPasswordChangeStep(t, q).1.Ok? then Some(q.uid) else None
    else None
  }

  datatype Wait = Wait(uid: Uid, id: string)

  /** The user and the verification id whose wait the request ends. */
  function EndedBy(t: Tables, q: Request): Option<Wait> {
    if q.VerifyCode? then
      if q.uid in t.accounts && Awaited(t.sessions, q.code, q.uid) then Some(Wait(q.uid, q.code)) else None
    else if q.VerifyTokenCode? then
      if q.sid in t.sessions && Awaited(t.sessions, q.tvid, t.sessions[q.sid].uid)
      then Some(Wait(t.sessions[q.sid].uid, q.tvid)) else None
    else if q.VerifyTotp? then
      if VerifyTotpStep(t, q).1.Ok? && q.isValidCode && AssuranceLevel(t.sessions[q.sid]) <= 1
      then WaitOf(t.sessions[q.sid]) else None
    else if q.VerifyRecoveryCode? then
      if VerifyRecoveryCodeStep(t, q).1.Ok? then WaitOf(t.sessions[q.sid]) else None
    else None
  }

  function WaitOf(s: Session): Option<Wait> {
    if TokenVerified(s) then None else Some(Wait(s.uid, s.tokenVerificationId.value))
  }

  /** The token a successful request mints when the client asked for keys. */
  function Minted(t: Tables, q: Request): Option<KeyToken> {
    if q.Signup? then
      if q.wantsKeys && SignupStep(t, q).1.Ok?
      then Some(KeyToken(q.uid, if q.preVerified then None else Some(q.tvid))) else None
    else if q.Login? then
      if q.facts.wantsKeys && LoginStep(t, q).1.Ok?
      then Some(KeyToken(q.uid, LoginStep(t, q).0.sessions[q.newSid].tokenVerificationId)) else None
    else if q.Reauth? then
      if q.wantsKeys && ReauthStep(t, q).1.Ok?
      then Some(KeyToken(q.uid, t.sessions[q.sid].tokenVerificationId)) else None
    else if q.FinishReset? then
      if q.wantsKeys && FinishResetStep(t, q).1.Ok?
      then Some(KeyToken(q.uid, if HasTotp(t, q.uid) then Some(q.tvid) else None)) else None
    else if q.FinishPasswordChange? then
      if q.wantsKeys && FinishPasswordChangeStep(t, q).1.Ok? then Some(KeyToken(q.uid, None)) else None
    else None
  }

  function KeysAfter(v: Vault, q: Request, newKid: Kid): map<Kid, KeyToken> {
    var dropped := Dropped(v.tables, q);
    var ended := EndedBy(v.tables, q);
    var minted := Minted(v.tables, q);
    var live := if dropped.Some? then WithoutKeysOf(v.keys, dropped.value) else v.keys;
    var unlocked := if ended.Some? then Unlocked(live, ended.value.uid, ended.value.id) else live;
    if minted.Some? then unlocked[newKid := minted.value] else unlocked
  }

  /** Whether the token hands out its bundle now. */
  predicate Fetchable(v: Vault, kid: Kid) {
    kid in v.keys && v.keys[kid].tokenVerificationId.None? && EmailVerified(v.tables, v.keys[kid].uid)
  }

  function KeyStep(v: Vault, r: KeyRequest): Vault {
    match r
    case Plain(q, newKid) => Vault(Step(v.tables, q).0, KeysAfter(v, q, newKid))
    case StartPasswordChange(uid, newKid) =>
      if uid in v.tables.accounts then v.(keys := v.keys[newKid := KeyToken(uid, None)]) else v
    case FetchKeys(kid) => if Fetchable(v, kid) then v.(keys := v.keys - {kid}) else v
  }

  // ---------- Verification mails ----------

  /** A link with a code, or a short code that stands for a verification id, in the
      mailbox of a user. */
  datatype Mail = Link(to: Uid, id: string) | ShortCode(to: Uid, id: string)

  /** The mail of a sign-in as a user, in a session that need not be that user's: the
      account's verification while its address is unverified, and otherwise the
      session's, by the chosen method, if it must be verified. */
  function SigninMails(t: Tables, uid: Uid, s: Session, choice: Option<Requested>): set<Mail> {
    if !EmailVerified(t, uid) then {Link(uid, s.tokenVerificationId.GetOr(AccountCode(t, uid)))}
    else if s.mustVerify && !TokenVerified(s) then
      match choice
      case None => {Link(uid, s.tokenVerificationId.value)}
      case Some(AskEmail) => {Link(uid, s.tokenVerificationId.value)}
      case Some(AskEmail2fa) => {ShortCode(uid, s.tokenVerificationId.value)}
      case Some(AskEmailCaptcha) => {}
      case Some(AskTotp2fa) => {}
    else {}
  }

  /** What is mailed again: the code of the address given, or else that of the session,
      unless its user has TOTP, or else that of the account. */
  function ResentMails(t: Tables, q: Request): set<Mail>
    requires q.ResendCode? && ResendCodeStep(t, q).1.Ok?
  {
    var s := t.sessions[q.sid];
    if q.given.Some? then {Link(s.uid, t.emails[q.given.value].emailCode)}
    else if EmailVerified(t, s.uid) && TokenVerified(s) then {}
    else if TokenVerified(s) then {Link(s.uid, AccountCode(t, s.uid))}
    else if HasTotp(t, s.uid) then {}
    else {Link(s.uid, s.tokenVerificationId.value)}
  }

  function MailsOf(t: Tables, q: Request): set<Mail> {
    if q.Signup? then
      if SignupStep(t, q).1.Ok? && !q.preVerified then {Link(q.uid, q.tvid)} else {}
    else if q.Login? then
      if LoginStep(t, q).1.Ok?
      then SigninMails(t, q.uid, LoginStep(t, q).0.sessions[q.newSid],
                       VerificationChoice(t, q.uid, q.facts.requested).value)
      else {}
    else if q.Reauth? then
      if ReauthStep(t, q).1.Ok?
      then SigninMails(t, q.uid, ReauthStep(t, q).0.sessions[q.sid],
                       VerificationChoice(t, q.uid, q.requested).value)
      else {}
    else if q.ResendCode? then
      if ResendCodeStep(t, q).1.Ok? then ResentMails(t, q) else {}
    else if q.CreateEmail? then
      if CreateEmailStep(t, q).1.Ok? then {Link(t.sessions[q.sid].uid, q.emailCode)} else {}
    else {}
  }
}
