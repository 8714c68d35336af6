/** What the second factor of a login is worth when verification ids travel by mail: whole
    runs of the server in which drawn values are fresh, and a code that was drawn is
    presented only after it has been mailed to somebody. */
module MailGates {
  import opened Wrappers
  import opened Assurance
  import opened SecondFactor
  import opened KeyTokens
  import opened SecondFactorRuns

  /** The server with its history: the events, the values drawn and the mails sent. */
  datatype World = World(vault: Vault, log: seq<Event>, drawn: set<string>, mails: set<Mail>)

  const BOOT := World(Vault(START.tables, map[]), [], {}, {})

  function DrawnFor(q: Request): set<string> {
    if q.Signup? then {q.newSid, q.tvid}
    else if q.Login? then {q.newSid, q.tvid}
    else if q.FinishReset? then {q.newSid, q.tvid}
    else if q.FinishPasswordChange? then {q.newSid, q.tvid}
    else if q.Duplicate? then {q.newSid, q.tvid}
    else if q.CreateEmail? then {q.emailCode}
    else {}
  }

  function Drawn(r: KeyRequest): set<string> {
    match r
    case Plain(q, newKid) => DrawnFor(q) + {newKid}
    case StartPasswordChange(_, newKid) => {newKid}
    case FetchKeys(_) => {}
  }

  function WorldStep(w: World, r: KeyRequest): World {
    match r
    case Plain(q, _) =>
      var t := w.vault.tables;
      World(KeyStep(w.vault, r), w.log + Events(t, q), w.drawn + Drawn(r), w.mails + MailsOf(t, q))
    case _ => w.(vault := KeyStep(w.vault, r), drawn := w.drawn + Drawn(r))
  }

  function WorldRun(w: World, requests: seq<KeyRequest>): World {
    if requests == [] then w
    else WorldStep(WorldRun(w, requests[..|requests| - 1]), requests[|requests| - 1])
  }

  /** The code was never drawn, or was mailed in a link, or is that of an address. */
  predicate LinkKnown(w: World, code: string) {
    || code !in w.drawn
    || (exists m :: m in w.mails && m.Link? && m.id == code)
    || (exists a :: a in w.vault.tables.emails && w.vault.tables.emails[a].emailCode == code)
  }

  predicate ShortCodeKnown(w: World, id: string) {
    id !in w.drawn || (exists m :: m in w.mails && m.ShortCode? && m.id == id)
  }

  /** Draws are fresh, and codes come out of mails. */
  predicate Possible(w: World, r: KeyRequest) {
    && Drawn(r) !! w.drawn
    && (r.Plain? && r.q.VerifyCode? ==> LinkKnown(w, r.q.code))
    && (r.Plain? && r.q.VerifyTokenCode? ==> ShortCodeKnown(w, r.q.tvid))
  }

  // ---------- Everything in use has been drawn ----------

  predicate RecordedTables(t: Tables, drawn: set<string>) {
    && (forall sid :: sid in t.sessions ==>
          sid in drawn && (!TokenVerified(t.sessions[sid]) ==> t.sessions[sid].tokenVerificationId.value in drawn))
    && (forall a :: a in t.emails ==> t.emails[a].emailCode in drawn)
  }

  ghost predicate Recorded(w: World) {
    && Consistent(w.vault.tables) && RecordedTables(w.vault.tables, w.drawn)
    && (forall kid :: kid in w.vault.keys ==> kid in w.drawn)
    && (forall m :: m in w.mails ==> m.id in w.drawn)
  }

  lemma SessionStepIsRecorded(t: Tables, q: Request, drawn: set<string>)
    requires Consistent(t) && RecordedTables(t, drawn) && IsSessionRequest(q)
    ensures RecordedTables(SessionStep(t, q).0, drawn + DrawnFor(q))
  {
    if q.Signup? {
      SignupIsRecorded(t, q, drawn);
    } else if q.FinishReset? || q.FinishPasswordChange? {
      ResetIsRecorded(t, q, drawn);
    } else if q.VerifyCode? || q.VerifyTokenCode? {
      ConfirmingIsRecorded(t, q, drawn);
    } else {
      OthersAreRecorded(t, q, drawn);
    }
  }

  lemma SignupIsRecorded(t: Tables, q: Request, drawn: set<string>)
    requires RecordedTables(t, drawn) && q.Signup?
    ensures RecordedTables(SignupStep(t, q).0, drawn + {q.newSid, q.tvid})
  {
    var cleared := ClearForSignup(t, q.email);
    if cleared.Ok? {
      assert RecordedTables(cleared.value, drawn);
    }
  }

  lemma ResetIsRecorded(t: Tables, q: Request, drawn: set<string>)
    requires RecordedTables(t, drawn) && (q.FinishReset? || q.FinishPasswordChange?)
    ensures RecordedTables(SessionStep(t, q).0, drawn + {q.newSid, q.tvid})
  {
  }

  lemma ConfirmingIsRecorded(t: Tables, q: Request, drawn: set<string>)
    requires RecordedTables(t, drawn) && (q.VerifyCode? || q.VerifyTokenCode?)
    ensures RecordedTables(SessionStep(t, q).0, drawn)
  {
  }

  lemma OthersAreRecorded(t: Tables, q: Request, drawn: set<string>)
    requires RecordedTables(t, drawn)
    requires q.Login? || q.Reauth? || q.Duplicate? || q.DestroySession? || q.ResendCode?
    ensures RecordedTables(SessionStep(t, q).0, drawn + DrawnFor(q))
  {
    OnlySessionsChange(t, q);
  }

  lemma FactorStepIsRecorded(t: Tables, q: Request, drawn: set<string>)
    requires RecordedTables(t, drawn) && IsFactorRequest(q)
    ensures RecordedTables(FactorStep(t, q).0, drawn)
  {
  }

  lemma AddressStepIsRecorded(t: Tables, q: Request, drawn: set<string>)
    requires RecordedTables(t, drawn) && IsAddressRequest(q)
    ensures RecordedTables(AddressStep(t, q).0, drawn + DrawnFor(q))
  {
    if q.CreateEmail? {
      CreateEmailIsRecorded(t, q, drawn);
    } else {
      OtherAddressStepsAreRecorded(t, q, drawn);
    }
  }

  lemma CreateEmailIsRecorded(t: Tables, q: Request, drawn: set<string>)
    requires RecordedTables(t, drawn) && q.CreateEmail?
    ensures RecordedTables(CreateEmailStep(t, q).0, drawn + {q.emailCode})
  {
  }

  lemma OtherAddressStepsAreRecorded(t: Tables, q: Request, drawn: set<string>)
    requires RecordedTables(t, drawn) && IsAddressRequest(q) && !q.CreateEmail?
    ensures RecordedTables(AddressStep(t, q).0, drawn)
  {
  }

  lemma MailsAreRecorded(t: Tables, q: Request, drawn: set<string>)
    requires Consistent(t) && RecordedTables(t, drawn)
    ensures forall m :: m in MailsOf(t, q) ==> m.id in drawn + DrawnFor(q)
  {
  }

  lemma KeysAreRecorded(v: Vault, q: Request, newKid: Kid, kid: Kid)
    requires kid in KeysAfter(v, q, newKid)
    ensures kid in v.keys || kid == newKid
  {
  }

  lemma StepIsRecorded(w: World, r: KeyRequest)
    requires Recorded(w)
    ensures Recorded(WorldStep(w, r))
  {
    if r.Plain? {
      PlainIsRecorded(w, r);
    }
  }

  lemma PlainIsRecorded(w: World, r: KeyRequest)
    requires Recorded(w) && r.Plain?
    ensures Recorded(WorldStep(w, r))
  {
    var t, q := w.vault.tables, r.q;
    StepIsConsistent(t, q);
    TablesAreRecorded(t, q, w.drawn);
    MailsAreRecorded(t, q, w.drawn);
    var w' := WorldStep(w, r);
    assert w'.drawn == w.drawn + DrawnFor(q) + {r.newKid};
    forall kid | kid in w'.vault.keys
      ensures kid in w'.drawn
    {
      KeysAreRecorded(w.vault, q, r.newKid, kid);
    }
  }

  lemma TablesAreRecorded(t: Tables, q: Request, drawn: set<string>)
    requires Consistent(t) && RecordedTables(t, drawn)
    ensures RecordedTables(Step(t, q).0, drawn + DrawnFor(q))
  {
    if IsSessionRequest(q) {
      SessionStepIsRecorded(t, q, drawn);
    } else if IsFactorRequest(q) {
      FactorStepIsRecorded(t, q, drawn);
    } else {
      AddressStepIsRecorded(t, q, drawn);
    }
  }

  lemma {:induction false} RunIsRecorded(w: World, requests: seq<KeyRequest>)
    requires Recorded(w)
    ensures Recorded(WorldRun(w, requests))
  {
    if requests == [] {
    } else {
      RunIsRecorded(w, requests[..|requests| - 1]);
      StepIsRecorded(WorldRun(w, requests[..|requests| - 1]), requests[|requests| - 1]);
    }
  }

  // ---------- The seal on a login ----------

  /** Somebody signs in, in the session that carries the id, as a user who is mailed it:
      one whose own address is unverified, or who has no TOTP and verifies by mail. */
  predicate SignsInElsewhere(t: Tables, q: Request, id: string) {
    && q.Reauth? && q.sid in t.sessions && t.sessions[q.sid].tokenVerificationId == Some(id)
    && q.uid in t.accounts
    && (|| (!EmailVerified(t, q.uid) && VerificationChoice(t, q.uid, q.requested).Ok?)
        || (!HasTotp(t, q.uid) && q.requested in {None, Some(AskEmail), Some(AskEmail2fa)}))
  }

  /** The id is in no mail and is no address's code, and no session but this one carries
      it; this one, while it lives, is the user's and carries it or is at level two. */
  ghost predicate Sealed(w: World, uid: Uid, sid: Sid, id: string) {
    && sid in w.drawn && id in w.drawn
    && (forall m :: m in w.mails ==> m.id != id)
    && SealedTables(w.vault.tables, uid, sid, id)
  }

  ghost predicate SealedTables(t: Tables, uid: Uid, sid: Sid, id: string) {
    && (forall a :: a in t.emails ==> t.emails[a].emailCode != id)
    && (forall x :: x in t.sessions && t.sessions[x].tokenVerificationId == Some(id) ==> x == sid)
    && (sid in t.sessions ==>
          t.sessions[sid].uid == uid && (Carries(t, sid, id) || AssuranceLevel(t.sessions[sid]) == 2))
  }

  predicate Carries(t: Tables, sid: Sid, id: string) {
    sid in t.sessions && t.sessions[sid].tokenVerificationId == Some(id)
  }

  /** What a single request needs to keep the seal: TOTP and a verified address on the
      user's side, and nobody signing in elsewhere. */
  ghost predicate Keeps(w: World, r: KeyRequest, uid: Uid, id: string) {
    && Possible(w, r)
    && HasTotp(w.vault.tables, uid)
    && (r.Plain? ==> !SignsInElsewhere(w.vault.tables, r.q, id))
  }

  lemma MailsKeepTheSeal(t: Tables, q: Request, uid: Uid, sid: Sid, id: string)
    requires Consistent(t) && SealedTables(t, uid, sid, id) && id !in DrawnFor(q)
    requires HasTotp(t, uid) && EmailVerified(t, uid) && !SignsInElsewhere(t, q, id)
    ensures forall m :: m in MailsOf(t, q) ==> m.id != id
  {
    if q.Reauth? {
      ReauthMailsKeepTheSeal(t, q, uid, sid, id);
    } else if q.Login? {
      LoginMailsKeepTheSeal(t, q, uid, sid, id);
    } else if q.ResendCode? {
      ResentMailsKeepTheSeal(t, q, uid, sid, id);
    }
  }

  lemma ReauthMailsKeepTheSeal(t: Tables, q: Request, uid: Uid, sid: Sid, id: string)
    requires Consistent(t) && SealedTables(t, uid, sid, id) && q.Reauth? && !SignsInElsewhere(t, q, id)
    ensures forall m :: m in MailsOf(t, q) ==> m.id != id
  {
  }

  lemma LoginMailsKeepTheSeal(t: Tables, q: Request, uid: Uid, sid: Sid, id: string)
    requires Consistent(t) && SealedTables(t, uid, sid, id) && q.Login? && id != q.tvid
    ensures forall m :: m in MailsOf(t, q) ==> m.id != id
  {
  }

  lemma ResentMailsKeepTheSeal(t: Tables, q: Request, uid: Uid, sid: Sid, id: string)
    requires Consistent(t) && SealedTables(t, uid, sid, id) && q.ResendCode? && HasTotp(t, uid)
    ensures forall m :: m in MailsOf(t, q) ==> m.id != id
  {
  }

  /** The request presents the sealed id as a code. */
  predicate Presents(q: Request, id: string) {
    (q.VerifyCode? && q.code == id) || (q.VerifyTokenCode? && q.tvid == id)
  }

  lemma TablesKeepTheSeal(t: Tables, q: Request, uid: Uid, sid: Sid, id: string)
    requires SealedTables(t, uid, sid, id) && sid !in DrawnFor(q) && id !in DrawnFor(q) && !Presents(q, id)
    ensures SealedTables(Step(t, q).0, uid, sid, id)
    ensures Carries(t, sid, id) && sid in Step(t, q).0.sessions ==>
              Carries(Step(t, q).0, sid, id) || Events(t, q) == [Presented(sid)]
  {
    if IsSessionRequest(q) {
      SessionStepKeepsTheSeal(t, q, uid, sid, id);
    } else if IsFactorRequest(q) {
      FactorStepKeepsTheSeal(t, q, uid, sid, id);
    } else {
      AddressStepKeepsTheSeal(t, q, uid, sid, id);
    }
  }

  lemma SessionStepKeepsTheSeal(t: Tables, q: Request, uid: Uid, sid: Sid, id: string)
    requires SealedTables(t, uid, sid, id) && sid !in DrawnFor(q) && id !in DrawnFor(q) && !Presents(q, id)
    requires IsSessionRequest(q)
    ensures SealedTables(SessionStep(t, q).0, uid, sid, id)
    ensures Carries(t, sid, id) && sid in SessionStep(t, q).0.sessions ==> Carries(SessionStep(t, q).0, sid, id)
  {
    if q.Signup? {
      SignupKeepsTheSeal(t, q, uid, sid, id);
    } else if q.FinishReset? || q.FinishPasswordChange? {
      ResetKeepsTheSeal(t, q, uid, sid, id);
    } else if q.VerifyCode? || q.VerifyTokenCode? {
      ConfirmingKeepsTheSeal(t, q, uid, sid, id);
    } else {
      OthersKeepTheSeal(t, q, uid, sid, id);
    }
  }

  lemma SignupKeepsTheSeal(t: Tables, q: Request, uid: Uid, sid: Sid, id: string)
    requires SealedTables(t, uid, sid, id) && q.Signup? && sid != q.newSid && id != q.tvid
    ensures SealedTables(SignupStep(t, q).0, uid, sid, id)
    ensures Carries(t, sid, id) && sid in SignupStep(t, q).0.sessions ==> Carries(SignupStep(t, q).0, sid, id)
  {
    var cleared := ClearForSignup(t, q.email);
    if cleared.Ok? {
      assert SealedTables(cleared.value, uid, sid, id);
    }
  }

  lemma ResetKeepsTheSeal(t: Tables, q: Request, uid: Uid, sid: Sid, id: string)
    requires SealedTables(t, uid, sid, id) && (q.FinishReset? || q.FinishPasswordChange?)
    requires sid != q.newSid && id != q.tvid
    ensures SealedTables(SessionStep(t, q).0, uid, sid, id)
    ensures Carries(t, sid, id) && sid in SessionStep(t, q).0.sessions ==> Carries(SessionStep(t, q).0, sid, id)
  {
  }

  lemma ConfirmingKeepsTheSeal(t: Tables, q: Request, uid: Uid, sid: Sid, id: string)
    requires SealedTables(t, uid, sid, id) && (q.VerifyCode? || q.VerifyTokenCode?) && !Presents(q, id)
    ensures SealedTables(SessionStep(t, q).0, uid, sid, id)
    ensures Carries(t, sid, id) && sid in SessionStep(t, q).0.sessions ==> Carries(SessionStep(t, q).0, sid, id)
  {
    var u := if q.VerifyCode? then q.uid else if q.sid in t.sessions then t.sessions[q.sid].uid else "";
    var code := if q.VerifyCode? then q.code else q.tvid;
    ConfirmedKeepsTheSeal(t, code, u, uid, sid, id);
  }

  lemma ConfirmedKeepsTheSeal(t: Tables, code: string, u: Uid, uid: Uid, sid: Sid, id: string)
    requires SealedTables(t, uid, sid, id) && code != id
    ensures var t' := t.(sessions := Confirmed(t.sessions, code, u));
            SealedTables(t', uid, sid, id) && (Carries(t, sid, id) ==> Carries(t', sid, id))
  {
  }

  lemma OthersKeepTheSeal(t: Tables, q: Request, uid: Uid, sid: Sid, id: string)
    requires SealedTables(t, uid, sid, id) && sid !in DrawnFor(q) && id !in DrawnFor(q)
    requires q.Login? || q.Reauth? || q.Duplicate? || q.DestroySession? || q.ResendCode?
    ensures SealedTables(SessionStep(t, q).0, uid, sid, id)
    ensures Carries(t, sid, id) && sid in SessionStep(t, q).0.sessions ==> Carries(SessionStep(t, q).0, sid, id)
  {
    OnlySessionsChange(t, q);
  }

  lemma FactorStepKeepsTheSeal(t: Tables, q: Request, uid: Uid, sid: Sid, id: string)
    requires SealedTables(t, uid, sid, id) && IsFactorRequest(q)
    ensures SealedTables(FactorStep(t, q).0, uid, sid, id)
    ensures Carries(t, sid, id) && sid in FactorStep(t, q).0.sessions ==>
              Carries(FactorStep(t, q).0, sid, id) || Events(t, q) == [Presented(sid)]
  {
    if q.VerifyTotp? {
      VerifyTotpKeepsTheSeal(t, q, uid, sid, id);
    } else if q.VerifyRecoveryCode? {
      VerifyRecoveryCodeKeepsTheSeal(t, q, uid, sid, id);
    } else {
      assert FactorStep(t, q).0.sessions == t.sessions && FactorStep(t, q).0.emails == t.emails;
    }
  }

  lemma VerifyTotpKeepsTheSeal(t: Tables, q: Request, uid: Uid, sid: Sid, id: string)
    requires SealedTables(t, uid, sid, id) && q.VerifyTotp?
    ensures SealedTables(VerifyTotpStep(t, q).0, uid, sid, id)
    ensures Carries(t, sid, id) ==> Carries(VerifyTotpStep(t, q).0, sid, id) || Events(t, q) == [Presented(sid)]
  {
  }

  lemma VerifyRecoveryCodeKeepsTheSeal(t: Tables, q: Request, uid: Uid, sid: Sid, id: string)
    requires SealedTables(t, uid, sid, id) && q.VerifyRecoveryCode?
    ensures SealedTables(VerifyRecoveryCodeStep(t, q).0, uid, sid, id)
    ensures Carries(t, sid, id) ==>
              Carries(VerifyRecoveryCodeStep(t, q).0, sid, id) || Events(t, q) == [Presented(sid)]
  {
  }

  lemma AddressStepKeepsTheSeal(t: Tables, q: Request, uid: Uid, sid: Sid, id: string)
    requires SealedTables(t, uid, sid, id) && IsAddressRequest(q) && id !in DrawnFor(q)
    ensures SealedTables(AddressStep(t, q).0, uid, sid, id)
    ensures Carries(t, sid, id) && sid in AddressStep(t, q).0.sessions ==> Carries(AddressStep(t, q).0, sid, id)
  {
    var t' := AddressStep(t, q).0;
    forall x | x in t'.sessions
      ensures x in t.sessions && t'.sessions[x] == t.sessions[x]
    {
      AddressKeepsSessions(t, q, x);
    }
    AddressCodes(t, q, id);
  }

  lemma AddressCodes(t: Tables, q: Request, id: string)
    requires IsAddressRequest(q) && id !in DrawnFor(q)
    requires forall a :: a in t.emails ==> t.emails[a].emailCode != id
    ensures forall a :: a in AddressStep(t, q).0.emails ==> AddressStep(t, q).0.emails[a].emailCode != id
  {
  }

  /** A sealed id is not presented: it was drawn, was not mailed and is no address's code. */
  lemma SealedIdIsNotPresented(w: World, r: KeyRequest, uid: Uid, sid: Sid, id: string)
    requires Sealed(w, uid, sid, id) && Possible(w, r) && r.Plain?
    ensures !Presents(r.q, id)
  {
  }

  lemma StepKeepsTheSeal(w: World, r: KeyRequest, uid: Uid, sid: Sid, id: string)
    requires Recorded(w) && Sealed(w, uid, sid, id) && EmailVerified(w.vault.tables, uid) && Keeps(w, r, uid, id)
    ensures Sealed(WorldStep(w, r), uid, sid, id)
  {
    if r.Plain? {
      SealedIdIsNotPresented(w, r, uid, sid, id);
      TablesKeepTheSeal(w.vault.tables, r.q, uid, sid, id);
      MailsKeepTheSeal(w.vault.tables, r.q, uid, sid, id);
    }
  }

  /** The session has presented a second factor since the first `n` events. */
  predicate ShownSince(w: World, n: nat, sid: Sid) {
    n <= |w.log| && Presented(sid) in w.log[n..]
  }

  /** Neither the session nor the token has been unlocked. */
  predicate StillLocked(v: Vault, uid: Uid, sid: Sid, id: string, kid: Kid) {
    && (sid in v.tables.sessions ==> Carries(v.tables, sid, id))
    && (kid in v.keys ==> v.keys[kid] == KeyToken(uid, Some(id)))
  }

  lemma LockHoldsOrFactorIsShown(w: World, r: KeyRequest, uid: Uid, sid: Sid, id: string, kid: Kid)
    requires Sealed(w, uid, sid, id) && Possible(w, r) && kid in w.drawn
    requires StillLocked(w.vault, uid, sid, id, kid)
    ensures || StillLocked(WorldStep(w, r).vault, uid, sid, id, kid)
            || (r.Plain? && Events(w.vault.tables, r.q) == [Presented(sid)])
  {
    if r.Plain? {
      SealedIdIsNotPresented(w, r, uid, sid, id);
      TablesKeepTheSeal(w.vault.tables, r.q, uid, sid, id);
      if sid !in w.vault.tables.sessions {
        GoneStaysGone(w.vault.tables, r.q, sid);
      }
      TokenStaysLocked(w.vault, r.q, r.newKid, uid, sid, id, kid);
    }
  }

  lemma GoneStaysGone(t: Tables, q: Request, sid: Sid)
    requires sid !in t.sessions && sid !in DrawnFor(q)
    ensures sid !in Step(t, q).0.sessions
  {
    if IsAddressRequest(q) && sid in Step(t, q).0.sessions {
      AddressKeepsSessions(t, q, sid);
    }
  }

  lemma TokenStaysLocked(v: Vault, q: Request, newKid: Kid, uid: Uid, sid: Sid, id: string, kid: Kid)
    requires SealedTables(v.tables, uid, sid, id) && kid != newKid && !Presents(q, id)
    requires kid in v.keys ==> v.keys[kid] == KeyToken(uid, Some(id))
    ensures || (kid in KeysAfter(v, q, newKid) ==> KeysAfter(v, q, newKid)[kid] == KeyToken(uid, Some(id)))
            || Events(v.tables, q) == [Presented(sid)]
  {
    if EndedBy(v.tables, q) == Some(Wait(uid, id)) {
      OnlyAFactorEndsTheWait(v.tables, q, uid, sid, id);
    }
  }

  lemma OnlyAFactorEndsTheWait(t: Tables, q: Request, uid: Uid, sid: Sid, id: string)
    requires SealedTables(t, uid, sid, id) && !Presents(q, id)
    requires EndedBy(t, q) == Some(Wait(uid, id))
    ensures Events(t, q) == [Presented(sid)]
  {
  }

  // ---------- A login under TOTP ----------

  /** Every request of the sequence keeps the seal. */
  ghost predicate KeepsAll(w: World, requests: seq<KeyRequest>, uid: Uid, id: string) {
    forall i :: 0 <= i < |requests| ==> Keeps(WorldRun(w, requests[..i]), requests[i], uid, id)
  }

  /** What holds from the login on, the user having TOTP all the time. */
  ghost predicate Guarded(w: World, n: nat, uid: Uid, sid: Sid, id: string, kid: Kid) {
    && Recorded(w) && Sealed(w, uid, sid, id) && kid in w.drawn && n <= |w.log|
    && (HasTotp(w.vault.tables, uid) ==> EmailVerified(w.vault.tables, uid))
    && (ShownSince(w, n, sid) || StillLocked(w.vault, uid, sid, id, kid))
  }

  lemma StepKeepsGuarded(w: World, r: KeyRequest, n: nat, uid: Uid, sid: Sid, id: string, kid: Kid)
    requires Guarded(w, n, uid, sid, id, kid) && Keeps(w, r, uid, id)
    ensures Guarded(WorldStep(w, r), n, uid, sid, id, kid)
  {
    StepIsRecorded(w, r);
    StepKeepsTheSeal(w, r, uid, sid, id);
    VerifiedOrWithoutTotp(w, r, uid);
    if ShownSince(w, n, sid) {
      LogGrows(w, r, n, sid);
    } else {
      LockHoldsOrFactorIsShown(w, r, uid, sid, id, kid);
      if r.Plain? && Events(w.vault.tables, r.q) == [Presented(sid)] {
        assert WorldStep(w, r).log[|w.log|] == Presented(sid);
        assert WorldStep(w, r).log[n..][|w.log| - n] == Presented(sid);
      }
    }
  }

  lemma LogGrows(w: World, r: KeyRequest, n: nat, sid: Sid)
    requires ShownSince(w, n, sid)
    ensures ShownSince(WorldStep(w, r), n, sid)
  {
    if r.Plain? {
      assert WorldStep(w, r).log[n..] == w.log[n..] + Events(w.vault.tables, r.q);
    }
  }

  /** A verified address stays verified as long as the account is there, without which
      there is no TOTP. */
  lemma VerifiedOrWithoutTotp(w: World, r: KeyRequest, uid: Uid)
    requires Recorded(w) && EmailVerified(w.vault.tables, uid)
    ensures HasTotp(WorldStep(w, r).vault.tables, uid) ==> EmailVerified(WorldStep(w, r).vault.tables, uid)
  {
    if r.Plain? {
      VerifiedStaysVerified(w.vault.tables, r.q, uid);
      if DeletesAccount(w.vault.tables, r.q, uid) {
        DeletedHasNoTotp(w.vault.tables, r.q, uid);
      }
    }
  }

  lemma DeletedHasNoTotp(t: Tables, q: Request, uid: Uid)
    requires uid in t.accounts && DeletesAccount(t, q, uid)
    ensures !HasTotp(Step(t, q).0, uid)
  {
  }

  lemma {:induction false} RunKeepsGuarded(w: World, requests: seq<KeyRequest>, n: nat,
                                           uid: Uid, sid: Sid, id: string, kid: Kid)
    requires Guarded(w, n, uid, sid, id, kid) && KeepsAll(w, requests, uid, id)
    ensures Guarded(WorldRun(w, requests), n, uid, sid, id, kid)
  {
    if requests == [] {
    } else {
      var front := requests[..|requests| - 1];
      forall i | 0 <= i < |front|
        ensures Keeps(WorldRun(w, front[..i]), front[i], uid, id)
      {
        assert front[..i] == requests[..i];
      }
      RunKeepsGuarded(w, front, n, uid, sid, id, kid);
      StepKeepsGuarded(WorldRun(w, front), requests[|front|], n, uid, sid, id, kid);
    }
  }

  /** A login under TOTP of a user with a verified address. */
  ghost predicate GuardedLogin(w: World, q: Request, kid: Kid) {
    && q.Login? && HasTotp(w.vault.tables, q.uid) && EmailVerified(w.vault.tables, q.uid)
    && Possible(w, Plain(q, kid))
  }

  lemma LoginIsGuarded(w: World, q: Request, kid: Kid)
    requires Recorded(w) && GuardedLogin(w, q, kid)
    ensures Guarded(WorldStep(w, Plain(q, kid)), |w.log|, q.uid, q.newSid, q.tvid, kid)
  {
    StepIsRecorded(w, Plain(q, kid));
    LoginSeals(w.vault, q, kid, w.drawn);
    LoginMailsNothing(w.vault.tables, q);
  }

  lemma LoginMailsNothing(t: Tables, q: Request)
    requires q.Login? && HasTotp(t, q.uid) && EmailVerified(t, q.uid)
    ensures MailsOf(t, q) == {}
  {
  }

  lemma LoginSeals(v: Vault, q: Request, kid: Kid, drawn: set<string>)
    requires q.Login? && HasTotp(v.tables, q.uid) && EmailVerified(v.tables, q.uid)
    requires RecordedTables(v.tables, drawn) && kid !in v.keys && q.tvid !in drawn && q.newSid !in drawn
    ensures var v' := KeyStep(v, Plain(q, kid));
            && SealedTables(v'.tables, q.uid, q.newSid, q.tvid) && v'.tables.totp == v.tables.totp
            && EmailVerified(v'.tables, q.uid)
            && StillLocked(v', q.uid, q.newSid, q.tvid, kid)
            && (q.facts.wantsKeys ==> kid in v'.keys)
  {
  }

  /** On every run: after a login under TOTP of a user with a verified address,
      for as long as the user keeps TOTP and nobody who is mailed its id signs in again in
      the new session, that session is gone, or still waits for its id, or is at level
      two; and neither is it verified nor does its key-fetch token open before it has
      presented a valid TOTP code or a recovery code. */
  lemma LoginUnderTotpNeedsFactor(before: seq<KeyRequest>, q: Request, kid: Kid, after: seq<KeyRequest>)
    requires GuardedLogin(WorldRun(BOOT, before), q, kid)
    requires KeepsAll(WorldStep(WorldRun(BOOT, before), Plain(q, kid)), after, q.uid, q.tvid)
    ensures var w := WorldRun(BOOT, before);
            var w' := WorldRun(WorldStep(w, Plain(q, kid)), after);
            var t := w'.vault.tables;
            && (q.newSid in t.sessions ==>
                  && t.sessions[q.newSid].uid == q.uid
                  && (Carries(t, q.newSid, q.tvid) || AssuranceLevel(t.sessions[q.newSid]) == 2))
            && ((q.newSid in t.sessions && TokenVerified(t.sessions[q.newSid])) || Fetchable(w'.vault, kid) ==>
                  ShownSince(w', |w.log|, q.newSid))
  {
    var w := WorldRun(BOOT, before);
    RunIsRecorded(BOOT, before);
    LoginIsGuarded(w, q, kid);
    RunKeepsGuarded(WorldStep(w, Plain(q, kid)), after, |w.log|, q.uid, q.newSid, q.tvid, kid);
  }

  // ---------- Duplicates of the login's session ----------

  /** The session and all that were duplicated from it, directly or through others, in the
      course of these events. */
  function Descendants(log: seq<Event>, sid: Sid): set<Sid> {
    if log == [] then {sid}
    else
      var d := Descendants(log[..|log| - 1], sid);
      match log[|log| - 1]
      case Duplicated(parent, x) => if parent in d then d + {x} else d - {x}
      case Opened(x) => d - {x}
      case Presented(_) => d
  }

  /** The session waits for an id that nobody can know. */
  ghost predicate WaitsSealed(w: World, uid: Uid, x: Sid) {
    && x in w.vault.tables.sessions && !TokenVerified(w.vault.tables.sessions[x])
    && Sealed(w, uid, x, w.vault.tables.sessions[x].tokenVerificationId.value)
  }

  /** Each of these sessions, while it lives, is the user's, and is at level two or waits
      for an id that nobody can know. */
  ghost predicate FamilySealed(w: World, uid: Uid, family: set<Sid>) {
    forall x :: x in family ==> x in w.drawn && MemberSealed(w, uid, x)
  }

  ghost predicate MemberSealed(w: World, uid: Uid, x: Sid) {
    x in w.vault.tables.sessions ==>
      && w.vault.tables.sessions[x].uid == uid
      && (AssuranceLevel(w.vault.tables.sessions[x]) == 2 || WaitsSealed(w, uid, x))
  }

  /** The request is possible, the user has TOTP, and nobody who is mailed its id signs in
      again in a session of the family. */
  ghost predicate KeepsFamily(w: World, r: KeyRequest, uid: Uid, family: set<Sid>) {
    && Possible(w, r)
    && HasTotp(w.vault.tables, uid)
    && (r.Plain? && r.q.Reauth? && r.q.sid in family && r.q.sid in w.vault.tables.sessions
        && !TokenVerified(w.vault.tables.sessions[r.q.sid]) ==>
          !SignsInElsewhere(w.vault.tables, r.q, w.vault.tables.sessions[r.q.sid].tokenVerificationId.value))
  }

  lemma BegunIsDrawn(t: Tables, q: Request, x: Sid)
    requires Begun(Events(t, q), x)
    ensures x in DrawnFor(q)
  {
  }

  /** A session that goes on keeps its user. */
  lemma UserKept(t: Tables, q: Request, x: Sid)
    requires x in t.sessions && x in Step(t, q).0.sessions && x !in DrawnFor(q)
    ensures Step(t, q).0.sessions[x].uid == t.sessions[x].uid
  {
    if IsAddressRequest(q) {
      AddressKeepsSessions(t, q, x);
    } else if IsSessionRequest(q) {
      SessionUserKept(t, q, x);
    } else {
      FactorUserKept(t, q, x);
    }
  }

  lemma SessionUserKept(t: Tables, q: Request, x: Sid)
    requires IsSessionRequest(q) && x in t.sessions && x in SessionStep(t, q).0.sessions && x !in DrawnFor(q)
    ensures SessionStep(t, q).0.sessions[x].uid == t.sessions[x].uid
  {
  }

  lemma FactorUserKept(t: Tables, q: Request, x: Sid)
    requires IsFactorRequest(q) && x in t.sessions && x in FactorStep(t, q).0.sessions
    ensures FactorStep(t, q).0.sessions[x].uid == t.sessions[x].uid
  {
  }

  lemma LevelIsAtMostTwo(s: Session)
    ensures AssuranceLevel(s) <= 2
  {
  }

  lemma MemberStaysSealed(w: World, r: KeyRequest, uid: Uid, family: set<Sid>, x: Sid)
    requires Recorded(w) && FamilySealed(w, uid, family) && x in family
    requires EmailVerified(w.vault.tables, uid) && KeepsFamily(w, r, uid, family)
    ensures MemberSealed(WorldStep(w, r), uid, x)
  {
    var t := w.vault.tables;
    if x !in t.sessions {
      if r.Plain? {
        GoneStaysGone(t, r.q, x);
      }
    } else if WaitsSealed(w, uid, x) {
      WaitingMemberStaysSealed(w, r, uid, family, x);
    } else if r.Plain? && x in Step(t, r.q).0.sessions {
      StrongMemberStaysStrong(t, r.q, x);
    }
  }

  lemma StrongMemberStaysStrong(t: Tables, q: Request, x: Sid)
    requires x in t.sessions && AssuranceLevel(t.sessions[x]) == 2 && x !in DrawnFor(q)
    requires x in Step(t, q).0.sessions
    ensures AssuranceLevel(Step(t, q).0.sessions[x]) == 2 && Step(t, q).0.sessions[x].uid == t.sessions[x].uid
  {
    if Begun(Events(t, q), x) {
      BegunIsDrawn(t, q, x);
    }
    LevelNeverDrops(t, q, x);
    LevelIsAtMostTwo(Step(t, q).0.sessions[x]);
    UserKept(t, q, x);
  }

  lemma WaitingMemberStaysSealed(w: World, r: KeyRequest, uid: Uid, family: set<Sid>, x: Sid)
    requires Recorded(w) && x in family && WaitsSealed(w, uid, x)
    requires EmailVerified(w.vault.tables, uid) && KeepsFamily(w, r, uid, family)
    ensures MemberSealed(WorldStep(w, r), uid, x)
  {
    var id := w.vault.tables.sessions[x].tokenVerificationId.value;
    StepKeepsTheSeal(w, r, uid, x, id);
  }

  /** A duplicate of a member is one. */
  lemma DuplicateIsSealed(w: World, r: KeyRequest, uid: Uid)
    requires Recorded(w) && Possible(w, r) && r.Plain? && r.q.Duplicate? && r.q.sid in w.vault.tables.sessions
    requires MemberSealed(w, uid, r.q.sid)
    ensures MemberSealed(WorldStep(w, r), uid, r.q.newSid)
  {
    var w' := WorldStep(w, r);
    var (s, d) := (w.vault.tables.sessions[r.q.sid], w'.vault.tables.sessions[r.q.newSid]);
    assert d == s.(tokenVerificationId := if TokenVerified(s) then None else Some(r.q.tvid));
    if AssuranceLevel(s) != 2 {
      FreshIdIsSealed(w, r, uid);
    }
  }

  lemma FreshIdIsSealed(w: World, r: KeyRequest, uid: Uid)
    requires Recorded(w) && Possible(w, r) && r.Plain? && r.q.Duplicate? && r.q.sid in w.vault.tables.sessions
    requires w.vault.tables.sessions[r.q.sid].uid == uid && !TokenVerified(w.vault.tables.sessions[r.q.sid])
    ensures WaitsSealed(WorldStep(w, r), uid, r.q.newSid)
  {
  }

  /** What a run keeps from the login on, for the family as far as it has grown. */
  ghost predicate FamilyGuarded(w: World, n: nat, uid: Uid, sid: Sid) {
    && Recorded(w) && n <= |w.log|
    && (HasTotp(w.vault.tables, uid) ==> EmailVerified(w.vault.tables, uid))
    && FamilySealed(w, uid, Descendants(w.log[n..], sid))
    && LevelsEarned(System(w.vault.tables, w.log))
  }

  lemma FamilyGrows(w: World, r: KeyRequest, n: nat, sid: Sid, x: Sid)
    requires n <= |w.log| && x in Descendants(WorldStep(w, r).log[n..], sid)
    ensures || x in Descendants(w.log[n..], sid)
            || (&& r.Plain? && r.q.Duplicate? && x == r.q.newSid
                && r.q.sid in w.vault.tables.sessions && r.q.sid in Descendants(w.log[n..], sid))
  {
    if r.Plain? {
      var events := Events(w.vault.tables, r.q);
      AtMostOneEvent(w.vault.tables, r.q);
      assert WorldStep(w, r).log[n..] == w.log[n..] + events;
      DescendantsGrow(w.log[n..], events, sid, x);
      if x !in Descendants(w.log[n..], sid) {
        DuplicatedBy(w.vault.tables, r.q);
      }
    }
  }

  lemma DescendantsGrow(log: seq<Event>, events: seq<Event>, sid: Sid, x: Sid)
    requires |events| <= 1 && x in Descendants(log + events, sid)
    ensures || x in Descendants(log, sid)
            || (&& events != [] && events[0].Duplicated? && events[0].sid == x
                && events[0].parent in Descendants(log, sid))
  {
    if events == [] {
      assert log + events == log;
    } else {
      assert (log + events)[..|log|] == log;
    }
  }

  lemma DuplicatedBy(t: Tables, q: Request)
    requires Events(t, q) != [] && Events(t, q)[0].Duplicated?
    ensures q.Duplicate? && Events(t, q) == [Duplicated(q.sid, q.newSid)] && q.sid in t.sessions
  {
  }

  lemma EarnedInWorld(w: World, r: KeyRequest)
    requires LevelsEarned(System(w.vault.tables, w.log))
    ensures LevelsEarned(System(WorldStep(w, r).vault.tables, WorldStep(w, r).log))
  {
    if r.Plain? {
      NextKeepsLevelsEarned(System(w.vault.tables, w.log), r.q);
    }
  }

  lemma StepKeepsFamily(w: World, r: KeyRequest, n: nat, uid: Uid, sid: Sid)
    requires FamilyGuarded(w, n, uid, sid) && KeepsFamily(w, r, uid, Descendants(w.log[n..], sid))
    ensures FamilyGuarded(WorldStep(w, r), n, uid, sid)
  {
    StepIsRecorded(w, r);
    VerifiedOrWithoutTotp(w, r, uid);
    EarnedInWorld(w, r);
    var family := Descendants(w.log[n..], sid);
    forall x | x in Descendants(WorldStep(w, r).log[n..], sid)
      ensures x in WorldStep(w, r).drawn && MemberSealed(WorldStep(w, r), uid, x)
    {
      FamilyGrows(w, r, n, sid, x);
      if x in family {
        MemberStaysSealed(w, r, uid, family, x);
      } else {
        DuplicateIsSealed(w, r, uid);
      }
    }
  }

  ghost predicate KeepsFamilyAll(w: World, requests: seq<KeyRequest>, n: nat, uid: Uid, sid: Sid) {
    forall i :: 0 <= i < |requests| ==> KeepsFamilyAt(WorldRun(w, requests[..i]), requests[i], n, uid, sid)
  }

  ghost predicate KeepsFamilyAt(w: World, r: KeyRequest, n: nat, uid: Uid, sid: Sid) {
    n <= |w.log| && KeepsFamily(w, r, uid, Descendants(w.log[n..], sid))
  }

  lemma {:induction false} RunKeepsFamily(w: World, requests: seq<KeyRequest>, n: nat, uid: Uid, sid: Sid)
    requires FamilyGuarded(w, n, uid, sid) && KeepsFamilyAll(w, requests, n, uid, sid)
    ensures FamilyGuarded(WorldRun(w, requests), n, uid, sid)
  {
    if requests == [] {
    } else {
      var front, r := requests[..|requests| - 1], requests[|requests| - 1];
      FrontKeepsFamily(w, requests, n, uid, sid);
      RunKeepsFamily(w, front, n, uid, sid);
      NextKeepsFamily(WorldRun(w, front), r, WorldRun(w, requests), n, uid, sid);
    }
  }

  lemma NextKeepsFamily(w: World, r: KeyRequest, w': World, n: nat, uid: Uid, sid: Sid)
    requires FamilyGuarded(w, n, uid, sid) && KeepsFamilyAt(w, r, n, uid, sid) && w' == WorldStep(w, r)
    ensures FamilyGuarded(w', n, uid, sid)
  {
    StepKeepsFamily(w, r, n, uid, sid);
  }

  lemma {:induction false} FrontKeepsFamily(w: World, requests: seq<KeyRequest>, n: nat, uid: Uid, sid: Sid)
    requires requests != [] && KeepsFamilyAll(w, requests, n, uid, sid)
    ensures var front := requests[..|requests| - 1];
            && KeepsFamilyAll(w, front, n, uid, sid)
            && KeepsFamilyAt(WorldRun(w, front), requests[|front|], n, uid, sid)
  {
    var front := requests[..|requests| - 1];
    forall i | 0 <= i < |front|
      ensures KeepsFamilyAt(WorldRun(w, front[..i]), front[i], n, uid, sid)
    {
      assert front[..i] == requests[..i];
    }
  }

  lemma {:induction false} EarnedOnRuns(requests: seq<KeyRequest>)
    ensures LevelsEarned(System(WorldRun(BOOT, requests).vault.tables, WorldRun(BOOT, requests).log))
  {
    if requests == [] {
    } else {
      EarnedOnRuns(requests[..|requests| - 1]);
      EarnedInWorld(WorldRun(BOOT, requests[..|requests| - 1]), requests[|requests| - 1]);
    }
  }

  lemma LoginStartsTheFamily(w: World, q: Request, kid: Kid)
    requires Recorded(w) && GuardedLogin(w, q, kid) && LevelsEarned(System(w.vault.tables, w.log))
    ensures var w' := WorldStep(w, Plain(q, kid)); FamilyGuarded(w', |w'.log|, q.uid, q.newSid)
  {
    var w' := WorldStep(w, Plain(q, kid));
    LoginIsGuarded(w, q, kid);
    EarnedInWorld(w, Plain(q, kid));
    LoginSessionWaits(w.vault.tables, q);
    assert w'.log[|w'.log|..] == [];
    assert WaitsSealed(w', q.uid, q.newSid);
  }

  lemma LoginSessionWaits(t: Tables, q: Request)
    requires q.Login? && HasTotp(t, q.uid) && EmailVerified(t, q.uid)
    ensures q.newSid in Step(t, q).0.sessions
    ensures Step(t, q).0.sessions[q.newSid].tokenVerificationId == Some(q.tvid)
    ensures Step(t, q).0.sessions[q.newSid].uid == q.uid
    ensures EmailVerified(Step(t, q).0, q.uid)
  {
  }

  /** On every run: of the session opened by a login under TOTP and all sessions that are
      duplicated from it, directly or through others, none is verified before it, or one it
      descends from, has presented a valid TOTP code or a recovery code; for as long as the
      user keeps TOTP and nobody who is mailed its id signs in again in one of them. */
  lemma DuplicatesNeedFactorToo(before: seq<KeyRequest>, q: Request, kid: Kid, after: seq<KeyRequest>)
    requires GuardedLogin(WorldRun(BOOT, before), q, kid)
    requires var w := WorldStep(WorldRun(BOOT, before), Plain(q, kid));
             KeepsFamilyAll(w, after, |w.log|, q.uid, q.newSid)
    ensures var w := WorldStep(WorldRun(BOOT, before), Plain(q, kid));
            var w' := WorldRun(w, after);
            && |w.log| <= |w'.log|
            && forall x :: x in Descendants(w'.log[|w.log|..], q.newSid) && x in w'.vault.tables.sessions ==>
                 var s := w'.vault.tables.sessions[x];
                 && s.uid == q.uid
                 && (TokenVerified(s) ==> AssuranceLevel(s) == 2 && SecondFactorShown(w'.log, x))
  {
    RunIsRecorded(BOOT, before);
    EarnedOnRuns(before);
    LoginStartsTheFamily(WorldRun(BOOT, before), q, kid);
    var w := WorldStep(WorldRun(BOOT, before), Plain(q, kid));
    RunKeepsFamily(w, after, |w.log|, q.uid, q.newSid);
  }

  // ---------- Why the guards are there ----------

  /** The guard is exact: of a session that must be verified, these sign-ins mail the id
      and no others do. */
  lemma SignInMailsTheId(t: Tables, q: Request, id: string)
    requires Consistent(t) && q.Reauth? && Carries(t, q.sid, id) && t.sessions[q.sid].mustVerify
    requires forall a :: a in t.emails ==> t.emails[a].emailCode != id
    ensures SignsInElsewhere(t, q, id) <==> exists m :: m in MailsOf(t, q) && m.id == id
  {
    if SignsInElsewhere(t, q, id) {
      var m := if EmailVerified(t, q.uid) && q.requested == Some(AskEmail2fa) then ShortCode(q.uid, id)
               else Link(q.uid, id);
      assert m in MailsOf(t, q);
    }
  }

  /** The code of such a mail, presented. */
  function Presenting(t: Tables, q: Request, id: string): Request
    requires q.Reauth? && q.sid in t.sessions
  {
    if EmailVerified(t, q.uid) && q.requested == Some(AskEmail2fa) then VerifyTokenCode(q.sid, id)
    else VerifyCode(t.sessions[q.sid].uid, id)
  }

  /** Such a sign-in changes nothing but the mails, and the tokens by a new one. */
  lemma SignInElsewhereLeaves(w: World, q: Request, newKid: Kid, id: string)
    requires q.Reauth? && SignsInElsewhere(w.vault.tables, q, id) && w.vault.tables.sessions[q.sid].mustVerify
    ensures var w' := WorldStep(w, Plain(q, newKid));
            var r := Presenting(w.vault.tables, q, id);
            && w'.vault.tables == w.vault.tables && w'.log == w.log
            && (forall kid :: kid != newKid && kid in w.vault.keys ==>
                  kid in w'.vault.keys && w'.vault.keys[kid] == w.vault.keys[kid])
            && (r.VerifyCode? ==> Link(q.uid, id) in w'.mails)
            && (r.VerifyTokenCode? ==> ShortCode(q.uid, id) in w'.mails)
  {
    var t := w.vault.tables;
    assert Open(t, q.sid, t.sessions[q.sid]) == t;
  }

  lemma CodeVerifies(v: Vault, r: Request, sid: Sid, newKid: Kid, id: string, kid: Kid)
    requires Consistent(v.tables) && Carries(v.tables, sid, id) && newKid != kid
    requires r == VerifyCode(v.tables.sessions[sid].uid, id) || r == VerifyTokenCode(sid, id)
    ensures var s := v.tables.sessions[sid];
            && SessionAt(Step(v.tables, r).0, sid) == Some(s.(tokenVerificationId := None))
            && (kid in v.keys && v.keys[kid] == KeyToken(s.uid, Some(id)) ==>
                  kid in KeysAfter(v, r, newKid) && KeysAfter(v, r, newKid)[kid] == KeyToken(s.uid, None))
            && Events(v.tables, r) == []
  {
  }

  /** The code opens the session and the token, and nobody has shown a second factor. */
  ghost predicate OpenedByCode(w: World, r: Request, newKid: Kid, sid: Sid, s: Session, kid: Kid) {
    var w' := WorldStep(w, Plain(r, newKid));
    && SessionAt(w'.vault.tables, sid) == Some(s.(tokenVerificationId := None))
    && kid in w'.vault.keys && w'.vault.keys[kid] == KeyToken(s.uid, None)
    && w'.log == w.log
  }

  lemma CodeOpens(w: World, r: Request, newKid: Kid, sid: Sid, id: string, kid: Kid)
    requires Consistent(w.vault.tables) && Carries(w.vault.tables, sid, id) && newKid != kid
    requires r == VerifyCode(w.vault.tables.sessions[sid].uid, id) || r == VerifyTokenCode(sid, id)
    requires kid in w.vault.keys && w.vault.keys[kid] == KeyToken(w.vault.tables.sessions[sid].uid, Some(id))
    ensures OpenedByCode(w, r, newKid, sid, w.vault.tables.sessions[sid], kid)
  {
    CodeVerifies(w.vault, r, sid, newKid, id, kid);
  }

  /** One such sign-in is enough: the code of its mail verifies the session without a
      second factor and unlocks the tokens that wait with it. */
  lemma SigningInElsewhereIsEnough(w: World, q: Request, k1: Kid, k2: Kid, id: string, kid: Kid)
    requires Recorded(w) && q.Reauth? && SignsInElsewhere(w.vault.tables, q, id)
    requires w.vault.tables.sessions[q.sid].mustVerify && k1 != kid && k2 != kid && k2 !in w.drawn + {k1}
    requires kid in w.vault.keys && w.vault.keys[kid] == KeyToken(w.vault.tables.sessions[q.sid].uid, Some(id))
    ensures var w' := WorldStep(w, Plain(q, k1));
            var r := Presenting(w.vault.tables, q, id);
            && Possible(w', Plain(r, k2))
            && OpenedByCode(w', r, k2, q.sid, w.vault.tables.sessions[q.sid], kid)
  {
    SignInElsewhereLeaves(w, q, k1, id);
    var w' := WorldStep(w, Plain(q, k1));
    CodeOpens(w', Presenting(w.vault.tables, q, id), k2, q.sid, id, kid);
  }

  // ---------- Runs on which a login under TOTP opens without a factor ----------

  /** The requests, with whatever key-fetch tokens are drawn for them. */
  predicate Plainly(rs: seq<KeyRequest>, qs: seq<Request>) {
    |rs| == |qs| && forall i :: 0 <= i < |rs| ==> rs[i].Plain? && rs[i].q == qs[i]
  }

  /** Another user signs up. */
  function Joining(v: Uid): KeyRequest {
    Plain(Signup("b@example.com", v, true, false, "s3", "c3"), "k3")
  }

  lemma FourRequests(w: World, rs: seq<KeyRequest>)
    requires |rs| == 4
    ensures WorldRun(w, rs) == WorldStep(WorldStep(WorldStep(WorldStep(w, rs[0]), rs[1]), rs[2]), rs[3])
  {
    assert rs[..3][..2] == rs[..2] && rs[..2][..1] == rs[..1] && rs[..1][..0] == [];
    assert WorldRun(w, rs[..1]) == WorldStep(w, rs[0]);
    assert WorldRun(w, rs[..2]) == WorldStep(WorldRun(w, rs[..1]), rs[1]);
    assert WorldRun(w, rs[..3]) == WorldStep(WorldRun(w, rs[..2]), rs[2]);
  }

  lemma SameTables(w: World, s: System, r: KeyRequest)
    requires w.vault.tables == s.tables && r.Plain?
    ensures WorldStep(w, r).vault.tables == Next(s, r.q).tables
  {
  }

  lemma FourSameTables(w: World, s: System, rs: seq<KeyRequest>, qs: seq<Request>)
    requires w.vault.tables == s.tables && |rs| == 4 && Plainly(rs, qs)
    ensures WorldRun(w, rs).vault.tables == Run(s, qs).tables
  {
    FourRequests(w, rs);
    FourSteps(s, qs);
    var (w1, s1) := (WorldStep(w, rs[0]), Next(s, qs[0]));
    SameTables(w, s, rs[0]);
    var (w2, s2) := (WorldStep(w1, rs[1]), Next(s1, qs[1]));
    SameTables(w1, s1, rs[1]);
    SameTables(w2, s2, rs[2]);
    SameTables(WorldStep(w2, rs[2]), Next(s2, qs[2]), rs[3]);
  }

  lemma EnrolledWithTotp(rs: seq<KeyRequest>, u: Uid, preVerified: bool)
    requires Plainly(rs, Enrolment("a@example.com", u, preVerified, "s", {}))
    ensures Enrolled(START.tables, WorldRun(BOOT, rs).vault.tables, "a@example.com", u, preVerified, "s", {})
  {
    EnrolmentWorks(START, "a@example.com", u, preVerified, "s", {});
    FourSameTables(BOOT, START, rs, Enrolment("a@example.com", u, preVerified, "s", {}));
  }

  /** The keys asked for in the login can be fetched after these two requests, though the
      session has presented nothing. */
  ghost predicate OpensWithoutFactor(w: World, q: Request, kid: Kid, r1: KeyRequest, r2: KeyRequest) {
    && q.Login? && HasTotp(w.vault.tables, q.uid) && Possible(w, Plain(q, kid))
    && OpensAfterLogin(WorldStep(w, Plain(q, kid)), q, kid, r1, r2)
  }

  /** The log ends in the login, and so it does after both requests. */
  ghost predicate OpensAfterLogin(w: World, q: Request, kid: Kid, r1: KeyRequest, r2: KeyRequest)
    requires q.Login?
  {
    && w.log != [] && w.log[|w.log| - 1] == SecondFactor.Opened(q.newSid)
    && Possible(w, r1) && WorldStep(w, r1).log == w.log
    && OpensInTheEnd(WorldStep(w, r1), q, kid, r2)
  }

  ghost predicate OpensInTheEnd(w: World, q: Request, kid: Kid, r2: KeyRequest)
    requires q.Login?
  {
    var w' := WorldStep(w, r2);
    && Possible(w, r2) && w'.log == w.log
    && Fetchable(w'.vault, kid) && SessionAt(w'.vault.tables, q.newSid) == Some(Session(q.uid, None, None, true))
  }

  lemma LoginWaits(w: World, q: Request, kid: Kid)
    requires Recorded(w) && q.Login? && q.facts.wantsKeys && HasTotp(w.vault.tables, q.uid)
    requires Possible(w, Plain(q, kid))
    ensures Awaiting(WorldStep(w, Plain(q, kid)), q.uid, q.newSid, q.tvid, kid)
    ensures var w' := WorldStep(w, Plain(q, kid));
            && w'.log == w.log + [SecondFactor.Opened(q.newSid)] && w'.drawn == w.drawn + {q.newSid, q.tvid, kid}
            && (!EmailVerified(w.vault.tables, q.uid) ==> Link(q.uid, q.tvid) in w'.mails)
            && w'.vault.tables == Open(w.vault.tables, q.newSid, Session(q.uid, Some(q.tvid), None, true))
  {
    StepIsRecorded(w, Plain(q, kid));
  }

  /** A session that must be verified and its token wait for the id. */
  ghost predicate Awaiting(w: World, uid: Uid, sid: Sid, id: string, kid: Kid) {
    && Recorded(w)
    && SessionAt(w.vault.tables, sid) == Some(Session(uid, Some(id), None, true))
    && kid in w.vault.keys && w.vault.keys[kid] == KeyToken(uid, Some(id))
  }

  /** The mailed id opens both. */
  lemma LinkOpens(w: World, q: Request, kid: Kid, newKid: Kid, to: Uid)
    requires q.Login? && Awaiting(w, q.uid, q.newSid, q.tvid, kid) && newKid != kid && newKid !in w.drawn
    requires Link(to, q.tvid) in w.mails
    ensures OpensInTheEnd(w, q, kid, Plain(VerifyCode(q.uid, q.tvid), newKid))
  {
    CodeOpens(w, VerifyCode(q.uid, q.tvid), newKid, q.newSid, q.tvid, kid);
    LinkVerifiesAddress(w.vault.tables, q.uid, q.tvid);
  }

  lemma LinkVerifiesAddress(t: Tables, u: Uid, id: string)
    requires Consistent(t) && u in t.accounts && Awaited(t.sessions, id, u)
    ensures EmailVerified(Step(t, VerifyCode(u, id)).0, u)
  {
  }

  /** A user without TOTP signs in again in the unverified session of a user with TOTP, is
      mailed the id of that session, and with it opens the session and its keys. */
  lemma ElsewhereOpens(w: World, q: Request, kid: Kid, v: Uid, k1: Kid, k2: Kid)
    requires GuardedLogin(w, q, kid) && Recorded(w) && q.facts.wantsKeys
    requires !HasTotp(w.vault.tables, v) && EmailVerified(w.vault.tables, v)
    requires {k1, k2} !! w.drawn + {q.newSid, q.tvid, kid} && k1 != k2
    ensures OpensWithoutFactor(w, q, kid, Plain(Reauth(q.newSid, v, false, None), k1),
                               Plain(VerifyCode(q.uid, q.tvid), k2))
  {
    LoginWaits(w, q, kid);
    SignInThenCode(WorldStep(w, Plain(q, kid)), q, kid, v, k1, k2);
  }

  lemma SignInThenCode(w: World, q: Request, kid: Kid, v: Uid, k1: Kid, k2: Kid)
    requires q.Login? && Awaiting(w, q.uid, q.newSid, q.tvid, kid)
    requires w.log != [] && w.log[|w.log| - 1] == SecondFactor.Opened(q.newSid)
    requires !HasTotp(w.vault.tables, v) && EmailVerified(w.vault.tables, v)
    requires {k1, k2} !! w.drawn + {kid} && k1 != k2
    ensures OpensAfterLogin(w, q, kid, Plain(Reauth(q.newSid, v, false, None), k1),
                            Plain(VerifyCode(q.uid, q.tvid), k2))
  {
    var r := Reauth(q.newSid, v, false, None);
    SignInElsewhereLeaves(w, r, k1, q.tvid);
    StepIsRecorded(w, Plain(r, k1));
    LinkOpens(WorldStep(w, Plain(r, k1)), q, kid, k2, v);
  }

  /** A user with TOTP but an unverified address is mailed the id by the login itself, and
      opens the session and its keys with it; asking for it again mails nothing. */
  lemma UnverifiedOpens(w: World, q: Request, kid: Kid, k1: Kid, k2: Kid)
    requires Recorded(w) && q.Login? && q.facts.wantsKeys
    requires HasTotp(w.vault.tables, q.uid) && !EmailVerified(w.vault.tables, q.uid) && Possible(w, Plain(q, kid))
    requires {k1, k2} !! w.drawn + {q.newSid, q.tvid, kid} && k1 != k2
    ensures OpensWithoutFactor(w, q, kid, Plain(ResendCode(q.newSid, None), k1),
                               Plain(VerifyCode(q.uid, q.tvid), k2))
  {
    LoginWaits(w, q, kid);
    ResendThenCode(WorldStep(w, Plain(q, kid)), q, kid, k1, k2);
  }

  lemma ResendThenCode(w: World, q: Request, kid: Kid, k1: Kid, k2: Kid)
    requires q.Login? && Awaiting(w, q.uid, q.newSid, q.tvid, kid) && Link(q.uid, q.tvid) in w.mails
    requires w.log != [] && w.log[|w.log| - 1] == SecondFactor.Opened(q.newSid)
    requires {k1, k2} !! w.drawn + {kid} && k1 != k2
    ensures OpensAfterLogin(w, q, kid, Plain(ResendCode(q.newSid, None), k1),
                            Plain(VerifyCode(q.uid, q.tvid), k2))
  {
    var r := Plain(ResendCode(q.newSid, None), k1);
    StepIsRecorded(w, r);
    LinkOpens(WorldStep(w, r), q, kid, k2, q.uid);
  }

  // ---------- Both from the empty server ----------

  /** After any enrolment with an unverified address. */
  lemma UnverifiedOpensWithoutFactor(rs: seq<KeyRequest>, q: Request, kid: Kid, k1: Kid, k2: Kid)
    requires q.Login? && q.facts.wantsKeys && Plainly(rs, Enrolment("a@example.com", q.uid, false, "s", {}))
    requires Possible(WorldRun(BOOT, rs), Plain(q, kid))
    requires {k1, k2} !! WorldRun(BOOT, rs).drawn + {q.newSid, q.tvid, kid} && k1 != k2
    ensures OpensWithoutFactor(WorldRun(BOOT, rs), q, kid, Plain(ResendCode(q.newSid, None), k1),
                               Plain(VerifyCode(q.uid, q.tvid), k2))
  {
    EnrolledWithTotp(rs, q.uid, false);
    RunIsRecorded(BOOT, rs);
    UnverifiedOpens(WorldRun(BOOT, rs), q, kid, k1, k2);
  }

  lemma JoinedRun(w: World, u: Uid, v: Uid)
    requires u != v && Recorded(w) && Enrolled(START.tables, w.vault.tables, "a@example.com", u, true, "s", {})
    ensures var t := WorldStep(w, Joining(v)).vault.tables;
            HasTotp(t, u) && EmailVerified(t, u) && !HasTotp(t, v) && EmailVerified(t, v)
  {
  }

  /** After any enrolment with a verified address, and another user's signup. */
  lemma ElsewhereOpensWithoutFactor(rs: seq<KeyRequest>, q: Request, kid: Kid, v: Uid, k1: Kid, k2: Kid)
    requires q.Login? && q.facts.wantsKeys && q.uid != v
    requires Plainly(rs, Enrolment("a@example.com", q.uid, true, "s", {}))
    requires Possible(WorldRun(BOOT, rs + [Joining(v)]), Plain(q, kid))
    requires {k1, k2} !! WorldRun(BOOT, rs + [Joining(v)]).drawn + {q.newSid, q.tvid, kid} && k1 != k2
    ensures var w := WorldRun(BOOT, rs + [Joining(v)]);
            && GuardedLogin(w, q, kid)
            && OpensWithoutFactor(w, q, kid, Plain(Reauth(q.newSid, v, false, None), k1),
                                  Plain(VerifyCode(q.uid, q.tvid), k2))
  {
    var all := rs + [Joining(v)];
    assert all[..|all| - 1] == rs;
    EnrolledWithTotp(rs, q.uid, true);
    RunIsRecorded(BOOT, rs);
    RunIsRecorded(BOOT, all);
    JoinedRun(WorldRun(BOOT, rs), q.uid, v);
    ElsewhereOpens(WorldRun(BOOT, all), q, kid, v, k1, k2);
  }

  // ---------- Codes of verified addresses ----------

  /** An address given is mailed its code again if and only if it is the session user's,
      verified or not. */
  lemma WhatIsMailedAgain(t: Tables, q: Request)
    requires q.ResendCode? && q.given.Some? && q.sid in t.sessions
    ensures MailsOf(t, q) ==
              if q.given.value in t.emails && t.emails[q.given.value].uid == t.sessions[q.sid].uid
              then {Link(t.sessions[q.sid].uid, t.emails[q.given.value].emailCode)} else {}
  {
  }

  /** Right after a signup with a verified address its code can be had again. */
  lemma VerifiedAddressIsMailedAgain(u: Uid)
    ensures var a := "a@example.com";
            var t := Step(START.tables, Signup(a, u, true, false, "s", "c")).0;
            && a in t.emails && t.emails[a].isVerified
            && MailsOf(t, ResendCode("s", Some(a))) == {Link(u, "c")}
  {
    var a := "a@example.com";
    WhatIsMailedAgain(Step(START.tables, Signup(a, u, true, false, "s", "c")).0, ResendCode("s", Some(a)));
  }
}
