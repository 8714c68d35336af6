/** Sessions and the assurance level their verification amounts to. */
module Assurance {
  import opened Wrappers

  type Uid = string

  datatype Method = EmailMethod | Email2fa | Totp2fa | RecoveryCodeMethod

  /** What a client may ask a login to be verified by. */
  datatype Requested = AskEmail | AskEmail2fa | AskEmailCaptcha | AskTotp2fa

  /** A session row; the verification method is stored as a number. */
  datatype Session = Session(
    uid: Uid,
    tokenVerificationId: Option<string>,
    verificationMethod: Option<nat>,
    mustVerify: bool)

  predicate TokenVerified(s: Session) { s.tokenVerificationId.None? }

  /** The method a stored number stands for. Zero, the number of the plain e-mail
      method, counts as no method when a token is rebuilt; so does an unknown number. */
  function MethodValue(s: Session): Option<Method> {
    match s.verificationMethod
    case None => None
    case Some(n) =>
      if n == 1 then Some(Email2fa) else if n == 2 then Some(Totp2fa)
      else if n == 3 then Some(RecoveryCodeMethod) else None
  }

  function MethodNumber(m: Method): nat {
    match m
    case EmailMethod => 0
    case Email2fa => 1
    case Totp2fa => 2
    case RecoveryCodeMethod => 3
  }

  datatype Amr = Pwd | EmailAmr | Otp

  datatype Factor = Know | Have

  function MethodToAmr(m: Method): Amr {
    if m.Totp2fa? || m.RecoveryCodeMethod? then Otp else EmailAmr
  }

  function AmrFactor(a: Amr): Factor {
    if a.Otp? then Have else Know
  }

  function AuthenticationMethods(s: Session): set<Amr> {
    {Pwd} +
    if MethodValue(s).Some? then {MethodToAmr(MethodValue(s).value)}
    else if TokenVerified(s) then {EmailAmr} else {}
  }

  /** One for each kind of factor among the methods. */
  function LevelOf(amrValues: set<Amr>): nat {
    (if Pwd in amrValues || EmailAmr in amrValues then 1 else 0) + (if Otp in amrValues then 1 else 0)
  }

  function AssuranceLevel(s: Session): nat {
    LevelOf(AuthenticationMethods(s))
  }

  predicate SecondFactorMethod(s: Session) {
    MethodValue(s) == Some(Totp2fa) || MethodValue(s) == Some(RecoveryCodeMethod)
  }

  /** The level is two with a TOTP or recovery-code verification, and one otherwise,
      whether or not the session is verified. */
  lemma LevelMeaning(s: Session)
    ensures AssuranceLevel(s) == if SecondFactorMethod(s) then 2 else 1
    ensures AssuranceLevel(s) == |set a | a in AuthenticationMethods(s) :: AmrFactor(a)|
  {
    LevelCountsFactors(AuthenticationMethods(s));
  }

  lemma LevelCountsFactors(amrValues: set<Amr>)
    ensures LevelOf(amrValues) == |set a | a in amrValues :: AmrFactor(a)|
  {
    var factors := set a | a in amrValues :: AmrFactor(a);
    var known := if Pwd in amrValues || EmailAmr in amrValues then {Know} else {};
    var had := if Otp in amrValues then {Have} else {};
    if Pwd in amrValues {
      assert AmrFactor(Pwd) in factors;
    }
    if EmailAmr in amrValues {
      assert AmrFactor(EmailAmr) in factors;
    }
    if Otp in amrValues {
      assert AmrFactor(Otp) in factors;
    }
    assert factors == known + had;
  }

  /** The level computed by collecting the factors one by one. */
  method MaximumAssuranceLevel(amrValues: set<Amr>) returns (level: nat)
    ensures level == LevelOf(amrValues)
  {
    var types: set<Factor> := {};
    var rest := amrValues;
    while rest != {}
      invariant rest <= amrValues
      invariant types == set a | a in amrValues - rest :: AmrFactor(a)
      decreases |rest|
    {
      var a :| a in rest;
      types := types + {AmrFactor(a)};
      rest := rest - {a};
    }
    assert amrValues - {} == amrValues;
    LevelCountsFactors(amrValues);
    return |types|;
  }

  datatype Status = Verified | Unverified(through: Requested, signup: bool)

  /** How a session presents itself after a login, given whether the primary address of
      its account is verified. */
  function VerificationStatus(s: Session, emailVerified: bool, requested: Option<Requested>): Status {
    if !emailVerified then Unverified(AskEmail, true)
    else if s.mustVerify && !TokenVerified(s)
    then Unverified(if requested.Some? then requested.value else AskEmail, false)
    else Verified
  }
}
