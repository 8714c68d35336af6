/** The user's keys over the life of an account: creation, logins, password changes
    and resets, against the account table of the database. */
module AccountKeys {
  import opened Wrappers
  import opened Bytes
  import opened KeyWrapping

  type Uid = string

  datatype Account = Account(
    kA: Key32,
    wrapWrapKb: Key32,
    authSalt: Key32,
    verifierVersion: Version,
    verifyHash: Buffer)

  datatype LoginError = UnknownAccount | MustResetAccount | IncorrectPassword

  /** What a key-fetch token request is answered with: the seed goes to the client,
      the bundle is kept for whoever presents it. */
  datatype KeyFetch = KeyFetch(seed: Key32, keyBundle: Buffer)

  // ---------- The operations on one account ----------

  function StretchFor(c: Crypto, a: Account, authPW: Key32): Buffer {
    Stretch(c, authPW, a.authSalt, a.verifierVersion)
  }

  function Rekeyed(c: Crypto, a: Account, v: Version, authPW: Key32, salt: Key32, wrapWrapKb: Key32): Account {
    Account(a.kA, wrapWrapKb, salt, v, VerifyHash(c, Stretch(c, authPW, salt, v)))
  }

  function Created(c: Crypto, v: Version, authPW: Key32, salt: Key32, kA: Key32, wrapWrapKb: Key32): Account {
    Account(kA, wrapWrapKb, salt, v, VerifyHash(c, Stretch(c, authPW, salt, v)))
  }

  function PasswordError(c: Crypto, a: Account, authPW: Key32): Option<LoginError> {
    if a.authSalt == Ones() then Some(MustResetAccount)
    else if VerifyHash(c, StretchFor(c, a, authPW)) != a.verifyHash then Some(IncorrectPassword)
    else None
  }

  function FetchedBy(c: Crypto, a: Account, authPW: Key32, seed: Key32): KeyFetch
    requires WellFormed(c)
  {
    KeyFetch(seed, KeyBundle(c, seed, a.kA, Wrap(c, StretchFor(c, a, authPW), a.wrapWrapKb)))
  }

  /** What happens to an existing account: all but `MustReset`, which is an operator's, is
      the user's doing. */
  datatype Op =
    | Change(version: Version, authPW: Key32, salt: Key32, wrapKb: Key32)
    | ResetWithKey(version: Version, authPW: Key32, salt: Key32, wrapKb: Key32)
    | ResetWithoutKey(version: Version, authPW: Key32, salt: Key32, random: Key32)
    | MustReset(random: Key32)
    | Attempt(authPW: Key32)

  function Apply(c: Crypto, a: Account, op: Op): Account
    requires WellFormed(c)
  {
    match op
    case Change(v, pw, salt, wrapKb) => Rekeyed(c, a, v, pw, salt, Wrap(c, Stretch(c, pw, salt, v), wrapKb))
    case ResetWithKey(v, pw, salt, wrapKb) => Rekeyed(c, a, v, pw, salt, Wrap(c, Stretch(c, pw, salt, v), wrapKb))
    case ResetWithoutKey(v, pw, salt, random) => Rekeyed(c, a, v, pw, salt, random)
    case MustReset(random) => Account(a.kA, random, Ones(), ScryptVersion, Ones())
    case Attempt(_) => a
  }

  // ---------- The database and the handlers ----------

  /** The account columns of the auth database that concern keys, and the calls on them. */
  class AccountTable {
    var accounts: map<Uid, Account>

    constructor ()
      ensures accounts == map[]
    {
      accounts := map[];
    }

    method CreateAccount(uid: Uid, a: Account)
      modifies this
      ensures accounts == old(accounts)[uid := a]
    {
      accounts := accounts[uid := a];
    }

    method GetAccount(uid: Uid) returns (r: Option<Account>)
      ensures r == if uid in accounts then Some(accounts[uid]) else None
    {
      r := if uid in accounts then Some(accounts[uid]) else None;
    }

    method CheckPassword(uid: Uid, verifyHash: Buffer) returns (matches: bool)
      ensures matches <==> uid in accounts && accounts[uid].verifyHash == verifyHash
    {
      matches := uid in accounts && accounts[uid].verifyHash == verifyHash;
    }

    method ResetAccount(uid: Uid, verifyHash: Buffer, authSalt: Key32, wrapWrapKb: Key32, version: Version)
      requires uid in accounts
      modifies this
      ensures accounts == old(accounts)[uid :=
                Account(old(accounts)[uid].kA, wrapWrapKb, authSalt, version, verifyHash)]
    {
      accounts := accounts[uid := Account(accounts[uid].kA, wrapWrapKb, authSalt, version, verifyHash)];
    }
  }

  method CreateAccountKeys(c: Crypto, db: AccountTable, uid: Uid, v: Version, authPW: Key32, salt: Key32,
                       kA: Key32, wrapWrapKb: Key32, seed: Key32) returns (r: KeyFetch)
    requires WellFormed(c)
    modifies db
    ensures db.accounts == old(db.accounts)[uid := Created(c, v, authPW, salt, kA, wrapWrapKb)]
    ensures r == FetchedBy(c, db.accounts[uid], authPW, seed)
  {
    var stretched := Stretch(c, authPW, salt, v);
    var account := Account(kA, wrapWrapKb, salt, v, VerifyHash(c, stretched));
    db.CreateAccount(uid, account);
    var wrapKb := Wrap(c, stretched, account.wrapWrapKb);
    r := KeyFetch(seed, KeyBundle(c, seed, account.kA, wrapKb));
  }

  /** The submission hashes to what is stored. */
  predicate Matches(c: Crypto, a: Account, authPW: Key32) {
    var stretched := if a.verifierVersion.XorVersion? then Xor(authPW, a.authSalt) else c.scrypt(authPW, a.authSalt);
    c.hkdf(stretched, "verifyHash", 32) == a.verifyHash
  }

  /** Login and password change both start here: check the password, hand out keys. */
  method FetchKeys(c: Crypto, db: AccountTable, uid: Uid, authPW: Key32, seed: Key32)
    returns (r: Result<KeyFetch, LoginError>)
    requires WellFormed(c)
    ensures r == if uid !in db.accounts then Err(UnknownAccount)
                 else var a := db.accounts[uid];
                      var e := PasswordError(c, a, authPW);
                      if e.Some? then Err(e.value) else Ok(FetchedBy(c, a, authPW, seed))
    ensures r == Err(UnknownAccount) <==> uid !in db.accounts
    ensures r == Err(MustResetAccount) <==> uid in db.accounts && db.accounts[uid].authSalt == Ones()
    ensures r == Err(IncorrectPassword) <==>
              && uid in db.accounts && db.accounts[uid].authSalt != Ones()
              && !Matches(c, db.accounts[uid], authPW)
    ensures r.Ok? <==> uid in db.accounts && db.accounts[uid].authSalt != Ones() && Matches(c, db.accounts[uid], authPW)
    ensures r.Ok? ==> r.value.seed == seed
    ensures r.Ok? ==> UnbundleKeys(c, seed, r.value.keyBundle) ==
                        Some(Keys(db.accounts[uid].kA,
                                  Wrap(c, StretchFor(c, db.accounts[uid], authPW), db.accounts[uid].wrapWrapKb)))
  {
    var account := db.GetAccount(uid);
    if account.None? {
      return Err(UnknownAccount);
    }
    var a := account.value;
    var isReset := BuffersAreEqual(a.authSalt, Ones());
    if isReset {
      return Err(MustResetAccount);
    }
    var stretched := Stretch(c, authPW, a.authSalt, a.verifierVersion);
    var matched := db.CheckPassword(uid, VerifyHash(c, stretched));
    if !matched {
      return Err(IncorrectPassword);
    }
    var wrapKb := Wrap(c, stretched, a.wrapWrapKb);
    KeyBundleRoundTrip(c, seed, a.kA, wrapKb);
    return Ok(KeyFetch(seed, KeyBundle(c, seed, a.kA, wrapKb)));
  }

  /** The end of a password change: the submitted key is wrapped with the new password. */
  method RewrapKeys(c: Crypto, db: AccountTable, uid: Uid, v: Version, authPW: Key32, salt: Key32,
                        wrapKb: Key32, seed: Key32) returns (r: KeyFetch)
    requires WellFormed(c) && uid in db.accounts
    modifies db
    ensures db.accounts == old(db.accounts)[uid := Apply(c, old(db.accounts)[uid], Change(v, authPW, salt, wrapKb))]
    ensures r == KeyFetch(seed, KeyBundle(c, seed, old(db.accounts)[uid].kA, wrapKb))
  {
    var stretched := Stretch(c, authPW, salt, v);
    var wrapWrapKb := Wrap(c, stretched, wrapKb);
    db.ResetAccount(uid, VerifyHash(c, stretched), salt, wrapWrapKb, v);
    r := KeyFetch(seed, KeyBundle(c, seed, db.accounts[uid].kA, wrapKb));
  }

  /** A reset, with the old key recovered by the client or with a new random one. */
  method ResetKeys(c: Crypto, db: AccountTable, uid: Uid, v: Version, authPW: Key32, salt: Key32,
                      recovered: Option<Key32>, random: Key32, seed: Key32) returns (r: KeyFetch)
    requires WellFormed(c) && uid in db.accounts
    modifies db
    ensures db.accounts == old(db.accounts)[uid :=
              Apply(c, old(db.accounts)[uid], if recovered.Some? then ResetWithKey(v, authPW, salt, recovered.value)
                                           else ResetWithoutKey(v, authPW, salt, random))]
    ensures var wrapKb := if recovered.Some? then recovered.value else Wrap(c, Stretch(c, authPW, salt, v), random);
            r == KeyFetch(seed, KeyBundle(c, seed, old(db.accounts)[uid].kA, wrapKb))
  {
    var stretched := Stretch(c, authPW, salt, v);
    var wrapKb, wrapWrapKb;
    if recovered.Some? {
      wrapKb := recovered.value;
      wrapWrapKb := Wrap(c, stretched, wrapKb);
    } else {
      wrapWrapKb := random;
      wrapKb := Wrap(c, stretched, wrapWrapKb);
    }
    db.ResetAccount(uid, VerifyHash(c, stretched), salt, wrapWrapKb, v);
    r := KeyFetch(seed, KeyBundle(c, seed, db.accounts[uid].kA, wrapKb));
  }

  /** The operators' script that makes a password unusable: salt and hash are all ones. */
  method MustResetScript(c: Crypto, db: AccountTable, uid: Uid, random: Key32)
    requires WellFormed(c) && uid in db.accounts
    modifies db
    ensures db.accounts == old(db.accounts)[uid := Apply(c, old(db.accounts)[uid], MustReset(random))]
    ensures forall pw :: PasswordError(c, db.accounts[uid], pw) == Some(MustResetAccount)
  {
    db.ResetAccount(uid, Ones(), Ones(), random, ScryptVersion);
  }

  // ---------- Runs ----------

  function ApplyAll(c: Crypto, a: Account, ops: seq<Op>): Account
    requires WellFormed(c)
    decreases |ops|
  {
    if ops == [] then a else ApplyAll(c, Apply(c, a, ops[0]), ops[1..])
  }

  /** What the user holds: the last password with the salt and version it was stretched
      with, whether it is still in use, and the keys last submitted or handed out. */
  datatype Holding = Holding(authPW: Key32, salt: Key32, version: Version, usable: bool, kA: Key32, wrapKb: Key32)

  /** The user's side of an operation: a submitted key is kept, a generated one is the
      one the server answers with, and the first key never changes. */
  function Hold(c: Crypto, h: Holding, op: Op): Holding
    requires WellFormed(c)
  {
    match op
    case Change(v, pw, salt, wrapKb) => Holding(pw, salt, v, true, h.kA, wrapKb)
    case ResetWithKey(v, pw, salt, wrapKb) => Holding(pw, salt, v, true, h.kA, wrapKb)
    case ResetWithoutKey(v, pw, salt, random) =>
      Holding(pw, salt, v, true, h.kA, Wrap(c, Stretch(c, pw, salt, v), random))
    case MustReset(_) => h.(salt := Ones(), usable := false)
    case Attempt(_) => h
  }

  function HoldAll(c: Crypto, h: Holding, ops: seq<Op>): Holding
    requires WellFormed(c)
    decreases |ops|
  {
    if ops == [] then h else HoldAll(c, Hold(c, h, ops[0]), ops[1..])
  }

  /** The account answers the holder with the holder's keys. */
  ghost predicate Agrees(c: Crypto, a: Account, h: Holding)
    requires WellFormed(c)
  {
    && a.kA == h.kA && a.authSalt == h.salt && (!h.usable ==> h.salt == Ones())
    && (h.usable ==> a.verifierVersion == h.version)
    && (h.usable ==> a.verifyHash == VerifyHash(c, StretchFor(c, a, h.authPW)))
    && (h.usable ==> Wrap(c, StretchFor(c, a, h.authPW), a.wrapWrapKb) == h.wrapKb)
  }

  lemma StepKeepsAgreement(c: Crypto, a: Account, h: Holding, op: Op)
    requires WellFormed(c) && Agrees(c, a, h)
    ensures Agrees(c, Apply(c, a, op), Hold(c, h, op))
  {
    if op.Change? || op.ResetWithKey? {
      UnwrapUndoesWrap(c, Stretch(c, op.authPW, op.salt, op.version), op.wrapKb);
    }
  }

  lemma {:induction false} RunKeepsAgreement(c: Crypto, a: Account, h: Holding, ops: seq<Op>)
    requires WellFormed(c) && Agrees(c, a, h)
    ensures Agrees(c, ApplyAll(c, a, ops), HoldAll(c, h, ops))
    decreases |ops|
  {
    if ops == [] {
    } else {
      StepKeepsAgreement(c, a, h, ops[0]);
      RunKeepsAgreement(c, Apply(c, a, ops[0]), Hold(c, h, ops[0]), ops[1..]);
    }
  }

  function Opening(c: Crypto, v: Version, authPW: Key32, salt: Key32, kA: Key32, random: Key32): Holding
    requires WellFormed(c)
  {
    Holding(authPW, salt, v, true, kA, Wrap(c, Stretch(c, authPW, salt, v), random))
  }

  /** After any sequence of password changes, resets and operators' interventions, the
      bundle handed out for the current password opens to the first key of the account and
      the second key last submitted or generated, unless an operator has made the
      password unusable since. A login with it is refused if and only if the salt is the
      one that marks unusable passwords, and then every login is. */
  lemma KeysSurvive(c: Crypto, v: Version, authPW: Key32, salt: Key32, kA: Key32, random: Key32,
                    ops: seq<Op>, seed: Key32)
    requires WellFormed(c)
    ensures var a := ApplyAll(c, Created(c, v, authPW, salt, kA, random), ops);
            var h := HoldAll(c, Opening(c, v, authPW, salt, kA, random), ops);
            && h.kA == kA
            && (h.usable ==>
                  UnbundleKeys(c, seed, FetchedBy(c, a, h.authPW, seed).keyBundle) == Some(Keys(kA, h.wrapKb)))
            && (!h.usable ==> h.salt == Ones())
            && (PasswordError(c, a, h.authPW).None? <==> h.salt != Ones())
            && (h.salt == Ones() ==> forall pw :: PasswordError(c, a, pw) == Some(MustResetAccount))
  {
    var opening := Opening(c, v, authPW, salt, kA, random);
    RunKeepsAgreement(c, Created(c, v, authPW, salt, kA, random), opening, ops);
    FirstKeyNeverChanges(c, opening, ops);
    var a := ApplyAll(c, Created(c, v, authPW, salt, kA, random), ops);
    var h := HoldAll(c, opening, ops);
    KeyBundleRoundTrip(c, seed, kA, h.wrapKb);
  }

  /** After any sequence of operations a login with any password is accepted if and only if
      the last one is in use with a proper salt, and the password submitted hashes, under
      its salt and version, to the same as the last one: passwords that are wrong or have
      been changed are refused wherever the hashes differ. */
  lemma OnlyTheLastPasswordWorks(c: Crypto, v: Version, authPW: Key32, salt: Key32, kA: Key32, random: Key32,
                                 ops: seq<Op>, pw: Key32)
    requires WellFormed(c)
    ensures var a := ApplyAll(c, Created(c, v, authPW, salt, kA, random), ops);
            var h := HoldAll(c, Opening(c, v, authPW, salt, kA, random), ops);
            && (a.authSalt != Ones() && Matches(c, a, pw) <==>
                  && h.salt != Ones()
                  && c.hkdf(Stretch(c, pw, h.salt, h.version), "verifyHash", 32) ==
                     c.hkdf(Stretch(c, h.authPW, h.salt, h.version), "verifyHash", 32))
            && (PasswordError(c, a, pw).None? <==> a.authSalt != Ones() && Matches(c, a, pw))
  {
    RunKeepsAgreement(c, Created(c, v, authPW, salt, kA, random), Opening(c, v, authPW, salt, kA, random), ops);
  }

  lemma {:induction false} FirstKeyNeverChanges(c: Crypto, h: Holding, ops: seq<Op>)
    requires WellFormed(c)
    ensures HoldAll(c, h, ops).kA == h.kA
    decreases |ops|
  {
    if ops == [] {
    } else {
      FirstKeyNeverChanges(c, Hold(c, h, ops[0]), ops[1..]);
    }
  }

  /** The second key survives every change that resubmits it: only a reset without
      the recovery key replaces it. */
  lemma {:induction false} SecondKeyKept(c: Crypto, h: Holding, ops: seq<Op>)
    requires WellFormed(c)
    requires forall i :: 0 <= i < |ops| ==>
               && !ops[i].ResetWithoutKey?
               && (ops[i].Change? || ops[i].ResetWithKey? ==> ops[i].wrapKb == h.wrapKb)
    ensures HoldAll(c, h, ops).wrapKb == h.wrapKb
    decreases |ops|
  {
    if ops == [] {
    } else {
      SecondKeyKept(c, Hold(c, h, ops[0]), ops[1..]);
    }
  }
}
