/** URL-safe base64 without padding (section 5 of RFC 4648): the encoder used for
    sign-in codes and PKCE challenges, and the decoder used when a sign-in code
    comes back. */
module UrlSafeBase64 {

  type Octet = x: int | 0 <= x < 256

  type Sextet = x: int | 0 <= x < 64

  function StandardChar(v: Sextet): char {
    if v < 26 then 'A' + v as char
    else if v < 52 then 'a' + (v - 26) as char
    else if v < 62 then '0' + (v - 52) as char
    else if v == 62 then '+' else '/'
  }

  /** The four-character groups of the standard alphabet, padded with `=`. */
  function Encode(b: seq<Octet>): string {
    if |b| == 0 then []
    else if |b| == 1 then
      [StandardChar(b[0] / 4), StandardChar(b[0] % 4 * 16), '=', '=']
    else if |b| == 2 then
      [StandardChar(b[0] / 4), StandardChar(b[0] % 4 * 16 + b[1] / 16), StandardChar(b[1] % 16 * 4), '=']
    else
      [StandardChar(b[0] / 4), StandardChar(b[0] % 4 * 16 + b[1] / 16),
       StandardChar(b[1] % 16 * 4 + b[2] / 64), StandardChar(b[2] % 64)] + Encode(b[3..])
  }

  function ReplaceAll(s: string, c: char, repl: string): string {
    if s == [] then []
    else (if s[0] == c then repl else [s[0]]) + ReplaceAll(s[1..], c, repl)
  }

  /** The three global replacements that make base64 text URL-safe. */
  function Translate(s: string): string {
    ReplaceAll(ReplaceAll(ReplaceAll(s, '+', "-"), '/', "_"), '=', "")
  }

  function UrlSafe(b: seq<Octet>): string {
    Translate(Encode(b))
  }

  // ---------- Decoding ----------

  /** The value of a digit of either alphabet; -1 for anything else. */
  function CharValue(c: char): int {
    if 'A' <= c <= 'Z' then c as int - 'A' as int
    else if 'a' <= c <= 'z' then c as int - 'a' as int + 26
    else if '0' <= c <= '9' then c as int - '0' as int + 52
    else if c == '+' || c == '-' then 62
    else if c == '/' || c == '_' then 63
    else -1
  }

  /** The digits of `s` up to its first padding sign; other characters are skipped. */
  function Digits(s: string): seq<Sextet> {
    if s == [] || s[0] == '=' then []
    else if CharValue(s[0]) < 0 then Digits(s[1..])
    else [CharValue(s[0])] + Digits(s[1..])
  }

  /** The three bytes held by four consecutive sextets. */
  function FirstOctet(a: int, b: int): Octet
    requires 0 <= a < 64 && 0 <= b < 64
  {
    a * 4 + b / 16
  }

  function SecondOctet(b: int, c: int): Octet
    requires 0 <= b < 64 && 0 <= c < 64
  {
    b % 16 * 16 + c / 4
  }

  function ThirdOctet(c: int, d: int): Octet
    requires 0 <= c < 64 && 0 <= d < 64
  {
    c % 4 * 64 + d
  }

  function Regroup(v: seq<Sextet>): seq<Octet> {
    if |v| < 2 then []
    else if |v| == 2 then [FirstOctet(v[0], v[1])]
    else if |v| == 3 then [FirstOctet(v[0], v[1]), SecondOctet(v[1], v[2])]
    else [FirstOctet(v[0], v[1]), SecondOctet(v[1], v[2]), ThirdOctet(v[2], v[3])] + Regroup(v[4..])
  }

  function Decode(s: string): seq<Octet> {
    Regroup(Digits(s))
  }

  /** What the consume route does with the submitted code: undo the two
      substitutions, append as many padding signs as the length has characters
      over a multiple of four, and decode. Neither step changes the outcome. */
  method HexSigninCode(code: string) returns (bytes: seq<Octet>)
    ensures bytes == Decode(code)
  {
    var base64 := ReplaceAll(ReplaceAll(code, '-', "+"), '_', "/");
    SubstitutionKeepsDigits(ReplaceAll(code, '-', "+"), '_', '/');
    SubstitutionKeepsDigits(code, '-', '+');
    ghost var unpadded := base64;
    var padCount := |base64| % 4;
    for i := 0 to padCount
      invariant Digits(base64) == Digits(unpadded)
    {
      PaddingKeepsDigits(base64);
      base64 := base64 + "=";
    }
    bytes := Decode(base64);
  }

  lemma {:induction false} SubstitutionKeepsDigits(s: string, c: char, d: char)
    requires c != '=' && d != '=' && CharValue(c) == CharValue(d)
    ensures Digits(ReplaceAll(s, c, [d])) == Digits(s)
  {
    if s == [] {
    } else {
      SubstitutionKeepsDigits(s[1..], c, d);
      var t := ReplaceAll(s, c, [d]);
      assert t[1..] == ReplaceAll(s[1..], c, [d]);
    }
  }

  lemma {:induction false} PaddingKeepsDigits(s: string)
    ensures Digits(s + "=") == Digits(s)
  {
    if s == [] {
      assert s + "=" == "=";
    } else {
      PaddingKeepsDigits(s[1..]);
      assert (s + "=")[1..] == s[1..] + "=";
    }
  }

  // ---------- The encoder, digit by digit ----------

  /** The sextets a byte string is cut into. */
  function Sextets(b: seq<Octet>): (v: seq<Sextet>) {
    if |b| == 0 then []
    else if |b| == 1 then [b[0] / 4, b[0] % 4 * 16]
    else if |b| == 2 then [b[0] / 4, b[0] % 4 * 16 + b[1] / 16, b[1] % 16 * 4]
    else
      [b[0] / 4, b[0] % 4 * 16 + b[1] / 16, b[1] % 16 * 4 + b[2] / 64, b[2] % 64] + Sextets(b[3..])
  }

  function UrlChar(v: Sextet): char {
    if v == 62 then '-' else if v == 63 then '_' else StandardChar(v)
  }

  predicate InUrlAlphabet(c: char) {
    'A' <= c <= 'Z' || 'a' <= c <= 'z' || '0' <= c <= '9' || c == '-' || c == '_'
  }

  function Spell(v: seq<Sextet>): string {
    seq(|v|, i requires 0 <= i < |v| => UrlChar(v[i]))
  }

  lemma {:induction false} ReplaceAllConcat(s: string, t: string, c: char, repl: string)
    ensures ReplaceAll(s + t, c, repl) == ReplaceAll(s, c, repl) + ReplaceAll(t, c, repl)
  {
    if s == [] {
      assert s + t == t;
    } else {
      ReplaceAllConcat(s[1..], t, c, repl);
      assert (s + t)[1..] == s[1..] + t;
    }
  }

  lemma TranslateConcat(s: string, t: string)
    ensures Translate(s + t) == Translate(s) + Translate(t)
  {
    ReplaceAllConcat(s, t, '+', "-");
    var s1, t1 := ReplaceAll(s, '+', "-"), ReplaceAll(t, '+', "-");
    ReplaceAllConcat(s1, t1, '/', "_");
    ReplaceAllConcat(ReplaceAll(s1, '/', "_"), ReplaceAll(t1, '/', "_"), '=', "");
  }

  lemma ReplaceOne(c: char, d: char, repl: string)
    ensures ReplaceAll([c], d, repl) == if c == d then repl else [c]
  {
    assert [c][1..] == [];
    assert ReplaceAll([], d, repl) == [];
  }

  lemma TranslateDigit(v: Sextet)
    ensures Translate([StandardChar(v)]) == [UrlChar(v)]
  {
    var c := StandardChar(v);
    ReplaceOne(c, '+', "-");
    var c1 := if c == '+' then '-' else c;
    ReplaceOne(c1, '/', "_");
    var c2 := if c1 == '/' then '_' else c1;
    ReplaceOne(c2, '=', "");
  }

  lemma TranslatePads()
    ensures Translate("=") == "" && Translate("==") == ""
  {
    ReplaceOne('=', '+', "-");
    ReplaceOne('=', '/', "_");
    ReplaceOne('=', '=', "");
    assert "==" == "=" + "=";
    TranslateConcat("=", "=");
  }

  /** The sextets in the standard alphabet. */
  function Digits64(v: seq<Sextet>): string {
    seq(|v|, i requires 0 <= i < |v| => StandardChar(v[i]))
  }

  lemma {:induction false} TranslateDigits(v: seq<Sextet>)
    ensures Translate(Digits64(v)) == Spell(v)
  {
    if v == [] {
    } else {
      TranslateDigits(v[1..]);
      assert Digits64(v) == [StandardChar(v[0])] + Digits64(v[1..]);
      TranslateConcat([StandardChar(v[0])], Digits64(v[1..]));
      TranslateDigit(v[0]);
      assert Spell(v) == [UrlChar(v[0])] + Spell(v[1..]);
    }
  }

  /** The three global replacements spell the sextets in the URL-safe alphabet. */
  lemma {:induction false} UrlSafeSpellsSextets(b: seq<Octet>)
    ensures UrlSafe(b) == Spell(Sextets(b))
  {
    if 0 < |b| <= 2 {
      var pads := if |b| == 1 then "==" else "=";
      assert Encode(b) == Digits64(Sextets(b)) + pads;
      TranslateConcat(Digits64(Sextets(b)), pads);
      TranslateDigits(Sextets(b));
      TranslatePads();
    } else if |b| > 2 {
      var v := Sextets(b)[..4];
      assert Encode(b) == Digits64(v) + Encode(b[3..]);
      TranslateConcat(Digits64(v), Encode(b[3..]));
      TranslateDigits(v);
      UrlSafeSpellsSextets(b[3..]);
      assert Sextets(b) == v + Sextets(b[3..]);
    }
  }

  lemma DigitOfUrlChar(v: Sextet)
    ensures CharValue(UrlChar(v)) == v && UrlChar(v) != '=' && InUrlAlphabet(UrlChar(v))
  {
  }

  lemma {:induction false} DigitsOfSpelling(v: seq<Sextet>)
    ensures Digits(Spell(v)) == v
  {
    if v == [] {
    } else {
      DigitOfUrlChar(v[0]);
      DigitsOfSpelling(v[1..]);
      assert Spell(v)[1..] == Spell(v[1..]);
    }
  }

  /** The cuts between sextets and bytes fit. */
  lemma OctetsFit(x: Octet, y: Octet, z: Octet)
    ensures FirstOctet(x / 4, x % 4 * 16 + y / 16) == x
    ensures FirstOctet(x / 4, x % 4 * 16) == x
    ensures SecondOctet(x % 4 * 16 + y / 16, y % 16 * 4 + z / 64) == y
    ensures SecondOctet(x % 4 * 16 + y / 16, y % 16 * 4) == y
    ensures ThirdOctet(y % 16 * 4 + z / 64, z % 64) == z
  {
  }

  lemma {:induction false} RegroupSextets(b: seq<Octet>)
    ensures Regroup(Sextets(b)) == b
  {
    if b == [] {
    } else if |b| <= 2 {
      OctetsFit(b[0], if |b| > 1 then b[1] else 0, 0);
    } else {
      OctetsFit(b[0], b[1], b[2]);
      RegroupSextets(b[3..]);
      assert Sextets(b)[4..] == Sextets(b[3..]);
    }
  }

  // ---------- Main results ----------

  /** A sign-in code comes back as the bytes it was made from. */
  lemma RoundTrip(b: seq<Octet>)
    ensures Decode(UrlSafe(b)) == b
  {
    UrlSafeSpellsSextets(b);
    DigitsOfSpelling(Sextets(b));
    RegroupSextets(b);
  }

  lemma EncoderInjective(a: seq<Octet>, b: seq<Octet>)
    requires UrlSafe(a) == UrlSafe(b)
    ensures a == b
  {
    RoundTrip(a);
    RoundTrip(b);
  }

  lemma {:induction false} SextetCount(b: seq<Octet>)
    ensures |Sextets(b)| == (4 * |b| + 2) / 3
  {
    if |b| <= 2 {
    } else {
      SextetCount(b[3..]);
    }
  }

  /** The text stays in the URL-safe alphabet and has four characters for three
      bytes; 32 bytes, such as a SHA-256 digest, take exactly 43. */
  lemma EncoderShape(b: seq<Octet>)
    ensures forall c :: c in UrlSafe(b) ==> InUrlAlphabet(c)
    ensures |UrlSafe(b)| == (4 * |b| + 2) / 3
    ensures |b| == 32 ==> |UrlSafe(b)| == 43
  {
    UrlSafeSpellsSextets(b);
    SextetCount(b);
    forall v: Sextet
      ensures InUrlAlphabet(UrlChar(v))
    {
      DigitOfUrlChar(v);
    }
  }
}
