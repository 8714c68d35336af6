/** Drawing the symbols of random codes: one 32-bit word per symbol, scaled to the
    size of the alphabet. */
module RandomCodes {

  const WORDS := 0x1_0000_0000

  const MAX_ALPHABET := 0x20_0000

  const BASE32 := "0123456789ABCDEFGHJKMNPQRSTVWXYZ"

  const BASE10 := "0123456789"

  type Octet = x: int | 0 <= x < 256

  type Word = x: int | 0 <= x < WORDS

  /** A big-endian 32-bit word. */
  function ReadUInt32BE(b: seq<Octet>, offset: nat): Word
    requires offset + 4 <= |b|
  {
    Combine(b[offset], b[offset + 1], b[offset + 2], b[offset + 3])
  }

  function Combine(a: int, b: int, c: int, d: int): Word
    requires 0 <= a < 256 && 0 <= b < 256 && 0 <= c < 256 && 0 <= d < 256
  {
    a * 0x100_0000 + b * 0x1_0000 + c * 0x100 + d
  }

  /** The word as a fraction, times the size of the alphabet, rounded down. */
  function SymbolIndex(w: Word, n: nat): int {
    ((w as real / WORDS as real) * n as real).Floor
  }

  method RandomValue(alphabet: string, len: nat, bytes: seq<Octet>) returns (code: string)
    requires 0 < |alphabet| <= MAX_ALPHABET && |bytes| == 4 * len
    ensures |code| == len
    ensures forall i :: 0 <= i < len ==>
              var k := SymbolIndex(ReadUInt32BE(bytes, 4 * i), |alphabet|);
              0 <= k < |alphabet| && code[i] == alphabet[k]
  {
    code := [];
    for i := 0 to len
      invariant |code| == i
      invariant forall j :: 0 <= j < i ==>
        var k := SymbolIndex(ReadUInt32BE(bytes, 4 * j), |alphabet|);
        0 <= k < |alphabet| && code[j] == alphabet[k]
    {
      var r := ReadUInt32BE(bytes, 4 * i);
      IndexIsQuotient(r, |alphabet|);
      code := code + [alphabet[SymbolIndex(r, |alphabet|)]];
    }
  }

  // ---------- The index in integers ----------

  lemma MulMonotone(a: int, b: int, n: nat)
    requires a <= b
    ensures a * n <= b * n
  {
  }

  /** The scaled fraction is a quotient of integers and a valid index; for the sizes
      allowed the product has at most 53 bits, so double precision holds it exactly. */
  lemma IndexIsQuotient(w: Word, n: nat)
    requires 0 < n <= MAX_ALPHABET
    ensures SymbolIndex(w, n) == w * n / WORDS
    ensures 0 <= SymbolIndex(w, n) < n
    ensures w * n < 0x20_0000_0000_0000
  {
    MulMonotone(w, WORDS - 1, n);
    var p := w * n;
    var q := p / WORDS;
    assert p as real == w as real * n as real;
    assert (w as real / WORDS as real) * n as real == p as real / WORDS as real;
    assert q * WORDS <= p < q * WORDS + WORDS;
    assert q as real <= p as real / WORDS as real < q as real + 1.0;
  }

  /** The least word whose index is at least `k`. */
  function FirstWord(k: nat, n: nat): nat
    requires n > 0
  {
    (k * WORDS + n - 1) / n
  }

  lemma QuotientBounds(y: int, n: nat)
    requires n > 0
    ensures (y / n) * n <= y < (y / n) * n + n
  {
  }

  lemma QuotientUnique(y: int, n: nat, q: int)
    requires n > 0 && q * n <= y < q * n + n
    ensures y / n == q
  {
    QuotientBounds(y, n);
    var d := y / n;
    if d < q {
      MulMonotone(d + 1, q, n);
    } else if d > q {
      MulMonotone(q + 1, d, n);
    }
  }

  lemma AtLeastIndex(w: Word, n: nat, k: nat)
    requires 0 < n
    ensures k * WORDS <= w * n <==> FirstWord(k, n) <= w
  {
    var q := FirstWord(k, n);
    QuotientBounds(k * WORDS + n - 1, n);
    if q <= w {
      MulMonotone(q, w, n);
    } else {
      MulMonotone(w, q - 1, n);
    }
  }

  /** The words with index `k` are an interval. */
  lemma IndexInterval(w: Word, n: nat, k: nat)
    requires 0 < n <= MAX_ALPHABET
    ensures SymbolIndex(w, n) == k <==> FirstWord(k, n) <= w < FirstWord(k + 1, n)
  {
    IndexIsQuotient(w, n);
    AtLeastIndex(w, n, k);
    AtLeastIndex(w, n, k + 1);
    var p := w * n;
    assert p / WORDS == k <==> k * WORDS <= p < (k + 1) * WORDS;
  }

  /** The interval has the quotient of words by symbols as its length, rounded down or
      up, and no rounding when the division is exact. */
  lemma IntervalLength(n: nat, k: nat)
    requires 0 < n
    ensures var size := FirstWord(k + 1, n) - FirstWord(k, n);
            && WORDS / n <= size <= WORDS / n + 1
            && (WORDS % n == 0 ==> size == WORDS / n)
  {
    var y := k * WORDS + n - 1;
    var q := y / n;
    var a, b := WORDS / n, WORDS % n;
    QuotientBounds(y, n);
    assert WORDS == a * n + b;
    var r := y - q * n;
    var y' := (k + 1) * WORDS + n - 1;
    assert (q + a) * n == q * n + a * n;
    assert y' == (q + a) * n + (r + b);
    if r + b < n {
      QuotientUnique(y', n, q + a);
    } else {
      assert (q + a + 1) * n == (q + a) * n + n;
      QuotientUnique(y', n, q + a + 1);
    }
  }

  lemma {:induction false} IntervalSize(lo: nat, hi: nat, s: set<int>)
    requires lo <= hi
    requires forall w :: w in s <==> lo <= w < hi
    ensures |s| == hi - lo
    decreases hi - lo
  {
    if lo < hi {
      IntervalSize(lo, hi - 1, s - {hi - 1});
      assert hi - 1 in s;
    } else {
      assert forall w :: w !in s;
    }
  }

  ghost function WordsOf(n: nat, k: nat): set<int> {
    set w: int | 0 <= w < WORDS && SymbolIndex(w, n) == k
  }

  /** Every symbol is chosen by the rounded-down or rounded-up share of the 2^32 words,
      and by exactly its share when the words divide evenly. */
  lemma NearlyUniform(n: nat, k: nat)
    requires 0 < n <= MAX_ALPHABET && k < n
    ensures WORDS / n <= |WordsOf(n, k)| <= WORDS / n + (if WORDS % n == 0 then 0 else 1)
  {
    IntervalLength(n, k);
    LastInterval(n, k);
    forall w: int
      ensures w in WordsOf(n, k) <==> FirstWord(k, n) <= w < FirstWord(k + 1, n)
    {
      if 0 <= w < WORDS {
        IndexInterval(w, n, k);
      }
    }
    IntervalSize(FirstWord(k, n), FirstWord(k + 1, n), WordsOf(n, k));
  }

  lemma LastInterval(n: nat, k: nat)
    requires 0 < n && k < n
    ensures FirstWord(k + 1, n) <= WORDS
  {
    MulMonotone(k + 1, n, WORDS);
    QuotientMonotone((k + 1) * WORDS + n - 1, n * WORDS + n - 1, n);
    QuotientUnique(n * WORDS + n - 1, n, WORDS);
  }

  lemma QuotientMonotone(x: int, y: int, n: nat)
    requires n > 0 && x <= y
    ensures x / n <= y / n
  {
    QuotientBounds(x, n);
    QuotientBounds(y, n);
    if y / n < x / n {
      MulMonotone(y / n + 1, x / n, n);
    }
  }

  /** Every symbol of the 32-symbol alphabet is chosen by exactly 2^27 words. */
  lemma Base32IsUniform(k: nat)
    requires k < |BASE32|
    ensures |BASE32| == 32
    ensures |WordsOf(|BASE32|, k)| == 0x800_0000
  {
    assert |BASE32| == 32;
    assert WORDS % 32 == 0 && WORDS / 32 == 0x800_0000;
    NearlyUniform(32, k);
  }

  /** Every digit is chosen by 429496729 words or by one more. */
  lemma Base10IsNearlyUniform(k: nat)
    requires k < |BASE10|
    ensures |BASE10| == 10
    ensures 429_496_729 <= |WordsOf(|BASE10|, k)| <= 429_496_730
  {
    assert |BASE10| == 10;
    assert WORDS / 10 == 429_496_729;
    NearlyUniform(10, k);
  }

  /** Leading bytes differ by too much for the rest to make up for. */
  lemma CombineInjective(a: int, b: int, c: int, d: int, a': int, b': int, c': int, d': int)
    requires 0 <= a < 256 && 0 <= b < 256 && 0 <= c < 256 && 0 <= d < 256
    requires 0 <= a' < 256 && 0 <= b' < 256 && 0 <= c' < 256 && 0 <= d' < 256
    requires Combine(a, b, c, d) == Combine(a', b', c', d')
    ensures a == a' && b == b' && c == c' && d == d'
  {
    assert a == a';
    assert b == b';
    assert c == c';
  }

  /** Each word is read from exactly one group of four bytes, so uniform bytes make
      uniform words. */
  lemma OneGroupPerWord(a: seq<Octet>, b: seq<Octet>)
    requires |a| == |b| == 4
    requires ReadUInt32BE(a, 0) == ReadUInt32BE(b, 0)
    ensures a == b
  {
    CombineInjective(a[0], a[1], a[2], a[3], b[0], b[1], b[2], b[3]);
  }
}
