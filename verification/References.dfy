/** Time-ordered references, and the movement keys derived from them. */
module References {
  import opened PaymentDomain

  const ALPHABET := "0123456789abcdefghjkmnpqrstvwxyz"
  const TIME_LENGTH := 10
  const RANDOM_LENGTH := 16

  function Letter(d: nat): char
    requires d < 32
  {
    ALPHABET[d]
  }

  // The alphabet ascends in character order, so letters compare as digits do.
  lemma LettersAscend(d: nat, e: nat)
    requires d < e < 32
    ensures Letter(d) < Letter(e)
  {
  }

  /** The last `n` base-32 digits of `t`. */
  function TimeText(t: nat, n: nat): (s: string)
    ensures |s| == n
  {
    if n == 0 then "" else TimeText(t / 32, n - 1) + [Letter(t % 32)]
  }

  function Pow32(n: nat): (p: nat)
    ensures p > 0
  {
    if n == 0 then 1 else 32 * Pow32(n - 1)
  }

  /** The digit drawn from one random number in [0, 1). */
  function RandomDigit(r: real): (digit: nat)
    requires 0.0 <= r < 1.0
    ensures digit < 32
  {
    (r * 32.0).Floor % 32
  }

  /** Each of the 32 letters is drawn on exactly its own 32nd part of [0, 1). */
  lemma {:induction false} LetterDrawnExactly(r: real, d: nat)
    requires 0.0 <= r < 1.0 && d < 32
    ensures Letter(RandomDigit(r)) == ALPHABET[d] <==> d as real / 32.0 <= r < (d + 1) as real / 32.0
  {
    var digit := RandomDigit(r);
    if digit < d {
      LettersAscend(digit, d);
    } else if d < digit {
      LettersAscend(d, digit);
    }
  }

  function RandomText(random: seq<real>): (s: string)
    requires forall i :: 0 <= i < |random| ==> 0.0 <= random[i] < 1.0
    ensures |s| == |random|
  {
    if random == [] then "" else RandomText(random[..|random| - 1]) + [Letter(RandomDigit(random[|random| - 1]))]
  }

  lemma {:induction false} RandomTextAt(random: seq<real>, i: nat)
    requires i < |random| && forall j :: 0 <= j < |random| ==> 0.0 <= random[j] < 1.0
    ensures RandomText(random)[i] == Letter(RandomDigit(random[i]))
  {
    if i < |random| - 1 {
      RandomTextAt(random[..|random| - 1], i);
    }
  }

  function ReferenceText(prefix: string, now: nat, random: seq<real>): string
    requires forall i :: 0 <= i < |random| ==> 0.0 <= random[i] < 1.0
  {
    prefix + "_" + (TimeText(now, TIME_LENGTH) + RandomText(random))
  }

  method Generate(prefix: string, now: nat, random: seq<real>) returns (value: string)
    requires |random| == RANDOM_LENGTH && forall i :: 0 <= i < |random| ==> 0.0 <= random[i] < 1.0
    ensures value == ReferenceText(prefix, now, random)
  {
    var time := "";
    var rest := now;
    for index := 0 to TIME_LENGTH
      invariant TimeText(now, TIME_LENGTH) == TimeText(rest, TIME_LENGTH - index) + time
    {
      time := [Letter(rest % 32)] + time;
      rest := rest / 32;
    }
    var body := "";
    for index := 0 to RANDOM_LENGTH
      invariant body == RandomText(random[..index])
    {
      assert random[..index + 1][..index] == random[..index];
      body := body + [Letter((random[index] * 32.0).Floor % 32)];
    }
    assert random[..RANDOM_LENGTH] == random;
    value := prefix + "_" + (time + body);
  }

  predicate IsBody(s: string) {
    |s| == TIME_LENGTH + RANDOM_LENGTH && forall i :: 0 <= i < |s| ==> s[i] in ALPHABET
  }

  /** `Reference.of`: the prefix, an underscore, and 26 letters of the alphabet. */
  predicate Accepts(prefix: string, value: string) {
    |value| == |prefix| + 27 && value[..|prefix| + 1] == prefix + "_" && IsBody(value[|prefix| + 1..])
  }

  /** Lexicographic order on strings. */
  ghost predicate Before(a: string, b: string) {
    exists k :: 0 <= k < |a| && k < |b| && a[..k] == b[..k] && a[k] < b[k]
  }

  // ------------------------------------------------------------------ sorting

  lemma {:induction false} Digits(t: nat, u: nat, n: nat)
    requires t < u < Pow32(n)
    ensures n > 0 && u / 32 < Pow32(n - 1)
    ensures t / 32 < u / 32 || (t / 32 == u / 32 && t % 32 < u % 32)
  {
    assert n > 0;
    assert Pow32(n) == 32 * Pow32(n - 1);
    DivisionBound(u, Pow32(n - 1));
  }

  lemma {:induction false} DivisionBound(u: nat, p: nat)
    requires u < 32 * p
    ensures u / 32 < p
  {
  }

  lemma {:induction false} TimesSort(t: nat, u: nat, n: nat)
    requires t < u < Pow32(n)
    ensures Before(TimeText(t, n), TimeText(u, n))
  {
    Digits(t, u, n);
    if t / 32 < u / 32 {
      TimesSort(t / 32, u / 32, n - 1);
      BeforeGoesOn(TimeText(t / 32, n - 1), Letter(t % 32), TimeText(u / 32, n - 1), Letter(u % 32));
    } else {
      LettersAscend(t % 32, u % 32);
      LastLetterDecides(TimeText(t / 32, n - 1), Letter(t % 32), Letter(u % 32));
    }
  }

  lemma {:induction false} BeforeGoesOn(a: string, c: char, b: string, d: char)
    requires Before(a, b)
    ensures Before(a + [c], b + [d])
  {
    var k :| 0 <= k < |a| && k < |b| && a[..k] == b[..k] && a[k] < b[k];
    assert (a + [c])[..k] == a[..k] && (b + [d])[..k] == b[..k];
  }

  lemma {:induction false} LastLetterDecides(a: string, c: char, d: char)
    requires c < d
    ensures Before(a + [c], a + [d])
  {
    assert (a + [c])[..|a|] == a && (a + [d])[..|a|] == a;
  }

  lemma {:induction false} BeforeIsStrict(a: string, b: string)
    ensures !(Before(a, b) && Before(b, a)) && !Before(a, a)
  {
  }

  lemma {:induction false} OnlyLastDigitsCount(t: nat, n: nat)
    ensures TimeText(t, n) == TimeText(t % Pow32(n), n)
  {
    if n > 0 {
      OnlyLastDigitsCount(t / 32, n - 1);
      DigitsOfRemainder(t, Pow32(n - 1));
    }
  }

  lemma {:induction false} DigitsOfRemainder(t: nat, p: nat)
    requires p > 0
    ensures t % (32 * p) % 32 == t % 32
    ensures t % (32 * p) / 32 == t / 32 % p
  {
    var q, r, d := t / 32 / p, t / 32 % p, t % 32;
    assert t == 32 * (t / 32) + d && t / 32 == q * p + r;
    Regroup(q, p, r, d);
    Remainder(t, 32 * p, q, 32 * r + d);
  }

  lemma {:induction false} Regroup(q: nat, p: nat, r: nat, d: nat)
    ensures 32 * (q * p + r) + d == q * (32 * p) + (32 * r + d)
  {
    assert q * (32 * p) == 32 * (q * p);
  }

  lemma {:induction false} Remainder(t: int, m: int, q: int, r: int)
    requires m > 0 && t == q * m + r && 0 <= r < m
    ensures t % m == r
  {
    var k := t / m;
    assert t == k * m + t % m;
    assert (q - k) * m == q * m - k * m;
    assert (q - k) * m < m && (q - k) * m > -m;
    Small(q - k, m);
  }

  lemma {:induction false} Small(x: int, m: int)
    requires -m < x * m < m
    ensures x == 0
  {
  }

  /**
   * The exact condition: two time parts sort as the times do modulo 32 to the tenth, some 35,000 years
   * of milliseconds.
   */
  lemma {:induction false} TimePartsSortExactly(t: nat, u: nat)
    ensures Before(TimeText(t, TIME_LENGTH), TimeText(u, TIME_LENGTH))
            <==> t % Pow32(TIME_LENGTH) < u % Pow32(TIME_LENGTH)
  {
    var a, b := t % Pow32(TIME_LENGTH), u % Pow32(TIME_LENGTH);
    OnlyLastDigitsCount(t, TIME_LENGTH);
    OnlyLastDigitsCount(u, TIME_LENGTH);
    BeforeIsStrict(TimeText(a, TIME_LENGTH), TimeText(b, TIME_LENGTH));
    if a < b {
      TimesSort(a, b, TIME_LENGTH);
    } else if b < a {
      TimesSort(b, a, TIME_LENGTH);
    }
  }

  /** References of one family sort by the time they were generated at, whatever the random bodies. */
  lemma {:induction false} ReferencesSortByTime(prefix: string, t: nat, r: seq<real>, u: nat, s: seq<real>)
    requires t < u < Pow32(TIME_LENGTH)
    requires forall i :: 0 <= i < |r| ==> 0.0 <= r[i] < 1.0
    requires forall i :: 0 <= i < |s| ==> 0.0 <= s[i] < 1.0
    ensures Before(ReferenceText(prefix, t, r), ReferenceText(prefix, u, s))
  {
    TimesSort(t, u, TIME_LENGTH);
    var x, y := TimeText(t, TIME_LENGTH), TimeText(u, TIME_LENGTH);
    var k :| 0 <= k < TIME_LENGTH && x[..k] == y[..k] && x[k] < y[k];
    var a, b := ReferenceText(prefix, t, r), ReferenceText(prefix, u, s);
    var j := |prefix| + 1 + k;
    assert a[..j] == prefix + "_" + x[..k];
    assert b[..j] == prefix + "_" + y[..k];
    assert a[j] == x[k] && b[j] == y[k];
  }

  // ------------------------------------------------------------ unused names

  /** One of the references `generate` may return: all draws zero, at time `t`. */
  function NameAt(prefix: string, t: nat): string {
    ReferenceText(prefix, t, seq(RANDOM_LENGTH, _ => 0.0))
  }

  lemma {:induction false} NamesDiffer(prefix: string, t: nat, u: nat)
    requires t < u < Pow32(TIME_LENGTH)
    ensures NameAt(prefix, t) != NameAt(prefix, u)
  {
    var zeros := seq(RANDOM_LENGTH, _ => 0.0);
    ReferencesSortByTime(prefix, t, zeros, u, zeros);
    BeforeIsStrict(NameAt(prefix, t), NameAt(prefix, u));
  }

  lemma {:induction false} NameIsAccepted(prefix: string, t: nat)
    ensures Accepts(prefix, NameAt(prefix, t))
  {
    GeneratedIsAccepted(prefix, t, seq(RANDOM_LENGTH, _ => 0.0));
  }

  /** As long as fewer than 32^10 references are in use, `generate` can return one that is not. */
  lemma {:induction false} UnusedName(prefix: string, used: set<string>) returns (name: string)
    requires |used| < Pow32(TIME_LENGTH)
    ensures Accepts(prefix, name) && name !in used
  {
    var t := 0;
    var below: set<string> := {};
    while NameAt(prefix, t) in used
      invariant below <= used && |below| == t < Pow32(TIME_LENGTH)
      invariant forall n :: n in below ==> exists i: nat :: i < t && n == NameAt(prefix, i)
      decreases used - below
    {
      if NameAt(prefix, t) in below {
        var i: nat :| i < t && NameAt(prefix, t) == NameAt(prefix, i);
        NamesDiffer(prefix, i, t);
      }
      below := below + {NameAt(prefix, t)};
      t := t + 1;
      SubsetIsSmaller(below, used);
    }
    name := NameAt(prefix, t);
    NameIsAccepted(prefix, t);
  }

  lemma {:induction false} Pow32Grows(m: nat, n: nat)
    requires m <= n
    ensures Pow32(m) <= Pow32(n)
    decreases n
  {
    if m < n {
      Pow32Grows(m, n - 1);
    }
  }

  lemma {:induction false} PlentyOfNames()
    ensures Pow32(TIME_LENGTH) >= 32768
  {
    assert Pow32(3) == 32768;
    Pow32Grows(3, TIME_LENGTH);
  }

  lemma {:induction false} SubsetIsSmaller(a: set<string>, b: set<string>)
    requires a <= b
    ensures |a| <= |b|
  {
    assert b == a + (b - a);
  }

  // ----------------------------------------------------------- well-formedness

  lemma {:induction false} TimeLetters(t: nat, n: nat)
    ensures forall i :: 0 <= i < n ==> TimeText(t, n)[i] in ALPHABET
  {
    if n > 0 {
      TimeLetters(t / 32, n - 1);
    }
  }

  lemma {:induction false} RandomLetters(random: seq<real>)
    requires forall i :: 0 <= i < |random| ==> 0.0 <= random[i] < 1.0
    ensures forall i :: 0 <= i < |random| ==> RandomText(random)[i] in ALPHABET
  {
    if random != [] {
      RandomLetters(random[..|random| - 1]);
    }
  }

  /** Everything `generate` produces, `of` accepts. */
  lemma {:induction false} GeneratedIsAccepted(prefix: string, now: nat, random: seq<real>)
    requires |random| == RANDOM_LENGTH && forall i :: 0 <= i < |random| ==> 0.0 <= random[i] < 1.0
    ensures Accepts(prefix, ReferenceText(prefix, now, random))
  {
    TimeLetters(now, TIME_LENGTH);
    RandomLetters(random);
    var v := ReferenceText(prefix, now, random);
    var body := TimeText(now, TIME_LENGTH) + RandomText(random);
    assert v[..|prefix| + 1] == prefix + "_" && v[|prefix| + 1..] == body;
  }

  const UNKNOWN_USER := "usr_00000000000000000000000000"

  /** The placeholder for a payment without a user passes the ledger's validation. */
  lemma {:induction false} UnknownUserIsAccepted()
    ensures Accepts("usr", UNKNOWN_USER)
  {
    assert UNKNOWN_USER[..4] == "usr_";
    assert forall i :: 4 <= i < 30 ==> UNKNOWN_USER[i] == '0';
    assert ALPHABET[0] == '0';
  }

  // ------------------------------------------------------------ movement keys

  function MovementKeyText(reference: string, leg: Leg): string {
    match leg
    case DebitLeg => reference
    case CreditLeg => reference + ":credit"
    case RefundLeg => reference + ":refund"
  }

  /** `transaction_id` as every service validates it: 8 to 64 letters, digits, colons, underscores and hyphens. */
  predicate IsTransactionId(s: string) {
    8 <= |s| <= 64 && forall i :: 0 <= i < |s| ==> IsKeyChar(s[i])
  }

  /** Different payments, and different legs of one payment, never share a key; and every key is well formed. */
  lemma {:induction false} MovementKeysAreInjective(p: string, leg: Leg, q: string, other: Leg)
    requires Accepts("pay", p) && Accepts("pay", q)
    ensures MovementKeyText(p, leg) == MovementKeyText(q, other) <==> p == q && leg == other
    ensures IsTransactionId(MovementKeyText(p, leg))
  {
    var a, b := MovementKeyText(p, leg), MovementKeyText(q, other);
    assert a[..30] == p && b[..30] == q;
    assert leg == CreditLeg ==> |a| > 31 && a[31] == 'c';
    assert leg == RefundLeg ==> |a| > 31 && a[31] == 'r';
    assert other == CreditLeg ==> |b| > 31 && b[31] == 'c';
    assert other == RefundLeg ==> |b| > 31 && b[31] == 'r';
    KeyIsTransactionId(p, leg);
  }

  predicate IsKeyChar(c: char) {
    'A' <= c <= 'Z' || 'a' <= c <= 'z' || '0' <= c <= '9' || c in ":_-"
  }

  lemma {:induction false} AlphabetIsKeyChars(c: char)
    requires c in ALPHABET
    ensures IsKeyChar(c)
  {
  }

  lemma {:induction false} KeyIsTransactionId(p: string, leg: Leg)
    requires Accepts("pay", p)
    ensures IsTransactionId(MovementKeyText(p, leg))
  {
    assert p[..4] == "pay_";
    forall i | 0 <= i < 30 ensures IsKeyChar(p[i]) {
      if i < 4 {
        assert p[i] == p[..4][i];
      } else {
        assert p[i] == p[4..][i - 4];
        AlphabetIsKeyChars(p[i]);
      }
    }
    assert forall i :: 0 <= i < 7 ==> IsKeyChar(":credit"[i]) && IsKeyChar(":refund"[i]);
  }
}
