/**
 * The string `sortBy=status` compares (src/session-store.ts:253-272): rank, then the complement of the
 * activity time in sixteen characters. Times are whole milliseconds; strings compare by code unit.
 */
module StatusSort {
  import opened Common

  const LIMIT := 1_000_000_000_000_000
  const WIDTH := 16

  // ── Strings and their order ─────────────────────────────────────────────────

  predicate LexLess(a: string, b: string) {
    b != [] && (a == [] || a[0] < b[0] || (a[0] == b[0] && LexLess(a[1..], b[1..])))
  }

  function Digit(d: nat): (c: char)
    requires d < 10
    ensures '0' <= c <= '9'
  {
    (('0' as int) + d) as char
  }

  /** `String(v)` for a whole number. */
  function Decimal(v: nat): (s: string)
    ensures s != []
  {
    if v < 10 then [Digit(v)] else Decimal(v / 10) + [Digit(v % 10)]
  }

  function NumberString(v: int): string {
    if v < 0 then "-" + Decimal(-v) else Decimal(v)
  }

  function Zeros(n: nat): (s: string)
    ensures |s| == n
  {
    seq(n, _ => '0')
  }

  function PadStart(s: string, width: nat): string {
    if |s| >= width then s else Zeros(width - |s|) + s
  }

  function Recency(activeAt: int): string { PadStart(NumberString(LIMIT - activeAt), WIDTH) }

  /** `statusSortValue`; an unparsable time counts as 0. */
  function StatusSortValue(idle: bool, activeAt: Option<int>): string {
    (if idle then "1:" else "0:") + Recency(if activeAt.Some? then activeAt.value else 0)
  }

  // ── Fixed-width decimals keep the order of numbers ──────────────────────────

  function Pow10(n: nat): nat { if n == 0 then 1 else 10 * Pow10(n - 1) }

  function Fixed(v: nat, n: nat): (s: string)
    ensures |s| == n && forall i :: 0 <= i < n ==> '0' <= s[i] <= '9'
  {
    if n == 0 then [] else Fixed(v / 10, n - 1) + [Digit(v % 10)]
  }

  lemma {:induction false} FixedZero(n: nat)
    ensures Fixed(0, n) == Zeros(n)
  {
    if n > 0 { FixedZero(n - 1); }
  }

  lemma {:induction false} PadIsFixed(v: nat, n: nat)
    requires n > 0 && v < Pow10(n)
    ensures PadStart(Decimal(v), n) == Fixed(v, n) && |Decimal(v)| <= n
  {
    if v < 10 {
      FixedZero(n - 1);
      assert v / 10 == 0 && v % 10 == v;
    } else {
      assert v / 10 < Pow10(n - 1);
      if n == 1 {
        assert false;
      } else {
        PadIsFixed(v / 10, n - 1);
        var a := Decimal(v / 10);
        assert PadStart(a + [Digit(v % 10)], n) == PadStart(a, n - 1) + [Digit(v % 10)];
      }
    }
  }

  lemma {:induction false} LexLessAppend(a: string, b: string, c: char, d: char)
    requires |a| == |b|
    ensures LexLess(a + [c], b + [d]) <==> LexLess(a, b) || (a == b && c < d)
  {
    if a == [] {
      assert a + [c] == [c] && b + [d] == [d];
    } else {
      assert (a + [c])[1..] == a[1..] + [c] && (b + [d])[1..] == b[1..] + [d];
      assert a == b <==> a[0] == b[0] && a[1..] == b[1..];
      LexLessAppend(a[1..], b[1..], c, d);
    }
  }

  lemma {:induction false} LexLessPrefix(p: string, a: string, b: string)
    ensures LexLess(p + a, p + b) <==> LexLess(a, b)
  {
    if p == [] {
      assert p + a == a && p + b == b;
    } else {
      assert (p + a)[1..] == p[1..] + a && (p + b)[1..] == p[1..] + b;
      LexLessPrefix(p[1..], a, b);
    }
  }

  lemma {:induction false} LexLessIsStrict(a: string, b: string)
    ensures !(LexLess(a, b) && LexLess(b, a)) && !LexLess(a, a)
  {
    if a != [] && b != [] { LexLessIsStrict(a[1..], b[1..]); }
    if a != [] { LexLessIsStrict(a[1..], a[1..]); }
  }

  lemma {:induction false} FixedOrder(a: nat, b: nat, n: nat)
    requires a < Pow10(n) && b < Pow10(n)
    ensures LexLess(Fixed(a, n), Fixed(b, n)) <==> a < b
    ensures Fixed(a, n) == Fixed(b, n) <==> a == b
  {
    if n > 0 {
      assert a / 10 < Pow10(n - 1) && b / 10 < Pow10(n - 1);
      FixedOrder(a / 10, b / 10, n - 1);
      var x, y := Fixed(a / 10, n - 1), Fixed(b / 10, n - 1);
      LexLessAppend(x, y, Digit(a % 10), Digit(b % 10));
      assert (x + [Digit(a % 10)])[..n - 1] == x && (y + [Digit(b % 10)])[..n - 1] == y;
      assert (x + [Digit(a % 10)])[n - 1] == Digit(a % 10) && (y + [Digit(b % 10)])[n - 1] == Digit(b % 10);
      DigitOrder(a % 10, b % 10);
    }
  }

  lemma {:induction false} DigitOrder(a: nat, b: nat)
    requires a < 10 && b < 10
    ensures Digit(a) < Digit(b) <==> a < b
    ensures Digit(a) == Digit(b) <==> a == b
  {
  }

  lemma {:induction false} WidthHolds()
    ensures Pow10(15) == LIMIT && Pow10(WIDTH) == 10 * LIMIT
  {
    assert Pow10(5) == 100_000;
    assert Pow10(10) == 100_000 * Pow10(5) by {
      assert Pow10(10) == 10 * Pow10(9) == 100 * Pow10(8) == 1000 * Pow10(7) == 10_000 * Pow10(6) == 100_000 * Pow10(5);
    }
    assert Pow10(15) == 10 * Pow10(14) == 100 * Pow10(13) == 1000 * Pow10(12) == 10_000 * Pow10(11) == 100_000 * Pow10(10);
  }

  // ── The intended ranking, up to the limit ───────────────────────────────────

  ghost predicate InRange(activeAt: int) { LIMIT - 10 * LIMIT < activeAt <= LIMIT }

  lemma {:induction false} RecencyIsFixed(activeAt: int)
    requires InRange(activeAt)
    ensures LIMIT - activeAt < Pow10(WIDTH) && Recency(activeAt) == Fixed(LIMIT - activeAt, WIDTH)
  {
    WidthHolds();
    PadIsFixed(LIMIT - activeAt, WIDTH);
  }

  lemma {:induction false} RankFirst(i: bool, j: bool, a: string, b: string)
    ensures LexLess((if i then "1:" else "0:") + a, (if j then "1:" else "0:") + b) <==> (!i && j) || (i == j && LexLess(a, b))
  {
    LexLessPrefix(if i then "1:" else "0:", a, b);
    if i != j {
      var x, y := (if i then "1:" else "0:") + a, (if j then "1:" else "0:") + b;
      assert x[0] != y[0];
    }
  }

  /** Live before idle, then newest first: string order is exactly the intended ranking. */
  lemma {:induction false} StatusOrder(i: bool, a: int, j: bool, b: int)
    requires InRange(a) && InRange(b)
    ensures LexLess(StatusSortValue(i, Some(a)), StatusSortValue(j, Some(b))) <==> (!i && j) || (i == j && a > b)
    ensures StatusSortValue(i, Some(a)) == StatusSortValue(j, Some(b)) <==> i == j && a == b
  {
    RecencyIsFixed(a);
    RecencyIsFixed(b);
    FixedOrder(LIMIT - a, LIMIT - b, WIDTH);
    RankFirst(i, j, Recency(a), Recency(b));
    var x, y := StatusSortValue(i, Some(a)), StatusSortValue(j, Some(b));
    assert x[2..] == Recency(a) && y[2..] == Recency(b);
    assert x[0] == (if i then '1' else '0') && y[0] == (if j then '1' else '0');
  }

  // ── Past the limit ──────────────────────────────────────────────────────────

  lemma {:induction false} DecimalBound(v: nat)
    ensures v < Pow10(|Decimal(v)|)
  {
    if v >= 10 {
      DecimalBound(v / 10);
      assert v < 10 * (v / 10 + 1);
    } else {
      assert Pow10(1) == 10 * Pow10(0);
    }
  }

  lemma {:induction false} DecimalGrows(a: nat, b: nat)
    requires a <= b
    ensures |Decimal(a)| <= |Decimal(b)|
  {
    if a >= 10 { DecimalGrows(a / 10, b / 10); }
  }

  /** A time past the limit: zeros, a minus sign, and how far past. */
  lemma {:induction false} RecencyPastLimit(activeAt: int)
    requires LIMIT < activeAt < 2 * LIMIT
    ensures var m := activeAt - LIMIT;
            |Decimal(m)| <= 15 && Recency(activeAt) == Zeros(15 - |Decimal(m)|) + ("-" + Decimal(m))
  {
    WidthHolds();
    PadIsFixed(activeAt - LIMIT, 15);
  }

  lemma {:induction false} MinusIsLess(n: nat, rest: string, s: string)
    requires n < |s| && forall i :: 0 <= i <= n ==> s[i] >= '0'
    ensures LexLess(Zeros(n) + ("-" + rest), s)
  {
    var x := Zeros(n) + ("-" + rest);
    if n == 0 {
      assert x[0] == '-';
    } else {
      assert x[1..] == Zeros(n - 1) + ("-" + rest);
      MinusIsLess(n - 1, rest, s[1..]);
    }
  }

  /** Two distances past the limit, the nearer first, whose strings sort the older time first. */
  predicate SortsBack(m: nat, n: nat) {
    || |Decimal(m)| == |Decimal(n)|
    || (|Decimal(m)| == 15 && |Decimal(n)| == 16 && n / 10 >= m)
  }

  /**
   * Exactly when the newer of two times sorts first, for all times JavaScript's dates reach (8.64 * 10^15 ms
   * either way): always, except for two times past the limit whose distances from it have equally many
   * digits, or fifteen and sixteen with the first fifteen of the farther not below the nearer.
   */
  lemma {:induction false} NewerFirstIff(a: int, b: int)
    requires LIMIT - 10 * LIMIT < a < b < 10 * LIMIT
    ensures LexLess(Recency(b), Recency(a)) <==> !(a > LIMIT && SortsBack(a - LIMIT, b - LIMIT))
  {
    hide LexLess, Decimal, Recency;
    if b <= LIMIT {
      RecencyIsFixed(a);
      RecencyIsFixed(b);
      FixedOrder(LIMIT - b, LIMIT - a, WIDTH);
    } else if a <= LIMIT {
      OnePastLimit(a, b);
    } else if b < 2 * LIMIT {
      BothPastLimit(a, b);
      RecencyPastLimit(b);
    } else if a < 2 * LIMIT {
      OneFarPast(a, b);
    } else {
      RecencyFarPast(a);
      RecencyFarPast(b);
      SameDigitCount(a - LIMIT, b - LIMIT, 16);
      LexLessIsStrict(Recency(a), Recency(b));
    }
  }

  /** Sixteen digits past the limit leave no room for a zero. */
  lemma {:induction false} RecencyFarPast(activeAt: int)
    requires 2 * LIMIT <= activeAt < 10 * LIMIT
    ensures var m := activeAt - LIMIT;
            |Decimal(m)| == 16 && Recency(activeAt) == "-" + Decimal(m) == Zeros(0) + ("-" + Decimal(m))
  {
    WidthHolds();
    var m := activeAt - LIMIT;
    DecimalBound(m);
    PadIsFixed(m, 16);
    if |Decimal(m)| < 16 { Pow10Grows(|Decimal(m)|, 15); }
    assert Zeros(0) + ("-" + Decimal(m)) == "-" + Decimal(m);
  }

  lemma {:induction false} Pow10Grows(m: nat, n: nat)
    requires m <= n
    ensures Pow10(m) <= Pow10(n)
  {
    if m < n { Pow10Grows(m, n - 1); }
  }

  /** A shorter string against a longer one whose front has its length. */
  lemma {:induction false} LongerLess(a: string, b: string, c: char)
    requires |a| == |b|
    ensures LexLess(a + [c], b) <==> LexLess(a, b)
  {
    if a != [] {
      assert (a + [c])[1..] == a[1..] + [c];
      LongerLess(a[1..], b[1..], c);
    }
  }

  lemma {:induction false} OneFarPast(a: int, b: int)
    requires LIMIT < a < 2 * LIMIT <= b < 10 * LIMIT
    ensures LexLess(Recency(b), Recency(a)) <==> !SortsBack(a - LIMIT, b - LIMIT)
  {
    var m, n := a - LIMIT, b - LIMIT;
    RecencyPastLimit(a);
    RecencyFarPast(b);
    hide LexLess, Recency;
    if |Decimal(m)| == 15 {
      FifteenAgainstSixteen(m, n);
      hide Decimal;
      assert Zeros(0) + ("-" + Decimal(m)) == "-" + Decimal(m);
      LexLessPrefix("-", Decimal(n), Decimal(m));
    } else {
      hide Decimal;
      assert Recency(a)[0] == '0';
      MinusIsLess(0, Decimal(n), Recency(a));
    }
  }

  lemma {:induction false} FifteenAgainstSixteen(m: nat, n: nat)
    requires |Decimal(m)| == 15 && |Decimal(n)| == 16
    ensures LexLess(Decimal(n), Decimal(m)) <==> n / 10 < m
  {
    hide LexLess;
    var front := Decimal(n / 10);
    assert Decimal(n) == front + [Digit(n % 10)];
    LongerLess(front, Decimal(m), Digit(n % 10));
    DecimalBound(m);
    DecimalBound(n / 10);
    PadIsFixed(m, 15);
    PadIsFixed(n / 10, 15);
    FixedOrder(n / 10, m, 15);
  }

  lemma {:induction false} OnePastLimit(a: int, b: int)
    requires InRange(a) && LIMIT < b < 10 * LIMIT
    ensures LexLess(Recency(b), Recency(a))
  {
    RecencyIsFixed(a);
    if b < 2 * LIMIT { RecencyPastLimit(b); } else { RecencyFarPast(b); }
    hide LexLess, Decimal, Recency, Fixed, Pow10;
    MinusIsLess(if b < 2 * LIMIT then 15 - |Decimal(b - LIMIT)| else 0, Decimal(b - LIMIT), Recency(a));
  }

  lemma {:induction false} SameDigitCount(m: nat, n: nat, k: nat)
    requires m < n && |Decimal(m)| == k && |Decimal(n)| == k
    ensures var zeros := Zeros(if k < 15 then 15 - k else 0);
            LexLess(zeros + ("-" + Decimal(m)), zeros + ("-" + Decimal(n)))
  {
    DecimalBound(m);
    DecimalBound(n);
    PadIsFixed(m, k);
    PadIsFixed(n, k);
    FixedOrder(m, n, k);
    hide LexLess, Fixed, Pow10, Decimal;
    LexLessPrefix("-", Decimal(m), Decimal(n));
    LexLessPrefix(Zeros(if k < 15 then 15 - k else 0), "-" + Decimal(m), "-" + Decimal(n));
  }

  lemma {:induction false} BothPastLimit(a: int, b: int)
    requires LIMIT < a < b < 2 * LIMIT
    ensures LexLess(Recency(b), Recency(a)) <==> |Decimal(a - LIMIT)| != |Decimal(b - LIMIT)|
  {
    var m, n := a - LIMIT, b - LIMIT;
    RecencyPastLimit(a);
    RecencyPastLimit(b);
    DecimalGrows(m, n);
    hide LexLess, Decimal, Recency;
    var k, l := |Decimal(m)|, |Decimal(n)|;
    if k == l {
      SameDigitCount(m, n, k);
      LexLessIsStrict(Recency(a), Recency(b));
    } else {
      MoreZerosFirst(15 - k, 15 - l, Decimal(m), Decimal(n));
    }
    hide Zeros;
  }

  /** With fewer zeros before it, a minus sign comes where the other still has a zero. */
  lemma {:induction false} MoreZerosFirst(k: nat, l: nat, m: string, n: string)
    requires l < k
    ensures LexLess(Zeros(l) + ("-" + n), Zeros(k) + ("-" + m))
  {
    var x := Zeros(k) + ("-" + m);
    assert forall i :: 0 <= i <= l ==> x[i] == Zeros(k)[i];
    hide LexLess;
    MinusIsLess(l, n, x);
  }

  /** Two activity times a millisecond apart past the limit sort oldest first. */
  lemma {:induction false} PastLimitSortsOldestFirst()
    ensures LexLess(StatusSortValue(false, Some(LIMIT + 1)), StatusSortValue(false, Some(LIMIT + 2)))
    ensures !LexLess(StatusSortValue(false, Some(LIMIT + 2)), StatusSortValue(false, Some(LIMIT + 1)))
  {
    NewerFirstIff(LIMIT + 1, LIMIT + 2);
    RecencyPastLimit(LIMIT + 1);
    RecencyPastLimit(LIMIT + 2);
    LexLessPrefix(Zeros(14), "-1", "-2");
    LexLessPrefix("-", "1", "2");
    assert Decimal(1) == "1" && Decimal(2) == "2" && "-" + "1" == "-1" && "-" + "2" == "-2";
    assert LexLess("1", "2");
    RankFirst(false, false, Recency(LIMIT + 1), Recency(LIMIT + 2));
    RankFirst(false, false, Recency(LIMIT + 2), Recency(LIMIT + 1));
  }
}
