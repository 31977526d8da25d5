/** Times as the stores write them. SQL compares them as text, so the text must order as the times do. */
module TimeText {
  import opened Basics

  /** A UTC time of the years 0 to 9999, split as the layouts print it. */
  datatype Civil = Civil(year: nat, month: nat, day: nat, hour: nat, minute: nat, second: nat, nanos: nat)

  predicate Printable(c: Civil) {
    && c.year < 1_0000 && c.month < 100 && c.day < 100 && c.hour < 100 && c.minute < 100 && c.second < 100
    && c.nanos < 1_000_000_000
  }

  /** The order of the times themselves. */
  predicate Earlier(a: Civil, b: Civil) {
    || a.year < b.year
    || (a.year == b.year && (|| a.month < b.month
                             || (a.month == b.month && (|| a.day < b.day
                                                        || (a.day == b.day && EarlierInDay(a, b))))))
  }

  predicate EarlierInDay(a: Civil, b: Civil) {
    || a.hour < b.hour
    || (a.hour == b.hour && (|| a.minute < b.minute
                             || (a.minute == b.minute && (|| a.second < b.second
                                                          || (a.second == b.second && a.nanos < b.nanos)))))
  }

  function Digit(n: nat): char
    requires n < 10
  {
    '0' + n as char
  }

  function Pow10(w: nat): nat {
    if w == 0 then 1 else 10 * Pow10(w - 1)
  }

  /** Zero-padded decimal of fixed width. */
  function Pad(n: nat, w: nat): string {
    if w == 0 then "" else Pad(n / 10, w - 1) + [Digit(n % 10)]
  }

  /** 2006-01-02T15:04:05.000000000Z */
  function Fixed(c: Civil): string {
    Pad(c.year, 4) + (['-'] + (Pad(c.month, 2) + (['-'] + (Pad(c.day, 2) + (['T'] + InDay(c, Pad(c.nanos, 9)))))))
  }

  function InDay(c: Civil, nanos: string): string {
    Pad(c.hour, 2) + ([':'] + (Pad(c.minute, 2) + ([':'] + (Pad(c.second, 2) + (['.'] + (nanos + ['Z']))))))
  }

  lemma {:induction false} LessAfterSame(c: char, x: string, y: string)
    ensures Less([c] + x, [c] + y) == Less(x, y)
  {
    assert ([c] + x)[1..] == x && ([c] + y)[1..] == y;
  }

  lemma {:induction false} LessAfterDigits(d: nat, e: nat, x: string, y: string)
    requires d < 10 && e < 10
    ensures Less([Digit(d)] + x, [Digit(e)] + y) <==> (d < e || (d == e && Less(x, y)))
  {
    assert ([Digit(d)] + x)[1..] == x && ([Digit(e)] + y)[1..] == y;
  }

  /** Equal widths: the numbers decide, then what follows. */
  lemma {:induction false} PadOrder(n: nat, m: nat, w: nat, x: string, y: string)
    requires n < Pow10(w) && m < Pow10(w)
    ensures Less(Pad(n, w) + x, Pad(m, w) + y) <==> (n < m || (n == m && Less(x, y)))
  {
    if w == 0 {
      assert Pad(n, w) + x == x && Pad(m, w) + y == y;
    } else {
      var d, e := n % 10, m % 10;
      PadOrder(n / 10, m / 10, w - 1, [Digit(d)] + x, [Digit(e)] + y);
      LessAfterDigits(d, e, x, y);
      assert Pad(n, w) + x == Pad(n / 10, w - 1) + ([Digit(d)] + x);
      assert Pad(m, w) + y == Pad(m / 10, w - 1) + ([Digit(e)] + y);
    }
  }

  lemma {:induction false} PadThen(n: nat, m: nat, w: nat, c: char, x: string, y: string)
    requires n < Pow10(w) && m < Pow10(w)
    ensures Less(Pad(n, w) + ([c] + x), Pad(m, w) + ([c] + y)) <==> (n < m || (n == m && Less(x, y)))
  {
    PadOrder(n, m, w, [c] + x, [c] + y);
    LessAfterSame(c, x, y);
  }

  lemma {:induction false} Widths()
    ensures Pow10(2) == 100 && Pow10(4) == 1_0000 && Pow10(9) == 1_000_000_000
  {
    assert Pow10(3) == 1000 && Pow10(5) == 10_0000 && Pow10(7) == 1000_0000;
  }

  lemma {:induction false} InDayOrder(a: Civil, b: Civil)
    requires Printable(a) && Printable(b)
    ensures Less(InDay(a, Pad(a.nanos, 9)), InDay(b, Pad(b.nanos, 9))) <==> EarlierInDay(a, b)
  {
    Widths();
    var na, nb := Pad(a.nanos, 9) + ['Z'], Pad(b.nanos, 9) + ['Z'];
    PadOrder(a.nanos, b.nanos, 9, ['Z'], ['Z']);
    LessIrreflexive(['Z']);
    var sa, sb := Pad(a.second, 2) + (['.'] + na), Pad(b.second, 2) + (['.'] + nb);
    PadThen(a.second, b.second, 2, '.', na, nb);
    var ma, mb := Pad(a.minute, 2) + ([':'] + sa), Pad(b.minute, 2) + ([':'] + sb);
    PadThen(a.minute, b.minute, 2, ':', sa, sb);
    PadThen(a.hour, b.hour, 2, ':', ma, mb);
  }

  /** The fixed-width layout orders exactly as the times do. */
  lemma {:induction false} FixedOrdersAsTime(a: Civil, b: Civil)
    requires Printable(a) && Printable(b)
    ensures Less(Fixed(a), Fixed(b)) <==> Earlier(a, b)
  {
    Widths();
    InDayOrder(a, b);
    var ta, tb := InDay(a, Pad(a.nanos, 9)), InDay(b, Pad(b.nanos, 9));
    PadThen(a.day, b.day, 2, 'T', ta, tb);
    var da, db := Pad(a.day, 2) + (['T'] + ta), Pad(b.day, 2) + (['T'] + tb);
    PadThen(a.month, b.month, 2, '-', da, db);
    var ma, mb := Pad(a.month, 2) + (['-'] + da), Pad(b.month, 2) + (['-'] + db);
    PadThen(a.year, b.year, 4, '-', ma, mb);
  }

  // ---- the variable-width layout ----

  function TrimZeros(s: string): string {
    if s != "" && s[|s| - 1] == '0' then TrimZeros(s[..|s| - 1]) else s
  }

  /** The fraction of a second without trailing zeros. */
  function Fraction(nanos: nat): string {
    TrimZeros(Pad(nanos, 9))
  }

  /** The end of an RFC 3339 time: the fraction's point goes with its last digit. */
  function NanoTail(nanos: nat): string {
    if Fraction(nanos) == "" then ['Z'] else ['.'] + (Fraction(nanos) + ['Z'])
  }

  function Seconds(c: Civil, tail: string): string {
    Pad(c.hour, 2) + ([':'] + (Pad(c.minute, 2) + ([':'] + (Pad(c.second, 2) + tail))))
  }

  /** 2006-01-02T15:04:05.999999999Z */
  function NanoText(c: Civil): string {
    Pad(c.year, 4) + (['-'] + (Pad(c.month, 2) + (['-'] + (Pad(c.day, 2) + (['T'] + Seconds(c, NanoTail(c.nanos)))))))
  }

  predicate SameSecond(a: Civil, b: Civil) {
    a.(nanos := b.nanos) == b
  }

  predicate EarlierSecond(a: Civil, b: Civil) {
    Earlier(a.(nanos := 0), b.(nanos := 0))
  }

  lemma {:induction false} SecondsDecide(a: Civil, b: Civil)
    requires Printable(a) && Printable(b)
    ensures Less(NanoText(a), NanoText(b)) <==>
            EarlierSecond(a, b) || (SameSecond(a, b) && Less(NanoTail(a.nanos), NanoTail(b.nanos)))
  {
    Widths();
    var x, y := NanoTail(a.nanos), NanoTail(b.nanos);
    PadOrder(a.second, b.second, 2, x, y);
    var sx, sy := Pad(a.second, 2) + x, Pad(b.second, 2) + y;
    PadThen(a.minute, b.minute, 2, ':', sx, sy);
    var mx, my := Pad(a.minute, 2) + ([':'] + sx), Pad(b.minute, 2) + ([':'] + sy);
    PadThen(a.hour, b.hour, 2, ':', mx, my);
    var hx, hy := Pad(a.hour, 2) + ([':'] + mx), Pad(b.hour, 2) + ([':'] + my);
    PadThen(a.day, b.day, 2, 'T', hx, hy);
    var dx, dy := Pad(a.day, 2) + (['T'] + hx), Pad(b.day, 2) + (['T'] + hy);
    PadThen(a.month, b.month, 2, '-', dx, dy);
    PadThen(a.year, b.year, 4, '-', Pad(a.month, 2) + (['-'] + dx), Pad(b.month, 2) + (['-'] + dy));
  }

  predicate IsDigits(s: string) {
    forall i :: 0 <= i < |s| ==> '0' <= s[i] <= '9'
  }

  predicate AllZeros(s: string) {
    forall i :: 0 <= i < |s| ==> s[i] == '0'
  }

  lemma {:induction false} PadIsDigits(n: nat, w: nat)
    ensures IsDigits(Pad(n, w)) && |Pad(n, w)| == w
  {
    if w > 0 { PadIsDigits(n / 10, w - 1); }
  }

  lemma {:induction false} TrimmedZeros(s: string) returns (zeros: string)
    ensures s == TrimZeros(s) + zeros && AllZeros(zeros)
    ensures TrimZeros(s) != "" ==> TrimZeros(s)[|TrimZeros(s)| - 1] != '0'
  {
    zeros := "";
    if s != "" && s[|s| - 1] == '0' {
      var z := TrimmedZeros(s[..|s| - 1]);
      zeros := z + "0";
    }
  }

  /** Strings that part ways before either ends compare by what they part over. */
  lemma {:induction false} PartedOrder(f: string, g: string, x: string, y: string)
    requires !(f <= g) && !(g <= f)
    ensures Less(f + x, g + y) == Less(f, g)
  {
    assert f != "" && g != "";
    if f[0] == g[0] {
      assert f == [f[0]] + f[1..] && g == [g[0]] + g[1..];
      PartedOrder(f[1..], g[1..], x, y);
      assert (f + x)[1..] == f[1..] + x && (g + y)[1..] == g[1..] + y;
    }
  }

  /** The shorter of two fractions sorts last, since Z follows the digits. */
  lemma {:induction false} PrefixSortsLast(f: string, g: string)
    requires f <= g && f != g && IsDigits(g)
    ensures Less(g + ['Z'], f + ['Z'])
  {
    if f == "" {
      assert f + ['Z'] == ['Z'] && (g + ['Z'])[0] == g[0];
    } else {
      PrefixSortsLast(f[1..], g[1..]);
      assert (f + ['Z'])[1..] == f[1..] + ['Z'] && (g + ['Z'])[1..] == g[1..] + ['Z'];
    }
  }

  lemma {:induction false} NothingBelowZeros(s: string, zeros: string)
    requires IsDigits(s) && AllZeros(zeros) && |s| == |zeros|
    ensures !Less(s, zeros)
  {
    if s != "" { NothingBelowZeros(s[1..], zeros[1..]); }
  }

  lemma {:induction false} SharedPrefix(p: string, x: string, y: string)
    ensures Less(p + x, p + y) == Less(x, y)
  {
    if p == "" {
      assert p + x == x && p + y == y;
    } else {
      SharedPrefix(p[1..], x, y);
      assert (p + x)[1..] == p[1..] + x && (p + y)[1..] == p[1..] + y;
    }
  }

  /** A smaller fraction never extends a larger one. */
  lemma {:induction false} NotExtended(n: nat, m: nat)
    requires n < m < 1_000_000_000
    ensures !(Fraction(m) <= Fraction(n))
  {
    Widths();
    var f, g := Fraction(n), Fraction(m);
    PadOrder(n, m, 9, "", "");
    assert Pad(n, 9) + "" == Pad(n, 9) && Pad(m, 9) + "" == Pad(m, 9);
    PadIsDigits(n, 9);
    PadIsDigits(m, 9);
    var zg := TrimmedZeros(Pad(m, 9));
    if g <= f {
      var rest := Pad(n, 9)[|g|..];
      var zf := TrimmedZeros(Pad(n, 9));
      assert Pad(n, 9)[..|g|] == g;
      assert Pad(n, 9) == g + rest;
      SharedPrefix(g, rest, zg);
      NothingBelowZeros(rest, zg);
    }
  }

  lemma {:induction false} TailOrder(n: nat, m: nat)
    requires n < m < 1_000_000_000
    ensures Less(NanoTail(n), NanoTail(m)) <==> !(Fraction(n) <= Fraction(m))
    ensures Fraction(n) <= Fraction(m) ==> Less(NanoTail(m), NanoTail(n))
  {
    Widths();
    var f, g := Fraction(n), Fraction(m);
    NotExtended(n, m);
    PadIsDigits(m, 9);
    var zf := TrimmedZeros(Pad(n, 9));
    var zg := TrimmedZeros(Pad(m, 9));
    LessAfterSame('.', f + ['Z'], g + ['Z']);
    if f <= g {
      assert IsDigits(g) by { assert forall i :: 0 <= i < |g| ==> g[i] == Pad(m, 9)[i]; }
      PrefixSortsLast(f, g);
      LessAsymmetric(g + ['Z'], f + ['Z']);
    } else {
      PartedOrder(f, g, ['Z'], ['Z']);
      PartedOrder(f, g, zf, zg);
      PadOrder(n, m, 9, "", "");
      assert Pad(n, 9) + "" == Pad(n, 9) && Pad(m, 9) + "" == Pad(m, 9);
    }
  }

  /** This layout puts an earlier time first exactly unless both fall in one second and the earlier fraction, without
      its trailing zeros, begins the later one; then the later time comes first. */
  lemma {:induction false} NanoOrdersAsTimeIff(a: Civil, b: Civil)
    requires Printable(a) && Printable(b) && Earlier(a, b)
    ensures Less(NanoText(a), NanoText(b)) <==> !Misordered(a, b)
    ensures Misordered(a, b) ==> Less(NanoText(b), NanoText(a))
  {
    SecondsDecide(a, b);
    SecondsDecide(b, a);
    if SameSecond(a, b) { TailOrder(a.nanos, b.nanos); }
  }

  predicate Misordered(a: Civil, b: Civil) {
    SameSecond(a, b) && Fraction(a.nanos) <= Fraction(b.nanos)
  }

  lemma {:induction false} NoFraction(w: nat)
    ensures TrimZeros(Pad(0, w)) == ""
  {
    if w > 0 {
      NoFraction(w - 1);
      assert Pad(0, w)[..w - 1] == Pad(0, w - 1) by { PadIsDigits(0, w - 1); }
    }
  }

  /** A whole second is written after every later instant of that second. */
  lemma {:induction false} WholeSecondSortsLast(a: Civil, b: Civil)
    requires Printable(a) && Printable(b) && a.nanos == 0 && b.nanos > 0 && SameSecond(a, b)
    ensures Earlier(a, b) && Less(NanoText(b), NanoText(a))
  {
    NoFraction(9);
    NanoOrdersAsTimeIff(a, b);
  }

  const FIVE := Civil(2026, 1, 1, 0, 0, 5, 0)
  const FIVE_AND_A_HALF := Civil(2026, 1, 1, 0, 0, 5, 500_000_000)

  /** So the text order is not the time order: 00:00:05Z is written after 00:00:05.5Z. */
  lemma {:induction false} NanoOrderFails()
    ensures Printable(FIVE) && Printable(FIVE_AND_A_HALF) && Earlier(FIVE, FIVE_AND_A_HALF)
    ensures !Less(NanoText(FIVE), NanoText(FIVE_AND_A_HALF)) && Less(NanoText(FIVE_AND_A_HALF), NanoText(FIVE))
  {
    WholeSecondSortsLast(FIVE, FIVE_AND_A_HALF);
    LessAsymmetric(NanoText(FIVE_AND_A_HALF), NanoText(FIVE));
  }

  lemma {:induction false} EarlierIsTotal(a: Civil, b: Civil)
    ensures Earlier(a, b) || a == b || Earlier(b, a)
    ensures !(Earlier(a, b) && Earlier(b, a)) && !Earlier(a, a)
  {
  }
}
