/** Identifiers, byte lengths and the orders that the stores sort by. */
module Basics {

  datatype Option<+T> = None | Some(value: T)

  // ---- identifiers ----

  predicate IsHex(c: char) {
    '0' <= c <= '9' || 'a' <= c <= 'f'
  }

  /** Lower-case 8-4-4-4-12 form, the one both the coordinator and the hosts accept. */
  predicate IsUuid(s: string) {
    && |s| == 36
    && forall i :: 0 <= i < 36 ==> if i in {8, 13, 18, 23} then s[i] == '-' else IsHex(s[i])
  }

  predicate IsHostChar(c: char) {
    '0' <= c <= '9' || 'a' <= c <= 'z' || c == '-'
  }

  predicate IsHost(s: string) {
    && 1 <= |s| <= 63
    && s[0] != '-'
    && forall i :: 0 <= i < |s| ==> IsHostChar(s[i])
  }

  /** Positions of the characters from code point `from` on. */
  function CharsFrom(s: string, from: int): set<nat> {
    set i: nat | i < |s| && s[i] as int >= from
  }

  /** Length of the UTF-8 encoding: one byte per character, and one more past each width limit. */
  function Utf8Len(s: string): nat {
    |s| + |CharsFrom(s, 0x80)| + |CharsFrom(s, 0x800)| + |CharsFrom(s, 0x10000)|
  }

  lemma {:induction false} CharsFromBound(s: string, from: int)
    ensures |CharsFrom(s, from)| <= |s|
  {
    if s != "" {
      var n := |s| - 1;
      CharsFromBound(s[..n], from);
      SubsetSize(CharsFrom(s, from), CharsFrom(s[..n], from) + {n});
    }
  }

  lemma {:induction false} SubsetSize<T>(a: set<T>, b: set<T>)
    requires a <= b
    ensures |a| <= |b|
  {
    if a != {} {
      var x :| x in a;
      SubsetSize(a - {x}, b - {x});
    }
  }

  lemma {:induction false} Utf8Bound(s: string)
    ensures |s| <= Utf8Len(s) <= 4 * |s|
  {
    CharsFromBound(s, 0x80);
    CharsFromBound(s, 0x800);
    CharsFromBound(s, 0x10000);
  }

  predicate IsAscii(s: string) {
    forall i :: 0 <= i < |s| ==> s[i] < 0x80 as char
  }

  lemma {:induction false} AsciiLen(s: string)
    requires IsAscii(s)
    ensures Utf8Len(s) == |s|
  {
    assert CharsFrom(s, 0x80) == {} && CharsFrom(s, 0x800) == {} && CharsFrom(s, 0x10000) == {};
  }

  /** A non-empty string of at most `max` encoded bytes. */
  predicate IsText(s: string, max: nat) {
    s != "" && Utf8Len(s) <= max
  }

  // ---- white space ----

  /** Unicode white space, as Go's unicode.IsSpace. */
  predicate IsSpace(c: char) {
    || '\t' <= c <= '\r' || c == ' ' || c as int in {0x85, 0xA0, 0x1680, 0x2028, 0x2029, 0x202F, 0x205F, 0x3000}
    || 0x2000 <= c as int <= 0x200A
  }

  function TrimLeft(s: string): string {
    if s != "" && IsSpace(s[0]) then TrimLeft(s[1..]) else s
  }

  function TrimRight(s: string): string {
    if s != "" && IsSpace(s[|s| - 1]) then TrimRight(s[..|s| - 1]) else s
  }

  function TrimSpace(s: string): string {
    TrimRight(TrimLeft(s))
  }

  predicate IsBlank(s: string) {
    TrimSpace(s) == ""
  }

  predicate AllSpace(s: string) {
    forall i :: 0 <= i < |s| ==> IsSpace(s[i])
  }

  lemma {:induction false} TrimLeftDrops(s: string) returns (blank: string)
    ensures s == blank + TrimLeft(s) && AllSpace(blank)
  {
    blank := "";
    if s != "" && IsSpace(s[0]) {
      blank := TrimLeftDrops(s[1..]);
      blank := [s[0]] + blank;
      assert s == [s[0]] + s[1..];
    }
  }

  lemma {:induction false} TrimRightDrops(s: string) returns (blank: string)
    ensures s == TrimRight(s) + blank && AllSpace(blank)
  {
    blank := "";
    if s != "" && IsSpace(s[|s| - 1]) {
      blank := TrimRightDrops(s[..|s| - 1]);
      blank := blank + [s[|s| - 1]];
      assert s == s[..|s| - 1] + [s[|s| - 1]];
    }
  }

  /** Trimming removes white space at both ends and nothing else. */
  lemma {:induction false} TrimDrops(s: string) returns (left: string, right: string)
    ensures s == left + TrimSpace(s) + right && AllSpace(left) && AllSpace(right)
  {
    left := TrimLeftDrops(s);
    right := TrimRightDrops(TrimLeft(s));
  }

  // ---- byte order on strings, as SQL binary collation and Go compare them ----

  predicate Less(a: string, b: string) {
    b != "" && (a == "" || a[0] < b[0] || (a[0] == b[0] && Less(a[1..], b[1..])))
  }

  lemma {:induction false} LessTotal(a: string, b: string)
    ensures Less(a, b) || a == b || Less(b, a)
  {
    if a != "" && b != "" && a[0] == b[0] {
      LessTotal(a[1..], b[1..]);
      assert a == [a[0]] + a[1..] && b == [b[0]] + b[1..];
    }
  }

  lemma {:induction false} LessTransitive(a: string, b: string, c: string)
    requires Less(a, b) && Less(b, c)
    ensures Less(a, c)
  {
    if a != "" && a[0] == b[0] == c[0] {
      LessTransitive(a[1..], b[1..], c[1..]);
    }
  }

  lemma {:induction false} LessIrreflexive(a: string)
    ensures !Less(a, a)
  {
    if a != "" {
      LessIrreflexive(a[1..]);
    }
  }

  lemma {:induction false} LessAsymmetric(a: string, b: string)
    requires Less(a, b)
    ensures !Less(b, a) && a != b
  {
    LessIrreflexive(a);
    if Less(b, a) {
      LessTransitive(a, b, a);
    }
  }

  /** A number that is not in use. */
  lemma {:induction false} AboveAll(s: set<nat>) returns (n: nat)
    ensures forall x :: x in s ==> x < n
  {
    n := 0;
    if s != {} {
      var x :| x in s;
      var m := AboveAll(s - {x});
      n := if x < m then m else x + 1;
      assert forall y :: y in s ==> y == x || y in s - {x};
    }
  }

  // ---- runs: states and the events between them ----

  /** One run after another that starts where it ends. */
  lemma {:induction false} JoinedAt<W, E>(ws: seq<W>, evs: seq<E>, vs: seq<W>, fs: seq<E>, i: nat)
    requires |ws| == |evs| + 1 && |vs| == |fs| + 1 && ws[|ws| - 1] == vs[0] && i < |evs| + |fs|
    ensures var all, es := ws + vs[1..], evs + fs;
            if i < |evs| then all[i] == ws[i] && all[i + 1] == ws[i + 1] && es[i] == evs[i]
            else all[i] == vs[i - |evs|] && all[i + 1] == vs[i - |evs| + 1] && es[i] == fs[i - |evs|]
  {
  }
}

/** The listing of a finite set in ascending order: what `ORDER BY` yields when the key is unique. */
module Listing {
  import opened Basics

  ghost predicate StrictOrder<T(!new)>(less: (T, T) -> bool) {
    && (forall x :: !less(x, x))
    && (forall x, y :: less(x, y) || x == y || less(y, x))
    && (forall x, y, z :: less(x, y) && less(y, z) ==> less(x, z))
  }

  lemma {:induction false} LessIsStrict()
    ensures StrictOrder(Less)
  {
    forall x: string ensures !Less(x, x) { LessIrreflexive(x); }
    forall x: string, y: string ensures Less(x, y) || x == y || Less(y, x) { LessTotal(x, y); }
    forall x: string, y: string, z: string | Less(x, y) && Less(y, z) ensures Less(x, z) { LessTransitive(x, y, z); }
  }

  predicate IsLeast<T(==)>(less: (T, T) -> bool, x: T, s: set<T>) {
    x in s && forall y :: y in s && y != x ==> less(x, y)
  }

  lemma {:induction false} LeastUnique<T(!new)>(less: (T, T) -> bool, x: T, y: T, s: set<T>)
    requires StrictOrder(less) && IsLeast(less, x, s) && IsLeast(less, y, s)
    ensures x == y
  {
    assert less(x, y) && less(y, x) ==> less(x, x);
  }

  lemma {:induction false} LeastExists<T(!new)>(less: (T, T) -> bool, s: set<T>)
    requires StrictOrder(less) && s != {}
    ensures exists x :: IsLeast(less, x, s)
  {
    var y :| y in s;
    if s == {y} {
      assert IsLeast(less, y, s);
    } else {
      LeastExists(less, s - {y});
      var z :| IsLeast(less, z, s - {y});
      var x := if less(y, z) then y else z;
      forall v | v in s && v != x ensures less(x, v) {
        assert v == y || v == z || less(z, v);
      }
      assert IsLeast(less, x, s);
    }
  }

  ghost function Least<T(!new)>(less: (T, T) -> bool, s: set<T>): (x: T)
    requires StrictOrder(less) && s != {}
    ensures IsLeast(less, x, s)
  {
    LeastExists(less, s);
    var x :| IsLeast(less, x, s);
    x
  }

  ghost predicate Ascending<T>(less: (T, T) -> bool, xs: seq<T>) {
    forall i, j :: 0 <= i < j < |xs| ==> less(xs[i], xs[j])
  }

  ghost function Sorted<T(!new)>(less: (T, T) -> bool, s: set<T>): (xs: seq<T>)
    requires StrictOrder(less)
    ensures Ascending(less, xs)
    ensures forall x :: x in xs <==> x in s
    ensures |xs| == |s|
  {
    if s == {} then []
    else
      var x := Least(less, s);
      [x] + Sorted(less, s - {x})
  }

  lemma {:induction false} PlacesInOrder<T(!new)>(less: (T, T) -> bool, xs: seq<T>, i: nat, j: nat)
    requires StrictOrder(less) && Ascending(less, xs) && i < |xs| && j < |xs|
    ensures less(xs[i], xs[j]) <==> i < j
  {
  }

  /** Ascending listings of one set are equal, so every reader sees the same order. */
  lemma {:induction false} SortedUnique<T(!new)>(less: (T, T) -> bool, xs: seq<T>, ys: seq<T>)
    requires StrictOrder(less) && Ascending(less, xs) && Ascending(less, ys)
    requires forall x :: x in xs <==> x in ys
    ensures xs == ys
  {
    assert xs != [] ==> xs[0] in ys;
    assert ys != [] ==> ys[0] in xs;
    if xs != [] {
      var i :| 0 <= i < |ys| && ys[i] == xs[0];
      var j :| 0 <= j < |xs| && xs[j] == ys[0];
      assert i == 0;
      forall x ensures x in xs[1..] <==> x in ys[1..] {
        TailMembers(less, xs, x);
        TailMembers(less, ys, x);
      }
      SortedUnique(less, xs[1..], ys[1..]);
      assert xs == [xs[0]] + xs[1..] && ys == [ys[0]] + ys[1..];
    }
  }

  lemma {:induction false} TailMembers<T(!new)>(less: (T, T) -> bool, xs: seq<T>, x: T)
    requires StrictOrder(less) && Ascending(less, xs) && xs != []
    ensures x in xs[1..] <==> x in xs && x != xs[0]
  {
    if x in xs[1..] {
      var i :| 0 <= i < |xs[1..]| && xs[1..][i] == x;
      assert xs[i + 1] == x;
    }
    if x in xs && x != xs[0] {
      var i :| 0 <= i < |xs| && xs[i] == x;
      assert xs[1..][i - 1] == x;
    }
  }

  // ---- ORDER BY ... LIMIT n ----

  ghost function First<T(!new)>(less: (T, T) -> bool, s: set<T>, n: nat): (xs: seq<T>)
    requires StrictOrder(less)
    ensures forall x :: x in xs ==> x in s
    ensures |xs| == if |s| <= n then |s| else n
  {
    var all := Sorted(less, s);
    if |all| <= n then all else all[..n]
  }

  /** Fetching one row more than a page: an element missing from the page comes after all of it, and the extra row
      exists. */
  lemma {:induction false} PageCut<T(!new)>(less: (T, T) -> bool, s: set<T>, n: nat, rows: seq<T>, x: T)
    requires StrictOrder(less) && x in s && rows == First(less, s, n + 1)
    requires forall i :: 0 <= i < |rows| && i < n ==> rows[i] != x
    ensures |rows| == n + 1
    ensures forall i :: 0 <= i < n ==> less(rows[i], x)
  {
    var all := Sorted(less, s);
    var j :| 0 <= j < |all| && all[j] == x;
  }

  lemma {:induction false} AfterIsTail<T(!new)>(less: (T, T) -> bool, all: seq<T>, n: nat, x: T)
    requires StrictOrder(less) && Ascending(less, all) && 1 <= n <= |all|
    ensures x in all[n..] <==> x in all && less(all[n - 1], x)
  {
    var tail := all[n..];
    if x in tail {
      var i :| 0 <= i < |tail| && tail[i] == x;
      assert all[n + i] == x;
    }
    if x in all && less(all[n - 1], x) {
      var j :| 0 <= j < |all| && all[j] == x;
      if j >= n { assert tail[j - n] == x; }
    }
  }

  lemma {:induction false} TailUnique<T(!new)>(less: (T, T) -> bool, all: seq<T>, n: nat, tail: seq<T>)
    requires StrictOrder(less) && Ascending(less, all) && Ascending(less, tail) && 1 <= n <= |all|
    requires forall x :: x in tail <==> x in all && less(all[n - 1], x)
    ensures all == all[..n] + tail
  {
    forall x ensures x in all[n..] <==> x in tail {
      AfterIsTail(less, all, n, x);
    }
    SortedUnique(less, all[n..], tail);
    assert all == all[..n] + all[n..];
  }

  /** A full page followed by the listing of what comes after its last element is the whole listing. */
  lemma {:induction false} PageThenRest<T(!new)>(less: (T, T) -> bool, s: set<T>, n: nat, rows: seq<T>, rest: set<T>)
    requires StrictOrder(less) && n >= 1 && rows == First(less, s, n + 1) && |rows| == n + 1
    requires forall x :: x in rest <==> x in s && less(rows[n - 1], x)
    ensures Sorted(less, s) == rows[..n] + Sorted(less, rest)
  {
    var all := Sorted(less, s);
    assert rows[..n] == all[..n] && rows[n - 1] == all[n - 1];
    TailUnique(less, all, n, Sorted(less, rest));
  }

  lemma {:induction false} NextInOrder<T(!new)>(less: (T, T) -> bool, all: seq<T>, i: nat, left: set<T>, x: T)
    requires StrictOrder(less) && Ascending(less, all) && i <= |all|
    requires forall y :: y in left <==> y in all[i..]
    requires IsLeast(less, x, left)
    ensures i < |all| && x == all[i]
    ensures forall y :: y in left - {x} <==> y in all[i + 1..]
  {
    var rest := all[i..];
    assert x in rest;
    assert rest[0] in left;
    forall y | y in rest && y != rest[0] ensures less(rest[0], y) {
      var j :| 0 <= j < |rest| && rest[j] == y;
      assert all[i + j] == y;
    }
    LeastUnique(less, x, rest[0], left);
    assert rest[1..] == all[i + 1..];
    forall y ensures y in rest[1..] <==> y in rest && y != x {
      TailMembers(less, rest, y);
    }
  }

  /** The listing cut after n elements, as a prefix of the full listing. */
  lemma {:induction false} FirstIsPrefix<T(!new)>(less: (T, T) -> bool, s: set<T>, n: nat, all: seq<T>, k: nat)
    requires StrictOrder(less) && all == Sorted(less, s) && k <= n && k <= |all| && (k == n || k == |all|)
    ensures First(less, s, n) == all[..k]
  {
  }

  lemma {:induction false} SomethingLeft<T(!new)>(all: seq<T>, k: nat, left: set<T>)
    requires k < |all| && forall x :: x in left <==> x in all[k..]
    ensures left != {}
  {
    assert all[k..][0] in all[k..];
  }

  lemma {:induction false} SelectedOne<T(!new)>(less: (T, T) -> bool, all: seq<T>, found: seq<T>, left: set<T>, x: T)
    requires StrictOrder(less) && Ascending(less, all) && |found| <= |all| && found == all[..|found|]
    requires (forall y :: y in left <==> y in all[|found|..]) && IsLeast(less, x, left)
    ensures |found| < |all| && found + [x] == all[..|found| + 1]
    ensures forall y :: y in left - {x} <==> y in all[|found| + 1..]
  {
    NextInOrder(less, all, |found|, left, x);
  }

  method Minimum<T(==,!new)>(less: (T, T) -> bool, s: set<T>) returns (x: T)
    requires StrictOrder(less) && s != {}
    ensures IsLeast(less, x, s)
  {
    LeastExists(less, s);
    x :| x in s && IsLeast(less, x, s);
  }

  method SelectFirst<T(==,!new)>(less: (T, T) -> bool, s: set<T>, n: nat) returns (found: seq<T>)
    requires StrictOrder(less)
    ensures found == First(less, s, n)
  {
    ghost var all := Sorted(less, s);
    var left := s;
    found := [];
    while left != {} && |found| < n
      invariant |found| <= n && |found| <= |all| && found == all[..|found|]
      invariant forall x :: x in left <==> x in all[|found|..]
      decreases n - |found|
    {
      var x := Minimum(less, left);
      SelectedOne(less, all, found, left, x);
      left := left - {x};
      found := found + [x];
    }
    if |found| < |all| { SomethingLeft(all, |found|, left); }
    FirstIsPrefix(less, s, n, all, |found|);
  }
}
