/** Strings as the program compares and renders them: the order of Go strings,
    decimal rendering, and the textual key of an integer allocation. */
module Text {

  /** Lexicographic order; a proper prefix comes first. */
  predicate Less(a: string, b: string) {
    |b| > 0 && (|a| == 0 || a[0] < b[0] || (a[0] == b[0] && Less(a[1..], b[1..])))
  }

  lemma {:induction false} LessIrreflexive(a: string)
    ensures !Less(a, a)
  {
    if |a| > 0 { LessIrreflexive(a[1..]); }
  }

  lemma {:induction false} LessTransitive(a: string, b: string, c: string)
    requires Less(a, b) && Less(b, c)
    ensures Less(a, c)
  {
    if |a| > 0 && a[0] == b[0] == c[0] { LessTransitive(a[1..], b[1..], c[1..]); }
  }

  lemma {:induction false} LessTotal(a: string, b: string)
    ensures a == b || Less(a, b) || Less(b, a)
  {
    if |a| > 0 && |b| > 0 && a[0] == b[0] {
      LessTotal(a[1..], b[1..]);
      assert a == [a[0]] + a[1..] && b == [b[0]] + b[1..];
    }
  }

  /** A common head is transparent to the order. */
  lemma {:induction false} LessCommonHead(u: string, s: string, t: string)
    ensures Less(u + s, u + t) == Less(s, t)
  {
    if |u| == 0 {
      assert u + s == s && u + t == t;
    } else {
      LessCommonHead(u[1..], s, t);
      assert (u + s)[1..] == u[1..] + s && (u + t)[1..] == u[1..] + t;
    }
  }

  // ---------- decimal rendering ----------

  predicate IsDigit(c: char) { '0' <= c <= '9' }

  ghost predicate AllDigits(s: string) { forall i :: 0 <= i < |s| ==> IsDigit(s[i]) }

  function DigitChar(d: nat): (c: char)
    requires d < 10
    ensures IsDigit(c) && c as int - '0' as int == d
  {
    (d + '0' as int) as char
  }

  function Decimal(n: nat): (s: string)
    ensures |s| > 0 && AllDigits(s)
  {
    if n < 10 then [DigitChar(n)] else Decimal(n / 10) + [DigitChar(n % 10)]
  }

  lemma {:induction false} DecimalInjective(a: nat, b: nat)
    requires Decimal(a) == Decimal(b)
    ensures a == b
    decreases a + b
  {
    var s, t := Decimal(a), Decimal(b);
    assert s[|s| - 1] == DigitChar(a % 10) && t[|t| - 1] == DigitChar(b % 10);
    if a >= 10 && b >= 10 {
      assert Decimal(a / 10) == s[..|s| - 1] && Decimal(b / 10) == t[..|t| - 1];
      DecimalInjective(a / 10, b / 10);
    }
  }

  /** Rendering of a signed integer. */
  function SignedDecimal(n: int): (s: string)
    ensures |s| > 0
    ensures forall i :: 0 <= i < |s| ==> IsDigit(s[i]) || s[i] == '-'
  {
    if n < 0 then "-" + Decimal(-n) else Decimal(n)
  }

  lemma SignedDecimalInjective(a: int, b: int)
    requires SignedDecimal(a) == SignedDecimal(b)
    ensures a == b
  {
    assert (SignedDecimal(a)[0] == '-') == (a < 0);
    assert (SignedDecimal(b)[0] == '-') == (b < 0);
    if a < 0 && b < 0 {
      assert SignedDecimal(a)[1..] == Decimal(-a) && SignedDecimal(b)[1..] == Decimal(-b);
      DecimalInjective(-a, -b);
    } else if a >= 0 && b >= 0 {
      DecimalInjective(a, b);
    }
  }

  // ---------- allocation keys ----------

  /** The amounts in decimal, separated by commas. */
  function AllocationKey(a: seq<nat>): string {
    if |a| == 0 then ""
    else if |a| == 1 then Decimal(a[0])
    else Decimal(a[0]) + "," + AllocationKey(a[1..])
  }

  /** The order the keys induce on allocations of one length: the first amount
      that differs decides, by its decimal text. */
  predicate KeyLess(p: seq<nat>, q: seq<nat>)
    requires |p| == |q|
  {
    |p| > 0 && if p[0] == q[0] then KeyLess(p[1..], q[1..]) else Less(Decimal(p[0]), Decimal(q[0]))
  }

  /** What follows an amount in a key: nothing, or a comma and more. */
  ghost predicate Tail(s: string) { s == "" || s[0] == ',' }

  /** Different digit strings decide the comparison whatever follows them,
      because a comma sorts before every digit. */
  lemma {:induction false} DigitsDecide(u: string, v: string, s: string, t: string)
    requires AllDigits(u) && AllDigits(v) && u != v
    requires Tail(s) && Tail(t) && (s == "" <==> t == "")
    ensures Less(u + s, v + t) == Less(u, v)
  {
    if |u| == 0 {
      assert u + s == s;
      assert (v + t)[0] == v[0] && IsDigit(v[0]);
    } else if |v| == 0 {
      assert v + t == t;
      assert (u + s)[0] == u[0] && IsDigit(u[0]);
    } else if u[0] == v[0] {
      assert u == [u[0]] + u[1..] && v == [v[0]] + v[1..];
      assert (u + s)[1..] == u[1..] + s && (v + t)[1..] == v[1..] + t;
      DigitsDecide(u[1..], v[1..], s, t);
    } else {
      assert (u + s)[0] == u[0] && (v + t)[0] == v[0];
    }
  }

  ghost function KeyTail(a: seq<nat>): (s: string)
    requires |a| > 0
    ensures Tail(s) && (s == "" <==> |a| == 1)
    ensures AllocationKey(a) == Decimal(a[0]) + s
  {
    if |a| == 1 then assert Decimal(a[0]) + "" == Decimal(a[0]); ""
    else assert Decimal(a[0]) + "," + AllocationKey(a[1..]) == Decimal(a[0]) + ("," + AllocationKey(a[1..]));
         "," + AllocationKey(a[1..])
  }

  /** Comparing the textual keys is comparing the allocations by KeyLess. */
  lemma {:induction false} KeyOrder(p: seq<nat>, q: seq<nat>)
    requires |p| == |q|
    ensures Less(AllocationKey(p), AllocationKey(q)) == KeyLess(p, q)
  {
    if |p| > 0 {
      var s, t := KeyTail(p), KeyTail(q);
      if p[0] != q[0] {
        if Decimal(p[0]) == Decimal(q[0]) { DecimalInjective(p[0], q[0]); }
        DigitsDecide(Decimal(p[0]), Decimal(q[0]), s, t);
      } else {
        LessCommonHead(Decimal(p[0]), s, t);
        if |p| > 1 {
          LessCommonHead(",", AllocationKey(p[1..]), AllocationKey(q[1..]));
          KeyOrder(p[1..], q[1..]);
        }
      }
    }
  }

  lemma {:induction false} KeyLessIrreflexive(p: seq<nat>)
    ensures !KeyLess(p, p)
  {
    if |p| > 0 { KeyLessIrreflexive(p[1..]); }
  }

  lemma {:induction false} KeyLessTransitive(p: seq<nat>, q: seq<nat>, r: seq<nat>)
    requires |p| == |q| == |r| && KeyLess(p, q) && KeyLess(q, r)
    ensures KeyLess(p, r)
  {
    if p[0] == q[0] == r[0] {
      KeyLessTransitive(p[1..], q[1..], r[1..]);
    } else if p[0] != q[0] && q[0] != r[0] {
      LessTransitive(Decimal(p[0]), Decimal(q[0]), Decimal(r[0]));
      if p[0] == r[0] { LessIrreflexive(Decimal(p[0])); }
    }
  }

  lemma {:induction false} KeyLessTotal(p: seq<nat>, q: seq<nat>)
    requires |p| == |q|
    ensures p == q || KeyLess(p, q) || KeyLess(q, p)
  {
    if |p| > 0 {
      if p[0] == q[0] {
        KeyLessTotal(p[1..], q[1..]);
        assert p == [p[0]] + p[1..] && q == [q[0]] + q[1..];
      } else {
        LessTotal(Decimal(p[0]), Decimal(q[0]));
        if Decimal(p[0]) == Decimal(q[0]) { DecimalInjective(p[0], q[0]); }
      }
    }
  }

  /** Extending two allocations by the same amount keeps their order: this is
      what lets a prefix-by-prefix dynamic program respect the tie-break. */
  lemma {:induction false} KeyLessAppend(p: seq<nat>, q: seq<nat>, x: nat)
    requires |p| == |q| && KeyLess(p, q)
    ensures KeyLess(p + [x], q + [x])
  {
    assert (p + [x])[1..] == p[1..] + [x] && (q + [x])[1..] == q[1..] + [x];
    if p[0] == q[0] { KeyLessAppend(p[1..], q[1..], x); }
  }

  /** Equal keys mean equal allocations, so a cache keyed by the text never
      confuses two allocations. */
  lemma AllocationKeyInjective(p: seq<nat>, q: seq<nat>)
    requires |p| == |q| && AllocationKey(p) == AllocationKey(q)
    ensures p == q
  {
    KeyLessTotal(p, q);
    KeyOrder(p, q);
    KeyOrder(q, p);
    LessIrreflexive(AllocationKey(p));
  }
}
