/** Node priorities: a base-31 hash of the node id in 64-bit arithmetic. */
module NodePriority {
  const TWO_63: int := 0x8000_0000_0000_0000
  const TWO_64: int := 0x1_0000_0000_0000_0000

  /** The value of a 64-bit signed integer after overflow. */
  function Wrap(x: int): int {
    (x + TWO_63) % TWO_64 - TWO_63
  }

  /** Overflow keeps the remainder by 2^64 and the range. */
  lemma WrapExactly(x: int, r: int)
    ensures r == Wrap(x) <==> -TWO_63 <= r < TWO_63 && (x - r) % TWO_64 == 0
  {
    var q := (x + TWO_63) / TWO_64;
    assert x - Wrap(x) == q * TWO_64;
  }

  /** The hash continued from `h`. */
  function HashFrom(h: int, s: string): int
    decreases |s|
  {
    if s == "" then h else HashFrom(Wrap(Wrap(h * 31) + s[0] as int), s[1..])
  }

  function Priority(id: string): int {
    var h := HashFrom(0, id);
    if h < 0 then Wrap(-h) else h
  }

  method CalculatePriority(id: string) returns (p: int)
    ensures p == Priority(id)
  {
    var hash := 0;
    var i := 0;
    while i < |id|
      invariant 0 <= i <= |id|
      invariant HashFrom(0, id) == HashFrom(hash, id[i..])
    {
      hash := Wrap(Wrap(hash * 31) + id[i] as int);
      assert id[i..][1..] == id[i + 1..];
      i := i + 1;
    }
    if hash < 0 {
      hash := Wrap(-hash);
    }
    return hash;
  }

  /** The same sum without overflow. */
  function Exact(h: int, s: string): int
    decreases |s|
  {
    if s == "" then h else Exact(h * 31 + s[0] as int, s[1..])
  }

  lemma {:induction false} HashIsSum(h: int, s: string) returns (k: int)
    ensures HashFrom(h, s) == Exact(h, s) + k * TWO_64
    decreases |s|
  {
    if s == "" {
      k := 0;
    } else {
      var next := Wrap(Wrap(h * 31) + s[0] as int);
      var q := WrapDrops(h * 31);
      var r := WrapDrops(Wrap(h * 31) + s[0] as int);
      k := HashIsSum(next, s[1..]);
      var j := ExactShifts(h * 31 + s[0] as int, q + r, s[1..]);
      k := k + j;
    }
  }

  lemma WrapDrops(x: int) returns (q: int)
    ensures Wrap(x) == x + q * TWO_64 && -TWO_63 <= Wrap(x) < TWO_63
  {
    q := -((x + TWO_63) / TWO_64);
  }

  lemma {:induction false} ExactShifts(g: int, q: int, s: string) returns (j: int)
    ensures Exact(g + q * TWO_64, s) == Exact(g, s) + j * TWO_64
    decreases |s|
  {
    if s == "" {
      j := q;
    } else {
      assert (g + q * TWO_64) * 31 + s[0] as int == g * 31 + s[0] as int + (q * 31) * TWO_64;
      j := ExactShifts(g * 31 + s[0] as int, q * 31, s[1..]);
    }
  }

  lemma {:induction false} HashInRange(h: int, s: string)
    requires -TWO_63 <= h < TWO_63
    ensures -TWO_63 <= HashFrom(h, s) < TWO_63
    decreases |s|
  {
    if s != "" {
      var q := WrapDrops(Wrap(h * 31) + s[0] as int);
      HashInRange(Wrap(Wrap(h * 31) + s[0] as int), s[1..]);
    }
  }

  /** A priority is the base-31 sum of the characters or its negation, up to multiples of 2^64; it is not
      negative, except that the least integer has no negation. */
  lemma PriorityIsSum(id: string) returns (k: int)
    ensures 0 <= Priority(id) < TWO_63 || Priority(id) == -TWO_63
    ensures Priority(id) == Exact(0, id) + k * TWO_64 || Priority(id) == -Exact(0, id) + k * TWO_64
  {
    k := HashIsSum(0, id);
    HashInRange(0, id);
    var h := HashFrom(0, id);
    if h < 0 {
      var q := WrapDrops(-h);
      k := q - k;
    }
  }

  predicate Ascii(s: string) {
    forall i :: 0 <= i < |s| ==> s[i] as int < 128
  }

  predicate Digits(s: string) {
    forall i :: 0 <= i < |s| ==> '0' <= s[i] <= '9'
  }

  /** The largest hash of `n` ASCII characters. */
  function Bound(n: nat): nat {
    if n == 0 then 0 else Bound(n - 1) * 31 + 127
  }

  lemma BoundMonotone(m: nat, n: nat)
    requires m <= n
    ensures Bound(m) <= Bound(n)
  {
    if m < n {
      BoundMonotone(m, n - 1);
    }
  }

  lemma BoundTwelve()
    ensures Bound(12) < TWO_63
  {
    assert Bound(3) == 126111;
    assert Bound(6) == Bound(3) * 29791 + 126111;
    assert Bound(9) == Bound(6) * 29791 + 126111;
    assert Bound(12) == Bound(9) * 29791 + 126111;
  }

  lemma InRange(x: int)
    requires 0 <= x < TWO_63
    ensures Wrap(x) == x
  {
  }

  /** One round of the hash below the bound. */
  lemma RoundFits(h: nat, c: char, n: nat)
    requires n < 12 && h <= Bound(n) && c as int < 128
    ensures Wrap(Wrap(h * 31) + c as int) == h * 31 + c as int <= Bound(n + 1)
  {
    assert Bound(n + 1) < TWO_63 by {
      BoundTwelve();
      BoundMonotone(n + 1, 12);
    }
    InRange(h * 31);
    InRange(h * 31 + c as int);
  }

  /** Twelve ASCII characters never overflow. */
  lemma {:induction false} NoOverflow(h: nat, s: string, n: nat)
    requires Ascii(s) && n + |s| <= 12 && h <= Bound(n)
    ensures HashFrom(h, s) == Exact(h, s) && 0 <= Exact(h, s) < TWO_63
    decreases |s|
  {
    if s == "" {
      BoundTwelve();
      BoundMonotone(n, 12);
    } else {
      RoundFits(h, s[0], n);
      assert Ascii(s[1..]);
      NoOverflow(h * 31 + s[0] as int, s[1..], n + 1);
    }
  }

  lemma {:induction false} ExactAppend(h: int, a: string, b: string)
    ensures Exact(h, a + b) == Exact(Exact(h, a), b)
    decreases |a|
  {
    if a == "" {
      assert a + b == b;
    } else {
      assert (a + b)[1..] == a[1..] + b;
      ExactAppend(h * 31 + a[0] as int, a[1..], b);
    }
  }

  /** Lexicographic order on strings of one length. */
  predicate LexLess(a: string, b: string)
    requires |a| == |b|
  {
    a != "" && (a[0] < b[0] || (a[0] == b[0] && LexLess(a[1..], b[1..])))
  }

  /** A lead of one in the hash so far outweighs every choice of later digits. */
  lemma {:induction false} LeadIsKept(g: int, h: int, a: string, b: string)
    requires g < h && |a| == |b| && Digits(a) && Digits(b)
    ensures Exact(g, a) < Exact(h, b)
    decreases |a|
  {
    if a != "" {
      LeadIsKept(g * 31 + a[0] as int, h * 31 + b[0] as int, a[1..], b[1..]);
    }
  }

  lemma {:induction false} ExactOrder(h: int, a: string, b: string)
    requires |a| == |b| && Digits(a) && Digits(b)
    ensures Exact(h, a) < Exact(h, b) <==> LexLess(a, b)
    ensures Exact(h, a) == Exact(h, b) <==> a == b
    decreases |a|
  {
    if a != "" {
      if a[0] == b[0] {
        ExactOrder(h * 31 + a[0] as int, a[1..], b[1..]);
        assert a == [a[0]] + a[1..] && b == [b[0]] + b[1..];
      } else if a[0] < b[0] {
        LeadIsKept(h * 31 + a[0] as int, h * 31 + b[0] as int, a[1..], b[1..]);
      } else {
        LeadIsKept(h * 31 + b[0] as int, h * 31 + a[0] as int, b[1..], a[1..]);
      }
    }
  }

  /** Ids with a common prefix and equally many digits, at most twelve characters in all, are ranked
      in their lexicographic order; so different ids have different priorities. */
  lemma PriorityOrdersIds(prefix: string, a: string, b: string)
    requires Ascii(prefix) && Digits(a) && Digits(b) && |a| == |b| && |prefix| + |a| <= 12
    ensures Priority(prefix + a) < Priority(prefix + b) <==> LexLess(a, b)
    ensures Priority(prefix + a) == Priority(prefix + b) <==> a == b
  {
    NoOverflow(0, prefix + a, 0);
    NoOverflow(0, prefix + b, 0);
    ExactAppend(0, prefix, a);
    ExactAppend(0, prefix, b);
    ExactOrder(Exact(0, prefix), a, b);
  }

  lemma SameTail(h: int)
    ensures Exact(h, "Aa") == Exact(h, "BB")
  {
    assert Exact((h * 31 + 65) * 31 + 97, "") == Exact((h * 31 + 66) * 31 + 66, "");
    assert "Aa"[1..] == "a" && "BB"[1..] == "B" && "a"[1..] == "" && "B"[1..] == "";
    assert Exact(h, "Aa") == Exact(h * 31 + 65, "a") && Exact(h, "BB") == Exact(h * 31 + 66, "B");
  }

  /** Without the digits the hash does collide. */
  lemma PrioritiesCollide(prefix: string)
    requires Ascii(prefix) && |prefix| <= 10
    ensures Priority(prefix + "Aa") == Priority(prefix + "BB") && prefix + "Aa" != prefix + "BB"
  {
    NoOverflow(0, prefix + "Aa", 0);
    NoOverflow(0, prefix + "BB", 0);
    ExactAppend(0, prefix, "Aa");
    ExactAppend(0, prefix, "BB");
    SameTail(Exact(0, prefix));
    assert (prefix + "Aa")[|prefix|] == 'A' && (prefix + "BB")[|prefix|] == 'B';
  }
}
