/** Number theory of the prime sieve: streams of numbers not divisible by the
    primes filtered out so far. */
module Primes {

  ghost predicate Prime(n: int) {
    2 <= n && forall d :: 2 <= d < n ==> n % d != 0
  }

  /** All primes below hi, in ascending order. */
  ghost function PrimesBelow(hi: int): (s: seq<int>)
    ensures forall n :: n in s <==> 2 <= n < hi && Prime(n)
    decreases hi
  {
    if hi <= 2 then []
    else PrimesBelow(hi - 1) + (if Prime(hi - 1) then [hi - 1] else [])
  }

  ghost predicate Survives(ps: seq<int>, n: int)
    requires Positive(ps)
  {
    forall p :: p in ps ==> n % p != 0
  }

  ghost predicate Positive(ps: seq<int>) {
    forall p :: p in ps ==> 0 < p
  }

  /** The numbers from 2 up to hi, exclusive, that no element of ps divides. */
  ghost function Survivors(ps: seq<int>, hi: int): seq<int>
    requires Positive(ps)
    decreases hi
  {
    if hi <= 2 then []
    else Survivors(ps, hi - 1) + (if Survives(ps, hi - 1) then [hi - 1] else [])
  }

  lemma {:induction false} SurvivorsMembers(ps: seq<int>, hi: int)
    requires Positive(ps)
    ensures forall n :: n in Survivors(ps, hi) <==> 2 <= n < hi && Survives(ps, n)
    decreases hi
  {
    if 2 < hi { SurvivorsMembers(ps, hi - 1); }
  }

  /** The elements of s not divisible by p. */
  ghost function Sifted(s: seq<int>, p: int): seq<int>
    requires 0 < p
  {
    if s == [] then []
    else
      var v := s[|s| - 1];
      Sifted(s[..|s| - 1], p) + (if v % p != 0 then [v] else [])
  }

  ghost function Hi(s: seq<int>): int {
    if s == [] then 2 else s[|s| - 1] + 1
  }

  /** s is an initial part of the stream of survivors of ps. */
  ghost predicate Streams(ps: seq<int>, s: seq<int>)
    requires Positive(ps)
  {
    s == Survivors(ps, Hi(s))
  }

  lemma SurvivesAppend(ps: seq<int>, p: int, n: int)
    requires Positive(ps) && 0 < p
    ensures Positive(ps + [p]) && (Survives(ps + [p], n) <==> Survives(ps, n) && n % p != 0)
  {
    assert Positive(ps + [p]) by {
      forall q | q in ps + [p] ensures 0 < q {}
    }
    if Survives(ps + [p], n) {
      assert p in ps + [p];
      forall q | q in ps ensures n % q != 0 { assert q in ps + [p]; }
    }
  }

  lemma SiftedAppend(s: seq<int>, v: int, p: int)
    requires 0 < p
    ensures Sifted(s + [v], p) == Sifted(s, p) + (if v % p != 0 then [v] else [])
  {
    assert (s + [v])[..|s|] == s;
  }

  lemma {:induction false} SiftSurvivors(ps: seq<int>, p: int, hi: int)
    requires Positive(ps) && 0 < p
    ensures Positive(ps + [p]) && Sifted(Survivors(ps, hi), p) == Survivors(ps + [p], hi)
    decreases hi
  {
    SurvivesAppend(ps, p, hi - 1);
    if 2 < hi {
      SiftSurvivors(ps, p, hi - 1);
      SiftedAppend(Survivors(ps, hi - 1), hi - 1, p);
      if !Survives(ps, hi - 1) { assert Survivors(ps, hi) == Survivors(ps, hi - 1); }
    }
  }

  lemma {:induction false} Tight(ps: seq<int>, hi: int)
    requires Positive(ps)
    ensures Streams(ps, Survivors(ps, hi))
    decreases hi
  {
    if 2 < hi && !Survives(ps, hi - 1) { Tight(ps, hi - 1); }
  }

  lemma {:induction false} PrefixStreams(ps: seq<int>, s: seq<int>, t: seq<int>)
    requires Positive(ps) && Streams(ps, s) && t <= s
    ensures Streams(ps, t)
    decreases |s|
  {
    if t != s {
      ShorterStreams(ps, s);
      PrefixStreams(ps, s[..|s| - 1], t);
    }
  }

  lemma ShorterStreams(ps: seq<int>, s: seq<int>)
    requires Positive(ps) && Streams(ps, s) && s != []
    ensures Streams(ps, s[..|s| - 1])
  {
    var last := s[|s| - 1];
    SurvivorsMembers(ps, last + 1);
    assert last in s;
    Tight(ps, last);
    assert s[..|s| - 1] == Survivors(ps, last);
  }

  lemma SiftStreams(ps: seq<int>, p: int, s: seq<int>)
    requires Positive(ps) && 0 < p && Streams(ps, s)
    ensures Positive(ps + [p]) && Streams(ps + [p], Sifted(s, p))
  {
    SiftSurvivors(ps, p, Hi(s));
    Tight(ps + [p], Hi(s));
  }

  /** The first number of a stream is the least survivor. */
  lemma FirstIsLeast(ps: seq<int>, s: seq<int>)
    requires Positive(ps) && Streams(ps, s) && s != []
    ensures 2 <= s[0] && Survives(ps, s[0]) && forall m :: 2 <= m < s[0] ==> !Survives(ps, m)
  {
    PrefixStreams(ps, s, [s[0]]);
    var v := s[0];
    SurvivorsMembers(ps, v);
    SurvivorsMembers(ps, v + 1);
    assert v in Survivors(ps, v + 1);
    assert |Survivors(ps, v)| == 0;
    forall m | 2 <= m < v ensures !Survives(ps, m) { assert m !in Survivors(ps, v); }
  }

  lemma DividesTrans(p: int, d: int, n: int)
    requires 0 < p && 0 < d && d % p == 0 && n % d == 0
    ensures n % p == 0
  {
    var a, b := d / p, n / d;
    assert n == (b * a) * p;
    ModOfMultiple(b * a, p);
  }

  lemma ModOfMultiple(k: int, p: int)
    requires 0 < p
    ensures (k * p) % p == 0
  {
    ModUnique(k * p, p, k, 0);
  }

  lemma ModUnique(x: int, p: int, q: int, r: int)
    requires 0 < p && x == q * p + r && 0 <= r < p
    ensures x % p == r
  {
    var m := q - x / p;
    assert m * p == x % p - r;
    assert -p < m * p < p;
  }

  lemma {:induction false} PrimesBelowSame(lo: int, hi: int)
    requires lo <= hi && forall n :: lo <= n < hi ==> !Prime(n)
    ensures PrimesBelow(hi) == PrimesBelow(lo)
    decreases hi - lo
  {
    if lo < hi { PrimesBelowSame(lo, hi - 1); }
  }

  lemma LeastSurvivorIsPrime(ps: seq<int>, q: int, v: int)
    requires ps == PrimesBelow(q) && 2 <= v && Positive(ps)
    requires Survives(ps, v) && forall m :: 2 <= m < v ==> !Survives(ps, m)
    ensures Prime(v) && v !in ps
  {
    forall d | 2 <= d < v ensures v % d != 0 {
      assert !Survives(ps, d);
      var p :| p in ps && d % p == 0;
      if v % d == 0 { DividesTrans(p, d, v); }
    }
    if v in ps {
      ModUnique(v, v, 1, 0);
    }
  }

  /** The heart of the sieve: the least survivor of the first primes is the next prime. */
  lemma NextPrime(ps: seq<int>, q: int, v: int)
    requires ps == PrimesBelow(q) && 2 <= v && Positive(ps)
    requires Survives(ps, v) && forall m :: 2 <= m < v ==> !Survives(ps, m)
    ensures Prime(v) && PrimesBelow(v) == ps && PrimesBelow(v + 1) == ps + [v]
  {
    LeastSurvivorIsPrime(ps, q, v);
    assert q <= v;
    forall n | q <= n < v ensures !Prime(n) {
      if 2 <= n {
        assert !Survives(ps, n);
        var p :| p in ps && n % p == 0;
        assert 2 <= p < n;
      }
    }
    PrimesBelowSame(q, v);
  }
}
