/** assoc.c: the rates that the card and a network have in common. */
module CommonRates {

  type Byte = x: int | 0 <= x < 256

  const TMP_SIZE := 30

  /** lbs_bg_rates: twelve rates and two zeros. */
  const CARD_RATES: seq<Byte> := [0x02, 0x04, 0x0b, 0x16, 0x0c, 0x12, 0x18, 0x24, 0x30, 0x48, 0x60, 0x6c, 0x00, 0x00]
  const CARD: seq<Byte> := [0x02, 0x04, 0x0b, 0x16, 0x0c, 0x12, 0x18, 0x24, 0x30, 0x48, 0x60, 0x6c]

  /** The rates before the first zero. */
  function Prefix(rates: seq<Byte>): (p: seq<Byte>)
    ensures p <= rates && 0 !in p
    ensures |p| < |rates| ==> rates[|p|] == 0
  {
    if rates == [] || rates[0] == 0 then [] else [rates[0]] + Prefix(rates[1..])
  }

  function Repeat(r: Byte, n: nat): (s: seq<Byte>)
    ensures |s| == n && forall i :: 0 <= i < n ==> s[i] == r
  {
    seq(n, _ => r)
  }

  /** Every rate of card in its order, as often as m has it. */
  function Common(card: seq<Byte>, m: multiset<Byte>): seq<Byte> {
    if card == [] then []
    else Common(card[..|card| - 1], m) + Repeat(card[|card| - 1], m[card[|card| - 1]])
  }

  predicate Distinct(s: seq<Byte>) {
    forall i, j :: 0 <= i < j < |s| ==> s[i] != s[j]
  }

  lemma {:induction false} RepeatCounts(r: Byte, n: nat, x: Byte)
    ensures multiset(Repeat(r, n))[x] == if x == r then n else 0
  {
    if n == 0 {
    } else {
      RepeatCounts(r, n - 1, x);
      assert Repeat(r, n) == Repeat(r, n - 1) + [r];
    }
  }

  /** As a multiset the common rates are m restricted to the card's rates. */
  lemma {:induction false} CommonCounts(card: seq<Byte>, m: multiset<Byte>, x: Byte)
    requires Distinct(card)
    ensures multiset(Common(card, m))[x] == if x in card then m[x] else 0
  {
    if card == [] {
    } else {
      var n := |card| - 1;
      CommonCounts(card[..n], m, x);
      RepeatCounts(card[n], m[card[n]], x);
      assert card == card[..n] + [card[n]];
    }
  }

  /** They appear in the order of the card's table. */
  lemma {:induction false} CommonInOrder(card: seq<Byte>, m: multiset<Byte>, i: nat, j: nat) returns (a: nat, b: nat)
    requires i <= j < |Common(card, m)|
    ensures a <= b < |card| && Common(card, m)[i] == card[a] && Common(card, m)[j] == card[b]
  {
    var n := |card| - 1;
    var k := |Common(card[..n], m)|;
    if j < k {
      a, b := CommonInOrder(card[..n], m, i, j);
    } else if i < k {
      a, b := CommonInOrder(card[..n], m, i, k - 1);
      b := n;
    } else {
      a, b := n, n;
    }
  }

  lemma {:induction false} CommonAgrees(card: seq<Byte>, m: multiset<Byte>, n: multiset<Byte>)
    requires forall i :: 0 <= i < |card| ==> m[card[i]] == n[card[i]]
    ensures Common(card, m) == Common(card, n)
  {
    if card == [] {
    } else {
      CommonAgrees(card[..|card| - 1], m, n);
    }
  }

  /** No more rates come out than went in: since the card's rates are distinct, no rate is
      taken twice. */
  lemma {:induction false} CommonIsShort(card: seq<Byte>, m: multiset<Byte>)
    requires Distinct(card)
    ensures multiset(Common(card, m)) <= m && |Common(card, m)| <= |m|
  {
    forall x ensures multiset(Common(card, m))[x] <= m[x] { CommonCounts(card, m, x); }
    var rest := m - multiset(Common(card, m));
    assert m == multiset(Common(card, m)) + rest;
  }

  lemma CardIsDistinct()
    ensures Distinct(CARD) && 0 !in CARD && CARD_RATES == CARD + [0, 0]
  {
  }

  function Intersection(rates: seq<Byte>): seq<Byte> {
    Common(CARD, multiset(Prefix(rates)))
  }

  lemma {:induction false} PrefixOfNonzero(rates: seq<Byte>)
    requires 0 !in rates
    ensures Prefix(rates) == rates
  {
    if rates == [] {
    } else {
      PrefixOfNonzero(rates[1..]);
    }
  }

  /** What the function leaves in the buffer: the input's rates before its first zero that
      the card has, with multiplicity, in card order; applying it again changes nothing. */
  lemma IntersectionExactly(rates: seq<Byte>)
    ensures var c := Intersection(rates);
            && |c| <= |Prefix(rates)|
            && (forall x :: multiset(c)[x] == if x in CARD then multiset(Prefix(rates))[x] else 0)
            && Intersection(c) == c
  {
    hide Prefix, Common;
    CardIsDistinct();
    var m := multiset(Prefix(rates));
    var c := Common(CARD, m);
    CommonIsShort(CARD, m);
    forall x ensures multiset(c)[x] == if x in CARD then m[x] else 0 { CommonCounts(CARD, m, x); }
    assert multiset(c)[0] == 0;
    PrefixOfNonzero(c);
    CommonAgrees(CARD, multiset(c), m);
  }

  lemma PrefixStep(rates: seq<Byte>, j: nat)
    requires j <= |Prefix(rates)|
    ensures j < |Prefix(rates)| <==> j < |rates| && rates[j] != 0
  {
    if j < |Prefix(rates)| { assert Prefix(rates)[j] == rates[j]; }
  }

  /** The number of copies of r before position j, one more at a time. */
  lemma CountStep(rates: seq<Byte>, j: nat, r: Byte)
    requires j < |rates|
    ensures multiset(rates[..j + 1])[r] == multiset(rates[..j])[r] + (if rates[j] == r then 1 else 0)
  {
    assert rates[..j + 1] == rates[..j] + [rates[j]];
  }

  /** The two nested loops: one card rate against all rates of the network. */
  method CollectRate(r: Byte, rates: array<Byte>, size: nat, tmp: array<Byte>, tmpSize: nat) returns (n: nat)
    requires size <= rates.Length && tmp != rates
    requires tmpSize + multiset(Prefix(rates[..size]))[r] <= tmp.Length
    modifies tmp
    ensures n == tmpSize + multiset(Prefix(rates[..size]))[r]
    ensures tmp[..n] == old(tmp[..tmpSize]) + Repeat(r, n - tmpSize)
  {
    hide Prefix, Repeat;
    ghost var p := Prefix(rates[..size]);
    n := tmpSize;
    var j := 0;
    PrefixStep(rates[..size], 0);
    while j < size && rates[j] != 0
      invariant 0 <= j <= |p| && j <= size
      invariant j < |p| <==> j < size && rates[j] != 0
      invariant n == tmpSize + multiset(p[..j])[r] <= tmp.Length
      invariant forall k :: 0 <= k < tmpSize ==> tmp[k] == old(tmp[k])
      invariant forall k :: tmpSize <= k < n ==> tmp[k] == r
    {
      CountStep(p, j, r);
      CountsGrow(p, j + 1, r);
      if rates[j] == r {
        tmp[n] := r;
        n := n + 1;
      }
      j := j + 1;
      PrefixStep(rates[..size], j);
    }
    assert p[..j] == p;
  }

  lemma CountsGrow(p: seq<Byte>, j: nat, r: Byte)
    requires j <= |p|
    ensures multiset(p[..j])[r] <= multiset(p)[r]
  {
    assert p == p[..j] + p[j..];
  }

  lemma {:induction false} CommonGrows(card: seq<Byte>, m: multiset<Byte>, i: nat)
    requires i <= |card|
    ensures |Common(card[..i], m)| <= |Common(card, m)|
  {
    if i < |card| {
      var n := |card| - 1;
      CommonGrows(card[..n], m, i);
      assert card[..n][..i] == card[..i];
    } else {
      assert card[..i] == card;
    }
  }

  /** The temporary buffer after the two loops. */
  method CollectRates(rates: array<Byte>, size: nat, tmp: array<Byte>) returns (n: nat)
    requires size <= rates.Length && size <= tmp.Length && tmp != rates
    modifies tmp
    ensures n <= size && tmp[..n] == Intersection(rates[..size])
  {
    hide Prefix, Common, Repeat;
    ghost var m := multiset(Prefix(rates[..size]));
    CardIsDistinct();
    CommonIsShort(CARD, m);
    CommonNone(m);
    n := 0;
    var i := 0;
    while i < |CARD_RATES| && CARD_RATES[i] != 0
      invariant 0 <= i <= |CARD| && n <= size
      invariant n == |Common(CARD[..i], m)| && tmp[..n] == Common(CARD[..i], m)
    {
      CommonStep(CARD, m, i);
      CommonGrows(CARD, m, i + 1);
      n := CollectRate(CARD_RATES[i], rates, size, tmp, n);
      i := i + 1;
    }
    assert CARD[..i] == CARD;
  }

  /** get_common_rates. */
  method GetCommonRates(rates: array<Byte>, size: nat, enablehwauto: bool, curRate: Byte) returns (ret: int,
          newSize: nat)
    requires size <= rates.Length && size <= TMP_SIZE
    modifies rates
    ensures newSize == |Intersection(old(rates[..size]))| <= size
    ensures rates[..newSize] == Intersection(old(rates[..size]))
    ensures forall i :: newSize <= i < size ==> rates[i] == 0
    ensures forall i :: size <= i < rates.Length ==> rates[i] == old(rates[i])
    ensures ret == if enablehwauto || curRate in Intersection(old(rates[..size])) then 0 else -1
  {
    hide Intersection;
    var tmp := new Byte[TMP_SIZE](_ => 0);
    var tmpSize := CollectRates(rates, size, tmp);
    ret := 0;
    if !enablehwauto {
      var i := 0;
      while i < tmpSize && tmp[i] != curRate
        invariant 0 <= i <= tmpSize && curRate !in tmp[..i]
      {
        i := i + 1;
      }
      if i < tmpSize { assert tmp[..tmpSize][i] == curRate; } else { ret := -1; }
    }
    newSize := if tmpSize < size then tmpSize else size;
    forall k | 0 <= k < size { rates[k] := 0; }
    forall k | 0 <= k < newSize { rates[k] := tmp[k]; }
  }

  lemma CommonNone(m: multiset<Byte>)
    ensures Common(CARD[..0], m) == []
  {
  }

  lemma CommonStep(card: seq<Byte>, m: multiset<Byte>, i: nat)
    requires i < |card|
    ensures Common(card[..i + 1], m) == Common(card[..i], m) + Repeat(card[i], m[card[i]])
  {
    assert card[..i + 1][..i] == card[..i];
  }
}
