/** helper.c: the size that an SDIO transfer is padded to, in 32-bit arithmetic. */
module SdioAlign {

  const WORD := 0x1_0000_0000

  type U32 = x: int | 0 <= x < WORD

  const MAX_BYTE_TRANSFER: U32 := 512

  function Wrap(x: int): U32 {
    x % WORD
  }

  function Min(a: U32, b: U32): U32 {
    if a < b then a else b
  }

  /** mmc_align_data_size. */
  function MmcAlignDataSize(sz: U32): U32 {
    Wrap(sz + 3) / 4 * 4
  }

  /** sdio_align_size for a function with block size blk. */
  function SdioAlignSize(blk: U32, multiBlock: bool, origSz: U32): U32
    requires blk > 0
  {
    var sz := MmcAlignDataSize(origSz);
    if sz <= blk && sz <= MAX_BYTE_TRANSFER then sz
    else if multiBlock then
      if sz % blk == 0 then sz
      else
        var blkSz := MmcAlignDataSize(Wrap(Wrap(sz + blk - 1) / blk * blk));
        if blkSz % blk == 0 then blkSz
        else
          var byteSz := MmcAlignDataSize(sz % blk);
          if byteSz <= blk && byteSz <= MAX_BYTE_TRANSFER then Wrap(sz / blk * blk + byteSz) else origSz
    else
      var chunkSz := Min(blk, MAX_BYTE_TRANSFER);
      if MmcAlignDataSize(chunkSz) == chunkSz then
        var rest := origSz % chunkSz;
        Wrap(origSz / chunkSz * chunkSz + (if rest != 0 then MmcAlignDataSize(rest) else rest))
      else origSz
  }

  function Round4(sz: int): (r: int)
    ensures sz <= r < sz + 4 && r % 4 == 0
  {
    (sz + 3) / 4 * 4
  }

  function Whole(n: int, blk: U32): int
    requires blk > 0
  {
    n / blk * blk
  }

  function Rest(n: int, blk: U32): (r: int)
    requires blk > 0
    ensures 0 <= r < blk
  {
    n % blk
  }

  predicate OneTransfer(blk: U32, n: int)
    requires blk > 0
  {
    n <= Min(blk, MAX_BYTE_TRANSFER) || Rest(n, blk) == 0
  }

  /** The least multiple of blk that is not below n. */
  function RoundUp(n: int, blk: U32): (r: int)
    requires blk > 0
    ensures r % blk == 0 && n <= r < n + blk
  {
    UpAndDown(n + blk - 1, blk);
    (n + blk - 1) / blk * blk
  }

  lemma UpAndDown(m: int, blk: U32)
    requires blk > 0
    ensures m / blk * blk % blk == 0 && m - blk < m / blk * blk <= m && m == m / blk * blk + m % blk
  {
    MultipleIsZero(m / blk, blk);
  }

  lemma {:induction false} MultipleIsZero(q: int, blk: U32)
    requires blk > 0
    ensures q * blk % blk == 0
  {
    UniqueQuotient(q * blk, blk, q, 0);
  }

  lemma UniqueQuotient(m: int, blk: U32, q: int, r: int)
    requires blk > 0 && m == q * blk + r && 0 <= r < blk
    ensures m / blk == q && m % blk == r
  {
    var d := m / blk - q;
    assert d * blk == r - m % blk;
    AtLeastOnce(d, blk);
  }

  lemma AtLeastOnce(d: int, blk: U32)
    requires blk > 0
    ensures d > 0 ==> d * blk >= blk
    ensures d < 0 ==> d * blk <= 0 - blk
  {
  }

  lemma LeastMultiple(n: int, blk: U32, m: int)
    requires blk > 0 && m % blk == 0 && m >= n
    ensures m >= RoundUp(n, blk)
  {
    UpAndDown(m, blk);
    var a, b := RoundUp(n, blk) / blk, m / blk;
    UpAndDown(RoundUp(n, blk), blk);
    assert a * blk - b * blk == (a - b) * blk;
    AtLeastOnce(a - b, blk);
  }

  // ---------------------------------------------------------------- the size never shrinks

  /** No addition wraps on the way: the guard a caller can evaluate. */
  predicate NoWrap(blk: U32, multiBlock: bool, sz: U32)
    requires blk > 0
  {
    && sz <= WORD - 4
    && (multiBlock && !OneTransfer(blk, Round4(sz)) ==>
          Round4(sz) + blk - 1 < WORD && RoundUp(Round4(sz), blk) <= WORD - 4)
  }

  lemma AlignIsRound4(sz: U32)
    ensures sz <= WORD - 4 ==> MmcAlignDataSize(sz) == Round4(sz)
    ensures sz > WORD - 4 ==> MmcAlignDataSize(sz) == 0
  {
  }

  lemma WrapOnce(x: int)
    ensures 0 <= x < WORD ==> Wrap(x) == x
    ensures WORD <= x < 2 * WORD ==> Wrap(x) == x - WORD
  {
  }

  /** Rounding up to whole blocks in 32 bits. */
  lemma RoundUpWraps(blk: U32, sz: U32)
    requires blk > 0
    ensures sz + blk - 1 < WORD ==> Wrap(Wrap(sz + blk - 1) / blk * blk) == RoundUp(sz, blk)
    ensures sz + blk - 1 >= WORD ==> Wrap(Wrap(sz + blk - 1) / blk * blk) == 0
  {
    hide Wrap;
    WrapOnce(sz + blk - 1);
    if sz + blk - 1 >= WORD {
      UniqueQuotient(sz + blk - 1 - WORD, blk, 0, sz + blk - 1 - WORD);
      WrapOnce(0);
    } else {
      WrapOnce(RoundUp(sz, blk));
    }
  }

  /** Padding the remainder only: the sum does not wrap. */
  lemma RemainderPads(blk: U32, sz: U32)
    requires blk > 0 && sz <= WORD - 4
    ensures MmcAlignDataSize(sz % blk) == Round4(sz % blk)
    ensures sz <= sz / blk * blk + Round4(sz % blk) < sz + 4
    ensures Wrap(sz / blk * blk + Round4(sz % blk)) == sz / blk * blk + Round4(sz % blk)
  {
    hide Wrap, MmcAlignDataSize;
    UpAndDown(sz, blk);
    AtLeastOnce(sz / blk, blk);
    AlignIsRound4(sz % blk);
    WrapOnce(sz / blk * blk + Round4(sz % blk));
  }

  lemma PadsToRound4(c: U32, sz: U32)
    requires c > 0 && c % 4 == 0
    ensures sz / c * c + Round4(sz % c) == Round4(sz)
  {
    UpAndDown(sz, c);
    MulMod4(sz / c, c);
    Shift4(sz / c * c, sz % c);
  }

  lemma Shift4(m: int, r: int)
    requires m % 4 == 0
    ensures Round4(m + r) == m + Round4(r)
  {
  }

  /** Without multi-block transfers. */
  lemma SingleBlockSteps(blk: U32, sz: U32)
    requires blk > 0 && sz <= WORD - 4
    ensures SdioAlignSize(blk, false, sz)
            == if Round4(sz) <= Min(blk, MAX_BYTE_TRANSFER) || Min(blk, MAX_BYTE_TRANSFER) % 4 == 0 then Round4(sz)
               else sz
  {
    hide Wrap, MmcAlignDataSize, Round4;
    AlignIsRound4(sz);
    var c := Min(blk, MAX_BYTE_TRANSFER);
    AlignIsRound4(c);
    if !(Round4(sz) <= c) && c % 4 == 0 {
      RemainderPads(c, sz);
      PadsToRound4(c, sz);
    }
  }

  lemma MulMod4(q: int, c: int)
    requires c % 4 == 0
    ensures q * c % 4 == 0
  {
    var d := c / 4;
    assert q * c == 4 * (q * d);
  }

  /** The result of a size below the limit of 32 bits, without the wrapping. */
  function Plain(blk: U32, sz: int): int
    requires blk > 0
  {
    var a := Round4(sz);
    if OneTransfer(blk, a) then a
    else if Rest(Round4(RoundUp(a, blk)), blk) == 0 then Round4(RoundUp(a, blk))
    else if Round4(Rest(a, blk)) <= Min(blk, MAX_BYTE_TRANSFER) then Whole(a, blk) + Round4(Rest(a, blk))
    else sz
  }

  lemma MultiBlockSteps(blk: U32, sz: U32)
    requires blk > 0 && NoWrap(blk, true, sz)
    ensures SdioAlignSize(blk, true, sz) == Plain(blk, sz)
  {
    hide Wrap, MmcAlignDataSize, RoundUp, Round4;
    AlignIsRound4(sz);
    var a := Round4(sz);
    if !OneTransfer(blk, a) {
      RoundUpWraps(blk, a);
      AlignIsRound4(RoundUp(a, blk));
      RemainderPads(blk, a);
    }
  }

  /** The result covers the request exactly if nothing wraps; otherwise it is 0. */
  lemma NeverShrinks(blk: U32, multiBlock: bool, sz: U32)
    requires blk > 0
    ensures SdioAlignSize(blk, multiBlock, sz) >= sz <==> NoWrap(blk, multiBlock, sz)
    ensures !NoWrap(blk, multiBlock, sz) ==> SdioAlignSize(blk, multiBlock, sz) == 0
  {
    hide Wrap, MmcAlignDataSize, RoundUp, SdioAlignSize, Plain;
    AlignIsRound4(sz);
    if sz > WORD - 4 {
      WrapsToNothing(blk, multiBlock, sz);
    } else if !multiBlock {
      SingleBlockSteps(blk, sz);
    } else if NoWrap(blk, true, sz) {
      MultiBlockSteps(blk, sz);
      PlainCovers(blk, sz);
    } else {
      WrapsToNothing(blk, multiBlock, sz);
    }
  }

  lemma WrapsToNothing(blk: U32, multiBlock: bool, sz: U32)
    requires blk > 0 && !NoWrap(blk, multiBlock, sz)
    ensures SdioAlignSize(blk, multiBlock, sz) == 0
  {
    hide Wrap, MmcAlignDataSize, RoundUp, Round4;
    AlignIsRound4(sz);
    if sz <= WORD - 4 {
      var a := Round4(sz);
      RoundUpWraps(blk, a);
      AlignIsRound4(0);
      MultipleIsZero(0, blk);
      if a + blk - 1 < WORD { AlignIsRound4(RoundUp(a, blk)); }
    }
  }

  lemma PlainCovers(blk: U32, sz: U32)
    requires blk > 0 && NoWrap(blk, true, sz)
    ensures Plain(blk, sz) >= sz
  {
    var a := Round4(sz);
    if !OneTransfer(blk, a) { RemainderPads(blk, a); }
  }

  // ---------------------------------------------------------------- one transfer, and idempotence

  /** With multi-block transfers and a block size divisible by 4: the least size divisible
      by 4 that covers the request and fits one transfer. */
  lemma LeastTransfer(blk: U32, sz: U32)
    requires blk > 0 && blk % 4 == 0 && NoWrap(blk, true, sz)
    ensures var r := SdioAlignSize(blk, true, sz);
            && r >= sz && r % 4 == 0 && OneTransfer(blk, r)
            && forall n :: n >= sz && n % 4 == 0 && OneTransfer(blk, n) ==> n >= r
  {
    hide SdioAlignSize, NoWrap, Round4, RoundUp, Whole, Rest;
    MultiBlockSteps(blk, sz);
    var a := Round4(sz);
    if !OneTransfer(blk, a) { RoundUp4(a, blk); }
    forall n | n >= sz && n % 4 == 0 && OneTransfer(blk, n) ensures n >= Plain(blk, sz) {
      assert n >= a;
      if !OneTransfer(blk, a) { LeastBlocks(a, blk, n); }
    }
  }

  lemma LeastBlocks(a: int, blk: U32, n: int)
    requires blk > 0 && Rest(n, blk) == 0 && n >= a
    ensures n >= RoundUp(a, blk)
  {
    LeastMultiple(a, blk, n);
  }

  lemma RoundUp4(n: int, blk: U32)
    requires blk > 0 && blk % 4 == 0
    ensures RoundUp(n, blk) % 4 == 0 && Round4(RoundUp(n, blk)) == RoundUp(n, blk) && Rest(RoundUp(n, blk), blk) == 0
  {
    MulMod4((n + blk - 1) / blk, blk);
  }

  /** A size that nothing changes. */
  predicate Settled(blk: U32, n: int)
    requires blk > 0
  {
    Plain(blk, n) == n
  }

  lemma Divided(n: int, blk: U32)
    requires blk > 0
    ensures n == Whole(n, blk) + Rest(n, blk)
  {
    UpAndDown(n, blk);
  }

  lemma OneTransferSettles(blk: U32, n: int)
    requires blk > 0 && n % 4 == 0 && OneTransfer(blk, n)
    ensures Settled(blk, n)
  {
    hide RoundUp, OneTransfer, Whole, Rest;
  }

  /** Only padding the remainder of an unaligned block size can leave an unsettled size. */
  lemma MostSettle(blk: U32, sz: int)
    requires blk > 0
    requires var a := Round4(sz);
             !OneTransfer(blk, a) && Rest(Round4(RoundUp(a, blk)), blk) != 0 && Round4(Rest(a, blk)) != Rest(a, blk) ==>
               Round4(Rest(a, blk)) > Min(blk, MAX_BYTE_TRANSFER)
    ensures Settled(blk, Plain(blk, sz))
  {
    hide RoundUp, Round4, Whole, Rest;
    var a := Round4(sz);
    var up := Round4(RoundUp(a, blk));
    Divided(a, blk);
    if OneTransfer(blk, a) { OneTransferSettles(blk, a); }
    else if Rest(up, blk) == 0 { OneTransferSettles(blk, up); }
    else { assert Round4(a) == a; }
  }

  lemma EvenBlocks(blk: U32, a: int)
    requires blk > 0 && blk % 2 == 0 && a % 4 == 0 && Rest(Round4(RoundUp(a, blk)), blk) != 0
    ensures Rest(a, blk) % 4 == 0
  {
    hide Whole, Rest, RoundUp, Round4;
    var k := HalfOfWhole(blk, a);
    Divided(a, blk);
    if Rest(a, blk) != 0 {
      NextBlock(blk, a);
      EvenCases(Whole(a, blk), blk, Rest(a, blk), k, blk / 2);
    }
  }

  /** The whole blocks of an even size are twice k, and k is even if half a block is. */
  lemma HalfOfWhole(blk: U32, a: int) returns (k: int)
    requires blk > 0 && blk % 2 == 0
    ensures Whole(a, blk) == 2 * k && (blk / 2 % 2 == 0 ==> k % 2 == 0)
  {
    var q, h := a / blk, blk / 2;
    k := q * h;
    assert blk == 2 * h;
    assert q * blk == q * (2 * h) == 2 * (q * h);
    if h % 2 == 0 { MulMod2(q, h); }
  }

  lemma NextBlock(blk: U32, a: int)
    requires blk > 0 && Rest(a, blk) != 0
    ensures RoundUp(a, blk) == Whole(a, blk) + blk && Rest(Whole(a, blk) + blk, blk) == 0
  {
    UpAndDown(a, blk);
    RoundUpIs(a, blk, a / blk, a % blk);
    MultipleIsZero(a / blk + 1, blk);
  }

  lemma MulMod2(q: int, h: int)
    requires h % 2 == 0
    ensures q * h % 2 == 0
  {
    assert q * h == 2 * (q * (h / 2));
  }

  /** With m whole blocks before the remainder r, either m or the next multiple is divisible by 4. */
  lemma EvenCases(m: int, blk: int, r: int, k: int, h: int)
    requires blk == 2 * h && m == 2 * k && (m + r) % 4 == 0
    ensures (m + blk) % 4 == 0 ==> Round4(m + blk) == m + blk
    ensures (m + blk) % 4 != 0 && (h % 2 == 0 ==> k % 2 == 0) ==> r % 4 == 0
  {
  }

  lemma RoundUpIs(n: int, blk: U32, q: int, r: int)
    requires blk > 0 && n == q * blk + r && 0 < r < blk
    ensures RoundUp(n, blk) == (q + 1) * blk == q * blk + blk
  {
    UniqueQuotient(n + blk - 1, blk, q + 1, r - 1);
  }

  /** How far the end of the block is from the next multiple of 4. */
  function SevenPad(r: int): int {
    if r == 1 || r == 5 then 2 else if r == 2 || r == 6 then 3 else if r == 3 then 0 else 1
  }

  lemma SevenSteps(a: int)
    requires a % 4 == 0 && Rest(a, 7) != 0
    ensures a == Whole(a, 7) + Rest(a, 7) && RoundUp(a, 7) == Whole(a, 7) + 7
    ensures Round4(RoundUp(a, 7)) == Whole(a, 7) + 7 + SevenPad(Rest(a, 7))
    ensures Rest(Whole(a, 7) + 7 + SevenPad(Rest(a, 7)), 7) == SevenPad(Rest(a, 7))
  {
    hide Round4;
    var q := a / 7;
    RoundUpIs(a, 7, q, a % 7);
    UniqueQuotient(7 * q + 7 + SevenPad(a % 7), 7, q + 1, SevenPad(a % 7));
  }

  /** A size padded to 4 bytes beyond its last whole block of seven stays as it is. */
  lemma SevenPlusFour(a: int, n: int)
    requires a % 4 == 0 && 0 < Rest(a, 7) < 3 && n == Whole(a, 7) + 4
    ensures Round4(n) == a + 4 && Rest(a + 4, 7) == Rest(a, 7) + 4
  {
    hide Round4, Whole, Rest;
    Divided(a, 7);
    Between4(a, n);
    FourMore(a);
  }

  lemma Between4(a: int, n: int)
    requires a % 4 == 0 && a < n < a + 4
    ensures Round4(n) == a + 4
  {
  }

  lemma FourMore(a: int)
    requires Rest(a, 7) < 3
    ensures Rest(a + 4, 7) == Rest(a, 7) + 4
  {
    UpAndDown(a, 7);
    UniqueQuotient(a + 4, 7, a / 7, a % 7 + 4);
  }

  lemma BlocksOfSeven(sz: int)
    ensures Settled(7, Plain(7, sz))
  {
    hide RoundUp, Round4, Whole, Rest;
    var a := Round4(sz);
    var n := Plain(7, sz);
    if !OneTransfer(7, a) {
      SevenSteps(a);
      if 0 < Rest(a, 7) < 3 {
        SevenPlusFour(a, n);
        SevenSteps(a + 4);
      } else {
        MostSettle(7, sz);
      }
    } else {
      MostSettle(7, sz);
    }
  }

  lemma AlwaysSettles(blk: U32, sz: int)
    requires blk > 0 && (blk % 2 == 0 || blk == 1 || blk == 3 || blk == 7)
    ensures Settled(blk, Plain(blk, sz))
  {
    hide RoundUp, Whole;
    var a := Round4(sz);
    if blk == 7 {
      BlocksOfSeven(sz);
    } else {
      if blk % 2 == 0 && Rest(Round4(RoundUp(a, blk)), blk) != 0 { EvenBlocks(blk, a); }
      MostSettle(blk, sz);
    }
  }

  /** Padding of a size one block and r bytes long, for an odd block size. */
  lemma OddBlocks(blk: U32, sz: int, r: int)
    requires blk % 2 == 1 && 2 < blk && 0 < r < blk && Round4(sz) == blk + r && Round4(r) <= Min(blk, MAX_BYTE_TRANSFER)
    ensures Plain(blk, sz) == blk + Round4(r)
  {
    hide RoundUp, Round4, Whole, Rest;
    OddRemainders(blk, r);
  }

  lemma OddRemainders(blk: U32, r: int)
    requires blk % 2 == 1 && 2 < blk && 0 < r < blk
    ensures Whole(blk + r, blk) == blk && Rest(blk + r, blk) == r
    ensures Rest(Round4(RoundUp(blk + r, blk)), blk) == 2
  {
    hide RoundUp, Round4;
    UniqueQuotient(blk + r, blk, 1, r);
    RoundUpIs(blk + r, blk, 1, r);
    UniqueQuotient(2 * blk + 2, blk, 2, 2);
    assert Round4(2 * blk) == 2 * blk + 2;
  }

  /** The largest odd block size of which two blocks can be padded without wrapping. */
  const LAST_ODD: U32 := 0x7fff_fffb

  /** A size which an odd block size changes twice. */
  function Unsettled(blk: U32): U32
    requires blk <= LAST_ODD
  {
    if blk % 4 == 1 then blk else blk + 1
  }

  lemma BlocksOfFive()
    ensures Plain(5, 5) == 9 && Plain(5, 9) == 14
  {
    OddBlocks(5, 5, 3);
  }

  lemma SometimesUnsettled(blk: U32)
    requires blk % 2 == 1 && blk != 1 && blk != 3 && blk != 7 && blk <= LAST_ODD
    ensures !Settled(blk, Plain(blk, Unsettled(blk)))
  {
    hide RoundUp, Whole, Rest, Plain;
    if blk == 5 {
      BlocksOfFive();
    } else if blk % 4 == 1 {
      OddBlocks(blk, blk, 3);
      OddBlocks(blk, blk + 4, 7);
    } else {
      OddBlocks(blk, blk + 1, 1);
      OddBlocks(blk, blk + 4, 5);
    }
  }

  /** Nothing wraps in the first application nor in the second. */
  predicate NoWrapTwice(blk: U32, sz: U32)
    requires blk > 0
  {
    NoWrap(blk, true, sz) && NoWrap(blk, true, SdioAlignSize(blk, true, sz))
  }

  lemma TwiceIsPlain(blk: U32, sz: U32)
    requires blk > 0 && NoWrapTwice(blk, sz)
    ensures SdioAlignSize(blk, true, sz) == Plain(blk, sz)
    ensures SdioAlignSize(blk, true, SdioAlignSize(blk, true, sz)) == Plain(blk, Plain(blk, sz))
  {
    hide SdioAlignSize, NoWrap, Plain;
    MultiBlockSteps(blk, sz);
    MultiBlockSteps(blk, SdioAlignSize(blk, true, sz));
  }

  /** The size of an odd block, or of two, is no multiple of 4, and its padding no whole block. */
  lemma OddMultiple(blk: U32, q: int)
    requires blk % 2 == 1 && blk > 3 && (q == 1 || q == 2)
    ensures Round4(q * blk) != q * blk && Rest(Round4(q * blk), blk) == Round4(q * blk) - q * blk
  {
    UniqueQuotient(Round4(q * blk), blk, q, Round4(q * blk) - q * blk);
  }

  lemma BelowOneBlock(blk: U32, a: int)
    requires blk > 0 && 0 < a < blk
    ensures RoundUp(a, blk) == blk && Rest(a, blk) == a
  {
    RoundUpIs(a, blk, 0, a);
    UniqueQuotient(a, blk, 0, a);
  }

  /** For larger odd block sizes nothing but the size itself is left. */
  lemma LargeBlocksSettle(blk: U32, sz: U32)
    requires blk % 2 == 1 && blk > LAST_ODD && NoWrapTwice(blk, sz)
    ensures Settled(blk, Plain(blk, sz))
  {
    hide SdioAlignSize, Round4, RoundUp, Whole, Rest;
    var a := Round4(sz);
    MultiBlockSteps(blk, sz);
    if OneTransfer(blk, a) {
      OneTransferSettles(blk, a);
    } else if a < blk {
      BelowOneBlock(blk, a);
      OddMultiple(blk, 1);
    } else {
      assert a + blk - 1 < WORD;
      AboveOneBlock(blk, sz);
    }
  }

  /** One byte more than a block is the only other case, and its result wraps. */
  lemma AboveOneBlock(blk: U32, sz: U32)
    requires blk % 2 == 1 && blk > LAST_ODD && blk <= Round4(sz) && Round4(sz) + blk - 1 < WORD
    requires !OneTransfer(blk, Round4(sz)) && RoundUp(Round4(sz), blk) <= WORD - 4
    ensures !(0 <= Plain(blk, sz) < WORD) || !NoWrap(blk, true, Plain(blk, sz))
  {
    hide Round4, RoundUp, Whole, Rest;
    var a := Round4(sz);
    NotWhole(blk, a);
    assert blk < a <= 0x8000_0000;
    assert blk == 0x7fff_fffd || blk == 0x7fff_ffff;
    OverBlock(blk, a);
    OddMultiple(blk, 2);
    assert Plain(blk, sz) == blk + Round4(a - blk);
    assert blk == 0x7fff_fffd && a == 0x8000_0000;
    assert Round4(3) == 4;
    AlmostTwoBlocks();
  }

  lemma NotWhole(blk: U32, a: int)
    requires blk > 0 && !OneTransfer(blk, a)
    ensures a != blk
  {
    UniqueQuotient(blk, blk, 1, 0);
  }

  lemma OverBlock(blk: U32, a: int)
    requires 0 < blk < a < 2 * blk
    ensures RoundUp(a, blk) == 2 * blk && Rest(a, blk) == a - blk && Whole(a, blk) == blk
  {
    RoundUpIs(a, blk, 1, a - blk);
    UniqueQuotient(a, blk, 1, a - blk);
  }

  lemma AlmostTwoBlocks()
    ensures !NoWrap(0x7fff_fffd, true, 0x8000_0001)
  {
    OverBlock(0x7fff_fffd, 0x8000_0004);
  }

  lemma UnsettledFits(blk: U32)
    requires blk % 2 == 1 && blk != 1 && blk != 3 && blk != 7 && blk <= LAST_ODD
    ensures NoWrapTwice(blk, Unsettled(blk))
  {
    hide SdioAlignSize, RoundUp, Whole, Rest, Plain;
    var sz := Unsettled(blk);
    var r := if blk % 4 == 1 then 3 else 1;
    assert Round4(sz) == blk + r;
    OverBlock(blk, blk + r);
    MultiBlockSteps(blk, sz);
    assert Round4(r) == 4;
    OddBlocks(blk, sz, r);
    if blk == 5 {
      UniqueQuotient(12, 5, 2, 2);
      RoundUpIs(12, 5, 2, 2);
    } else {
      OverBlock(blk, Round4(blk + 4));
    }
  }

  /** Padding a padded size changes nothing, wherever nothing wraps, exactly if the block size
      is even, one of 1, 3 and 7, or too large for two blocks. */
  lemma IdempotentExactly(blk: U32)
    requires 0 < blk
    ensures (forall sz: U32 :: NoWrapTwice(blk, sz) ==>
               SdioAlignSize(blk, true, SdioAlignSize(blk, true, sz)) == SdioAlignSize(blk, true, sz))
            <==> (blk % 2 == 0 || blk == 1 || blk == 3 || blk == 7 || blk > LAST_ODD)
  {
    hide SdioAlignSize, Plain, NoWrapTwice;
    if blk % 2 == 0 || blk == 1 || blk == 3 || blk == 7 || blk > LAST_ODD {
      forall sz: U32 | NoWrapTwice(blk, sz)
        ensures SdioAlignSize(blk, true, SdioAlignSize(blk, true, sz)) == SdioAlignSize(blk, true, sz)
      {
        TwiceIsPlain(blk, sz);
        if blk % 2 == 1 && blk > LAST_ODD { LargeBlocksSettle(blk, sz); } else { AlwaysSettles(blk, sz); }
      }
    } else {
      UnsettledFits(blk);
      TwiceIsPlain(blk, Unsettled(blk));
      SometimesUnsettled(blk);
    }
  }

  lemma IdempotentWithoutMultiBlock(blk: U32, sz: U32)
    requires blk > 0
    ensures SdioAlignSize(blk, false, SdioAlignSize(blk, false, sz)) == SdioAlignSize(blk, false, sz)
  {
    hide SdioAlignSize, Round4;
    if sz <= WORD - 4 {
      SingleBlockSteps(blk, sz);
      SingleBlockSteps(blk, SdioAlignSize(blk, false, sz));
      assert Round4(Round4(sz)) == Round4(sz);
    } else {
      WrapsToNothing(blk, false, sz);
      SingleBlockSteps(blk, 0);
    }
  }
}
