/** if_sdio.c: framing of packets and the queue between if_sdio_host_to_card and its worker. */
module SdioPackets {
  import opened Options
  import opened LbsState
  import opened SdioAlign

  type Byte = x: int | 0 <= x < 256
  type U16 = x: int | 0 <= x < 0x1_0000

  const PACKET_HEADER := 8  // sizeof(struct if_sdio_packet) with 32-bit pointers
  const MVMS_DAT := 0
  const MVMS_CMD := 1
  const MVMS_EVENT := 3

  // ---------------------------------------------------------------- frames

  function Zeros(n: nat): (z: seq<Byte>)
    ensures |z| == n && forall i :: 0 <= i < n ==> z[i] == 0
  {
    seq(n, _ => 0)
  }

  /** A packet of the given type and payload, padded to size bytes. */
  function Frame(kind: Byte, payload: seq<Byte>, size: nat): (f: seq<Byte>)
    requires |payload| + 4 <= size && |payload| + 4 < 0x1_0000
    ensures |f| == size
  {
    [(|payload| + 4) % 256, (|payload| + 4) / 256, kind, 0] + payload + Zeros(size - |payload| - 4)
  }

  function Little16(low: Byte, high: Byte): nat {
    low + (high as int) * 256
  }

  datatype Received = Deliver(kind: nat, payload: seq<Byte>) | Einval | Oversized(kind: nat, length: nat)

  /** The header decoding of if_sdio_card_to_host for a buffer of size bytes.  A length below
      4 wraps around in 32 bits, so that the handlers see a huge packet. */
  function CardToHost(buffer: seq<Byte>, size: U16): Received
    requires |buffer| >= size
  {
    if size < 4 then Einval
    else
      var chunk, kind := Little16(buffer[0], buffer[1]), Little16(buffer[2], buffer[3]);
      if chunk > size then Einval
      else if kind != MVMS_CMD && kind != MVMS_DAT && kind != MVMS_EVENT then Einval
      else if chunk < 4 then Oversized(kind, Wrap(chunk - 4))
      else Deliver(kind, buffer[4..chunk])
  }

  /** A frame decodes to its own type and payload, and nothing but zeros follows. */
  lemma FrameDecodes(kind: Byte, payload: seq<Byte>, size: nat)
    requires |payload| + 4 <= size < 0x1_0000
    ensures var f := Frame(kind, payload, size);
            && (kind == MVMS_CMD || kind == MVMS_DAT || kind == MVMS_EVENT
               ==> CardToHost(f, size) == Deliver(kind, payload))
            && Little16(f[0], f[1]) == |payload| + 4 && Little16(f[2], f[3]) == kind
            && f[0] + 0x100 * (f[1] as int) == |payload| + 4 && f[2] == kind && f[3] == 0
            && f[4..4 + |payload|] == payload
            && forall i :: 4 + |payload| <= i < size ==> f[i] == 0
  {
    var f := Frame(kind, payload, size);
    assert f[..4] == [(|payload| + 4) % 256, (|payload| + 4) / 256, kind, 0];
    assert f[4..4 + |payload|] == payload;
  }

  /** What becomes of any buffer: it is delivered if its length field lies between 4 and the size and
      its type is known; a known type with a smaller length passes for a huge packet; all others
      are refused. */
  lemma ReceivedExactly(buffer: seq<Byte>, size: U16)
    requires |buffer| >= size
    ensures size < 4 ==> CardToHost(buffer, size) == Einval
    ensures size >= 4 ==>
              var r := CardToHost(buffer, size);
              var chunk := buffer[0] + 0x100 * (buffer[1] as int);
              var kind := buffer[2] + 0x100 * (buffer[3] as int);
              && (r.Deliver? <==> 4 <= chunk <= size && (kind == 0 || kind == 1 || kind == 3))
              && (r.Deliver? ==> r.kind == kind && r.payload == buffer[4..chunk])
              && (r.Oversized? <==> chunk < 4 && (kind == 0 || kind == 1 || kind == 3))
              && (r.Oversized? ==> r.kind == kind && r.length == 0x1_0000_0000 + chunk - 4)
  {
    hide Wrap;
    if size >= 4 {
      var chunk := Little16(buffer[0], buffer[1]);
      if chunk < 4 { WrapsBelow(chunk); }
    }
  }

  lemma WrapsBelow(chunk: nat)
    requires chunk < 4
    ensures Wrap(chunk - 4) == 0x1_0000_0000 + chunk - 4
  {
  }

  /** So two frames are equal only if they carry the same packet. */
  lemma FrameInjective(k1: Byte, p1: seq<Byte>, k2: Byte, p2: seq<Byte>, size: nat)
    requires |p1| + 4 <= size < 0x1_0000 && |p2| + 4 <= size && Frame(k1, p1, size) == Frame(k2, p2, size)
    ensures k1 == k2 && p1 == p2
  {
    FrameDecodes(k1, p1, size);
    FrameDecodes(k2, p2, size);
  }

  // ---------------------------------------------------------------- the queue

  class Packet {
    var next: Packet?
    var nb: U16
    const buffer: array<Byte>

    /** kzalloc. */
    constructor (size: U16)
      ensures next == null && nb == size && fresh(buffer) && buffer[..] == Zeros(size)
    {
      next, nb := null, size;
      buffer := new Byte[size](_ => 0);
      new;
      assert buffer[..] == Zeros(size);
    }
  }

  /** The packets of which the write succeeded. */
  function Kept(ps: seq<seq<Byte>>, ok: seq<bool>): seq<seq<Byte>>
    requires |ps| == |ok|
  {
    if ps == [] then []
    else Kept(ps[..|ps| - 1], ok[..|ps| - 1]) + (if ok[|ps| - 1] then [ps[|ps| - 1]] else [])
  }

  /** The places of the packets that were written. */
  function Places(ok: seq<bool>): (ks: seq<nat>)
    ensures forall i :: 0 <= i < |ks| ==> ks[i] < |ok|
  {
    if ok == [] then [] else Places(ok[..|ok| - 1]) + (if ok[|ok| - 1] then [|ok| - 1] else [])
  }

  lemma KeptStep(ps: seq<seq<Byte>>, ok: seq<bool>, next: bool)
    requires |ok| < |ps|
    ensures Kept(ps[..|ok| + 1], ok + [next]) == Kept(ps[..|ok|], ok) + (if next then [ps[|ok|]] else [])
  {
    assert ps[..|ok| + 1][..|ok|] == ps[..|ok|] && (ok + [next])[..|ok|] == ok;
  }

  lemma {:induction false} PlacesExactly(ok: seq<bool>)
    ensures var ks := Places(ok);
            && (forall j, k :: 0 <= j < k < |ks| ==> ks[j] < ks[k])
            && (forall i :: 0 <= i < |ok| ==> (i in ks <==> ok[i]))
  {
    if ok == [] {
    } else {
      var n := |ok| - 1;
      PlacesExactly(ok[..n]);
      var was, now := Places(ok[..n]), Places(ok);
      assert now == was || now == was + [n];
      assert n !in was;
      forall i | 0 <= i < n ensures i in now <==> ok[i] {
        assert i in was <==> ok[..n][i];
        assert i in now <==> i in was;
      }
      assert n in now <==> ok[n];
    }
  }

  lemma {:induction false} KeptAtPlaces(ps: seq<seq<Byte>>, ok: seq<bool>)
    requires |ps| == |ok|
    ensures |Kept(ps, ok)| == |Places(ok)|
    ensures forall k :: 0 <= k < |Places(ok)| ==> Kept(ps, ok)[k] == ps[Places(ok)[k]]
  {
    if ps == [] {
    } else {
      var n := |ok| - 1;
      KeptAtPlaces(ps[..n], ok[..n]);
      var was, now := Places(ok[..n]), Places(ok);
      forall k | 0 <= k < |now| ensures Kept(ps, ok)[k] == ps[now[k]] {
        if k < |was| { assert now[k] == was[k] && ps[..n][was[k]] == ps[was[k]]; }
      }
    }
  }

  /** The packets written are those of the good transfers, in the order in which they were queued. */
  lemma {:induction false} KeptExactly(ps: seq<seq<Byte>>, ok: seq<bool>)
    requires |ps| == |ok|
    ensures var ks := Places(ok);
            && |Kept(ps, ok)| == |ks|
            && (forall k :: 0 <= k < |ks| ==> Kept(ps, ok)[k] == ps[ks[k]])
            && (forall j, k :: 0 <= j < k < |ks| ==> ks[j] < ks[k])
            && (forall i :: 0 <= i < |ok| ==> (i in ks <==> ok[i]))
  {
    hide Places, Kept;
    PlacesExactly(ok);
    KeptAtPlaces(ps, ok);
  }

  predicate TooLarge(nb: nat) {
    nb > 0x1_0000 - PACKET_HEADER - 4
  }

  predicate FrameFits(blk: U32, multiBlock: bool, nb: nat)
    requires blk > 0 && nb + 4 < WORD
  {
    nb + 4 <= SdioAlignSize(blk, multiBlock, nb + 4) < 0x1_0000
  }

  /** The largest size below 65536 that fits one transfer. */
  function LargestFrame(blk: U32): int
    requires blk > 0
  {
    if Whole(0xffff, blk) > Min(blk, MAX_BYTE_TRANSFER) then Whole(0xffff, blk) else Min(blk, MAX_BYTE_TRANSFER)
  }

  lemma LargestFits(blk: U32)
    requires 0 < blk && blk % 4 == 0
    ensures LargestFrame(blk) % 4 == 0 && OneTransfer(blk, LargestFrame(blk)) && 0 < LargestFrame(blk) < 0x1_0000
  {
    UpAndDown(0xffff, blk);
    MulMod4(0xffff / blk, blk);
  }

  lemma NothingLarger(blk: U32, n: int)
    requires 0 < blk && blk % 4 == 0 && OneTransfer(blk, n) && n < 0x1_0000
    ensures n <= LargestFrame(blk)
  {
    UpAndDown(0xffff, blk);
    if n > Min(blk, MAX_BYTE_TRANSFER) {
      UpAndDown(n, blk);
      AtLeastOnce(n / blk - 0xffff / blk, blk);
      assert (n / blk - 0xffff / blk) * blk == n / blk * blk - 0xffff / blk * blk;
    }
  }

  /** With multi-block transfers and a block size divisible by 4: the padded frame keeps a
      16-bit length exactly if the frame is not longer than the largest single transfer. */
  lemma FitsExactly(blk: U32, nb: nat)
    requires 0 < blk && blk % 4 == 0 && !TooLarge(nb)
    ensures FrameFits(blk, true, nb) <==> nb + 4 <= LargestFrame(blk)
  {
    hide SdioAlignSize, NoWrap, Whole, Rest, Round4, RoundUp, LargestFrame;
    if NoWrap(blk, true, nb + 4) {
      LeastTransfer(blk, nb + 4);
      LargestFits(blk);
      assert OneTransfer(blk, LargestFrame(blk));
      var r := SdioAlignSize(blk, true, nb + 4);
      if r < 0x1_0000 { NothingLarger(blk, r); }
    } else {
      NeverShrinks(blk, true, nb + 4);
      WrapsOnlyBeyond(blk, nb + 4);
    }
  }

  /** An addition wraps only for blocks that are larger than any frame. */
  lemma WrapsOnlyBeyond(blk: U32, sz: U32)
    requires 0 < blk && blk % 4 == 0 && sz <= 0x1_0000 && !NoWrap(blk, true, sz)
    ensures sz > LargestFrame(blk)
  {
    hide RoundUp;
    var a := Round4(sz);
    RoundsUpBelow(a, blk);
    NoWholeBlock(blk);
  }

  lemma RoundsUpBelow(a: int, blk: U32)
    requires blk > 0
    ensures RoundUp(a, blk) <= a + blk - 1
  {
    UpAndDown(a + blk - 1, blk);
  }

  lemma NoWholeBlock(blk: U32)
    requires blk > 0xffff
    ensures Whole(0xffff, blk) == 0
  {
  }

  /** Without multi-block transfers it always does. */
  lemma FitsWithoutMultiBlock(blk: U32, nb: nat)
    requires 0 < blk && !TooLarge(nb)
    ensures FrameFits(blk, false, nb)
  {
    hide SdioAlignSize;
    SingleBlockSteps(blk, nb + 4);
  }

  /** The test of the payload length protects the 16-bit size field for every payload exactly
      if the blocks of a transfer can fill all but the last 8 bytes of 65536. */
  lemma GuardSuffices(blk: U32)
    requires 0 < blk && blk % 4 == 0
    ensures (forall nb: nat :: !TooLarge(nb) ==> FrameFits(blk, true, nb))
            <==> Whole(0xffff, blk) >= 0x1_0000 - PACKET_HEADER
  {
    hide FrameFits, Whole;
    forall nb: nat | !TooLarge(nb) ensures FrameFits(blk, true, nb) <==> nb + 4 <= LargestFrame(blk) {
      FitsExactly(blk, nb);
    }
    assert !TooLarge(0x1_0000 - PACKET_HEADER - 4);
  }

  /** The header and the payload of a packet, written in place. */
  method FillPacket(packet: Packet, kind: Byte, buf: seq<Byte>)
    requires |buf| + 4 <= packet.buffer.Length < 0x1_0000 && packet.buffer[..] == Zeros(packet.buffer.Length)
    modifies packet.buffer
    ensures packet.buffer[..] == Frame(kind, buf, packet.buffer.Length)
  {
    var b := packet.buffer;
    b[0], b[1], b[2], b[3] := (|buf| + 4) % 256, (|buf| + 4) / 256, kind, 0;
    forall i | 0 <= i < |buf| { b[4 + i] := buf[i]; }
  }

  datatype Status = Ok | EInval | ENomem

  class Card {
    const blk: U32
    const multiBlock: bool
    var packets: Packet?
    var dnldSent: DnldState
    ghost var queue: seq<Packet>
    // history: the frames queued so far, what became of those the worker took, and the writes
    ghost var enqueued: seq<seq<Byte>>
    ghost var outcomes: seq<bool>
    ghost var written: seq<seq<Byte>>

    constructor (blk: U32, multiBlock: bool)
      requires blk > 0
      ensures Valid() && queue == [] && enqueued == [] && written == []
    {
      this.blk, this.multiBlock := blk, multiBlock;
      packets, dnldSent := null, ResReceived;
      queue, enqueued, outcomes, written := [], [], [], [];
    }

    ghost predicate Linked()
      reads `packets, `queue, queue`next
    {
      && (if queue == [] then packets == null else packets == queue[0] && queue[|queue| - 1].next == null)
      && (forall i :: 0 <= i < |queue| - 1 ==> queue[i].next == queue[i + 1])
      && (forall i, j :: 0 <= i < j < |queue| ==> queue[i] != queue[j])
    }

    /** The packets of the queue hold these frames. */
    ghost predicate Holds(frames: seq<seq<Byte>>)
      reads `queue, queue`nb, set p | p in queue :: p.buffer
    {
      && |frames| == |queue|
      && forall i :: 0 <= i < |queue| ==> queue[i].nb == |frames[i]| && queue[i].buffer[..] == frames[i]
    }

    ghost predicate Valid()
      reads this, queue, set p | p in queue :: p.buffer
    {
      && blk > 0 && Linked()
      && |outcomes| <= |enqueued| && Holds(enqueued[|outcomes|..])
      && written == Kept(enqueued[..|outcomes|], outcomes)
    }

    /** Walk to the last packet and hang the new one behind it. */
    method Append(packet: Packet)
      requires Linked() && packet !in queue && packet.next == null
      modifies this`packets, this`queue, queue`next
      ensures Linked() && queue == old(queue) + [packet]
    {
      if packets == null {
        packets := packet;
      } else {
        var cur := packets;
        ghost var i := 0;
        while cur.next != null
          invariant 0 <= i < |queue| && cur == queue[i]
          invariant i < |queue| - 1 ==> cur.next == queue[i + 1]
          decreases |queue| - i
        {
          cur := cur.next;
          i := i + 1;
        }
        cur.next := packet;
      }
      queue := queue + [packet];
    }

    /** The locked section of if_sdio_host_to_card. */
    method Enqueue(packet: Packet)
      requires Valid() && packet !in queue && packet.next == null && packet.nb == packet.buffer.Length
      modifies this`packets, this`queue, this`enqueued, queue`next
      ensures Valid() && enqueued == old(enqueued) + [packet.buffer[..]] && queue == old(queue) + [packet]
      ensures outcomes == old(outcomes) && written == old(written)
    {
      hide Linked, Kept;
      Append(packet);
      ghost var was := enqueued;
      enqueued := enqueued + [packet.buffer[..]];
      assert enqueued[|outcomes|..] == was[|outcomes|..] + [packet.buffer[..]];
      assert enqueued[..|outcomes|] == was[..|outcomes|];
    }

    /** if_sdio_host_to_card; memory is the result of kzalloc.  The caller must keep to sizes
        of which the padded frame has a 16-bit length. */
    method HostToCard(kind: Byte, buf: seq<Byte>, memory: bool) returns (ret: Status)
      requires Valid() && |buf| < 0x1_0000
      requires !TooLarge(|buf|) ==> FrameFits(blk, multiBlock, |buf|)
      modifies this`packets, this`dnldSent, this`queue, this`enqueued, queue`next
      ensures Valid()
      ensures ret == if TooLarge(|buf|) then EInval else if !memory then ENomem else Ok
      ensures enqueued == old(enqueued)
              + (if ret == Ok then [Frame(kind, buf, SdioAlignSize(blk, multiBlock, |buf| + 4))] else [])
      ensures dnldSent == if ret != Ok then old(dnldSent) else if kind == MVMS_CMD then CmdSent
                          else if kind == MVMS_DAT then DataSent else old(dnldSent)
    {
      hide SdioAlignSize, Frame, Kept, Linked, Holds;
      if TooLarge(|buf|) { return EInval; }
      var size := SdioAlignSize(blk, multiBlock, |buf| + 4);
      if !memory { return ENomem; }
      var packet := new Packet(size);
      FillPacket(packet, kind, buf);
      Enqueue(packet);
      if kind == MVMS_CMD { dnldSent := CmdSent; } else if kind == MVMS_DAT { dnldSent := DataSent; }
      ret := Ok;
    }

    /** One round of if_sdio_host_to_card_worker; ok is the result of the transfer.  Other
        contexts may queue packets before the next round. */
    method WorkerRound(ok: bool) returns (packet: Packet?)
      requires Valid()
      modifies this`packets, this`queue, this`outcomes, this`written
      ensures Valid()
      ensures packet == null <==> old(queue) == []
      ensures packet == null ==> queue == old(queue) && outcomes == old(outcomes) && written == old(written)
      ensures packet != null ==>
                queue == old(queue)[1..] && outcomes == old(outcomes) + [ok]
                && written == old(written) + (if ok then [enqueued[|old(outcomes)|]] else [])
    {
      hide Kept;
      packet := packets;
      if packet == null { return; }
      ghost var n := |outcomes|;
      assert packet.buffer[..] == enqueued[n..][0] == enqueued[n];
      assert |queue| > 1 ==> queue[0].next == queue[1];
      KeptStep(enqueued, outcomes, ok);
      packets := packet.next;
      queue, outcomes := queue[1..], outcomes + [ok];
      if ok { written := written + [packet.buffer[..]]; }
      assert enqueued[n + 1..] == enqueued[n..][1..];
    }

    /** if_sdio_host_to_card_worker, when nothing is queued meanwhile; ok(n) is the result for
        packet n of this run. */
    method HostToCardWorker(ok: nat -> bool)
      requires Valid()
      modifies this`packets, this`queue, this`outcomes, this`written
      ensures Valid() && queue == [] && |outcomes| == |enqueued|
      ensures old(outcomes) <= outcomes
      ensures forall i :: |old(outcomes)| <= i < |outcomes| ==> outcomes[i] == ok(i - |old(outcomes)|)
      ensures written == Kept(enqueued, outcomes)
    {
      hide Kept, Linked;
      var n := 0;
      ghost var start := |outcomes|;
      while true
        invariant Valid() && |outcomes| == start + n && old(outcomes) <= outcomes
        invariant forall i :: start <= i < |outcomes| ==> outcomes[i] == ok(i - start)
        decreases |queue|
      {
        var packet := WorkerRound(ok(n));
        if packet == null { break; }
        n := n + 1;
      }
      assert enqueued[..|outcomes|] == enqueued;
    }
  }
}
