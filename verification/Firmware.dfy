/** if_sdio.c: how the two firmware images are cut into blocks for the card. */
module Firmware {

  type Byte = x: int | 0 <= x < 256

  const HELPER_BLOCK := 64
  const HELPER_DATA := 60
  const CHUNK := 512

  datatype Status = Ok | IoError | Eio

  /** The inputs from the card: whether it becomes ready, how many bytes it asks for, and
      whether a write succeeds, for the n-th time each. */
  datatype Port = Port(ready: nat -> bool, wants: nat -> nat, wrote: nat -> bool)

  // ---------------------------------------------------------------- the helper

  function Le32(b: seq<Byte>): nat
    requires |b| >= 4
  {
    b[0] + (b[1] as int) * 0x100 + (b[2] as int) * 0x1_0000 + (b[3] as int) * 0x100_0000
  }

  predicate IsBlock(b: seq<Byte>) {
    |b| == HELPER_BLOCK && Le32(b) <= HELPER_DATA
  }

  function Payload(b: seq<Byte>): seq<Byte>
    requires IsBlock(b)
  {
    b[4..4 + Le32(b)]
  }

  predicate AllBlocks(blocks: seq<seq<Byte>>) {
    forall i :: 0 <= i < |blocks| ==> IsBlock(blocks[i])
  }

  /** What a card gathers from blocks, up to the first empty one. */
  function Gather(blocks: seq<seq<Byte>>): seq<Byte>
    requires AllBlocks(blocks)
  {
    if blocks == [] || Le32(blocks[0]) == 0 then [] else Payload(blocks[0]) + Gather(blocks[1..])
  }

  predicate AllFull(blocks: seq<seq<Byte>>) {
    AllBlocks(blocks) && forall i :: 0 <= i < |blocks| ==> Le32(blocks[i]) > 0
  }

  /** How many blocks carry n bytes. */
  function Blocks(n: nat): nat {
    (n + HELPER_DATA - 1) / HELPER_DATA
  }

  lemma {:induction false} GatherAppend(blocks: seq<seq<Byte>>, b: seq<Byte>)
    requires AllFull(blocks) && IsBlock(b)
    ensures Gather(blocks + [b]) == Gather(blocks) + Payload(b)
  {
    if blocks == [] {
      assert [b][1..] == [];
    } else {
      assert (blocks + [b])[1..] == blocks[1..] + [b];
      GatherAppend(blocks[1..], b);
    }
  }

  /** One block, written into the chunk buffer over what the last one left there. */
  method FillBlock(buffer: array<Byte>, data: seq<Byte>)
    requires buffer.Length == HELPER_BLOCK && |data| <= HELPER_DATA
    modifies buffer
    ensures IsBlock(buffer[..]) && Le32(buffer[..]) == |data| && Payload(buffer[..]) == data
    ensures buffer[0] == |data| && buffer[1] == buffer[2] == buffer[3] == 0 && buffer[4..4 + |data|] == data
  {
    buffer[0], buffer[1], buffer[2], buffer[3] := |data|, 0, 0, 0;
    forall i | 0 <= i < |data| { buffer[4 + i] := data[i]; }
  }

  /** if_sdio_prog_helper up to the wait for the boot. */
  method ProgHelper(firmware: seq<Byte>, port: Port) returns (ret: Status, written: seq<seq<Byte>>)
    ensures AllBlocks(written)
    ensures ret == Ok ==> Gather(written) == firmware && |written| == Blocks(|firmware|) + 1
    ensures ret == Ok ==> Le32(written[|written| - 1]) == 0 && AllFull(written[..|written| - 1])
    ensures ret != Ok ==> ret == IoError && AllFull(written) && Gather(written) <= firmware
    ensures (forall n :: port.ready(n) && port.wrote(n)) ==> ret == Ok
  {
    var buffer := new Byte[HELPER_BLOCK](_ => 0);
    var at: nat, size: nat := 0, |firmware|;
    written := [];
    while size > 0
      invariant at + size == |firmware| && AllFull(written) && Gather(written) == firmware[..at]
      invariant |written| + Blocks(size) == Blocks(|firmware|)
    {
      if !port.ready(|written|) { return IoError, written; }
      var chunkSize := if size < HELPER_DATA then size else HELPER_DATA;
      FillBlock(buffer, firmware[at..at + chunkSize]);
      if !port.wrote(|written|) { return IoError, written; }
      GatherAppend(written, buffer[..]);
      written := written + [buffer[..]];
      assert firmware[..at] + firmware[at..at + chunkSize] == firmware[..at + chunkSize];
      at, size := at + chunkSize, size - chunkSize;
    }
    // the empty block keeps the old bytes behind its length
    FillBlock(buffer, []);
    if !port.wrote(|written|) { return IoError, written; }
    GatherAppend(written, buffer[..]);
    written := written + [buffer[..]];
    assert written[..|written| - 1] + [buffer[..]] == written;
    ret := Ok;
  }

  // ---------------------------------------------------------------- the main image

  /** One write: size bytes of the image and the padding behind them. */
  datatype Chunk = Chunk(size: nat, data: seq<Byte>)

  /** The least multiple of the block size, 32, that is not below n. */
  function Padded(n: nat): (p: nat)
    ensures p % 32 == 0 && n <= p < n + 32
  {
    (n + 31) / 32 * 32
  }

  predicate IsChunk(c: Chunk) {
    0 < c.size <= CHUNK && |c.data| == Padded(c.size)
  }

  predicate AllChunks(cs: seq<Chunk>) {
    forall i :: 0 <= i < |cs| ==> IsChunk(cs[i])
  }

  /** The chunks without their padding. */
  function Stripped(cs: seq<Chunk>): seq<Byte>
    requires AllChunks(cs)
  {
    if cs == [] then [] else Stripped(cs[..|cs| - 1]) + cs[|cs| - 1].data[..cs[|cs| - 1].size]
  }

  lemma StrippedAppend(cs: seq<Chunk>, c: Chunk)
    requires AllChunks(cs) && IsChunk(c)
    ensures Stripped(cs + [c]) == Stripped(cs) + c.data[..c.size]
  {
    assert (cs + [c])[..|cs|] == cs;
  }

  /** How the requests of the card, from the n-th on, end for size remaining bytes. */
  function Requests(wants: nat -> nat, size: nat, n: nat): Status
    decreases size
  {
    if size == 0 then Ok
    else if wants(n) == 0 || wants(n) % 2 == 1 then Eio
    else Requests(wants, if wants(n) > size then 0 else size - wants(n), n + 1)
  }

  /** The inner loop of if_sdio_prog_real: one request of the card, in chunks of at most 512
      bytes; the padding of a chunk is whatever the buffer holds there. */
  method SendRequest(firmware: seq<Byte>, start: nat, request: nat, buffer: array<Byte>, sent: seq<Chunk>, port: Port)
    returns (ok: bool, written: seq<Chunk>)
    requires start + request <= |firmware| && buffer.Length == CHUNK
    requires AllChunks(sent) && Stripped(sent) == firmware[..start]
    modifies buffer
    ensures AllChunks(written) && sent <= written && Stripped(written) <= firmware
    ensures ok ==> Stripped(written) == firmware[..start + request]
    ensures ok ==> |written| == |sent| + (request + CHUNK - 1) / CHUNK
    ensures (forall n :: port.wrote(n)) ==> ok
  {
    hide Stripped;
    written := sent;
    var at: nat, reqSize: nat := start, request;
    while reqSize > 0
      invariant at + reqSize == start + request && AllChunks(written) && sent <= written
      invariant Stripped(written) == firmware[..at]
      invariant |written| + (reqSize + CHUNK - 1) / CHUNK == |sent| + (request + CHUNK - 1) / CHUNK
    {
      var chunkSize := if reqSize < CHUNK then reqSize else CHUNK;
      forall i | 0 <= i < chunkSize { buffer[i] := firmware[at + i]; }
      assert buffer[..chunkSize] == firmware[at..at + chunkSize];
      if !port.wrote(|written|) { return false, written; }
      var c := Chunk(chunkSize, buffer[..Padded(chunkSize)]);
      StrippedAppend(written, c);
      assert c.data[..c.size] == buffer[..chunkSize];
      written := written + [c];
      assert firmware[..at] + firmware[at..at + chunkSize] == firmware[..at + chunkSize];
      at, reqSize := at + chunkSize, reqSize - chunkSize;
    }
    ok := true;
  }

  /** if_sdio_prog_real up to the wait for the boot. */
  method ProgReal(firmware: seq<Byte>, port: Port) returns (ret: Status, written: seq<Chunk>)
    ensures AllChunks(written) && Stripped(written) <= firmware
    ensures ret == Ok ==> Stripped(written) == firmware
    ensures (forall n :: port.ready(n) && port.wrote(n)) ==> ret == Requests(port.wants, |firmware|, 0)
    ensures ret == Eio ==> Requests(port.wants, |firmware|, 0) == Eio
  {
    var buffer := new Byte[CHUNK](_ => 0);
    var at: nat, size: nat, n: nat := 0, |firmware|, 0;
    written := [];
    while size > 0
      invariant at + size == |firmware| && AllChunks(written) && Stripped(written) == firmware[..at]
      invariant Requests(port.wants, |firmware|, 0) == Requests(port.wants, size, n)
      decreases size
    {
      if !port.ready(n) { return IoError, written; }
      var reqSize := port.wants(n);
      if reqSize == 0 { return Eio, written; }
      if reqSize % 2 == 1 { return Eio, written; }
      if reqSize > size { reqSize := size; }
      var ok;
      ok, written := SendRequest(firmware, at, reqSize, buffer, written, port);
      if !ok { return IoError, written; }
      at, size, n := at + reqSize, size - reqSize, n + 1;
    }
    ret := Ok;
  }

  /** The download succeeds exactly if every request before the image is complete is even and
      not zero. */
  lemma {:induction false} RequestsExactly(wants: nat -> nat, size: nat, n: nat)
    ensures Requests(wants, size, n) == Ok <==>
              forall k: nat :: k >= n && Asked(wants, n, k) < size ==> wants(k) != 0 && wants(k) % 2 == 0
    decreases size
  {
    if size == 0 {
    } else {
      assert Asked(wants, n, n) == 0;
      if wants(n) != 0 && wants(n) % 2 == 0 {
        var rest := if wants(n) > size then 0 else size - wants(n);
        RequestsExactly(wants, rest, n + 1);
        forall k: nat | k >= n + 1 ensures Asked(wants, n, k) == wants(n) + Asked(wants, n + 1, k) {
          AskedSplits(wants, n, k);
        }
      }
    }
  }

  /** The sum of the requests n to k - 1. */
  function Asked(wants: nat -> nat, n: nat, k: nat): nat
    requires n <= k
  {
    if n == k then 0 else Asked(wants, n, k - 1) + wants(k - 1)
  }

  lemma {:induction false} AskedSplits(wants: nat -> nat, n: nat, k: nat)
    requires n < k
    ensures Asked(wants, n, k) == wants(n) + Asked(wants, n + 1, k)
  {
    if n + 1 == k {
    } else {
      AskedSplits(wants, n, k - 1);
    }
  }
}
