/** The block batch writer: a task that takes write requests off a channel in batches of up to four, hands each batch
    to the block store in one call, and answers every request. */
module BatchWriter {
  import opened Arithmetic
  import opened Common

  type Codec = nat
  type Payload = seq<bv8>
  type Put = string                       // the store's receipt for one block

  datatype Cid = Cid(codec: Codec, digest: string)

  datatype Request = Request(codec: Codec, payload: Payload, verifiedCid: Option<Cid>, logicalSize: Option<nat>)

  const BATCH_SIZE: nat := 4

  // ---- One batch ----

  datatype Wire = Wire(cid: Cid, logicalSize: nat, payload: Payload)

  /** The store operation a batch turns into. */
  datatype StoreCall =
    | EncodedWireBatch(wires: seq<Wire>)
    | BatchWithEncoded(blocks: seq<(Codec, Payload)>)
    | ReplicaVerified(block: (Codec, Payload), cid: Cid)
    | Replica(block: (Codec, Payload))
    | ReplicaBatchVerified(blocks: seq<(Codec, Payload)>, cids: seq<Cid>)
    | ReplicaBatch(blocks: seq<(Codec, Payload)>)

  /** How the store call ended. A call for one block yields `one`, a call for many yields `many`; `encoded` are the
      encoded payloads that only the call with encoded blocks returns. */
  datatype StoreReply =
    | Panics(reason: string)
    | Refuses(error: string)
    | Stores(one: Put, many: seq<Put>, encoded: seq<Payload>)

  predicate AllSome<T>(s: seq<Option<T>>) { forall i :: 0 <= i < |s| ==> s[i].Some? }

  predicate AnySome<T>(s: seq<Option<T>>) { exists i :: 0 <= i < |s| && s[i].Some? }

  function Values<T>(s: seq<Option<T>>): (r: seq<T>)
    requires AllSome(s)
    ensures |r| == |s| && forall i :: 0 <= i < |s| ==> s[i] == Some(r[i])
  {
    seq(|s|, i requires 0 <= i < |s| => s[i].value)
  }

  /** Pairs up an encoded batch; the first block without a CID, or with a CID of another codec, refuses it. */
  function Wires(blocks: seq<(Codec, Payload)>, cids: seq<Option<Cid>>, sizes: seq<nat>): (r: Result<seq<Wire>>)
    requires |blocks| == |cids| == |sizes|
    ensures r.Ok? <==> forall i :: 0 <= i < |blocks| ==> cids[i].Some? && cids[i].value.codec == blocks[i].0
    ensures r.Ok? ==> |r.value| == |blocks|
    ensures r.Ok? ==> forall i :: 0 <= i < |blocks| ==> r.value[i] == Wire(cids[i].value, sizes[i], blocks[i].1)
    decreases |blocks|
  {
    if blocks == [] then Ok([])
    else
      var n := |blocks| - 1;
      var front := Wires(blocks[..n], cids[..n], sizes[..n]);
      if front.Err? then front
      else if cids[n].None? then Err("encoded replica is missing its CID")
      else if cids[n].value.codec != blocks[n].0 then Err("encoded replica codec mismatch")
      else Ok(front.value + [Wire(cids[n].value, sizes[n], blocks[n].1)])
  }

  function Dispatch(replica: bool, blocks: seq<(Codec, Payload)>, cids: seq<Option<Cid>>, sizes: seq<Option<nat>>)
      : Result<StoreCall>
    requires |blocks| == |cids| == |sizes| > 0
  {
    if replica && AllSome(sizes) then
      (match Wires(blocks, cids, Values(sizes))
       case Ok(wires) => Ok(EncodedWireBatch(wires))
       case Err(message) => Err(message))
    else if AnySome(sizes) then Err("cannot mix encoded and logical blocks in one batch")
    else if !replica then Ok(BatchWithEncoded(blocks))
    else if |blocks| == 1 then
      Ok(if cids[0].Some? then ReplicaVerified(blocks[0], cids[0].value) else Replica(blocks[0]))
    else if AllSome(cids) then Ok(ReplicaBatchVerified(blocks, Values(cids)))
    else Ok(ReplicaBatch(blocks))
  }

  /** The receipts and payloads of a store call, as the writer pairs them. */
  function Receipts(call: StoreCall, one: Put, many: seq<Put>, encoded: seq<Payload>): (seq<Put>, seq<Payload>) {
    match call
    case BatchWithEncoded(_) => (many, encoded)
    case ReplicaVerified(_, _) => ([one], [[]])
    case Replica(_) => ([one], [[]])
    case _ => (many, seq(|many|, _ => []))
  }

  datatype Answer = Stored(put: Put, payload: Payload) | Failed(error: string)

  /** The answers to one batch of `n` requests: a failure of any kind goes to all of them. */
  function AnswersTo(n: nat, call: Result<StoreCall>, reply: StoreReply): (answers: seq<Answer>)
    ensures |answers| == n
  {
    if reply.Panics? then seq(n, _ => Failed("block batch worker failed: " + reply.reason))
    else if call.Err? then seq(n, _ => Failed(call.message))
    else if reply.Refuses? then seq(n, _ => Failed(reply.error))
    else
      var (puts, payloads) := Receipts(call.value, reply.one, reply.many, reply.encoded);
      if |puts| == n && |payloads| == n then
        seq(n, i requires 0 <= i < n => Stored(puts[i], payloads[i]))
      else seq(n, _ => Failed("block batch result length does not match request"))
  }

  function BlocksOf(batch: seq<Request>): seq<(Codec, Payload)> {
    seq(|batch|, i requires 0 <= i < |batch| => (batch[i].codec, batch[i].payload))
  }

  function CidsOf(batch: seq<Request>): seq<Option<Cid>> {
    seq(|batch|, i requires 0 <= i < |batch| => batch[i].verifiedCid)
  }

  function SizesOf(batch: seq<Request>): seq<Option<nat>> {
    seq(|batch|, i requires 0 <= i < |batch| => batch[i].logicalSize)
  }

  function CallFor(replica: bool, batch: seq<Request>): Result<StoreCall>
    requires |batch| > 0
  {
    Dispatch(replica, BlocksOf(batch), CidsOf(batch), SizesOf(batch))
  }

  function BatchAnswers(replica: bool, batch: seq<Request>, reply: StoreReply): (answers: seq<Answer>)
    requires |batch| > 0
    ensures |answers| == |batch|
  {
    AnswersTo(|batch|, CallFor(replica, batch), reply)
  }

  /** A batch is answered all-stored, request i with the i-th receipt and payload, or all-failed with one error. */
  lemma AllOrNothing(replica: bool, batch: seq<Request>, reply: StoreReply)
    requires |batch| > 0
    ensures var answers := BatchAnswers(replica, batch, reply);
            || (&& reply.Stores? && CallFor(replica, batch).Ok?
                && var (puts, payloads) :=
                     Receipts(CallFor(replica, batch).value, reply.one, reply.many, reply.encoded);
                   && |puts| == |payloads| == |batch|
                   && forall i :: 0 <= i < |batch| ==> answers[i] == Stored(puts[i], payloads[i]))
            || (exists error :: forall i :: 0 <= i < |batch| ==> answers[i] == Failed(error))
  {
    var answers := BatchAnswers(replica, batch, reply);
    if answers[0].Failed? {
      var error := answers[0].error;
      assert forall i :: 0 <= i < |batch| ==> answers[i] == Failed(error);
    }
  }

  /** Encoded blocks go through only in an all-encoded replica batch: mixing them with logical blocks, or sending
      any to the normal writer, fails the whole batch whatever the store does. */
  lemma MixedBatchFails(replica: bool, batch: seq<Request>, reply: StoreReply, i: nat, j: nat)
    requires i < |batch| && batch[i].logicalSize.Some?
    requires j < |batch| && (batch[j].logicalSize.None? || !replica)
    ensures forall k :: 0 <= k < |batch| ==> BatchAnswers(replica, batch, reply)[k].Failed?
  {
    var sizes := SizesOf(batch);
    assert sizes[i].Some? && (sizes[j].None? || !replica);
    assert AnySome(sizes) && !(replica && AllSome(sizes));
  }

  function CallBlocks(call: StoreCall): seq<(Codec, Payload)> {
    match call
    case EncodedWireBatch(wires) =>
      seq(|wires|, i requires 0 <= i < |wires| => (wires[i].cid.codec, wires[i].payload))
    case BatchWithEncoded(blocks) => blocks
    case ReplicaVerified(block, _) => [block]
    case Replica(block) => [block]
    case ReplicaBatchVerified(blocks, _) => blocks
    case ReplicaBatch(blocks) => blocks
  }

  /** Whichever store call is made, it carries exactly the batch's blocks, in request order. */
  lemma CallCarriesBatch(replica: bool, batch: seq<Request>)
    requires |batch| > 0 && CallFor(replica, batch).Ok?
    ensures CallBlocks(CallFor(replica, batch).value) == BlocksOf(batch)
  {
    var blocks, call := BlocksOf(batch), CallFor(replica, batch).value;
    assert |blocks| == 1 ==> blocks == [blocks[0]];
    if call.EncodedWireBatch? {
      assert |call.wires| == |blocks|;
      forall i | 0 <= i < |blocks|
        ensures CallBlocks(call)[i] == blocks[i]
      {
        assert call.wires[i] == Wire(CidsOf(batch)[i].value, Values(SizesOf(batch))[i], blocks[i].1);
      }
    }
  }

  // ---- The whole run ----

  function Largest(sizes: seq<nat>): nat {
    if sizes == [] then 0 else Max(Largest(sizes[..|sizes| - 1]), sizes[|sizes| - 1])
  }

  function Coalesced(sizes: seq<nat>): nat {
    if sizes == [] then 0
    else Coalesced(sizes[..|sizes| - 1]) + if sizes[|sizes| - 1] > 1 then 1 else 0
  }

  /** The answers to all batches, batch after batch: `sizes` cuts the requests into consecutive slices. */
  function RunAnswers(replica: bool, requests: seq<Request>, sizes: seq<nat>, replies: nat -> StoreReply)
      : (answers: seq<Answer>)
    requires Sum(sizes) <= |requests| && forall i :: 0 <= i < |sizes| ==> sizes[i] > 0
    ensures |answers| == Sum(sizes)
  {
    if sizes == [] then []
    else
      var n := |sizes| - 1;
      var lo, hi := Sum(sizes[..n]), Sum(sizes);
      RunAnswers(replica, requests, sizes[..n], replies) + BatchAnswers(replica, requests[lo..hi], replies(n))
  }

  class BatchMetrics {
    var requests: nat
    var batches: nat
    var coalescedBatches: nat
    var maxBatchSize: nat

    constructor ()
      ensures requests == batches == coalescedBatches == maxBatchSize == 0
    {
      requests, batches, coalescedBatches, maxBatchSize := 0, 0, 0, 0;
    }

    method Record(size: nat)
      modifies this
      ensures requests == old(requests) + size && batches == old(batches) + 1
      ensures coalescedBatches == old(coalescedBatches) + if size > 1 then 1 else 0
      ensures maxBatchSize == Max(old(maxBatchSize), size)
    {
      requests, batches := requests + size, batches + 1;
      if size > 1 {
        coalescedBatches := coalescedBatches + 1;
      }
      maxBatchSize := Max(maxBatchSize, size);
    }
  }

  /** Splits a batch into the parallel vectors the store closure works on. */
  method Split(batch: seq<Request>)
      returns (blocks: seq<(Codec, Payload)>, cids: seq<Option<Cid>>, sizes: seq<Option<nat>>)
    ensures blocks == BlocksOf(batch) && cids == CidsOf(batch) && sizes == SizesOf(batch)
  {
    blocks, cids, sizes := [], [], [];
    for i := 0 to |batch|
      invariant blocks == BlocksOf(batch[..i]) && cids == CidsOf(batch[..i]) && sizes == SizesOf(batch[..i])
    {
      blocks := blocks + [(batch[i].codec, batch[i].payload)];
      cids := cids + [batch[i].verifiedCid];
      sizes := sizes + [batch[i].logicalSize];
    }
    assert batch[..|batch|] == batch;
  }

  /** Fills one batch: at least the first waiting request, at most four, and never past what was sent. The deadline
      may fire after any request. */
  method Receive(first: nat, sent: nat) returns (next: nat)
    requires first < sent
    ensures first < next <= sent && next - first <= BATCH_SIZE
  {
    next := first + 1;
    while next - first < BATCH_SIZE && next < sent
      invariant first < next <= sent && next - first <= BATCH_SIZE
    {
      if * {
        break;
      }
      next := next + 1;
    }
  }

  /** Answers addressed to the requests numbered from `first`. */
  function Addressed(first: nat, answers: seq<Answer>): seq<(nat, Answer)> {
    seq(|answers|, i requires 0 <= i < |answers| => (first + i, answers[i]))
  }

  lemma AddressedAppend(a: seq<Answer>, b: seq<Answer>)
    ensures Addressed(0, a + b) == Addressed(0, a) + Addressed(|a|, b)
  {
  }

  /** The reply loop: sends each answer to its own request. */
  method Send(first: nat, answers: seq<Answer>) returns (sent: seq<(nat, Answer)>)
    ensures sent == Addressed(first, answers)
  {
    sent := [];
    for j := 0 to |answers|
      invariant sent == Addressed(first, answers[..j])
    {
      sent := sent + [(first + j, answers[j])];
    }
    assert answers[..|answers|] == answers;
  }

  lemma NextSize(sizes: seq<nat>, size: nat)
    ensures var more := sizes + [size];
            && Sum(more) == Sum(sizes) + size && Largest(more) == Max(Largest(sizes), size)
            && Coalesced(more) == Coalesced(sizes) + (if size > 1 then 1 else 0)
  {
    var more := sizes + [size];
    assert more[..|more| - 1] == sizes;
  }

  lemma NextBatch(replica: bool, requests: seq<Request>, sizes: seq<nat>, size: nat, replies: nat -> StoreReply)
    requires (forall i :: 0 <= i < |sizes| ==> sizes[i] > 0) && size > 0 && Sum(sizes) + size <= |requests|
    ensures Sum(sizes + [size]) == Sum(sizes) + size
    ensures RunAnswers(replica, requests, sizes + [size], replies)
         == RunAnswers(replica, requests, sizes, replies)
            + BatchAnswers(replica, requests[Sum(sizes)..Sum(sizes) + size], replies(|sizes|))
  {
    var more := sizes + [size];
    NextSize(sizes, size);
    assert more[..|sizes|] == sizes;
  }

  /** The writer task over its whole life: `requests` is everything ever sent to the channel, `replies(b)` how the
      store call of batch b ends. The i-th answer sent goes to the i-th request: every request is answered exactly
      once, in order; the batches are consecutive slices of one to four requests; and the counters grow by the sum
      and number of the batch sizes and hold their maximum. */
  method Run(replica: bool, requests: seq<Request>, replies: nat -> StoreReply, metrics: BatchMetrics)
      returns (answered: seq<(nat, Answer)>, sizes: seq<nat>)
    modifies metrics
    ensures forall b :: 0 <= b < |sizes| ==> 1 <= sizes[b] <= BATCH_SIZE
    ensures Sum(sizes) == |requests| == |answered|
    ensures answered == Addressed(0, RunAnswers(replica, requests, sizes, replies))
    ensures metrics.requests == old(metrics.requests) + |requests|
    ensures metrics.batches == old(metrics.batches) + |sizes|
    ensures metrics.coalescedBatches == old(metrics.coalescedBatches) + Coalesced(sizes)
    ensures metrics.maxBatchSize == Max(old(metrics.maxBatchSize), Largest(sizes))
  {
    answered, sizes := [], [];
    var received := 0;
    while received < |requests|
      invariant 0 <= received == Sum(sizes) <= |requests|
      invariant forall b :: 0 <= b < |sizes| ==> 1 <= sizes[b] <= BATCH_SIZE
      invariant answered == Addressed(0, RunAnswers(replica, requests, sizes, replies))
      invariant metrics.requests == old(metrics.requests) + received
      invariant metrics.batches == old(metrics.batches) + |sizes|
      invariant metrics.coalescedBatches == old(metrics.coalescedBatches) + Coalesced(sizes)
      invariant metrics.maxBatchSize == Max(old(metrics.maxBatchSize), Largest(sizes))
    {
      var next := Receive(received, |requests|);
      var batch := requests[received..next];
      metrics.Record(|batch|);
      var blocks, cids, logicalSizes := Split(batch);
      var answers := AnswersTo(|batch|, Dispatch(replica, blocks, cids, logicalSizes), replies(|sizes|));
      var sent := Send(received, answers);
      NextSize(sizes, |batch|);
      NextBatch(replica, requests, sizes, |batch|, replies);
      AddressedAppend(RunAnswers(replica, requests, sizes, replies), answers);
      answered, sizes, received := answered + sent, sizes + [|batch|], next;
    }
  }
}
