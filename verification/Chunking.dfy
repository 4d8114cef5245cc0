/**
 Reply builders and body chunking (`src/response.rs`), with Envoy's reading of a body reply.
 */
module Chunking {
  import opened Wire
  import opened HeaderMaps

  const BODY_CHUNK_LIMIT: nat := 63_488

  /** `request_headers` and `response_headers`; only request replies may clear the route cache. */
  function HeadersCommon(side: Side, mutation: Option<HeaderMutation>): CommonResponse {
    CommonResponse(mutation, None, side.RequestSide? && AffectsRouting(mutation))
  }

  function BodyCommon(side: Side, mutation: Option<HeaderMutation>, body: Option<BodyMutation>): CommonResponse {
    CommonResponse(mutation, body, side.RequestSide? && AffectsRouting(mutation))
  }

  /** End of the sub-chunk that starts at `offset`. */
  function ChunkEnd(data: Bytes, offset: nat): (end: nat)
    requires offset < |data|
    ensures offset < end <= |data|
  {
    if offset + BODY_CHUNK_LIMIT < |data| then offset + BODY_CHUNK_LIMIT else |data|
  }

  /** Sub-chunks of a non-empty body from `offset` on; only the last may end the stream. */
  function ChunksFrom(side: Side, data: Bytes, mutation: Option<HeaderMutation>, eos: bool, offset: nat): seq<CommonResponse>
    requires offset <= |data|
    decreases |data| - offset
  {
    if offset == |data| then []
    else
      var end := ChunkEnd(data, offset);
      [BodyCommon(side, if offset == 0 then mutation else None, Some(Chunk(data[offset..end], eos && end == |data|)))]
      + ChunksFrom(side, data, mutation, eos, end)
  }

  /** `body_responses_streamed` as a value: an empty body still gives one chunk. */
  function Chunks(side: Side, data: Bytes, mutation: Option<HeaderMutation>, eos: bool): seq<CommonResponse> {
    if data == [] then [BodyCommon(side, mutation, Some(Chunk([], eos)))]
    else ChunksFrom(side, data, mutation, eos, 0)
  }

  /** `body_responses`: chunks in full duplex, one whole replacement otherwise. */
  function BodyResponses(side: Side, mode: BodyMode, data: Option<Bytes>, mutation: Option<HeaderMutation>, eos: bool)
    : seq<CommonResponse>
  {
    if mode.FullDuplex? then Chunks(side, if data.Some? then data.value else [], mutation, eos)
    else [BodyCommon(side, mutation, if data.Some? then Some(Replace(data.value)) else None)]
  }

  /** `body_responses_streamed`: the source loop over `offset`. */
  method BodyResponsesStreamed(side: Side, body: Option<Bytes>, mutation: Option<HeaderMutation>, eos: bool)
    returns (responses: seq<CommonResponse>)
    ensures responses == Chunks(side, if body.Some? then body.value else [], mutation, eos)
  {
    if body.None? || body.value == [] {
      return [BodyCommon(side, mutation, Some(Chunk([], eos)))];
    }
    var data := body.value;
    responses := [];
    var offset := 0;
    var pending := mutation;
    while offset < |data|
      invariant 0 <= offset <= |data|
      invariant responses + ChunksFrom(side, data, mutation, eos, offset) == ChunksFrom(side, data, mutation, eos, 0)
      invariant pending == if offset == 0 then mutation else None
    {
      var end := if offset + BODY_CHUNK_LIMIT < |data| then offset + BODY_CHUNK_LIMIT else |data|;
      var last := eos && end == |data|;
      var chunk := BodyCommon(side, pending, Some(Chunk(data[offset..end], last)));
      ConcatAssociates(responses, [chunk], ChunksFrom(side, data, mutation, eos, end));
      responses := responses + [chunk];
      pending := None;
      offset := end;
    }
  }

  lemma ConcatAssociates<T>(a: seq<T>, b: seq<T>, c: seq<T>)
    ensures a + (b + c) == (a + b) + c
  {
  }

  // ---------------------------------------------------------------------------
  // What Envoy reads
  // ---------------------------------------------------------------------------

  /** Bytes of streamed chunks, in order. */
  function StreamedBytes(commons: seq<CommonResponse>): Bytes {
    if commons == [] then []
    else
      StreamedBytes(commons[..|commons| - 1])
      + match commons[|commons| - 1].bodyMutation {
          case Some(Chunk(bytes, _)) => bytes
          case _ => []
        }
  }

  /** A single chunk as a streamed body reply. */
  predicate IsChunk(c: CommonResponse) {
    c.bodyMutation.Some? && c.bodyMutation.value.Chunk?
  }

  /** STREAMED and BUFFERED: a mutation replaces the chunk Envoy holds, no mutation forwards it. */
  function Forwarded(original: Bytes, common: CommonResponse): Bytes {
    match common.bodyMutation
    case Some(Replace(bytes)) => bytes
    case Some(Chunk(bytes, _)) => bytes
    case None => original
  }

  lemma {:induction false} StreamedBytesConcat(a: seq<CommonResponse>, b: seq<CommonResponse>)
    ensures StreamedBytes(a + b) == StreamedBytes(a) + StreamedBytes(b)
    decreases |b|
  {
    if b == [] {
      assert a + b == a;
    } else {
      assert (a + b)[..|a + b| - 1] == a + b[..|b| - 1];
      StreamedBytesConcat(a, b[..|b| - 1]);
    }
  }

  lemma OneChunk(c: CommonResponse)
    requires IsChunk(c)
    ensures StreamedBytes([c]) == c.bodyMutation.value.bytes
  {
    assert [c][..0] == [];
  }

  lemma {:induction false} ChunksFromBytes(side: Side, data: Bytes, mutation: Option<HeaderMutation>, eos: bool, offset: nat)
    requires offset <= |data|
    ensures StreamedBytes(ChunksFrom(side, data, mutation, eos, offset)) == data[offset..]
    decreases |data| - offset
  {
    hide AffectsRouting, StreamedBytes;
    NoChunks();
    if offset < |data| {
      var end := ChunkEnd(data, offset);
      ChunksFromBytes(side, data, mutation, eos, end);
      var cs, rest := ChunksFrom(side, data, mutation, eos, offset), ChunksFrom(side, data, mutation, eos, end);
      assert cs == [cs[0]] + rest;
      OneChunk(cs[0]);
      StreamedBytesConcat([cs[0]], rest);
      assert data[offset..end] + data[end..] == data[offset..];
    }
  }

  lemma NoChunks()
    ensures StreamedBytes([]) == []
  {
  }

  lemma {:induction false} ChunksFromCarry(side: Side, data: Bytes, mutation: Option<HeaderMutation>, eos: bool, offset: nat)
    requires offset <= |data|
    ensures var cs := ChunksFrom(side, data, mutation, eos, offset);
            && (cs == [] <==> offset == |data|)
            && forall i :: 0 <= i < |cs| ==>
                 && IsChunk(cs[i]) && 0 < |cs[i].bodyMutation.value.bytes| <= 63_488
                 && (i < |cs| - 1 ==> |cs[i].bodyMutation.value.bytes| == 63_488)
                 && (cs[i].bodyMutation.value.endOfStream <==> eos && i == |cs| - 1)
                 && cs[i].headerMutation == (if i == 0 && offset == 0 then mutation else None)
    decreases |data| - offset
  {
    hide AffectsRouting;
    if offset < |data| {
      var end := ChunkEnd(data, offset);
      ChunksFromCarry(side, data, mutation, eos, end);
      var cs, rest := ChunksFrom(side, data, mutation, eos, offset), ChunksFrom(side, data, mutation, eos, end);
      assert cs == [cs[0]] + rest;
      assert forall i :: 0 < i < |cs| ==> cs[i] == rest[i - 1];
    }
  }

  /**
   Chunking conserves the body: the chunks concatenate to it, all but the last have 62 KiB and
   the last no more, none is empty unless the body is, the header mutation rides on the first one only, and exactly the
   last one ends the stream iff the source did.
   */
  lemma ChunksConserveBody(side: Side, data: Bytes, mutation: Option<HeaderMutation>, eos: bool)
    ensures var cs := Chunks(side, data, mutation, eos);
            && cs != []
            && StreamedBytes(cs) == data
            && (|cs| > 1 ==> |data| > 63_488)
            && forall i :: 0 <= i < |cs| ==>
                 && IsChunk(cs[i]) && |cs[i].bodyMutation.value.bytes| <= 63_488
                 && (i < |cs| - 1 ==> |cs[i].bodyMutation.value.bytes| == 63_488)
                 && (cs[i].bodyMutation.value.bytes == [] ==> data == [])
                 && (cs[i].bodyMutation.value.endOfStream <==> eos && i == |cs| - 1)
                 && cs[i].headerMutation == (if i == 0 then mutation else None)
  {
    if data != [] {
      ChunksFromCarry(side, data, mutation, eos, 0);
      ChunksFromBytes(side, data, mutation, eos, 0);
      assert data[0..] == data;
      assert |data| <= BODY_CHUNK_LIMIT ==> ChunksFrom(side, data, mutation, eos, |data|) == [];
    } else {
      var cs := Chunks(side, data, mutation, eos);
      assert cs[..0] == [];
    }
  }

  /** STREAMED replies: forwarding a present mutation or the original gives the intended chunk. */
  lemma StreamedReplyForwards(side: Side, mode: BodyMode, original: Bytes, data: Option<Bytes>, mutation: Option<HeaderMutation>, eos: bool)
    requires !mode.FullDuplex?
    ensures var cs := BodyResponses(side, mode, data, mutation, eos);
            |cs| == 1 && Forwarded(original, cs[0]) == (if data.Some? then data.value else original)
  {
  }
}
