/** Token-budget chunking: the feed is drained from the front, at most
    `ChunkBudget` tokens at a time. */
module Chunking {
  import opened Sequences

  /** Feeds of at most this many tokens are summarized in a single pass. */
  const SinglePassLimit: nat := 2800

  /** The largest number of tokens drained into one chunk. */
  const ChunkBudget: nat := 2800

  function Min(a: nat, b: nat): nat {
    if a < b then a else b
  }

  function CeilDiv(a: nat, b: nat): nat
    requires b > 0
  {
    (a + b - 1) / b
  }

  /** The chunks the drain loop takes off the front of `tokens`, in order. */
  function Chunks<T>(tokens: seq<T>): seq<seq<T>>
    decreases |tokens|
  {
    if |tokens| == 0 then []
    else
      var n := Min(|tokens|, ChunkBudget);
      [tokens[..n]] + Chunks(tokens[n..])
  }

  /** `chunks` splits `tokens` losslessly into non-empty pieces of at most
      `ChunkBudget` tokens, all but the last exactly `ChunkBudget` long. */
  ghost predicate IsDrainChunking<T>(chunks: seq<seq<T>>, tokens: seq<T>) {
    && Flatten(chunks) == tokens
    && (forall k :: 0 <= k < |chunks| ==> 1 <= |chunks[k]| <= ChunkBudget)
    && (forall k :: 0 <= k < |chunks| - 1 ==> |chunks[k]| == ChunkBudget)
  }

  /** The drain loop's chunks reassemble the feed, respect the budget, and
      number ceil(T / ChunkBudget) for a feed of T tokens. */
  lemma {:induction false} ChunksDrain<T>(tokens: seq<T>)
    ensures IsDrainChunking(Chunks(tokens), tokens)
    ensures |Chunks(tokens)| == CeilDiv(|tokens|, ChunkBudget)
    decreases |tokens|
  {
    if |tokens| > 0 {
      var n := Min(|tokens|, ChunkBudget);
      var rest := Chunks(tokens[n..]);
      ChunksDrain(tokens[n..]);
      assert Chunks(tokens) == [tokens[..n]] + rest;
      assert ([tokens[..n]] + rest)[1..] == rest;
      assert Flatten(Chunks(tokens)) == tokens[..n] + Flatten(rest);
      assert tokens[..n] + tokens[n..] == tokens;
      if n < ChunkBudget {
        assert |tokens[n..]| == 0;
      }
      forall k | 0 <= k < |Chunks(tokens)|
        ensures 1 <= |Chunks(tokens)[k]| <= ChunkBudget
      {
        if k > 0 {
          assert Chunks(tokens)[k] == rest[k - 1];
        }
      }
      forall k | 0 <= k < |Chunks(tokens)| - 1
        ensures |Chunks(tokens)[k]| == ChunkBudget
      {
        if k > 0 {
          assert Chunks(tokens)[k] == rest[k - 1];
        }
      }
    }
  }

  /** A drain chunking of a feed is unique: any split with the drain loop's
      shape is the one `Chunks` produces. */
  lemma {:induction false} DrainChunkingUnique<T>(chunks: seq<seq<T>>, tokens: seq<T>)
    requires IsDrainChunking(chunks, tokens)
    ensures chunks == Chunks(tokens)
    decreases |chunks|
  {
    if |chunks| > 0 {
      var first := chunks[0];
      var rest := chunks[1..];
      assert Flatten(chunks) == first + Flatten(rest);
      var n := Min(|tokens|, ChunkBudget);
      if |rest| > 0 {
        assert |first| == ChunkBudget;
        assert Flatten(rest) == rest[0] + Flatten(rest[1..]);
        assert rest[0] == chunks[1];
        assert |tokens| > ChunkBudget;
      } else {
        assert Flatten(rest) == [];
      }
      assert n == |first|;
      assert tokens[..n] == first;
      assert tokens[n..] == Flatten(rest);
      forall k | 0 <= k < |rest|
        ensures 1 <= |rest[k]| <= ChunkBudget
      {
        assert rest[k] == chunks[k + 1];
      }
      forall k | 0 <= k < |rest| - 1
        ensures |rest[k]| == ChunkBudget
      {
        assert rest[k] == chunks[k + 1];
      }
      DrainChunkingUnique(rest, tokens[n..]);
      assert chunks == [first] + rest;
    } else {
      assert Flatten(chunks) == [];
    }
  }

  /** A non-empty feed within the budget is drained as one chunk holding all of it. */
  lemma ChunksOfShortFeed<T>(tokens: seq<T>)
    requires 0 < |tokens| <= ChunkBudget
    ensures Chunks(tokens) == [tokens]
  {
    assert tokens[..|tokens|] == tokens;
    assert Chunks(tokens[|tokens|..]) == [];
  }

  /** One turn of the drain loop keeps the chunks taken so far in step with `Chunks`. */
  lemma DrainKeepsChunks<T>(chunks: seq<seq<T>>, rest: seq<T>, feed: seq<T>)
    requires |rest| > 0
    requires chunks + Chunks(rest) == Chunks(feed)
    ensures var n := Min(|rest|, ChunkBudget);
      (chunks + [rest[..n]]) + Chunks(rest[n..]) == Chunks(feed)
  {
  }

  /** One turn of the drain loop loses no token: the chunks taken so far
      followed by what is left is still the whole feed. */
  lemma DrainKeepsTokens<T>(chunks: seq<seq<T>>, rest: seq<T>, feed: seq<T>)
    requires |rest| > 0
    requires Flatten(chunks) + rest == feed
    ensures var n := Min(|rest|, ChunkBudget);
      Flatten(chunks + [rest[..n]]) + rest[n..] == feed
  {
    var n := Min(|rest|, ChunkBudget);
    var chunk := rest[..n];
    var tail := rest[n..];
    FlattenAppend(chunks, [chunk]);
    FlattenSingleton(chunk);
    assert rest == chunk + tail;
    assert Flatten(chunks) + (chunk + tail) == (Flatten(chunks) + chunk) + tail;
  }
}
