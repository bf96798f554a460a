/** The summarization protocol: a single pass over small feeds, map-reduce
    over the drained chunks of large ones, with failed calls tolerated. */
module Summarize {
  import opened Wrappers
  import opened GitHub
  import opened Collaborators
  import opened Sequences
  import opened Chunking
  import Strings
  import Feed

  /** The conversation id shared by every request of a run: "Issue#<number>". */
  function ChatId(number: nat): string {
    "Issue#" + Strings.NatToDecimal(number)
  }

  /** Different issues never share a conversation. */
  lemma ChatIdInjective(m: nat, n: nat)
    ensures ChatId(m) == ChatId(n) ==> m == n
  {
    if ChatId(m) == ChatId(n) {
      assert ChatId(m)[6..] == Strings.NatToDecimal(m);
      assert ChatId(n)[6..] == Strings.NatToDecimal(n);
      Strings.DecimalInjective(m, n);
    }
  }

  /** One map request per chunk, in chunk order. */
  function MapRequests(chatId: string, title: string, tk: Tokenizer, prompts: Prompts, chunks: seq<seq<Token>>)
    : seq<ChatRequest>
  {
    seq(|chunks|, k requires 0 <= k < |chunks| => ChatRequest(chatId, prompts.mapQuestion(title, tk.decode(chunks[k]))))
  }

  /** The outcomes of a run's requests, the `k`-th request being the `k`-th call. */
  function Responses(backend: Backend, requests: seq<ChatRequest>): seq<Option<string>> {
    seq(|requests|, k requires 0 <= k < |requests| => backend(k, requests[k]))
  }

  /** The interim buffer: the successful responses concatenated in order; a
      failed call adds nothing. */
  function MapOut(responses: seq<Option<string>>): string
    decreases |responses|
  {
    if |responses| == 0 then ""
    else MapOut(responses[..|responses| - 1]) + responses[|responses| - 1].GetOr("")
  }

  lemma {:induction false} MapOutAppend(a: seq<Option<string>>, b: seq<Option<string>>)
    ensures MapOut(a + b) == MapOut(a) + MapOut(b)
    decreases |b|
  {
    if |b| == 0 {
      assert a + b == a;
    } else {
      assert (a + b)[..|a + b| - 1] == a + b[..|b| - 1];
      MapOutAppend(a, b[..|b| - 1]);
    }
  }

  /** A failed map call contributes nothing, wherever it falls. */
  lemma MapOutSkipsFailure(a: seq<Option<string>>, b: seq<Option<string>>)
    ensures MapOut(a + [None] + b) == MapOut(a + b)
  {
    MapOutAppend(a + [None], b);
    MapOutAppend(a, [None]);
    MapOutAppend(a, b);
    var none: seq<Option<string>> := [None];
    assert none[..0] == [];
  }

  /** A successful map call contributes exactly its response text, in place. */
  lemma MapOutKeepsSuccess(a: seq<Option<string>>, text: string, b: seq<Option<string>>)
    ensures MapOut(a + [Some(text)] + b) == MapOut(a) + text + MapOut(b)
  {
    MapOutAppend(a + [Some(text)], b);
    MapOutAppend(a, [Some(text)]);
    assert [Some(text)][..0] == [];
  }

  /** When every map call fails the interim buffer is empty. */
  lemma {:induction false} MapOutAllFailed(responses: seq<Option<string>>)
    requires forall k :: 0 <= k < |responses| ==> responses[k].None?
    ensures MapOut(responses) == ""
    decreases |responses|
  {
    if |responses| > 0 {
      MapOutAllFailed(responses[..|responses| - 1]);
    }
  }

  function ReduceQuestion(prompts: Prompts, issue: Issue, mapOut: string): string {
    prompts.reduceQuestion(issue.user.login, issue.authorAssociation, issue.title, Feed.LabelList(issue), mapOut)
  }

  /** The requests a summarization issues, in order, and the resulting summary. */
  datatype Summary = Summary(requests: seq<ChatRequest>, text: string)

  /** Map-reduce for feeds over `SinglePassLimit` tokens, one single-pass
      request otherwise; a failed final request leaves the summary empty. */
  function SummarizeFeed(issue: Issue, tk: Tokenizer, prompts: Prompts, backend: Backend, feed: seq<Token>)
    : (r: Summary)
    ensures |feed| > SinglePassLimit <==> |r.requests| > 1
    ensures forall k :: 0 <= k < |r.requests| ==> r.requests[k].chatId == ChatId(issue.number)
    ensures 1 <= |r.requests| && r.text == backend(|r.requests| - 1, r.requests[|r.requests| - 1]).GetOr("")
  {
    var chatId := ChatId(issue.number);
    if |feed| > SinglePassLimit then
      var maps := MapRequests(chatId, issue.title, tk, prompts, Chunks(feed));
      var mapOut := MapOut(Responses(backend, maps));
      var reduce := ChatRequest(chatId, ReduceQuestion(prompts, issue, mapOut));
      ChunksDrain(feed);
      Summary(maps + [reduce], backend(|maps|, reduce).GetOr(""))
    else
      var single := ChatRequest(chatId, prompts.singleQuestion(tk.decode(feed)));
      Summary([single], backend(0, single).GetOr(""))
  }

  /** Map-reduce mode: ceil(T / ChunkBudget) map requests, one per drained chunk
      in order, then exactly one reduce request over the successful map
      responses. Single-pass mode: one request over the whole feed. */
  lemma SummarizeModes(issue: Issue, tk: Tokenizer, prompts: Prompts, backend: Backend, feed: seq<Token>)
    ensures var r := SummarizeFeed(issue, tk, prompts, backend, feed);
      var chatId := ChatId(issue.number);
      if |feed| > SinglePassLimit then
        var n := CeilDiv(|feed|, ChunkBudget);
        && |r.requests| == n + 1
        && (forall k :: 0 <= k < n ==>
              r.requests[k] == ChatRequest(chatId, prompts.mapQuestion(issue.title, tk.decode(Chunks(feed)[k]))))
        && r.requests[n] == ChatRequest(chatId, ReduceQuestion(prompts, issue, MapOut(Responses(backend, r.requests[..n]))))
      else
        r.requests == [ChatRequest(chatId, prompts.singleQuestion(tk.decode(feed)))]
  {
    ChunksDrain(feed);
    if |feed| > SinglePassLimit {
      var r := SummarizeFeed(issue, tk, prompts, backend, feed);
      var n := CeilDiv(|feed|, ChunkBudget);
      var maps := MapRequests(ChatId(issue.number), issue.title, tk, prompts, Chunks(feed));
      assert r.requests[..n] == maps;
      assert Responses(backend, r.requests[..n]) == Responses(backend, maps);
    }
  }

  /** Even when every map call fails, the reduce request is still made, over an
      empty interim buffer, and its response is the summary. */
  lemma ReduceDespiteFailedMaps(issue: Issue, tk: Tokenizer, prompts: Prompts, backend: Backend, feed: seq<Token>)
    requires |feed| > SinglePassLimit
    requires forall k :: 0 <= k < |Chunks(feed)| ==>
      backend(k, ChatRequest(ChatId(issue.number), prompts.mapQuestion(issue.title, tk.decode(Chunks(feed)[k])))).None?
    ensures var r := SummarizeFeed(issue, tk, prompts, backend, feed);
      var n := CeilDiv(|feed|, ChunkBudget);
      && |r.requests| == n + 1
      && r.requests[n] == ChatRequest(ChatId(issue.number), ReduceQuestion(prompts, issue, ""))
      && r.text == backend(n, r.requests[n]).GetOr("")
  {
    SummarizeModes(issue, tk, prompts, backend, feed);
    var r := SummarizeFeed(issue, tk, prompts, backend, feed);
    var n := CeilDiv(|feed|, ChunkBudget);
    var responses := Responses(backend, r.requests[..n]);
    forall k | 0 <= k < |responses|
      ensures responses[k].None?
    {
      assert r.requests[..n][k] == r.requests[k];
    }
    MapOutAllFailed(responses);
  }

  lemma MapRequestsSnoc(chatId: string, title: string, tk: Tokenizer, prompts: Prompts, chunks: seq<seq<Token>>, chunk: seq<Token>)
    ensures MapRequests(chatId, title, tk, prompts, chunks + [chunk])
         == MapRequests(chatId, title, tk, prompts, chunks) + [ChatRequest(chatId, prompts.mapQuestion(title, tk.decode(chunk)))]
  {
  }

  lemma MapOutSnoc(backend: Backend, requests: seq<ChatRequest>, request: ChatRequest)
    ensures MapOut(Responses(backend, requests + [request]))
         == MapOut(Responses(backend, requests)) + backend(|requests|, request).GetOr("")
  {
    var before := Responses(backend, requests);
    assert Responses(backend, requests + [request]) == before + [backend(|requests|, request)];
    assert (before + [backend(|requests|, request)])[..|before|] == before;
  }

  /** The handler's drain loop: take up to `ChunkBudget` tokens off the front,
      decode them, ask for an interim summary, and append the response when
      the call succeeds. Returns the map requests made, one per drained chunk,
      and the interim buffer. */
  method MapLoop(chatId: string, title: string, tk: Tokenizer, prompts: Prompts, backend: Backend, feed: seq<Token>)
    returns (requests: seq<ChatRequest>, mapOut: string)
    ensures requests == MapRequests(chatId, title, tk, prompts, Chunks(feed))
    ensures mapOut == MapOut(Responses(backend, requests))
  {
    var rest := feed;
    ghost var chunks: seq<seq<Token>> := [];
    requests := [];
    mapOut := "";
    while |rest| != 0
      invariant Flatten(chunks) + rest == feed
      invariant chunks + Chunks(rest) == Chunks(feed)
      invariant requests == MapRequests(chatId, title, tk, prompts, chunks)
      invariant mapOut == MapOut(Responses(backend, requests))
      decreases |rest|
    {
      var drainTo := Min(|rest|, ChunkBudget);
      var chunk := rest[..drainTo];
      var request := ChatRequest(chatId, prompts.mapQuestion(title, tk.decode(chunk)));
      var outcome := backend(|requests|, request);

      DrainKeepsChunks(chunks, rest, feed);
      DrainKeepsTokens(chunks, rest, feed);
      MapRequestsSnoc(chatId, title, tk, prompts, chunks, chunk);
      MapOutSnoc(backend, requests, request);

      chunks := chunks + [chunk];
      rest := rest[drainTo..];
      requests := requests + [request];
      match outcome {
        case Some(response) => mapOut := mapOut + response;
        case None =>
      }
    }
    assert chunks == Chunks(feed);
  }
}
