/** One invocation of the event handler, from the delivered payload to the
    message posted to the channel. */
module Pipeline {
  import opened Wrappers
  import opened GitHub
  import opened Collaborators
  import opened Chunking
  import opened Feed
  import opened Summarize
  import opened Delivery
  import opened Trigger

  /** The handler's configuration: the trigger phrase, the repository whose
      comments are listed and the Slack destination. */
  datatype Config = Config(
    trigger: string,
    owner: string,
    repo: string,
    slackWorkspace: string,
    slackChannel: string)

  /** A request to list the comments of issue `number` in `owner/repo`. */
  datatype CommentListing = CommentListing(owner: string, repo: string, number: nat)

  /** What one run does to the outside world, in the order it does it: the
      comment listing, the chat requests, the message posted. */
  datatype RunTrace = RunTrace(
    listing: Option<CommentListing>,
    requests: seq<ChatRequest>,
    delivered: Option<SlackMessage>)

  /** The token feed of a triggered run. */
  function ThreadFeed(tk: Tokenizer, prompts: Prompts, issue: Issue, listed: Option<seq<Comment>>): seq<Token> {
    FeedTokens(tk.encode, Fragments(IssueInput(prompts, issue), listed))
  }

  /** The handler. `listed` is the outcome of the comment listing (`None` when
      it failed), consulted only when the event fires the trigger. */
  function Run(cfg: Config, payload: EventPayload, listed: Option<seq<Comment>>, backend: Backend,
               tk: Tokenizer, prompts: Prompts): (r: RunTrace)
    ensures TriggeredIssue(payload, cfg.trigger).None? ==> r == RunTrace(None, [], None)
    ensures TriggeredIssue(payload, cfg.trigger).Some? ==>
      var issue := TriggeredIssue(payload, cfg.trigger).value;
      && r.listing == Some(CommentListing(cfg.owner, cfg.repo, issue.number))
      && 1 <= |r.requests|
      && (forall k :: 0 <= k < |r.requests| ==> r.requests[k].chatId == ChatId(issue.number))
      && r.delivered == Some(SlackMessage(cfg.slackWorkspace, cfg.slackChannel,
           DeliveryText(backend(|r.requests| - 1, r.requests[|r.requests| - 1]).GetOr(""), issue.htmlUrl)))
  {
    match TriggeredIssue(payload, cfg.trigger)
    case None => RunTrace(None, [], None)
    case Some(issue) =>
      var feed := ThreadFeed(tk, prompts, issue, listed);
      var summary := SummarizeFeed(issue, tk, prompts, backend, feed);
      RunTrace(
        Some(CommentListing(cfg.owner, cfg.repo, issue.number)),
        summary.requests,
        Some(SlackMessage(cfg.slackWorkspace, cfg.slackChannel, DeliveryText(summary.text, issue.htmlUrl))))
  }

  /** A run posts a message exactly when the event fires the trigger, and then
      the message carries the final response intact. */
  lemma RunDeliversIffTriggered(cfg: Config, payload: EventPayload, listed: Option<seq<Comment>>, backend: Backend,
                                tk: Tokenizer, prompts: Prompts)
    ensures var r := Run(cfg, payload, listed, backend, tk, prompts);
      && (r.delivered.Some? <==> TriggeredIssue(payload, cfg.trigger).Some?)
      && (r.delivered.Some? ==>
            ParseDeliveryText(r.delivered.value.text, TriggeredIssue(payload, cfg.trigger).value.htmlUrl)
              == Some(backend(|r.requests| - 1, r.requests[|r.requests| - 1]).GetOr("")))
  {
    var r := Run(cfg, payload, listed, backend, tk, prompts);
    if r.delivered.Some? {
      DeliveryRoundTrip(backend(|r.requests| - 1, r.requests[|r.requests| - 1]).GetOr(""),
                        TriggeredIssue(payload, cfg.trigger).value.htmlUrl);
    }
  }

  /** A triggered run over a feed of T tokens makes ceil(T / 2800) map requests
      and one reduce request when T exceeds 2800, and otherwise a single request
      over the whole feed. */
  lemma RunModes(cfg: Config, payload: EventPayload, listed: Option<seq<Comment>>, backend: Backend,
                 tk: Tokenizer, prompts: Prompts)
    requires TriggeredIssue(payload, cfg.trigger).Some?
    ensures var issue := TriggeredIssue(payload, cfg.trigger).value;
      var feed := ThreadFeed(tk, prompts, issue, listed);
      var r := Run(cfg, payload, listed, backend, tk, prompts);
      var chatId := ChatId(issue.number);
      if |feed| > SinglePassLimit then
        var n := CeilDiv(|feed|, ChunkBudget);
        && |r.requests| == n + 1
        && (forall k :: 0 <= k < n ==>
              r.requests[k] == ChatRequest(chatId, prompts.mapQuestion(issue.title, tk.decode(Chunks(feed)[k]))))
        && r.requests[n] == ChatRequest(chatId, ReduceQuestion(prompts, issue, MapOut(Responses(backend, r.requests[..n]))))
      else
        r.requests == [ChatRequest(chatId, prompts.singleQuestion(tk.decode(feed)))]
  {
    var issue := TriggeredIssue(payload, cfg.trigger).value;
    SummarizeModes(issue, tk, prompts, backend, ThreadFeed(tk, prompts, issue, listed));
  }

  /** When the comment listing fails the run summarizes the issue text alone. */
  lemma RunWithoutComments(cfg: Config, payload: EventPayload, backend: Backend, tk: Tokenizer, prompts: Prompts)
    requires TriggeredIssue(payload, cfg.trigger).Some?
    ensures var issue := TriggeredIssue(payload, cfg.trigger).value;
      var r := Run(cfg, payload, None, backend, tk, prompts);
      && ThreadFeed(tk, prompts, issue, None) == tk.encode(IssueInput(prompts, issue))
      && r.delivered.Some?
      && (|tk.encode(IssueInput(prompts, issue))| <= SinglePassLimit ==>
            r.requests == [ChatRequest(ChatId(issue.number),
                                       prompts.singleQuestion(tk.decode(tk.encode(IssueInput(prompts, issue)))))])
  {
    var issue := TriggeredIssue(payload, cfg.trigger).value;
    FeedOfIssueOnly(tk.encode, IssueInput(prompts, issue));
    RunModes(cfg, payload, None, backend, tk, prompts);
  }

  /** A 3500-token thread is summarized by two map requests, over chunks of
      2800 and 700 tokens, and one reduce request. */
  lemma RunOf3500Tokens(cfg: Config, payload: EventPayload, listed: Option<seq<Comment>>, backend: Backend,
                        tk: Tokenizer, prompts: Prompts)
    requires TriggeredIssue(payload, cfg.trigger).Some?
    requires |ThreadFeed(tk, prompts, TriggeredIssue(payload, cfg.trigger).value, listed)| == 3500
    ensures var feed := ThreadFeed(tk, prompts, TriggeredIssue(payload, cfg.trigger).value, listed);
      && |Run(cfg, payload, listed, backend, tk, prompts).requests| == 3
      && |Chunks(feed)| == 2
      && |Chunks(feed)[0]| == 2800
      && |Chunks(feed)[1]| == 700
  {
    var feed := ThreadFeed(tk, prompts, TriggeredIssue(payload, cfg.trigger).value, listed);
    RunModes(cfg, payload, listed, backend, tk, prompts);
    ChunksDrain(feed);
    assert Chunks(feed) == [feed[..2800]] + Chunks(feed[2800..]);
    ChunksOfShortFeed(feed[2800..]);
  }

  /** A thread of exactly 2800 tokens is still summarized in a single pass. */
  lemma RunAtLimitIsSinglePass(cfg: Config, payload: EventPayload, listed: Option<seq<Comment>>, backend: Backend,
                               tk: Tokenizer, prompts: Prompts)
    requires TriggeredIssue(payload, cfg.trigger).Some?
    requires |ThreadFeed(tk, prompts, TriggeredIssue(payload, cfg.trigger).value, listed)| == 2800
    ensures |Run(cfg, payload, listed, backend, tk, prompts).requests| == 1
  {
  }
}
