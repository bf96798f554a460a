# summarize-github-issues: the issue summarization handler

This project models `handler` in the repository's `src/lib.rs` in Dafny. `handler` reacts
to a GitHub `issues` or `issue_comment` event whose body contains a trigger phrase. It then:

- encodes the issue and the first page of its comments into one cl100k token feed;
- asks a chat model for a summary, in one pass or map-reduce over 2800-token chunks;
- posts `"Issue Summary:\n<summary>\n<url>"` to a Slack channel.

The model is the pure function `Pipeline.Run`. It takes the event payload, the outcome of the
comment listing, the chat backend, the tokenizer and the prompt formatters. It returns a
`RunTrace`: the comment listing made (if any), every chat request in order, and the message
posted (if any). The external services are parameters:

- the comment listing is an `Option<seq<Comment>>`: the comments of the single page that
  `list_comments(..).send()` returns (src/lib.rs:99-101), or `None` for a failed listing;
- the chat backend is a function from (call index, request) to `Option<string>`, where `None`
  is a call that returned an error;
- the tokenizer is an opaque `encode`/`decode` pair;
- the prompt texts are opaque formatters of the values they interpolate.

The two loops of the handler are also modelled as methods that follow the source step by step:
`Feed.AssembleFeed` is the comment-append loop and `Summarize.MapLoop` is the drain-and-map
loop. Each is proved to compute what the functional definitions used by `Run` describe.

Modules: `Wrappers` (Option), `Sequences` (flattening), `Strings` (containment, decimal
printing, join), `GitHub` (payload data model), `Collaborators` (tokenizer, prompts, backend),
`Trigger`, `Feed`, `Chunking`, `Summarize`, `Delivery`, `Pipeline`.

Three facts about the code shape the model:

- `handler` takes the issue from the event payload (src/lib.rs:51, 63) and fetches nothing
  else about it. So the model has no issue fetch and no failure that aborts a triggered run.
- The mode test is `total_tokens_count > 2800` (src/lib.rs:125), so a feed of exactly 2800
  tokens is summarized in one pass (`Pipeline.RunAtLimitIsSinglePass`).
- The map calls are awaited one at a time, in chunk order (src/lib.rs:129-143). The model
  gives the `k`-th call of a run the call index `k`.

## Model

| member | source | states |
|---|---|---|
| Trigger.TriggeredIssue | src/lib.rs:41-67 | An issue event fires iff its action is not Closed and its body (missing read as "") contains the trigger. A comment event fires iff its action is not Deleted and its comment body contains the trigger. Any other payload never fires. A firing event yields the event's issue. |
| Strings.ContainsIff | src/lib.rs:44-49 | The containment test used on bodies holds exactly when the trigger occurs as a contiguous piece of the body at some index. The empty trigger is contained everywhere. |
| Strings.NatToDecimal | src/lib.rs:113 | The issue number prints as a non-empty run of decimal digits, with no leading zero unless the number is 0. |
| Strings.DecimalRoundTrip | src/lib.rs:113 | Reading the printed digits back gives the issue number. |
| Summarize.ChatIdInjective | src/lib.rs:113 | Two different issue numbers never share the chat id "Issue#<number>". |
| Strings.JoinSnoc | src/lib.rs:83-88 | Joining label names puts the separator only between neighbours: one more label adds one separator, and a single label has none. |
| Feed.FeedOfIssueOnly | src/lib.rs:96-97 | A failed listing, or one with no comments, gives a feed that is exactly the encoding of the issue text. |
| Feed.FeedSnoc | src/lib.rs:101-107 | One more listed comment appends exactly the encoding of "<login> commented: <body>" at the end of the feed. |
| Feed.FeedShape | src/lib.rs:92-111 | The feed is the encoded issue text followed by the encoded comment fragments in listing order. A failed listing leaves the issue text alone. |
| Feed.AssembleFeed | src/lib.rs:92-111 | The append loop produces the feed defined by the fragments. After a failed listing that feed is exactly encode(issue text). |
| Chunking.ChunksDrain | src/lib.rs:129-131 | The drained chunks concatenate back to the feed. Each chunk has 1 to 2800 tokens, and every chunk but the last has exactly 2800. A feed of T tokens gives ceil(T/2800) chunks. |
| Chunking.DrainChunkingUnique | src/lib.rs:129-131 | Any lossless split into non-empty chunks of at most 2800 tokens, all full but the last, is the split the drain loop produces. |
| Chunking.ChunksOfShortFeed | src/lib.rs:129-131 | A non-empty feed of at most 2800 tokens is drained as one chunk holding all of it. |
| Chunking.DrainKeepsTokens | src/lib.rs:129-131 | One loop turn loses no token: the drained chunks followed by the remaining feed are still the whole feed. |
| Summarize.MapLoop | src/lib.rs:127-143 | The drain-and-map loop makes one map request per drained chunk, in chunk order. Its interim buffer is the in-order concatenation of the successful responses. |
| Summarize.MapOutAppend | src/lib.rs:137-142 | The interim buffer of two runs of map calls is the first run's buffer followed by the second's. |
| Summarize.MapOutSkipsFailure | src/lib.rs:141 | A failed map call contributes nothing to the interim buffer, wherever it falls. |
| Summarize.MapOutKeepsSuccess | src/lib.rs:138-140 | A successful map call contributes exactly its response text, in its place. |
| Summarize.MapOutAllFailed | src/lib.rs:137-142 | If every map call fails, the interim buffer is empty. |
| Summarize.SummarizeFeed | src/lib.rs:122-167 | More than one request is made iff the feed exceeds 2800 tokens. Every request uses the chat id "Issue#<number>". The summary is the response to the final request, or "" when that call fails. |
| Summarize.SummarizeModes | src/lib.rs:122-167 | Map-reduce makes ceil(T/2800) map requests over the chunks in order, then exactly one reduce request over the interim buffer of those calls. Single-pass makes exactly one request, over the whole decoded feed. |
| Summarize.ReduceDespiteFailedMaps | src/lib.rs:127-155 | When every map call fails, the reduce request is still made, with an empty interim buffer, and its response becomes the summary. |
| Delivery.DeliveryRoundTrip | src/lib.rs:169 | The delivered text "Issue Summary:\n<summary>\n<url>" gives back the summary intact when the url is known. |
| Pipeline.Run | src/lib.rs:41-172 | An event that does not fire lists no comments, makes no chat request and posts nothing. A firing event lists that issue's comments in the configured repository, makes at least one request, all with id "Issue#<number>", and posts exactly one message to the configured channel: "Issue Summary:\n" + (final response, or "") + "\n" + url. |
| Pipeline.RunDeliversIffTriggered | src/lib.rs:69-170 | A message is posted iff the event fires the trigger, and that message carries the final response intact. |
| Pipeline.RunModes | src/lib.rs:122-167 | For the thread's feed of T tokens, a run makes ceil(T/2800) map requests and one reduce request when T > 2800. Otherwise it makes a single request over the whole feed. |
| Pipeline.RunWithoutComments | src/lib.rs:99-111 | When the comment listing fails, the run still posts a message. Its feed is exactly the encoded issue text, which a short issue summarizes in one request. |
| Pipeline.RunOf3500Tokens | src/lib.rs:125-133 | A 3500-token thread gives two chunks, of 2800 and 700 tokens, and three requests: two maps and one reduce. |
| Pipeline.RunAtLimitIsSinglePass | src/lib.rs:125 | A thread of exactly 2800 tokens makes a single request. |

## Left out

- The async runtime and event subscription (`run`, `listen_to_event`, src/lib.rs:16-33): I/O plumbing. The payload is a parameter.
- Environment and dotenv lookups (src/lib.rs:19-23, 36-37): the trigger, owner, repo and Slack destination are fields of `Pipeline.Config`, and the defaults are not modelled.
- The GitHub, OpenAI and Slack clients: foreign calls. Only their outcomes are modelled. The comment listing is one `Option`, and each chat call is the backend's `Option` answer.
- Comments past the first page: the source sends one `list_comments` request and iterates only `pages.items` (src/lib.rs:99-101), so it drops every comment after the first page. The model's `listed` is that one page, and later pages never reach the feed.
- The retry count of 3 (src/lib.rs:71) and the chat options (model, `restart: true`, the system prompt, src/lib.rs:114-120): they are the same for every request and internal to the backend, so a `ChatRequest` carries only the chat id and the question.
- The cl100k tokenizer's internals: `encode` and `decode` are opaque functions. The model makes no claim that separately decoded chunks read back as the original text.
- The panic on a failed `decode` (`unwrap`, src/lib.rs:133, 157): `decode` is modelled as total. In map-reduce mode a 2800-token boundary can fall inside a multi-byte character, and then `decode` fails and the handler panics before posting anything. So the promises of `Pipeline.Run` (exactly one message for a firing event) and `Pipeline.RunDeliversIffTriggered` (a message iff the event fires) hold only for a `decode` that never fails.
- The wording of the prompts (src/lib.rs:94, 135, 145, 159): they are opaque formatters of the values they interpolate.
- Deduplication of repeated deliveries and concurrent map calls: neither exists in the code.
- Label objects carry only their name, the one field the handler reads.
