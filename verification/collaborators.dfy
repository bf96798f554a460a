/** The external collaborators of the pipeline, reduced to what the handler
    observes of them. */
module Collaborators {
  import opened Wrappers

  /** A token of the cl100k byte-pair encoding. */
  type Token = nat

  /** The tokenizer as an opaque pair: `encode` is `encode_ordinary`, `decode`
      is the (unwrapped) `decode`. */
  datatype Tokenizer = Tokenizer(encode: string -> seq<Token>, decode: seq<Token> -> string)

  /** The prompt texts as opaque formatters of the values they interpolate. */
  datatype Prompts = Prompts(
    // creator login, creator role, title, joined labels, issue body
    issueInput: (string, string, string, string, string) -> string,
    // title, decoded chunk text
    mapQuestion: (string, string) -> string,
    // creator login, creator role, title, joined labels, concatenated interim summaries
    reduceQuestion: (string, string, string, string, string) -> string,
    // decoded text of the whole feed
    singleQuestion: string -> string)

  /** One `chat_completion` call: the conversation id and the user question. */
  datatype ChatRequest = ChatRequest(chatId: string, question: string)

  /** The chat backend: the outcome of the `k`-th request of a run, `None` when
      the call returned an error. */
  type Backend = (nat, ChatRequest) -> Option<string>
}
