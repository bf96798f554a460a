/** Assembling the token feed of an issue thread: the issue fragment followed
    by one fragment per listed comment. */
module Feed {
  import opened Wrappers
  import opened GitHub
  import opened Collaborators
  import opened Sequences
  import Strings

  /** The label names joined by ", ". */
  function LabelList(issue: Issue): string {
    Strings.Join(LabelNames(issue), ", ")
  }

  /** The text introducing the issue: creator, role, title, labels and body. */
  function IssueInput(prompts: Prompts, issue: Issue): string {
    prompts.issueInput(issue.user.login, issue.authorAssociation, issue.title, LabelList(issue), BodyOrEmpty(issue.body))
  }

  /** "<login> commented: <body>", with a missing body read as "". */
  function CommentInput(comment: Comment): string {
    comment.user.login + " commented: " + BodyOrEmpty(comment.body)
  }

  /** The listed fragments in feed order: the issue, then the comments of the
      one listed page; a failed comment listing (`None`)
      leaves only the issue fragment. */
  function Fragments(issueInput: string, listing: Option<seq<Comment>>): seq<string> {
    match listing
    case None => [issueInput]
    case Some(comments) =>
      [issueInput] + seq(|comments|, k requires 0 <= k < |comments| => CommentInput(comments[k]))
  }

  function EncodeAll(encode: string -> seq<Token>, fragments: seq<string>): seq<seq<Token>> {
    seq(|fragments|, k requires 0 <= k < |fragments| => encode(fragments[k]))
  }

  /** The feed: every fragment encoded separately, concatenated in order. */
  function FeedTokens(encode: string -> seq<Token>, fragments: seq<string>): seq<Token> {
    Flatten(EncodeAll(encode, fragments))
  }

  /** Without comments the feed is exactly the encoded issue text. */
  lemma FeedOfIssueOnly(encode: string -> seq<Token>, issueInput: string)
    ensures FeedTokens(encode, Fragments(issueInput, None)) == encode(issueInput)
    ensures FeedTokens(encode, Fragments(issueInput, Some([]))) == encode(issueInput)
  {
    assert Fragments(issueInput, Some([])) == [issueInput];
    assert EncodeAll(encode, [issueInput]) == [encode(issueInput)];
    FlattenSingleton(encode(issueInput));
  }

  /** One more listed comment appends exactly its own encoding at the end of the feed. */
  lemma FeedSnoc(encode: string -> seq<Token>, issueInput: string, comments: seq<Comment>, c: Comment)
    ensures FeedTokens(encode, Fragments(issueInput, Some(comments + [c])))
         == FeedTokens(encode, Fragments(issueInput, Some(comments))) + encode(CommentInput(c))
  {
    var before := Fragments(issueInput, Some(comments));
    var after := Fragments(issueInput, Some(comments + [c]));
    assert after == before + [CommentInput(c)];
    assert EncodeAll(encode, after) == EncodeAll(encode, before) + [encode(CommentInput(c))];
    FlattenAppend(EncodeAll(encode, before), [encode(CommentInput(c))]);
    FlattenSingleton(encode(CommentInput(c)));
  }

  /** The feed starts with the encoded issue text and, when comments were
      listed, continues with the encoded comment fragments in listing order. */
  lemma FeedShape(encode: string -> seq<Token>, issueInput: string, listing: Option<seq<Comment>>)
    ensures listing.None? ==> FeedTokens(encode, Fragments(issueInput, listing)) == encode(issueInput)
    ensures listing.Some? ==>
      FeedTokens(encode, Fragments(issueInput, listing))
        == encode(issueInput) + Flatten(EncodeAll(encode, seq(|listing.value|, k requires 0 <= k < |listing.value| => CommentInput(listing.value[k]))))
  {
    FeedOfIssueOnly(encode, issueInput);
    if listing.Some? {
      var cs := listing.value;
      var rest := seq(|cs|, k requires 0 <= k < |cs| => CommentInput(cs[k]));
      assert Fragments(issueInput, listing) == [issueInput] + rest;
      assert EncodeAll(encode, [issueInput] + rest) == [encode(issueInput)] + EncodeAll(encode, rest);
      FlattenAppend([encode(issueInput)], EncodeAll(encode, rest));
      FlattenSingleton(encode(issueInput));
    }
  }

  /** The handler's assembly loop: encode the issue text, then append the
      encoding of each listed comment. */
  method AssembleFeed(encode: string -> seq<Token>, issueInput: string, listing: Option<seq<Comment>>)
    returns (feed: seq<Token>)
    ensures feed == FeedTokens(encode, Fragments(issueInput, listing))
    ensures listing.None? ==> feed == encode(issueInput)
  {
    feed := encode(issueInput);
    FeedOfIssueOnly(encode, issueInput);
    match listing {
      case None =>
      case Some(comments) =>
        var i := 0;
        while i < |comments|
          invariant 0 <= i <= |comments|
          invariant feed == FeedTokens(encode, Fragments(issueInput, Some(comments[..i])))
        {
          FeedSnoc(encode, issueInput, comments[..i], comments[i]);
          assert comments[..i] + [comments[i]] == comments[..i + 1];
          feed := feed + encode(CommentInput(comments[i]));
          i := i + 1;
        }
        assert comments[..i] == comments;
    }
  }
}
