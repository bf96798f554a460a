/** Deciding whether an event starts a summarization run. */
module Trigger {
  import opened Wrappers
  import opened GitHub
  import Strings

  /** The trigger phrase occurs literally in `text`. */
  ghost predicate Mentions(text: string, trigger: string) {
    exists i :: Strings.OccursAt(text, trigger, i)
  }

  /** The issue to summarize, if the event fires the trigger: an issue event that
      is not a close and whose issue body mentions the trigger, or a comment event
      that is not a deletion and whose comment body mentions it. */
  function TriggeredIssue(payload: EventPayload, trigger: string): (r: Option<Issue>)
    ensures r.Some? ==> !payload.OtherEvent? && r.value == payload.issue
    ensures payload.IssuesEvent? ==>
      (r.Some? <==> payload.issueAction != IssueClosed && Mentions(BodyOrEmpty(payload.issue.body), trigger))
    ensures payload.IssueCommentEvent? ==>
      (r.Some? <==> payload.commentAction != CommentDeleted && Mentions(BodyOrEmpty(payload.comment.body), trigger))
  {
    match payload
    case IssuesEvent(action, issue) =>
      var body := BodyOrEmpty(issue.body);
      Strings.ContainsIff(body, trigger);
      if action != IssueClosed && Strings.Contains(body, trigger) then Some(issue) else None
    case IssueCommentEvent(action, comment, issue) =>
      var body := BodyOrEmpty(comment.body);
      Strings.ContainsIff(body, trigger);
      if action != CommentDeleted && Strings.Contains(body, trigger) then Some(issue) else None
    case OtherEvent => None
  }
}
