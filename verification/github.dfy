/** The parts of the GitHub webhook payloads the handler reads. */
module GitHub {
  import opened Wrappers

  /** Actions of an `issues` event; the handler only distinguishes `IssueClosed`. */
  datatype IssuesAction =
    | IssueOpened | IssueClosed | IssueReopened | IssueEdited
    | IssueAssigned | IssueUnassigned | IssueLabeled | IssueUnlabeled

  /** Actions of an `issue_comment` event; the handler only distinguishes `CommentDeleted`. */
  datatype IssueCommentAction = CommentCreated | CommentEdited | CommentDeleted

  datatype User = User(login: string)

  datatype Label = Label(name: string)

  datatype Issue = Issue(
    number: nat,
    title: string,
    body: Option<string>,
    user: User,
    authorAssociation: string,
    labels: seq<Label>,
    htmlUrl: string)

  datatype Comment = Comment(user: User, body: Option<string>)

  /** One delivered event; any payload kind other than the two subscribed ones is `OtherEvent`. */
  datatype EventPayload =
    | IssuesEvent(issueAction: IssuesAction, issue: Issue)
    | IssueCommentEvent(commentAction: IssueCommentAction, comment: Comment, issue: Issue)
    | OtherEvent

  /** A missing body reads as the empty string. */
  function BodyOrEmpty(body: Option<string>): string {
    body.GetOr("")
  }

  function LabelNames(issue: Issue): seq<string> {
    seq(|issue.labels|, k requires 0 <= k < |issue.labels| => issue.labels[k].name)
  }
}
