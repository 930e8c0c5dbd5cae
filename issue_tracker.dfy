/** The GitHub issue client the task service calls (`IGitHubIssueService`).
    Its network behaviour is not modelled: each reply is read from a script
    indexed by the position of the call in the log, and every call is
    appended to the log, so a service's remote effects can be stated as the
    calls it made. */
module IssueTracker {
  import opened Common

  datatype IssueUser = IssueUser(login: string, avatarUrl: Option<string>, profileUrl: Option<string>)

  datatype IssueLabel = IssueLabel(name: string, color: Option<string>)

  datatype IssueComment = IssueComment(
    id: int,
    body: string,
    author: Option<IssueUser>,
    createdAt: Instant,
    updatedAt: Instant,
    url: Option<string>)

  datatype IssueDetails = IssueDetails(
    taskId: Guid,
    issueNumber: int,
    title: string,
    description: Option<string>,
    state: string,
    stateReason: Option<string>,
    author: Option<IssueUser>,
    assignees: seq<IssueUser>,
    labels: seq<IssueLabel>,
    commentsCount: int,
    createdAt: Instant,
    updatedAt: Instant,
    url: Option<string>)

  /** One request to GitHub, with the repository, issue and access token it carried. */
  datatype RemoteCall =
    | CreateIssue(owner: string, repo: string, title: string, description: Option<string>, token: string)
    | CloseIssue(owner: string, repo: string, number: int, token: string)
    | ReopenIssue(owner: string, repo: string, number: int, token: string)
    | GetIssueDetails(owner: string, repo: string, number: int, token: string)
    | GetIssueComments(owner: string, repo: string, number: int, token: string)

  class IssueTrackerClient {
    /** Every request made so far, oldest first. */
    var calls: seq<RemoteCall>
    const createReply: nat -> Result<int>
    const closeReply: nat -> Result<()>
    const reopenReply: nat -> Result<()>
    const detailsReply: nat -> Result<IssueDetails>
    const commentsReply: nat -> Result<seq<IssueComment>>

    constructor (createReply: nat -> Result<int>, closeReply: nat -> Result<()>, reopenReply: nat -> Result<()>,
                 detailsReply: nat -> Result<IssueDetails>, commentsReply: nat -> Result<seq<IssueComment>>)
      ensures calls == []
      ensures this.createReply == createReply && this.closeReply == closeReply && this.reopenReply == reopenReply
      ensures this.detailsReply == detailsReply && this.commentsReply == commentsReply
    {
      calls := [];
      this.createReply := createReply;
      this.closeReply := closeReply;
      this.reopenReply := reopenReply;
      this.detailsReply := detailsReply;
      this.commentsReply := commentsReply;
    }

    method CreateIssueAsync(owner: string, repo: string, title: string, description: Option<string>, token: string)
      returns (r: Result<int>)
      modifies this
      ensures calls == old(calls) + [CreateIssue(owner, repo, title, description, token)]
      ensures r == createReply(|old(calls)|)
    {
      r := createReply(|calls|);
      calls := calls + [CreateIssue(owner, repo, title, description, token)];
    }

    method CloseIssueAsync(owner: string, repo: string, number: int, token: string) returns (r: Result<()>)
      modifies this
      ensures calls == old(calls) + [CloseIssue(owner, repo, number, token)]
      ensures r == closeReply(|old(calls)|)
    {
      r := closeReply(|calls|);
      calls := calls + [CloseIssue(owner, repo, number, token)];
    }

    method ReopenIssueAsync(owner: string, repo: string, number: int, token: string) returns (r: Result<()>)
      modifies this
      ensures calls == old(calls) + [ReopenIssue(owner, repo, number, token)]
      ensures r == reopenReply(|old(calls)|)
    {
      r := reopenReply(|calls|);
      calls := calls + [ReopenIssue(owner, repo, number, token)];
    }

    method GetIssueDetailsAsync(owner: string, repo: string, number: int, token: string) returns (r: Result<IssueDetails>)
      modifies this
      ensures calls == old(calls) + [GetIssueDetails(owner, repo, number, token)]
      ensures r == detailsReply(|old(calls)|)
    {
      r := detailsReply(|calls|);
      calls := calls + [GetIssueDetails(owner, repo, number, token)];
    }

    method GetIssueCommentsAsync(owner: string, repo: string, number: int, token: string)
      returns (r: Result<seq<IssueComment>>)
      modifies this
      ensures calls == old(calls) + [GetIssueComments(owner, repo, number, token)]
      ensures r == commentsReply(|old(calls)|)
    {
      r := commentsReply(|calls|);
      calls := calls + [GetIssueComments(owner, repo, number, token)];
    }
  }
}
