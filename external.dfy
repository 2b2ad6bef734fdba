/** Records the importer receives from its collaborators: the pull request and
    its commits from the source code host, and the requester's chat profile.
    Only the fields the importer reads are kept. */
module External {

  /** A pull request as fetched from the source code host. */
  datatype PullRequest = PullRequest(
    number: int,
    title: string,
    body: string,
    htmlUrl: string,
    authorLogin: string,
    baseRef: string,        // the branch the pull request targets
    baseCloneUrl: string,   // clone endpoint of the base repository
    headRef: string,        // the branch holding the proposed commits
    headCloneUrl: string,   // clone endpoint of the head repository
    commitCount: int        // the commit count the host reports for the pull request
  )

  /** One entry of the pull request's commit list (oldest first). */
  datatype Commit = Commit(sha: string, message: string)

  /** The commit list as the source code host returns it: a pull request
      always has at least one commit. */
  type CommitList = s: seq<Commit> | |s| > 0 witness [Commit("", "")]

  /** The requester's chat profile; its name and e-mail become the
      committer identity. */
  datatype ChatUser = ChatUser(realName: string, email: string)
}
