/** The requests the importer builds from a pull request: the merge request
    options (lambda/importer/main.go:152-162), the issue fields
    (lambda/importer/main.go:259-281) and the chat and comment texts
    (lambda/importer/main.go:44, 61, 133-143). All of them are pure string
    formatting. */
module Requests {
  import opened Text
  import opened External
  import opened RepoMapping

  // ---------------------------------------------------------------------------
  // Merge request

  /** The fields of gitlab.CreateMergeRequestOptions the importer sets. */
  datatype MergeRequestOptions = MergeRequestOptions(
    title: string,
    description: string,
    sourceBranch: string,
    targetBranch: string,
    labels: seq<string>,
    targetProjectId: int,
    removeSourceBranch: bool,
    squash: bool,
    allowCollaboration: bool
  )

  const TitleSeparator := " - "

  /** createMergeRequest: the title is "<ticket> - <PR title>"; the merge
      request goes from the imported branch to the pull request's base branch
      of the mapped project, carries the label "github", removes the source
      branch, is not squashed and allows collaboration. */
  function MergeRequestOptionsFor(pr: PullRequest, localBranch: string, ticket: string,
                                  mapping: RepositoryMapping): (r: MergeRequestOptions)
    ensures HasPrefix(r.title, ticket + TitleSeparator) && r.title[|ticket + TitleSeparator|..] == pr.title
    ensures r.sourceBranch == localBranch && r.targetBranch == pr.baseRef
    ensures r.targetProjectId == mapping.gitlabProjectId
  {
    MergeRequestOptions(
      title := ticket + TitleSeparator + pr.title,
      description := pr.body,
      sourceBranch := localBranch,
      targetBranch := pr.baseRef,
      labels := ["github"],
      targetProjectId := mapping.gitlabProjectId,
      removeSourceBranch := true,
      squash := false,
      allowCollaboration := true)
  }

  /** The options read only the title, the body and the base branch of the
      pull request: its number, author, link, head and commits play no part. */
  lemma MergeRequestOptionsReadOnly(pr1: PullRequest, pr2: PullRequest, localBranch: string,
                                    ticket: string, mapping: RepositoryMapping)
    requires pr1.title == pr2.title && pr1.body == pr2.body && pr1.baseRef == pr2.baseRef
    ensures MergeRequestOptionsFor(pr1, localBranch, ticket, mapping)
            == MergeRequestOptionsFor(pr2, localBranch, ticket, mapping)
  {
  }

  /** For a given ticket, the merge request title determines the pull request
      title. */
  lemma MergeRequestTitleInjective(pr1: PullRequest, pr2: PullRequest, localBranch: string,
                                   ticket: string, mapping: RepositoryMapping)
    requires MergeRequestOptionsFor(pr1, localBranch, ticket, mapping).title
             == MergeRequestOptionsFor(pr2, localBranch, ticket, mapping).title
    ensures pr1.title == pr2.title
  {
    FrameCancel(ticket + TitleSeparator, pr1.title, pr2.title, "");
  }

  /** The fixed settings of every merge request the importer opens. */
  lemma MergeRequestFixedSettings(pr: PullRequest, localBranch: string, ticket: string,
                                  mapping: RepositoryMapping)
    ensures var r := MergeRequestOptionsFor(pr, localBranch, ticket, mapping);
            r.labels == ["github"] && r.description == pr.body
            && r.removeSourceBranch && !r.squash && r.allowCollaboration
  {
  }

  // ---------------------------------------------------------------------------
  // Issue

  /** A value of the custom-field map: a plain string, or an object
      {"id": ...} that refers to an option by its id. */
  datatype FieldValue = Plain(value: string) | OptionId(id: string)

  /** The fields of the issue createJiraTicket submits. */
  datatype IssueRequest = IssueRequest(
    projectKey: string,
    issueType: string,
    labels: seq<string>,
    summary: string,
    description: string,
    customFields: map<string, FieldValue>
  )

  const SummaryPrefix := "[Github] "
  const DescriptionSeparator := "\n\n---\n\n"
  const ImportedFrom := "Imported from Github. Please see: "
  const AuthorField := "customfield_12101"
  const LinkField := "customfield_12100"
  const PublicField := "customfield_10202"
  const TeamField := "customfield_12000"
  /** The option id the public flag is set to. */
  const PublicYes := "10110"

  /** createJiraTicket: a "Bug" in the mapped project, labelled "Github",
      whose summary is the pull request title behind "[Github] " and whose
      description is the body followed by a separator and the pull request's
      link; the custom fields carry the author, the link, the public flag and
      the team. */
  function IssueFor(pr: PullRequest, mapping: RepositoryMapping, team: string): (r: IssueRequest)
    ensures r.projectKey == mapping.jiraIssueKey
    ensures HasPrefix(r.summary, SummaryPrefix) && r.summary[|SummaryPrefix|..] == pr.title
    ensures HasPrefix(r.description, pr.body) && HasSuffix(r.description, pr.htmlUrl)
    ensures |r.description| == |pr.body| + |DescriptionSeparator + ImportedFrom| + |pr.htmlUrl|
    ensures r.description[|pr.body|..|r.description| - |pr.htmlUrl|] == DescriptionSeparator + ImportedFrom
    ensures r.customFields.Keys == {AuthorField, LinkField, PublicField, TeamField}
    ensures r.customFields[TeamField] == OptionId(team)
  {
    var description := pr.body + DescriptionSeparator + ImportedFrom + pr.htmlUrl;
    assert description[..|pr.body|] == pr.body;
    assert description[|description| - |pr.htmlUrl|..] == pr.htmlUrl;
    IssueRequest(
      projectKey := mapping.jiraIssueKey,
      issueType := "Bug",
      labels := ["Github"],
      summary := SummaryPrefix + pr.title,
      description := description,
      customFields := map[
        AuthorField := Plain(pr.authorLogin),
        LinkField := Plain(pr.htmlUrl),
        PublicField := OptionId(PublicYes),
        TeamField := OptionId(team)])
  }

  /** The issue reads only the title, body, link and author of the pull
      request: its number, branches, clone endpoints and commits play no
      part. */
  lemma IssueReadOnly(pr1: PullRequest, pr2: PullRequest, mapping: RepositoryMapping, team: string)
    requires pr1.title == pr2.title && pr1.body == pr2.body
    requires pr1.htmlUrl == pr2.htmlUrl && pr1.authorLogin == pr2.authorLogin
    ensures IssueFor(pr1, mapping, team) == IssueFor(pr2, mapping, team)
  {
  }

  /** The author and link fields hold the pull request's author login and
      link unchanged, and the issue is always a public "Bug" labelled
      "Github". */
  lemma IssueFixedFields(pr: PullRequest, mapping: RepositoryMapping, team: string)
    ensures var r := IssueFor(pr, mapping, team);
            && r.issueType == "Bug" && r.labels == ["Github"]
            && r.customFields[AuthorField] == Plain(pr.authorLogin)
            && r.customFields[LinkField] == Plain(pr.htmlUrl)
            && r.customFields[PublicField] == OptionId(PublicYes)
  {
  }

  /** Distinct teams give distinct issues. */
  lemma IssueTeamInjective(pr: PullRequest, mapping: RepositoryMapping, team1: string, team2: string)
    requires IssueFor(pr, mapping, team1) == IssueFor(pr, mapping, team2)
    ensures team1 == team2
  {
    assert IssueFor(pr, mapping, team1).customFields[TeamField] == OptionId(team1);
  }

  // ---------------------------------------------------------------------------
  // Chat and comment texts

  /** The first message of every import. */
  const StartMessage := "Importing your PR..."

  const UnknownHead := "This repository "
  const UnknownTail := " cannot be imported as it is unknown"

  /** The reply for a repository outside the mapping table. */
  function UnknownRepositoryMessage(fullName: string): (r: string)
    ensures HasPrefix(r, UnknownHead) && HasSuffix(r, UnknownTail)
    ensures |r| == |UnknownHead| + |fullName| + |UnknownTail|
    ensures r[|UnknownHead|..|r| - |UnknownTail|] == fullName
  {
    var r := UnknownHead + fullName + UnknownTail;
    assert r[..|UnknownHead|] == UnknownHead;
    assert r[|r| - |UnknownTail|..] == UnknownTail;
    r
  }

  /** The message names the repository: different names give different
      messages. */
  lemma UnknownRepositoryMessageInjective(a: string, b: string)
    requires UnknownRepositoryMessage(a) == UnknownRepositoryMessage(b)
    ensures a == b
  {
    FrameCancel(UnknownHead, a, b, UnknownTail);
  }

  const CreatedHead := "Created merge request: "
  const TicketLine := "\nJira ticket: "
  const BrowsePath := "/browse/"

  /** The final report: the merge request's address and the issue's address
      on the issue tracker host. */
  function SuccessMessage(mrUrl: string, jiraHost: string, ticket: string): (r: string)
    ensures HasPrefix(r, CreatedHead + mrUrl) && HasSuffix(r, BrowsePath + ticket)
    ensures |r| == |CreatedHead + mrUrl| + |TicketLine + jiraHost| + |BrowsePath + ticket|
    ensures r[|CreatedHead + mrUrl|..|r| - |BrowsePath + ticket|] == TicketLine + jiraHost
  {
    var r := CreatedHead + mrUrl + TicketLine + jiraHost + BrowsePath + ticket;
    assert r[..|CreatedHead + mrUrl|] == CreatedHead + mrUrl;
    assert r == (CreatedHead + mrUrl + TicketLine + jiraHost) + (BrowsePath + ticket);
    r
  }

  const CommentHead := "Hello,\n\nthank you for creating this pull request.\nI have opened an issue on our Issue Tracker for you. See the issue link: https://issues.shopware.com/issues/"
  const CommentTail := "\n\nPlease use this issue to track the state of your pull request."

  /** The comment left on the pull request, pointing at the ticket. */
  function CommentBody(ticket: string): (r: string)
    ensures HasPrefix(r, CommentHead) && HasSuffix(r, CommentTail)
    ensures |r| == |CommentHead| + |ticket| + |CommentTail|
    ensures r[|CommentHead|..|r| - |CommentTail|] == ticket
  {
    var r := CommentHead + ticket + CommentTail;
    assert r[..|CommentHead|] == CommentHead;
    assert r[|r| - |CommentTail|..] == CommentTail;
    r
  }

  /** The comment names the ticket: different tickets give different
      comments. */
  lemma CommentBodyInjective(a: string, b: string)
    requires CommentBody(a) == CommentBody(b)
    ensures a == b
  {
    FrameCancel(CommentHead, a, b, CommentTail);
  }

  /** The label the pull request receives once imported. */
  const ScheduledLabel := "Scheduled"
}
