/** The import worker (lambda/importer/main.go:30-147). handleMessage is a
    fixed list of stages run in order; each stage either completes, possibly
    updating what the later stages read, or ends the run, usually after
    telling the requester why in a chat message. The external services are
    parameters that answer each request with a value or an error; every
    request made is recorded, in order, in the run's trace. */
module Importer {
  import opened Wrappers
  import opened Text
  import opened External
  import opened SharedTypes
  import opened RepoMapping
  import opened Requests
  import opened BranchImport

  /** The stages of handleMessage, numbered in the order they run. */
  newtype Stage = n: int | 0 <= n < 14

  const Notify: Stage := 0              // "Importing your PR..." (the only chat send whose failure is checked)
  const FetchUser: Stage := 1           // the requester's chat profile
  const ResolveMapping: Stage := 2      // the repository mapping of "owner/repo"
  const ParseInstallationId: Stage := 3 // the app installation id from the configuration
  const ParseAppId: Stage := 4          // the app id from the configuration
  const Authenticate: Stage := 5        // the source code host client
  const ParsePrId: Stage := 6           // the pull request number from the message
  const FetchPr: Stage := 7             // the pull request
  const FetchCommits: Stage := 8        // its commits
  const EnsureTicket: Stage := 9        // an issue, unless the message names one
  const Branch: Stage := 10             // importBranch
  const MergeRequest: Stage := 11       // createMergeRequest
  const ReportSuccess: Stage := 12      // the final chat message
  const Annotate: Stage := 13           // comment and label on the pull request

  /** The number of stages. */
  const StageCount := 14

  /** A request to an external service, as recorded in the trace. */
  datatype Call =
    | Chat(channel: string, text: string)
    | GetUserInfo(user: string)
    | GetPullRequest(owner: string, repo: string, number: int)
    | ListCommits(owner: string, repo: string, number: int)
    | CreateIssue(issue: IssueRequest)
    | Git(command: GitCommand)
    | CreateMergeRequest(projectId: int, options: MergeRequestOptions)
    | CreateComment(owner: string, repo: string, number: int, body: string)
    | AddLabels(owner: string, repo: string, number: int, labels: seq<string>)

  /** The services and configuration the worker uses. Each service answers
      a request with a value or an error text; the answers of the chat sends
      after the first, of the comment and of the label are not read. */
  datatype Services = Services(
    postMessage: (string, string) -> Option<string>,      // error of the first chat send
    getUser: string -> Result<ChatUser, string>,
    installationIdVar: string,                             // GITHUB_INSTALLATION_ID
    appIdVar: string,                                      // GITHUB_APP_ID
    authenticate: (int, int) -> Option<string>,           // error of the app transport, from (app id, installation id)
    getPullRequest: (string, string, int) -> Result<PullRequest, string>,
    listCommits: (string, string, int) -> Result<CommitList, string>,
    jiraClientError: Option<string>,                       // error of the issue tracker client
    createIssue: IssueRequest -> Result<string, string>,  // the new issue's key
    workspace: Workspace,
    git: GitCommand -> ExecResult,
    createMergeRequest: (int, MergeRequestOptions) -> Result<string, string>, // its web address
    jiraHost: string                                       // JIRA_HOST
  )

  /** What the stages have established so far. */
  datatype Context = Context(
    msg: ImportMessage,
    user: ChatUser,
    mapping: RepositoryMapping,
    installationId: int,
    appId: int,
    prId: int,
    pr: PullRequest,
    commits: CommitList,
    branch: string,
    mrUrl: string
  )

  /** A commit list stands in for the commits until the commits stage sets
      them; only the branch stage, which comes after it, reads them. */
  const PlaceholderCommits: CommitList := [Commit("", "")]

  /** The context before the first stage: the message, and zero values. */
  function Initial(m: ImportMessage): Context {
    Context(m, ChatUser("", ""), RepositoryMapping("", 0, ""), 0, 0, 0,
            PullRequest(0, "", "", "", "", "", "", "", "", 0), PlaceholderCommits, "", "")
  }

  datatype StepResult = Proceed(ctx: Context) | Halt(notice: Option<string>)

  /** The requests a stage made, and how it ended. */
  datatype StepOutcome = StepOutcome(calls: seq<Call>, result: StepResult)

  /** Ends the run after `calls`, telling the requester `text`. */
  function Tell(calls: seq<Call>, user: string, text: string): StepOutcome {
    StepOutcome(calls + [Chat(user, text)], Halt(Some(text)))
  }

  const UserError := "Error while fetching user: "
  const ClientError := "Error while creating GitHub client: "
  const PrError := "Error while fetching PR: "
  const CommitsError := "Error while fetching PR commits: "
  const TicketError := "Error while creating Jira ticket: "
  const BranchError := "Error while importing branch: "
  const MergeRequestError := "Error while creating merge request: "

  function GitCalls(ran: seq<GitCommand>): (r: seq<Call>)
    ensures |r| == |ran| && forall k :: 0 <= k < |ran| ==> r[k] == Git(ran[k])
    ensures forall c :: c in r ==> c.Git? && c.command in ran
  {
    seq(|ran|, k requires 0 <= k < |ran| => Git(ran[k]))
  }


  // ---------------------------------------------------------------------------
  // What every stage promises

  /** The earliest stage that makes requests of this kind. */
  function Origin(c: Call): Stage {
    match c
    case Chat(_, _) => Notify
    case GetUserInfo(_) => FetchUser
    case GetPullRequest(_, _, _) => FetchPr
    case ListCommits(_, _, _) => FetchCommits
    case CreateIssue(_) => EnsureTicket
    case Git(_) => Branch
    case CreateMergeRequest(_, _) => MergeRequest
    case CreateComment(_, _, _, _) => Annotate
    case AddLabels(_, _, _, _) => Annotate
  }

  /** The stages whose failure is only logged: nothing is sent. */
  predicate Silent(stage: Stage) {
    stage == Notify || stage == ParseInstallationId || stage == ParseAppId || stage == ParsePrId
  }

  /** A stage makes no request that belongs to a later stage; the last two
      stages never end a run; a stage that ends a run either is silent or
      ends by sending its notice to the requester; the requester never
      changes. */
  predicate Shaped(stage: Stage, ctx: Context, out: StepOutcome) {
    && (forall c :: c in out.calls ==> Origin(c) <= stage)
    && (out.result.Halt? ==> stage < ReportSuccess)
    && (out.result.Halt? && out.result.notice.None? ==> Silent(stage))
    && (out.result.Halt? && out.result.notice.Some? ==>
          |out.calls| > 0 && out.calls[|out.calls| - 1] == Chat(ctx.msg.slackUser, out.result.notice.value))
    && (out.result.Proceed? ==> out.result.ctx.msg.slackUser == ctx.msg.slackUser)
  }

  /** What a completed stage sets and what it leaves alone: the repository
      never changes; only the ticket stage changes the ticket, and only when
      it was empty, to the key the tracker answered its one issue request
      with; the number is the one parsed from the message; the branch is the
      ticket's branch; the merge request's address is set by its own stage
      only. */
  predicate Framed(stage: Stage, ctx: Context, out: StepOutcome, env: Services) {
    out.result.Proceed? ==>
      var next := out.result.ctx;
      && next.msg.repository == ctx.msg.repository
      && (if stage == EnsureTicket && ctx.msg.jiraTicket == "" then
            |out.calls| == 1 && out.calls[0].CreateIssue?
            && env.createIssue(out.calls[0].issue) == Success(next.msg.jiraTicket)
          else next.msg.jiraTicket == ctx.msg.jiraTicket)
      && (if stage == ParsePrId then ParseInt64(ctx.msg.repository.id) == Some(next.prId)
          else next.prId == ctx.prId)
      && (if stage == Branch then next.branch == BranchName(ctx.msg.jiraTicket)
          else next.branch == ctx.branch)
      && (stage != MergeRequest ==> next.mrUrl == ctx.mrUrl)
  }

  /** A request is consistent with ticket `t`: no issue is requested, and
      the branch, commit message, merge request and comment are those of
      `t`. */
  predicate UsesTicket(c: Call, t: string) {
    match c
    case CreateIssue(_) => false
    case Git(command) => NamesTicket(command, t)
    case CreateMergeRequest(_, options) =>
      options.sourceBranch == BranchName(t) && HasPrefix(options.title, t + TitleSeparator)
    case CreateComment(_, _, _, body) => body == CommentBody(t)
    case _ => true
  }

  /** Once there is a ticket (and, after the branch stage, its branch),
      every request a stage makes is consistent with it. */
  predicate KeepsTicket(stage: Stage, ctx: Context, out: StepOutcome) {
    var t := ctx.msg.jiraTicket;
    t != "" && (stage > Branch ==> ctx.branch == BranchName(t)) ==>
      forall c :: c in out.calls ==> UsesTicket(c, t)
  }

  /** Everything a stage promises. */
  predicate Obeys(stage: Stage, ctx: Context, env: Services, out: StepOutcome) {
    && Shaped(stage, ctx, out)
    && Framed(stage, ctx, out, env)
    && KeepsTicket(stage, ctx, out)
    && Finishing(stage, ctx, out, env)
  }

  /** The requests of the last two stages: the success message names the
      merge request and the ticket; the comment names the ticket and the
      label is "Scheduled", both on the pull request of the message. */
  predicate Finishing(stage: Stage, ctx: Context, out: StepOutcome, env: Services) {
    var u := ctx.msg.slackUser;
    var repo := ctx.msg.repository;
    var t := ctx.msg.jiraTicket;
    && (stage == ReportSuccess ==>
          out.calls == [Chat(u, SuccessMessage(ctx.mrUrl, env.jiraHost, t))])
    && (stage == Annotate ==>
          out.calls == [CreateComment(repo.owner, repo.repo, ctx.prId, CommentBody(t)),
                        AddLabels(repo.owner, repo.repo, ctx.prId, [ScheduledLabel])])
  }
  // ---------------------------------------------------------------------------
  // The stages

  /** The first chat message; its failure ends the run silently. */
  function NotifyStep(ctx: Context, env: Services): StepOutcome
  {
    var u := ctx.msg.slackUser;
    var calls := [Chat(u, StartMessage)];
    if env.postMessage(u, StartMessage).Some? then StepOutcome(calls, Halt(None))
    else StepOutcome(calls, Proceed(ctx))
  }

  function FetchUserStep(ctx: Context, env: Services): StepOutcome
  {
    var u := ctx.msg.slackUser;
    var calls := [GetUserInfo(u)];
    match env.getUser(u)
    case Failure(e) => Tell(calls, u, UserError + e)
    case Success(user) => StepOutcome(calls, Proceed(ctx.(user := user)))
  }

  function ResolveMappingStep(ctx: Context, env: Services): StepOutcome
  {
    var name := FullName(ctx.msg.repository);
    match Lookup(name)
    case None => Tell([], ctx.msg.slackUser, UnknownRepositoryMessage(name))
    case Some(mapping) => StepOutcome([], Proceed(ctx.(mapping := mapping)))
  }

  /** Both configuration numbers are parsed with ParseInt; a failure is only
      logged. */
  function ParseInstallationIdStep(ctx: Context, env: Services): StepOutcome
  {
    match ParseInt64(env.installationIdVar)
    case None => StepOutcome([], Halt(None))
    case Some(n) => StepOutcome([], Proceed(ctx.(installationId := n)))
  }

  function ParseAppIdStep(ctx: Context, env: Services): StepOutcome
  {
    match ParseInt64(env.appIdVar)
    case None => StepOutcome([], Halt(None))
    case Some(n) => StepOutcome([], Proceed(ctx.(appId := n)))
  }

  function AuthenticateStep(ctx: Context, env: Services): StepOutcome
  {
    match env.authenticate(ctx.appId, ctx.installationId)
    case Some(e) => Tell([], ctx.msg.slackUser, ClientError + e)
    case None => StepOutcome([], Proceed(ctx))
  }

  /** The number from the link, with Atoi; a failure is only logged. */
  function ParsePrIdStep(ctx: Context, env: Services): StepOutcome
  {
    match ParseInt64(ctx.msg.repository.id)
    case None => StepOutcome([], Halt(None))
    case Some(n) => StepOutcome([], Proceed(ctx.(prId := n)))
  }

  function FetchPrStep(ctx: Context, env: Services): StepOutcome
  {
    var repo := ctx.msg.repository;
    var calls := [GetPullRequest(repo.owner, repo.repo, ctx.prId)];
    match env.getPullRequest(repo.owner, repo.repo, ctx.prId)
    case Failure(e) => Tell(calls, ctx.msg.slackUser, PrError + e)
    case Success(pr) => StepOutcome(calls, Proceed(ctx.(pr := pr)))
  }

  function FetchCommitsStep(ctx: Context, env: Services): StepOutcome
  {
    var repo := ctx.msg.repository;
    var calls := [ListCommits(repo.owner, repo.repo, ctx.prId)];
    match env.listCommits(repo.owner, repo.repo, ctx.prId)
    case Failure(e) => Tell(calls, ctx.msg.slackUser, CommitsError + e)
    case Success(commits) => StepOutcome(calls, Proceed(ctx.(commits := commits)))
  }

  /** createJiraTicket, only when the message names no ticket; the new key
      replaces the empty one in the message. */
  function EnsureTicketStep(ctx: Context, env: Services): StepOutcome
  {
    if ctx.msg.jiraTicket != "" then StepOutcome([], Proceed(ctx))
    else if env.jiraClientError.Some? then
      Tell([], ctx.msg.slackUser, TicketError + env.jiraClientError.value)
    else
      var issue := IssueFor(ctx.pr, ctx.mapping, ctx.msg.team);
      var calls := [CreateIssue(issue)];
      match env.createIssue(issue)
      case Failure(e) => Tell(calls, ctx.msg.slackUser, TicketError + e)
      case Success(key) => StepOutcome(calls, Proceed(ctx.(msg := ctx.msg.(jiraTicket := key))))
  }

  function BranchStep(ctx: Context, env: Services): StepOutcome {
    var o := Import(ctx.pr, ctx.commits, ctx.msg.jiraTicket, ctx.mapping, ctx.user,
                    env.workspace, env.git);
    var calls := GitCalls(o.ran);
    match o.result
    case Failure(e) => Tell(calls, ctx.msg.slackUser, BranchError + e)
    case Success(branch) => StepOutcome(calls, Proceed(ctx.(branch := branch)))
  }

  function MergeRequestStep(ctx: Context, env: Services): StepOutcome
  {
    var projectId := ctx.mapping.gitlabProjectId;
    var options := MergeRequestOptionsFor(ctx.pr, ctx.branch, ctx.msg.jiraTicket, ctx.mapping);
    var calls := [CreateMergeRequest(projectId, options)];
    match env.createMergeRequest(projectId, options)
    case Failure(e) => Tell(calls, ctx.msg.slackUser, MergeRequestError + e)
    case Success(url) => StepOutcome(calls, Proceed(ctx.(mrUrl := url)))
  }

  function ReportSuccessStep(ctx: Context, env: Services): StepOutcome
  {
    StepOutcome([Chat(ctx.msg.slackUser, SuccessMessage(ctx.mrUrl, env.jiraHost, ctx.msg.jiraTicket))],
                Proceed(ctx))
  }

  /** The comment and the label; their answers are not read. */
  function AnnotateStep(ctx: Context, env: Services): StepOutcome
  {
    var repo := ctx.msg.repository;
    StepOutcome([CreateComment(repo.owner, repo.repo, ctx.prId, CommentBody(ctx.msg.jiraTicket)),
                 AddLabels(repo.owner, repo.repo, ctx.prId, [ScheduledLabel])], Proceed(ctx))
  }

  // ---------------------------------------------------------------------------
  // What each stage keeps to

  /** The start message is the only request; the run ends, silently, exactly when it fails. */
  lemma NotifyObeys(ctx: Context, env: Services)
    ensures Obeys(Notify, ctx, env, NotifyStep(ctx, env))
    ensures var out := NotifyStep(ctx, env);
            && out.calls == [Chat(ctx.msg.slackUser, StartMessage)]
            && (out.result.Halt? <==> env.postMessage(ctx.msg.slackUser, StartMessage).Some?)
            && (out.result.Halt? ==> out.result.notice.None?)
            && (out.result.Proceed? ==> out.result.ctx == ctx)
  {
  }

  /** The profile is requested; a failure is reported to the requester and ends the run. */
  lemma FetchUserObeys(ctx: Context, env: Services)
    ensures Obeys(FetchUser, ctx, env, FetchUserStep(ctx, env))
    ensures var out := FetchUserStep(ctx, env);
            var u := ctx.msg.slackUser;
            match env.getUser(u)
            case Success(user) => out.calls == [GetUserInfo(u)] && out.result == Proceed(ctx.(user := user))
            case Failure(e) =>
              out.calls == [GetUserInfo(u), Chat(u, UserError + e)] && out.result == Halt(Some(UserError + e))
  {
  }

  /** An unknown repository is reported to the requester and ends the run. */
  lemma ResolveMappingObeys(ctx: Context, env: Services)
    ensures Obeys(ResolveMapping, ctx, env, ResolveMappingStep(ctx, env))
    ensures var out := ResolveMappingStep(ctx, env);
            var name := FullName(ctx.msg.repository);
            if name in GetRepositoryMapping() then
              out.calls == [] && out.result == Proceed(ctx.(mapping := GetRepositoryMapping()[name]))
            else
              var notice := UnknownRepositoryMessage(name);
              out.calls == [Chat(ctx.msg.slackUser, notice)] && out.result == Halt(Some(notice))
  {
    var found := Lookup(FullName(ctx.msg.repository));
    assert found.Some? == (FullName(ctx.msg.repository) in GetRepositoryMapping());
  }

  /** An installation id that does not parse ends the run silently. */
  lemma ParseInstallationIdObeys(ctx: Context, env: Services)
    ensures Obeys(ParseInstallationId, ctx, env, ParseInstallationIdStep(ctx, env))
    ensures var out := ParseInstallationIdStep(ctx, env);
            && out.calls == []
            && (match ParseInt64(env.installationIdVar)
                case None => out.result == Halt(None)
                case Some(n) => out.result == Proceed(ctx.(installationId := n)))
  {
  }

  /** An app id that does not parse ends the run silently. */
  lemma ParseAppIdObeys(ctx: Context, env: Services)
    ensures Obeys(ParseAppId, ctx, env, ParseAppIdStep(ctx, env))
    ensures var out := ParseAppIdStep(ctx, env);
            && out.calls == []
            && (match ParseInt64(env.appIdVar)
                case None => out.result == Halt(None)
                case Some(n) => out.result == Proceed(ctx.(appId := n)))
  {
  }

  /** A client error is reported to the requester and ends the run. */
  lemma AuthenticateObeys(ctx: Context, env: Services)
    ensures Obeys(Authenticate, ctx, env, AuthenticateStep(ctx, env))
    ensures var out := AuthenticateStep(ctx, env);
            match env.authenticate(ctx.appId, ctx.installationId)
            case None => out.calls == [] && out.result == Proceed(ctx)
            case Some(e) =>
              out.calls == [Chat(ctx.msg.slackUser, ClientError + e)] && out.result == Halt(Some(ClientError + e))
  {
  }

  /** A pull request number that does not parse ends the run silently. */
  lemma ParsePrIdObeys(ctx: Context, env: Services)
    ensures Obeys(ParsePrId, ctx, env, ParsePrIdStep(ctx, env))
    ensures var out := ParsePrIdStep(ctx, env);
            && out.calls == []
            && (match ParseInt64(ctx.msg.repository.id)
                case None => out.result == Halt(None)
                case Some(n) => out.result == Proceed(ctx.(prId := n)))
  {
  }

  /** The pull request is requested; a failure is reported and ends the run. */
  lemma FetchPrObeys(ctx: Context, env: Services)
    ensures Obeys(FetchPr, ctx, env, FetchPrStep(ctx, env))
    ensures var out := FetchPrStep(ctx, env);
            var repo := ctx.msg.repository;
            var request := GetPullRequest(repo.owner, repo.repo, ctx.prId);
            match env.getPullRequest(repo.owner, repo.repo, ctx.prId)
            case Success(pr) => out.calls == [request] && out.result == Proceed(ctx.(pr := pr))
            case Failure(e) =>
              out.calls == [request, Chat(ctx.msg.slackUser, PrError + e)] && out.result == Halt(Some(PrError + e))
  {
  }

  /** The commits are requested; a failure is reported and ends the run. */
  lemma FetchCommitsObeys(ctx: Context, env: Services)
    ensures Obeys(FetchCommits, ctx, env, FetchCommitsStep(ctx, env))
    ensures var out := FetchCommitsStep(ctx, env);
            var repo := ctx.msg.repository;
            var request := ListCommits(repo.owner, repo.repo, ctx.prId);
            match env.listCommits(repo.owner, repo.repo, ctx.prId)
            case Success(commits) => out.calls == [request] && out.result == Proceed(ctx.(commits := commits))
            case Failure(e) =>
              out.calls == [request, Chat(ctx.msg.slackUser, CommitsError + e)] && out.result == Halt(Some(CommitsError + e))
  {
  }

  /** A supplied ticket is kept; otherwise one issue is requested and its key becomes the ticket. */
  lemma EnsureTicketObeys(ctx: Context, env: Services)
    ensures Obeys(EnsureTicket, ctx, env, EnsureTicketStep(ctx, env))
    ensures var out := EnsureTicketStep(ctx, env);
            var u := ctx.msg.slackUser;
            var issue := IssueFor(ctx.pr, ctx.mapping, ctx.msg.team);
            if ctx.msg.jiraTicket != "" then out.calls == [] && out.result == Proceed(ctx)
            else if env.jiraClientError.Some? then
              var text := TicketError + env.jiraClientError.value;
              out.calls == [Chat(u, text)] && out.result == Halt(Some(text))
            else
              match env.createIssue(issue)
              case Success(key) =>
                out.calls == [CreateIssue(issue)] && out.result == Proceed(ctx.(msg := ctx.msg.(jiraTicket := key)))
              case Failure(e) =>
                out.calls == [CreateIssue(issue), Chat(u, TicketError + e)] && out.result == Halt(Some(TicketError + e))
  {
  }

  /** The git commands that ran are the requests; a failure is reported and ends the run. */
  lemma BranchObeys(ctx: Context, env: Services)
    ensures Obeys(Branch, ctx, env, BranchStep(ctx, env))
    ensures var out := BranchStep(ctx, env);
            var o := Import(ctx.pr, ctx.commits, ctx.msg.jiraTicket, ctx.mapping, ctx.user,
                            env.workspace, env.git);
            match o.result
            case Success(_) =>
              out.calls == GitCalls(o.ran) && out.result == Proceed(ctx.(branch := BranchName(ctx.msg.jiraTicket)))
            case Failure(e) =>
              out.calls == GitCalls(o.ran) + [Chat(ctx.msg.slackUser, BranchError + e)]
              && out.result == Halt(Some(BranchError + e))
  {
    var o := Import(ctx.pr, ctx.commits, ctx.msg.jiraTicket, ctx.mapping, ctx.user,
                    env.workspace, env.git);
    var calls := GitCalls(o.ran);
    assert forall c :: c in calls ==> c.Git? && NamesTicket(c.command, ctx.msg.jiraTicket);
    match o.result
    case Failure(e) => BranchFailedObeys(ctx, env, calls, e);
    case Success(branch) => BranchImportedObeys(ctx, env, calls, branch);
  }

  lemma BranchFailedObeys(ctx: Context, env: Services, calls: seq<Call>, e: string)
    requires forall c :: c in calls ==> c.Git? && NamesTicket(c.command, ctx.msg.jiraTicket)
    ensures Obeys(Branch, ctx, env, Tell(calls, ctx.msg.slackUser, BranchError + e))
  {
    InConcat(calls, [Chat(ctx.msg.slackUser, BranchError + e)]);
  }

  lemma BranchImportedObeys(ctx: Context, env: Services, calls: seq<Call>, branch: string)
    requires forall c :: c in calls ==> c.Git? && NamesTicket(c.command, ctx.msg.jiraTicket)
    requires branch == BranchName(ctx.msg.jiraTicket)
    ensures Obeys(Branch, ctx, env, StepOutcome(calls, Proceed(ctx.(branch := branch))))
  {
  }

  /** One merge request is requested; a failure is reported and ends the run. */
  lemma MergeRequestObeys(ctx: Context, env: Services)
    ensures Obeys(MergeRequest, ctx, env, MergeRequestStep(ctx, env))
    ensures var out := MergeRequestStep(ctx, env);
            var options := MergeRequestOptionsFor(ctx.pr, ctx.branch, ctx.msg.jiraTicket, ctx.mapping);
            var request := CreateMergeRequest(ctx.mapping.gitlabProjectId, options);
            match env.createMergeRequest(ctx.mapping.gitlabProjectId, options)
            case Success(url) => out.calls == [request] && out.result == Proceed(ctx.(mrUrl := url))
            case Failure(e) =>
              out.calls == [request, Chat(ctx.msg.slackUser, MergeRequestError + e)]
              && out.result == Halt(Some(MergeRequestError + e))
  {
  }

  /** The success message is sent and the run goes on. */
  lemma ReportSuccessObeys(ctx: Context, env: Services)
    ensures Obeys(ReportSuccess, ctx, env, ReportSuccessStep(ctx, env))
  {
  }

  /** The comment and the label are requested and their answers ignored. */
  lemma AnnotateObeys(ctx: Context, env: Services)
    ensures Obeys(Annotate, ctx, env, AnnotateStep(ctx, env))
  {
  }

  /** One stage of handleMessage. */
  function Step(stage: Stage, ctx: Context, env: Services): StepOutcome {
    match stage
    case 0 => NotifyStep(ctx, env)
    case 1 => FetchUserStep(ctx, env)
    case 2 => ResolveMappingStep(ctx, env)
    case 3 => ParseInstallationIdStep(ctx, env)
    case 4 => ParseAppIdStep(ctx, env)
    case 5 => AuthenticateStep(ctx, env)
    case 6 => ParsePrIdStep(ctx, env)
    case 7 => FetchPrStep(ctx, env)
    case 8 => FetchCommitsStep(ctx, env)
    case 9 => EnsureTicketStep(ctx, env)
    case 10 => BranchStep(ctx, env)
    case 11 => MergeRequestStep(ctx, env)
    case 12 => ReportSuccessStep(ctx, env)
    case 13 => AnnotateStep(ctx, env)
  }

  lemma StepObeys(stage: Stage, ctx: Context, env: Services)
    ensures Obeys(stage, ctx, env, Step(stage, ctx, env))
  {
    match stage
    case 0 => NotifyObeys(ctx, env);
    case 1 => FetchUserObeys(ctx, env);
    case 2 => ResolveMappingObeys(ctx, env);
    case 3 => ParseInstallationIdObeys(ctx, env);
    case 4 => ParseAppIdObeys(ctx, env);
    case 5 => AuthenticateObeys(ctx, env);
    case 6 => ParsePrIdObeys(ctx, env);
    case 7 => FetchPrObeys(ctx, env);
    case 8 => FetchCommitsObeys(ctx, env);
    case 9 => EnsureTicketObeys(ctx, env);
    case 10 => BranchObeys(ctx, env);
    case 11 => MergeRequestObeys(ctx, env);
    case 12 => ReportSuccessObeys(ctx, env);
    case 13 => AnnotateObeys(ctx, env);
  }

  /** The worker's stages, as one function of the stage and the context. */
  function Stepper(env: Services): (Stage, Context) -> StepOutcome {
    (stage, ctx) => Step(stage, ctx, env)
  }

  // ---------------------------------------------------------------------------
  // A run

  /** How a run ended: every stage completed, with the merge request's
      address and the ticket used; or a stage ended it, with the text sent to
      the requester if one was sent. */
  datatype Outcome = Completed(mrUrl: string, ticket: string) | Aborted(stage: Stage, notice: Option<string>)

  datatype Report = Report(trace: seq<Call>, outcome: Outcome)

  /** The stages from number `i` on, after `trace`, each done by `step`. */
  function RunFrom(i: nat, ctx: Context, trace: seq<Call>, step: (Stage, Context) -> StepOutcome): Report
    requires i <= StageCount
    decreases StageCount - i
  {
    if i == StageCount then Report(trace, Completed(ctx.mrUrl, ctx.msg.jiraTicket))
    else
      var out := step(i as Stage, ctx);
      match out.result
      case Halt(notice) => Report(trace + out.calls, Aborted(i as Stage, notice))
      case Proceed(next) => RunFrom(i + 1, next, trace + out.calls, step)
  }

  /** handleMessage, as a function of the message and the services. */
  function Run(m: ImportMessage, env: Services): Report {
    RunFrom(0, Initial(m), [], Stepper(env))
  }

  /** handleMessage as the Go code runs it: stage after stage, returning at
      the first that ends the run. */
  method HandleMessage(m: ImportMessage, env: Services) returns (report: Report)
    ensures report == Run(m, env)
  {
    var ctx := Initial(m);
    var trace: seq<Call> := [];
    var i := 0;
    while i < StageCount
      invariant i <= StageCount
      invariant RunFrom(i, ctx, trace, Stepper(env)) == Run(m, env)
      decreases StageCount - i
    {
      var out := Step(i as Stage, ctx, env);
      assert out == Stepper(env)(i as Stage, ctx);
      trace := trace + out.calls;
      match out.result
      case Halt(notice) =>
        return Report(trace, Aborted(i as Stage, notice));
      case Proceed(next) =>
        ctx := next;
        i := i + 1;
    }
    report := Report(trace, Completed(ctx.mrUrl, ctx.msg.jiraTicket));
  }

  // ---------------------------------------------------------------------------
  // What a run does, whatever the stages, given what each stage promises

  ghost predicate ShapedSteps(step: (Stage, Context) -> StepOutcome) {
    forall stage, ctx :: Shaped(stage, ctx, step(stage, ctx))
  }

  ghost predicate FramedSteps(step: (Stage, Context) -> StepOutcome, env: Services) {
    forall stage, ctx :: Framed(stage, ctx, step(stage, ctx), env)
  }

  ghost predicate TicketSteps(step: (Stage, Context) -> StepOutcome) {
    forall stage, ctx :: KeepsTicket(stage, ctx, step(stage, ctx))
  }

  ghost predicate FinishingSteps(step: (Stage, Context) -> StepOutcome, env: Services) {
    forall stage, ctx :: Finishing(stage, ctx, step(stage, ctx), env)
  }

  /** Every stage of `step` keeps to its rules. */
  ghost predicate Lawful(step: (Stage, Context) -> StepOutcome, env: Services) {
    ShapedSteps(step) && FramedSteps(step, env) && TicketSteps(step) && FinishingSteps(step, env)
  }

  /** The worker's stages keep every promise. */
  lemma StepperLawful(env: Services)
    ensures Lawful(Stepper(env), env)
  {
    forall stage, ctx ensures Obeys(stage, ctx, env, Stepper(env)(stage, ctx)) {
      StepObeys(stage, ctx, env);
    }
  }

  lemma InConcat(a: seq<Call>, b: seq<Call>)
    ensures forall c :: c in a + b <==> c in a || c in b
  {
  }

  /** An aborted run stopped at a stage from `from` on and before the
      success message, made no request belonging to a later stage, and sent
      nothing to say why when that stage only logs. */
  predicate AbortedCleanly(r: Report, from: int) {
    r.outcome.Aborted? ==>
      && r.outcome.stage as int >= from
      && r.outcome.stage < ReportSuccess
      && (forall c :: c in r.trace ==> Origin(c) <= r.outcome.stage)
      && (r.outcome.notice.None? ==> Silent(r.outcome.stage))
  }

  /** A run that is aborted made no request belonging to a stage after the
      one that aborted it, and was not aborted by the last two stages; it
      sent nothing if that stage is a silent one. */
  lemma {:induction false} RunFromAborted(i: nat, ctx: Context, trace: seq<Call>,
                                          step: (Stage, Context) -> StepOutcome)
    requires i <= StageCount && ShapedSteps(step)
    requires forall c :: c in trace ==> Origin(c) as int < i
    ensures AbortedCleanly(RunFrom(i, ctx, trace, step), i)
    decreases StageCount - i
  {
    if i < StageCount {
      var out := step(i as Stage, ctx);
      assert Shaped(i as Stage, ctx, out);
      InConcat(trace, out.calls);
      if out.result.Proceed? {
        RunFromAborted(i + 1, out.result.ctx, trace + out.calls, step);
      }
    }
  }

  /** A run that ends with a notice ends by sending it to `user`. */
  predicate NoticeLast(r: Report, user: string) {
    r.outcome.Aborted? && r.outcome.notice.Some? ==>
      |r.trace| > 0 && r.trace[|r.trace| - 1] == Chat(user, r.outcome.notice.value)
  }

  /** A run that ends with a notice ends by sending it to the requester. */
  lemma {:induction false} RunFromNotice(i: nat, ctx: Context, trace: seq<Call>,
                                         step: (Stage, Context) -> StepOutcome, user: string)
    requires i <= StageCount && ShapedSteps(step)
    requires ctx.msg.slackUser == user
    ensures NoticeLast(RunFrom(i, ctx, trace, step), user)
    decreases StageCount - i
  {
    if i < StageCount {
      var out := step(i as Stage, ctx);
      assert Shaped(i as Stage, ctx, out);
      match out.result
      case Halt(notice) =>
        if notice.Some? {
          assert (trace + out.calls)[|trace + out.calls| - 1] == out.calls[|out.calls| - 1];
        }
      case Proceed(next) =>
        RunFromNotice(i + 1, next, trace + out.calls, step, user);
    }
  }

  /** Every request of the run is consistent with the ticket `t`, and a
      completed run completes with it. */
  predicate TicketKept(r: Report, t: string) {
    && (forall c :: c in r.trace ==> UsesTicket(c, t))
    && (r.outcome.Completed? ==> r.outcome.ticket == t)
  }

  /** Once the ticket is known, every later request is consistent with it
      and the run completes with it. */
  lemma {:induction false} RunFromTicket(i: nat, ctx: Context, trace: seq<Call>,
                                         step: (Stage, Context) -> StepOutcome, env: Services)
    requires i <= StageCount && FramedSteps(step, env) && TicketSteps(step)
    requires ctx.msg.jiraTicket != ""
    requires i > Branch as int ==> ctx.branch == BranchName(ctx.msg.jiraTicket)
    requires forall c :: c in trace ==> UsesTicket(c, ctx.msg.jiraTicket)
    ensures TicketKept(RunFrom(i, ctx, trace, step), ctx.msg.jiraTicket)
    decreases StageCount - i
  {
    if i < StageCount {
      var out := step(i as Stage, ctx);
      assert Framed(i as Stage, ctx, out, env) && KeepsTicket(i as Stage, ctx, out);
      InConcat(trace, out.calls);
      if out.result.Proceed? {
        RunFromTicket(i + 1, out.result.ctx, trace + out.calls, step, env);
      }
    }
  }

  /** Some issue request of `trace` was answered with the key `t`. */
  ghost predicate Issued(trace: seq<Call>, t: string, env: Services) {
    exists k :: 0 <= k < |trace| && trace[k].CreateIssue? && env.createIssue(trace[k].issue) == Success(t)
  }

  /** A completed run completes with a key the tracker answered. */
  ghost predicate CompletedIssued(r: Report, env: Services) {
    r.outcome.Completed? ==> Issued(r.trace, r.outcome.ticket, env)
  }

  lemma IssuedExtends(trace: seq<Call>, more: seq<Call>, t: string, env: Services)
    requires Issued(trace, t, env)
    ensures Issued(trace + more, t, env)
  {
    var k :| 0 <= k < |trace| && trace[k].CreateIssue? && env.createIssue(trace[k].issue) == Success(t);
    assert (trace + more)[k] == trace[k];
  }

  /** A run that starts without a ticket and completes completes with the key
      the tracker answered one of its issue requests with. */
  lemma {:induction false} RunFromIssued(i: nat, ctx: Context, trace: seq<Call>,
                                         step: (Stage, Context) -> StepOutcome, env: Services)
    requires i <= StageCount && FramedSteps(step, env)
    requires (ctx.msg.jiraTicket == "" && i <= EnsureTicket as int) || Issued(trace, ctx.msg.jiraTicket, env)
    ensures CompletedIssued(RunFrom(i, ctx, trace, step), env)
    decreases StageCount - i
  {
    if i < StageCount {
      var out := step(i as Stage, ctx);
      assert Framed(i as Stage, ctx, out, env);
      match out.result
      case Halt(_) =>
      case Proceed(next) =>
        if i == EnsureTicket as int && ctx.msg.jiraTicket == "" {
          var all := trace + out.calls;
          assert all[|trace|] == out.calls[0];
          assert all[|trace|].CreateIssue? && env.createIssue(all[|trace|].issue) == Success(next.msg.jiraTicket);
        } else if Issued(trace, ctx.msg.jiraTicket, env) {
          IssuedExtends(trace, out.calls, ctx.msg.jiraTicket, env);
        }
        RunFromIssued(i + 1, next, trace + out.calls, step, env);
    }
  }

  /** The requests that end a completed run: the success message, then the
      comment and the label on the pull request numbered `n`. */
  function Ending(m: ImportMessage, n: int, mrUrl: string, jiraHost: string, t: string): seq<Call> {
    var repo := m.repository;
    [Chat(m.slackUser, SuccessMessage(mrUrl, jiraHost, t)),
     CreateComment(repo.owner, repo.repo, n, CommentBody(t)),
     AddLabels(repo.owner, repo.repo, n, [ScheduledLabel])]
  }

  /** No request in `calls` is a comment or a label. */
  predicate NoAnnotation(calls: seq<Call>) {
    forall c :: c in calls ==> !c.CreateComment? && !c.AddLabels?
  }

  /** A completed run of the message `m` parsed the number of the pull
      request, its last three requests are the success message, the comment
      and the label, and no comment or label comes before them. */
  predicate EndsWell(r: Report, m: ImportMessage, jiraHost: string) {
    r.outcome.Completed? ==>
      && ParseInt64(m.repository.id).Some?
      && |r.trace| >= 3
      && r.trace[|r.trace| - 3..] == Ending(m.(jiraTicket := r.outcome.ticket),
                                           ParseInt64(m.repository.id).value,
                                           r.outcome.mrUrl, jiraHost, r.outcome.ticket)
      && NoAnnotation(r.trace[..|r.trace| - 2])
  }

  /** A completed run parsed the number of the pull request, and its last
      three requests are the success message, the comment and the label. */
  lemma {:induction false} RunFromEnding(i: nat, ctx: Context, trace: seq<Call>,
                                         step: (Stage, Context) -> StepOutcome, env: Services)
    requires i <= ReportSuccess as int
    requires ShapedSteps(step) && FramedSteps(step, env) && FinishingSteps(step, env)
    requires i > ParsePrId as int ==> ParseInt64(ctx.msg.repository.id) == Some(ctx.prId)
    requires NoAnnotation(trace)
    ensures EndsWell(RunFrom(i, ctx, trace, step), ctx.msg, env.jiraHost)
    decreases StageCount - i
  {
    var out := step(i as Stage, ctx);
    assert Shaped(i as Stage, ctx, out) && Framed(i as Stage, ctx, out, env);
    if i < ReportSuccess as int {
      if out.result.Proceed? {
        InConcat(trace, out.calls);
        RunFromEnding(i + 1, out.result.ctx, trace + out.calls, step, env);
      }
    } else {
      var ending := Ending(ctx.msg, ctx.prId, ctx.mrUrl, env.jiraHost, ctx.msg.jiraTicket);
      FinalStages(ctx, trace, step, env);
      assert ctx.msg.(jiraTicket := ctx.msg.jiraTicket) == ctx.msg;
      assert (trace + ending)[|trace + ending| - 3..] == ending;
      assert (trace + ending)[..|trace + ending| - 2] == trace + [ending[0]];
      InConcat(trace, [ending[0]]);
    }
  }

  /** The last two stages always complete, with the success message, the
      comment and the label. */
  lemma FinalStages(ctx: Context, trace: seq<Call>, step: (Stage, Context) -> StepOutcome, env: Services)
    requires ShapedSteps(step) && FramedSteps(step, env) && FinishingSteps(step, env)
    ensures RunFrom(ReportSuccess as nat, ctx, trace, step)
              == Report(trace + Ending(ctx.msg, ctx.prId, ctx.mrUrl, env.jiraHost, ctx.msg.jiraTicket),
                        Completed(ctx.mrUrl, ctx.msg.jiraTicket))
  {
    var out := step(ReportSuccess, ctx);
    assert Shaped(ReportSuccess, ctx, out) && Framed(ReportSuccess, ctx, out, env);
    assert Finishing(ReportSuccess, ctx, out, env);
    var next := out.result.ctx;
    var last := step(Annotate, next);
    assert Shaped(Annotate, next, last) && Framed(Annotate, next, last, env);
    assert Finishing(Annotate, next, last, env);
    var final := last.result.ctx;
    assert out.calls + last.calls == Ending(ctx.msg, ctx.prId, ctx.mrUrl, env.jiraHost, ctx.msg.jiraTicket);
    assert RunFrom(Annotate as nat + 1, final, trace + out.calls + last.calls, step)
             == Report(trace + out.calls + last.calls, Completed(final.mrUrl, final.msg.jiraTicket));
  }

  /** The properties above, for a whole run of the message `m` by any
      lawful stepper. */
  lemma StartProperties(m: ImportMessage, step: (Stage, Context) -> StepOutcome, env: Services)
    requires Lawful(step, env)
    ensures AbortedCleanly(RunFrom(0, Initial(m), [], step), 0)
    ensures NoticeLast(RunFrom(0, Initial(m), [], step), m.slackUser)
    ensures m.jiraTicket != "" ==> TicketKept(RunFrom(0, Initial(m), [], step), m.jiraTicket)
    ensures m.jiraTicket == "" ==> CompletedIssued(RunFrom(0, Initial(m), [], step), env)
    ensures EndsWell(RunFrom(0, Initial(m), [], step), m, env.jiraHost)
  {
    var ctx := Initial(m);
    assert ctx.msg == m;
    RunFromAborted(0, ctx, [], step);
    RunFromNotice(0, ctx, [], step, m.slackUser);
    if m.jiraTicket != "" {
      RunFromTicket(0, ctx, [], step, env);
    } else {
      RunFromIssued(0, ctx, [], step, env);
    }
    RunFromEnding(0, ctx, [], step, env);
  }

  // ---------------------------------------------------------------------------
  // What handleMessage does

  /** A run that is aborted made no request belonging to a later stage, in
      particular no merge request after a failed import and no comment or
      label at all; unless the stage only logs, its last request tells the
      requester why. */
  lemma RunAborted(m: ImportMessage, env: Services)
    ensures var r := Run(m, env);
            r.outcome.Aborted? ==>
              && r.outcome.stage < ReportSuccess
              && (forall c :: c in r.trace ==> Origin(c) <= r.outcome.stage)
              && (r.outcome.notice.None? ==> Silent(r.outcome.stage))
              && (r.outcome.notice.Some? ==>
                    |r.trace| > 0 && r.trace[|r.trace| - 1] == Chat(m.slackUser, r.outcome.notice.value))
  {
    StepperLawful(env);
    AbortedFrom(m, Stepper(env), env);
  }

  /** For any lawful stage function: how a run from the message can be aborted. */
  lemma AbortedFrom(m: ImportMessage, step: (Stage, Context) -> StepOutcome, env: Services)
    requires Lawful(step, env)
    ensures var r := RunFrom(0, Initial(m), [], step);
            AbortedCleanly(r, 0) && NoticeLast(r, m.slackUser)
  {
    StartProperties(m, step, env);
  }

  /** A failed import is never followed by a merge request, a comment or a
      label. */
  lemma BranchFailureNoMergeRequest(m: ImportMessage, env: Services)
    requires Run(m, env).outcome.Aborted? && Run(m, env).outcome.stage == Branch
    ensures forall c :: c in Run(m, env).trace ==>
              !c.CreateMergeRequest? && !c.CreateComment? && !c.AddLabels?
  {
    StepperLawful(env);
    BranchFailureFrom(m, Stepper(env), env);
  }

  /** For any lawful stage function: a run aborted at the branch stage opened no merge request. */
  lemma BranchFailureFrom(m: ImportMessage, step: (Stage, Context) -> StepOutcome, env: Services)
    requires Lawful(step, env)
    requires RunFrom(0, Initial(m), [], step).outcome.Aborted?
    requires RunFrom(0, Initial(m), [], step).outcome.stage == Branch
    ensures forall c :: c in RunFrom(0, Initial(m), [], step).trace ==>
              !c.CreateMergeRequest? && !c.CreateComment? && !c.AddLabels?
  {
    var r := RunFrom(0, Initial(m), [], step);
    StartProperties(m, step, env);
    assert AbortedCleanly(r, 0);
    NoLaterRequests(r.trace, Branch);
  }

  lemma NoLaterRequests(calls: seq<Call>, stage: Stage)
    requires stage <= Branch && forall c :: c in calls ==> Origin(c) <= stage
    ensures forall c :: c in calls ==> !c.CreateMergeRequest? && !c.CreateComment? && !c.AddLabels?
  {
    forall c | c in calls ensures !c.CreateMergeRequest? && !c.CreateComment? && !c.AddLabels? {
      assert Origin(c) <= stage;
    }
  }

  /** A supplied ticket is used unchanged: no issue is requested, every
      branch, commit message, merge request and comment is that of the
      ticket, and a completed run reports it. */
  lemma SuppliedTicketUsed(m: ImportMessage, env: Services)
    requires m.jiraTicket != ""
    ensures var r := Run(m, env);
            && (forall c :: c in r.trace ==> UsesTicket(c, m.jiraTicket) && !c.CreateIssue?)
            && (r.outcome.Completed? ==> r.outcome.ticket == m.jiraTicket)
  {
    StepperLawful(env);
    SuppliedTicketFrom(m, Stepper(env), env);
  }

  /** For any lawful stage function: a supplied ticket is used throughout. */
  lemma SuppliedTicketFrom(m: ImportMessage, step: (Stage, Context) -> StepOutcome, env: Services)
    requires m.jiraTicket != "" && Lawful(step, env)
    ensures TicketKept(RunFrom(0, Initial(m), [], step), m.jiraTicket)
  {
    StartProperties(m, step, env);
  }

  /** Without a supplied ticket, a completed run completes with the key the
      tracker answered an issue request with. */
  lemma CreatedTicketUsed(m: ImportMessage, env: Services)
    requires m.jiraTicket == ""
    ensures var r := Run(m, env);
            r.outcome.Completed? ==> Issued(r.trace, r.outcome.ticket, env)
  {
    StepperLawful(env);
    CreatedTicketFrom(m, Stepper(env), env);
  }

  /** For any lawful stage function: a created ticket is one the tracker returned. */
  lemma CreatedTicketFrom(m: ImportMessage, step: (Stage, Context) -> StepOutcome, env: Services)
    requires m.jiraTicket == "" && Lawful(step, env)
    ensures CompletedIssued(RunFrom(0, Initial(m), [], step), env)
  {
    StartProperties(m, step, env);
  }

  /** A completed run parsed the number from the message, and ends with the
      success message naming the merge request and the ticket, then the
      comment and the "Scheduled" label on that pull request; no earlier
      request is a comment or a label, so the comment and the label come only
      after the success message (`EndsWell` spells these out). */
  lemma CompletedEnding(m: ImportMessage, env: Services)
    ensures EndsWell(Run(m, env), m, env.jiraHost)
  {
    StepperLawful(env);
    EndingFrom(m, Stepper(env), env);
  }

  /** For any lawful stage function: how a completed run ends. */
  lemma EndingFrom(m: ImportMessage, step: (Stage, Context) -> StepOutcome, env: Services)
    requires Lawful(step, env)
    ensures EndsWell(RunFrom(0, Initial(m), [], step), m, env.jiraHost)
  {
    StartProperties(m, step, env);
  }

  /** When the first chat message cannot be sent, the run ends there, silently. */
  lemma NotifyFailureAborts(m: ImportMessage, env: Services)
    requires env.postMessage(m.slackUser, StartMessage).Some?
    ensures Run(m, env) == Report([Chat(m.slackUser, StartMessage)], Aborted(Notify, None))
  {
    assert Stepper(env)(Notify, Initial(m)) == NotifyStep(Initial(m), env);
  }

  /** A repository outside the table ends the run at its lookup: the
      requester is told it is unknown, and nothing else is requested. */
  lemma UnknownRepositoryAborts(m: ImportMessage, env: Services, user: ChatUser)
    requires env.postMessage(m.slackUser, StartMessage).None?
    requires env.getUser(m.slackUser) == Success(user)
    requires Lookup(FullName(m.repository)).None?
    ensures var notice := UnknownRepositoryMessage(FullName(m.repository));
            Run(m, env) == Report([Chat(m.slackUser, StartMessage), GetUserInfo(m.slackUser),
                                   Chat(m.slackUser, notice)],
                                  Aborted(ResolveMapping, Some(notice)))
  {
    var u := m.slackUser;
    var trace := [Chat(u, StartMessage), GetUserInfo(u)];
    assert Run(m, env) == RunFrom(2, Initial(m).(user := user), trace, Stepper(env));
    UnknownRepositoryFrom(Initial(m).(user := user), trace, env);
  }

  lemma UnknownRepositoryFrom(ctx: Context, trace: seq<Call>, env: Services)
    requires Lookup(FullName(ctx.msg.repository)).None?
    ensures var notice := UnknownRepositoryMessage(FullName(ctx.msg.repository));
            RunFrom(2, ctx, trace, Stepper(env))
              == Report(trace + [Chat(ctx.msg.slackUser, notice)], Aborted(ResolveMapping, Some(notice)))
  {
  }

  /** A message whose link has an empty number never completes (the link
      pattern of the intake handler accepts such links). */
  lemma EmptyNumberNeverCompletes(m: ImportMessage, env: Services)
    requires m.repository.id == ""
    ensures Run(m, env).outcome.Aborted?
  {
    CompletedEnding(m, env);
  }

  // ---------------------------------------------------------------------------
  // The queue handler (HandleRequest): one run per record whose body decodes

  /** The messages of the records whose bodies decode, in record order; a
      body that does not decode is skipped. */
  function Decoded(bodies: seq<string>, decode: string -> Option<ImportMessage>): (ms: seq<ImportMessage>)
    ensures |ms| <= |bodies|
    ensures forall m :: m in ms ==> exists b :: b in bodies && decode(b) == Some(m)
  {
    if |bodies| == 0 then []
    else
      var init := bodies[..|bodies| - 1];
      var last := bodies[|bodies| - 1];
      assert forall b :: b in init ==> b in bodies;
      match decode(last)
      case None => Decoded(init, decode)
      case Some(m) => Decoded(init, decode) + [m]
  }

  /** Records are decoded independently of each other. */
  lemma {:induction false} DecodedAppend(a: seq<string>, b: seq<string>, decode: string -> Option<ImportMessage>)
    ensures Decoded(a + b, decode) == Decoded(a, decode) + Decoded(b, decode)
    decreases |b|
  {
    if |b| > 0 {
      var b' := b[..|b| - 1];
      assert (a + b)[..|a + b| - 1] == a + b';
      DecodedAppend(a, b', decode);
    } else {
      assert a + b == a;
    }
  }

  /** When every body decodes, each record yields its own message, in order. */
  lemma {:induction false} DecodedAll(bodies: seq<string>, decode: string -> Option<ImportMessage>)
    requires forall k :: 0 <= k < |bodies| ==> decode(bodies[k]).Some?
    ensures var ms := Decoded(bodies, decode);
            |ms| == |bodies| && forall k :: 0 <= k < |bodies| ==> Some(ms[k]) == decode(bodies[k])
  {
    if |bodies| > 0 {
      DecodedAll(bodies[..|bodies| - 1], decode);
    }
  }

  /** HandleRequest: each record's body is decoded; a body that does not
      decode is skipped, every other one is handled by a run of its own. */
  method HandleRecords(bodies: seq<string>, decode: string -> Option<ImportMessage>, env: Services)
    returns (reports: seq<Report>)
    ensures var ms := Decoded(bodies, decode);
            |reports| == |ms| && forall k :: 0 <= k < |ms| ==> reports[k] == Run(ms[k], env)
  {
    reports := [];
    for i := 0 to |bodies|
      invariant var ms := Decoded(bodies[..i], decode);
                |reports| == |ms| && forall k :: 0 <= k < |ms| ==> reports[k] == Run(ms[k], env)
    {
      assert bodies[..i + 1][..i] == bodies[..i];
      ghost var done := Decoded(bodies[..i], decode);
      match decode(bodies[i])
      case None =>
        assert Decoded(bodies[..i + 1], decode) == done;
      case Some(m) =>
        var report := HandleMessage(m, env);
        assert Decoded(bodies[..i + 1], decode) == done + [m];
        reports := reports + [report];
    }
    assert bodies[..|bodies|] == bodies;
  }
}
