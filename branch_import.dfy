/** importBranch (lambda/importer/main.go:171-245): the pull request's head is
    fetched into a clone of its base repository, squashed onto one commit whose
    message names the ticket, and pushed to the mapped merge-request project.
    The work is a fixed sequence of `git` commands, each of which may fail; the
    first failure ends the import with that command's error text. What a
    command does to the repository is not modelled, only which commands run,
    with which arguments, and whether each succeeds. */
module BranchImport {
  import opened Wrappers
  import opened Text
  import opened External
  import opened RepoMapping

  /** One `git` invocation. Every command after the clone runs inside the
      cloned directory. */
  datatype GitCommand =
    | Clone(url: string, dir: string)                     // git clone <url> <dir>
    | ConfigSet(key: string, value: string)               // git config <key> <value>
    | RemoteAdd(name: string, url: string)                // git remote add <name> <url>
    | Fetch(remote: string, branch: string)               // git fetch <remote> <branch>
    | CheckoutNewBranch(branch: string, startPoint: string) // git checkout -b <branch> <start>
    | ResetSoft(revision: string)                         // git reset --soft <revision>
    | CommitAmend(message: string)                        // git commit --amend -m <message>
    | PushUpstream(url: string, branch: string)           // git push -u <url> <branch>

  /** How a command ended: success, or the error and the captured output. */
  datatype ExecResult = Ran | Failed(err: string, output: string)

  /** The temporary directory and the credentials of the push. */
  datatype Workspace = Workspace(dir: string, gitlabUsername: string, gitlabPassword: string)

  const RemoteName := "github-pr-head"
  const BranchSuffix := "/auto-imported-from-github"
  const Separator := " - "
  const FixesMarker := "\nfixes #"

  // ---------------------------------------------------------------------------
  // The pure rules

  /** The imported branch: the lower-cased ticket key followed by a fixed
      suffix. */
  function BranchName(ticket: string): (r: string)
    ensures |r| == |ticket| + |BranchSuffix| && HasSuffix(r, BranchSuffix)
    ensures forall i :: 0 <= i < |ticket| ==> r[i] == LowerChar(ticket[i])
  {
    var r := Lower(ticket) + BranchSuffix;
    assert r[|r| - |BranchSuffix|..] == BranchSuffix;
    r
  }

  /** Two tickets give the same branch exactly when they agree up to the case
      of their letters. */
  lemma BranchNameSameIff(t1: string, t2: string)
    ensures BranchName(t1) == BranchName(t2) <==> Lower(t1) == Lower(t2)
  {
    if BranchName(t1) == BranchName(t2) {
      assert "" + Lower(t1) + BranchSuffix == BranchName(t1);
      assert "" + Lower(t2) + BranchSuffix == BranchName(t2);
      FrameCancel("", Lower(t1), Lower(t2), BranchSuffix);
    }
  }

  /** The message of the squashed commit: the ticket key (left out when the
      first commit's message already starts with it), " - ", the first
      commit's message, and "\nfixes #" with the pull request number. The
      " - " stays even when the key is left out. */
  function CommitMessage(ticket: string, previous: string, number: int): (r: string)
    ensures HasSuffix(r, FixesMarker + IntToString(number))
    ensures HasPrefix(previous, ticket) ==> HasPrefix(r, Separator + previous)
    ensures !HasPrefix(previous, ticket) ==> HasPrefix(r, ticket + Separator + previous)
    ensures |r| == (if HasPrefix(previous, ticket) then 0 else |ticket|) + |Separator| + |previous|
                   + |FixesMarker + IntToString(number)|
  {
    var lead := if !HasPrefix(previous, ticket) then ticket + Separator + previous
                else Separator + previous;
    var r := lead + (FixesMarker + IntToString(number));
    assert r[..|lead|] == lead;
    r
  }

  /** The ticket key stands at the front of a squashed message: before the
      separator when it was added, right after it when the first commit's
      message already began with it. */
  predicate TicketLed(message: string, ticket: string) {
    HasPrefix(message, ticket + Separator) || HasPrefix(message, Separator + ticket)
  }

  lemma CommitMessageTicketLed(ticket: string, previous: string, number: int)
    ensures TicketLed(CommitMessage(ticket, previous, number), ticket)
  {
    var r := CommitMessage(ticket, previous, number);
    if HasPrefix(previous, ticket) {
      assert (Separator + previous)[..|Separator + ticket|] == Separator + previous[..|ticket|];
      assert r[..|Separator + ticket|] == (Separator + previous)[..|Separator + ticket|];
    } else {
      assert r[..|ticket + Separator|] == (ticket + Separator + previous)[..|ticket + Separator|];
    }
  }

  /** Reads the first commit's message back out of a squashed commit message,
      given the ticket and the number. */
  function PreviousMessage(message: string, ticket: string, number: int): (r: Option<string>)
    ensures r.Some? ==> HasSuffix(message, FixesMarker + IntToString(number))
  {
    var suffix := FixesMarker + IntToString(number);
    if !HasSuffix(message, suffix) then None
    else StripKey(message[..|message| - |suffix|], ticket)
  }

  /** Removes the key part and the separator from the front of a squashed
      message's first line. */
  function StripKey(core: string, ticket: string): Option<string> {
    if HasPrefix(core, Separator) && HasPrefix(core[|Separator|..], ticket) then
      Some(core[|Separator|..])
    else if HasPrefix(core, ticket + Separator) then
      Some(core[|ticket + Separator|..])
    else None
  }

  lemma StripKeyRecovers(ticket: string, previous: string)
    requires ticket == "" || ticket[0] != ' '
    ensures var head := if !HasPrefix(previous, ticket) then ticket else "";
            StripKey(head + Separator + previous, ticket) == Some(previous)
  {
    var head := if !HasPrefix(previous, ticket) then ticket else "";
    var core := head + Separator + previous;
    if HasPrefix(previous, ticket) {
      assert core == Separator + previous;
      assert core[|Separator|..] == previous;
    } else {
      assert core[0] == ticket[0] != ' ';
      assert core == (ticket + Separator) + previous;
      assert core[|ticket + Separator|..] == previous;
    }
  }

  lemma StripSuffix(core: string, suffix: string)
    ensures HasSuffix(core + suffix, suffix)
    ensures (core + suffix)[..|core + suffix| - |suffix|] == core
  {
    assert (core + suffix)[|core|..] == suffix;
  }

  /** Round trip: the first commit's message is recoverable from the squashed
      message, so the rule loses nothing and never doubles the key. The ticket
      is free text from the dialog; the round trip is promised only for a
      ticket that does not start with a space, which is what the requires
      states. */
  lemma PreviousMessageRecovers(ticket: string, previous: string, number: int)
    requires ticket == "" || ticket[0] != ' '
    ensures PreviousMessage(CommitMessage(ticket, previous, number), ticket, number) == Some(previous)
  {
    var suffix := FixesMarker + IntToString(number);
    var head := if !HasPrefix(previous, ticket) then ticket else "";
    var core := head + Separator + previous;
    assert CommitMessage(ticket, previous, number) == core + suffix;
    StripSuffix(core, suffix);
    StripKeyRecovers(ticket, previous);
  }

  /** The push target: the clone endpoint of the mapped project with the
      credentials in its user-info part. */
  function PushUrl(ws: Workspace, mapping: RepositoryMapping): (r: string)
    ensures HasPrefix(r, "https://") && HasSuffix(r, "@" + mapping.gitlabCloneUrl)
    ensures |r| == |"https://"| + |ws.gitlabUsername + ":" + ws.gitlabPassword| + |"@" + mapping.gitlabCloneUrl|
    ensures r[|"https://"|..|r| - |"@" + mapping.gitlabCloneUrl|] == ws.gitlabUsername + ":" + ws.gitlabPassword
  {
    var r := "https://" + ws.gitlabUsername + ":" + ws.gitlabPassword + "@" + mapping.gitlabCloneUrl;
    assert r == ("https://" + ws.gitlabUsername + ":" + ws.gitlabPassword) + ("@" + mapping.gitlabCloneUrl);
    r
  }

  // ---------------------------------------------------------------------------
  // The command sequence

  /** The commands importBranch runs when none fails: clone, the committer's
      e-mail and name, the head remote, fetch, checkout, a soft reset onto the
      first commit when the pull request has more than one, amend, push. */
  function Plan(pr: PullRequest, commits: CommitList, ticket: string,
                mapping: RepositoryMapping, user: ChatUser, ws: Workspace): (p: seq<GitCommand>)
    ensures |p| == if pr.commitCount > 1 then 9 else 8
  {
    var branch := BranchName(ticket);
    [ Clone(pr.baseCloneUrl, ws.dir),
      ConfigSet("user.email", user.email),
      ConfigSet("user.name", user.realName),
      RemoteAdd(RemoteName, pr.headCloneUrl),
      Fetch(RemoteName, pr.headRef),
      CheckoutNewBranch(branch, RemoteName + "/" + pr.headRef) ]
    + (if pr.commitCount > 1 then [ResetSoft(commits[0].sha)] else [])
    + [ CommitAmend(CommitMessage(ticket, commits[0].message, pr.number)),
        PushUpstream(PushUrl(ws, mapping), branch) ]
  }

  /** A soft reset is in the plan exactly when the pull request has more than
      one commit, and it goes back to the first commit of the list. */
  lemma ResetIffSeveralCommits(pr: PullRequest, commits: CommitList, ticket: string,
                               mapping: RepositoryMapping, user: ChatUser, ws: Workspace)
    ensures var p := Plan(pr, commits, ticket, mapping, user, ws);
            (exists i :: 0 <= i < |p| && p[i].ResetSoft?) <==> pr.commitCount > 1
    ensures var p := Plan(pr, commits, ticket, mapping, user, ws);
            forall i :: 0 <= i < |p| && p[i].ResetSoft? ==> p[i] == ResetSoft(commits[0].sha)
  {
    var p := Plan(pr, commits, ticket, mapping, user, ws);
    if pr.commitCount > 1 {
      assert p[6].ResetSoft?;
    }
  }

  /** The fixed order: clone, configure, add the remote, fetch, check out the
      branch; then amend with the composed message and push the branch, which
      are the last two commands. */
  lemma PlanOrder(pr: PullRequest, commits: CommitList, ticket: string,
                  mapping: RepositoryMapping, user: ChatUser, ws: Workspace)
    ensures var p := Plan(pr, commits, ticket, mapping, user, ws);
            && p[0] == Clone(pr.baseCloneUrl, ws.dir)
            && p[1] == ConfigSet("user.email", user.email)
            && p[2] == ConfigSet("user.name", user.realName)
            && p[3] == RemoteAdd(RemoteName, pr.headCloneUrl)
            && p[4] == Fetch(RemoteName, pr.headRef)
            && p[5] == CheckoutNewBranch(BranchName(ticket), RemoteName + "/" + pr.headRef)
            && p[|p| - 2] == CommitAmend(CommitMessage(ticket, commits[0].message, pr.number))
            && p[|p| - 1] == PushUpstream(PushUrl(ws, mapping), BranchName(ticket))
  {
  }

  /** Only the first commit of the list is read: lists that agree on it give
      the same commands. */
  lemma PlanReadsFirstCommitOnly(pr: PullRequest, c1: CommitList, c2: CommitList, ticket: string,
                                 mapping: RepositoryMapping, user: ChatUser, ws: Workspace)
    requires c1[0] == c2[0]
    ensures Plan(pr, c1, ticket, mapping, user, ws) == Plan(pr, c2, ticket, mapping, user, ws)
  {
  }

  // ---------------------------------------------------------------------------
  // Running the commands

  /** The error text importBranch returns when `c` fails. */
  function FailureMessage(c: GitCommand, err: string, output: string): string {
    match c
    case Clone(_, _) => "error while cloning repository: " + err + ", output: " + output
    case ConfigSet(_, _) => "error while setting git config: " + err
    case RemoteAdd(_, _) => "error while adding remote: " + err
    case Fetch(_, _) => "error while fetching branch: " + err
    case CheckoutNewBranch(_, _) => "error while checking out branch: " + err
    case ResetSoft(_) => "error while resetting branch: " + err
    case CommitAmend(_) => "error while amending commit: " + err + " " + output
    case PushUpstream(_, _) => "error while pushing branch: " + err + " " + output
  }

  /** Index of the first command of `plan` that fails, or `|plan|` when all
      succeed. */
  function FirstFailure(plan: seq<GitCommand>, git: GitCommand -> ExecResult): (k: nat)
    ensures k <= |plan|
    ensures forall j :: 0 <= j < k ==> git(plan[j]).Ran?
    ensures k < |plan| ==> git(plan[k]).Failed?
  {
    if |plan| == 0 || git(plan[0]).Failed? then 0
    else 1 + FirstFailure(plan[1..], git)
  }

  /** The commands that ran, and the error text if one failed. */
  datatype GitRun = GitRun(ran: seq<GitCommand>, error: Option<string>)

  /** Runs `plan` up to and including its first failure. */
  function Execute(plan: seq<GitCommand>, git: GitCommand -> ExecResult): (r: GitRun)
    ensures r.error.None? <==> forall j :: 0 <= j < |plan| ==> git(plan[j]).Ran?
    ensures r.error.None? ==> r.ran == plan
    ensures r.error.Some? ==> 0 < |r.ran| <= |plan| && r.ran == plan[..|r.ran|]
    ensures r.error.Some? ==>
      var last := r.ran[|r.ran| - 1];
      && (forall j :: 0 <= j < |r.ran| - 1 ==> git(r.ran[j]).Ran?)
      && git(last).Failed?
      && r.error.value == FailureMessage(last, git(last).err, git(last).output)
  {
    var k := FirstFailure(plan, git);
    if k == |plan| then GitRun(plan, None)
    else
      var last := plan[k];
      GitRun(plan[..k + 1], Some(FailureMessage(last, git(last).err, git(last).output)))
  }

  /** What importBranch returns, with the commands it ran. */
  datatype ImportOutcome = ImportOutcome(ran: seq<GitCommand>, result: Result<string, string>)

  /** The commands that name a branch or a message name the ones derived
      from `ticket`. */
  predicate NamesTicket(c: GitCommand, ticket: string) {
    match c
    case CheckoutNewBranch(branch, _) => branch == BranchName(ticket)
    case CommitAmend(message) => TicketLed(message, ticket)
    case PushUpstream(_, branch) => branch == BranchName(ticket)
    case _ => true
  }

  /** Every command of the plan derives its branch and message from the
      ticket it was given. */
  lemma PlanNamesTicket(pr: PullRequest, commits: CommitList, ticket: string,
                        mapping: RepositoryMapping, user: ChatUser, ws: Workspace)
    ensures forall c :: c in Plan(pr, commits, ticket, mapping, user, ws) ==> NamesTicket(c, ticket)
  {
    CommitMessageTicketLed(ticket, commits[0].message, pr.number);
  }

  /** importBranch: on success the imported branch's name. */
  function Import(pr: PullRequest, commits: CommitList, ticket: string, mapping: RepositoryMapping,
                  user: ChatUser, ws: Workspace, git: GitCommand -> ExecResult): (o: ImportOutcome)
    ensures o.result.Success? ==> o.result.value == BranchName(ticket)
    ensures forall c :: c in o.ran ==> NamesTicket(c, ticket)
  {
    PlanNamesTicket(pr, commits, ticket, mapping, user, ws);
    var run := Execute(Plan(pr, commits, ticket, mapping, user, ws), git);
    match run.error
    case None => ImportOutcome(run.ran, Success(BranchName(ticket)))
    case Some(e) => ImportOutcome(run.ran, Failure(e))
  }

  /** Every command that ran, except the last one, succeeded: a command runs
      only when every command before it succeeded (so the push, the last
      command, runs only after all the others did). The import succeeds
      exactly when every command, the push included, did. */
  lemma PushOnlyAfterSuccess(pr: PullRequest, commits: CommitList, ticket: string,
                             mapping: RepositoryMapping, user: ChatUser, ws: Workspace,
                             git: GitCommand -> ExecResult)
    ensures var o := Import(pr, commits, ticket, mapping, user, ws, git);
            forall j :: 0 <= j < |o.ran| - 1 ==> git(o.ran[j]).Ran?
    ensures var o := Import(pr, commits, ticket, mapping, user, ws, git);
            var p := Plan(pr, commits, ticket, mapping, user, ws);
            o.result.Success? <==> forall j :: 0 <= j < |p| ==> git(p[j]).Ran?
  {
    var p := Plan(pr, commits, ticket, mapping, user, ws);
    var run := Execute(p, git);
    assert Import(pr, commits, ticket, mapping, user, ws, git).ran == run.ran;
  }

  /** The commands one after another, stopping at the first that fails. */
  method RunCommands(plan: seq<GitCommand>, git: GitCommand -> ExecResult)
    returns (ran: seq<GitCommand>, error: Option<string>)
    ensures GitRun(ran, error) == Execute(plan, git)
  {
    ran := [];
    var i := 0;
    while i < |plan|
      invariant 0 <= i <= |plan|
      invariant ran == plan[..i]
      invariant forall j :: 0 <= j < i ==> git(plan[j]).Ran?
    {
      var c := plan[i];
      ran := ran + [c];
      match git(c)
      case Failed(err, output) =>
        assert FirstFailure(plan, git) == i;
        error := Some(FailureMessage(c, err, output));
        return;
      case Ran =>
      i := i + 1;
    }
    assert ran == plan;
    error := None;
  }

  /** importBranch as the Go code runs it. */
  method ImportBranch(pr: PullRequest, commits: CommitList, ticket: string, mapping: RepositoryMapping,
                      user: ChatUser, ws: Workspace, git: GitCommand -> ExecResult)
    returns (ran: seq<GitCommand>, result: Result<string, string>)
    ensures ImportOutcome(ran, result) == Import(pr, commits, ticket, mapping, user, ws, git)
  {
    var error;
    ran, error := RunCommands(Plan(pr, commits, ticket, mapping, user, ws), git);
    match error
    case None => result := Success(BranchName(ticket));
    case Some(e) => result := Failure(e);
  }
}
