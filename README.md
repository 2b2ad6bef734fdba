# gh-import-slack, modelled in Dafny

gh-import-slack lets a chat user import a GitHub pull request into GitLab. It
has two functions.

- **Intake handler** (`lambda/slack/main.go`). A shortcut in the chat opens a
  dialog. When the dialog comes back, the pull-request link is checked against
  a regular expression. A valid link becomes an import message on a queue;
  an invalid one gets a validation error on the link field.
- **Import worker** (`lambda/importer/main.go`). It takes the messages off the
  queue and handles each one in a fixed series of stages:
  1. tell the requester the import has started;
  2. fetch the requester's profile;
  3. look up the repository's destination in a static table;
  4. build the GitHub client, then parse the pull-request number;
  5. fetch the pull request and its commits;
  6. create a Jira issue, unless the message names one;
  7. import the branch with `git`;
  8. open the merge request;
  9. report success;
  10. comment on the pull request and label it "Scheduled".

  The first stage that fails ends the run. Usually it first sends the
  requester a message saying why.

The model has these modules:

- `Wrappers`: `Option` and `Result`.
- `Text`: the pieces of Go's `strings` and `strconv` the code uses.
- `External`: the pull request, commit and chat-profile records the worker
  reads.
- `SharedTypes` (`lambda/shared/types.go`): the queue message and
  `GetFullName`.
- `RepoMapping` (`lambda/shared/repo.go`): the destination table.
- `PrLink`: the link regular expression, read the way Go's RE2 reads it:
  - `(?m)` matches line by line;
  - the `.` of `github.com` is unescaped, so any character but `'\n'` matches;
  - the groups may be empty.
- `Intake`: the intake handler.
- `Requests`: the merge-request options, the issue fields and the message
  texts.
- `BranchImport`: `importBranch`, a fixed list of `git` commands that stops at
  the first failure.
- `Importer`:
  - `handleMessage`, as a list of stages run one after another;
  - the record loop of `HandleRequest`.

External services are not modelled. The worker receives them as functions in
a `Services` value, and each one answers a request with a value or an error.
Every request a run makes is recorded, in order, in its trace.

Each stage promises:

- which requests it may make;
- what it changes and what it leaves alone;
- how it may end the run.

Each stage is proved to keep these promises (`Obeys`). The properties of a
whole run are then proved by induction over the stages, for any stage function
that keeps them, and applied to the worker's own stages.

`handleMessage` and `importBranch` are also written as methods that loop over
the stages and over the commands. Each method is proved equal to the function
that defines the run.

The first chat message ("Importing your PR...") is not best effort. When
sending it fails, `handleMessage` returns (`lambda/importer/main.go:46-49`),
and the model ends the run there with nothing further sent.

## Model

| member | source | states |
|---|---|---|
| SharedTypes.FullName | lambda/shared/types.go:16-18 | the key is the owner, then '/', then exactly the repository, for any owner; its length is \|owner\| + \|repo\| + 1 |
| SharedTypes.SplitFullName | lambda/shared/types.go:17 | splitting at the first '/' succeeds iff the text holds a '/', and gives back a '/'-free head and the rest, which join to the input |
| SharedTypes.SplitFullNameInverse | lambda/shared/types.go:16-18 | if the owner holds no '/', splitting the full name recovers owner and repository exactly |
| SharedTypes.FullNameIgnoresId | lambda/shared/types.go:16-18 | pull requests that differ only in their number have the same full name |
| RepoMapping.GetRepositoryMapping | lambda/shared/repo.go:9-32 | the table is a constant with four entries |
| RepoMapping.Lookup | lambda/shared/repo.go:9-32 | the lookup finds an entry iff the key is in the table, and then returns that entry |
| RepoMapping.KnownRepositories | lambda/shared/repo.go:10-31 | the keys are exactly shopware/platform, SwagPayPal, SwagMigrationConnector and SwagMigrationMagento |
| RepoMapping.UnknownRepositoryNotFound | lambda/shared/repo.go:9-32 | any other key is not found |
| RepoMapping.PlatformMapping | lambda/shared/repo.go:11-15 | shopware/platform maps to NEXT, project 1 and its clone URL |
| RepoMapping.IssueKeyNotInjective | lambda/shared/repo.go:21-30 | both migration repositories use the issue key MIG, with projects 102 and 69 |
| RepoMapping.ProjectIdsDistinct | lambda/shared/repo.go:13-28 | no two entries share a GitLab project id |
| Text.IndexOf | lambda/slack/main.go:36 | the result is the first position where the pattern occurs, or none when it occurs nowhere |
| Text.HasPrefix | lambda/importer/main.go:226 | `strings.HasPrefix`: the text begins with the prefix; `CommitMessage` and `CommitMessageTicketLed` state what the commit message makes of it |
| Text.ReplaceFirst | lambda/slack/main.go:36 | with no occurrence the text is unchanged; otherwise the first occurrence, and only it, is replaced: the text before it and the text after it are kept |
| Text.Lower | lambda/importer/main.go:195 | keeps the length and lowers each ASCII capital letter in place |
| Text.IntToString | lambda/importer/main.go:230 | nonempty, and starts with a digit iff the number is not negative; all digits after an optional '-', with no leading zero |
| Text.ParseInt64 | lambda/importer/main.go:86 | parses iff the text is a numeral (an optional '+' or '-', then one or more digits, nothing else) whose value lies in the 64-bit range, and then yields that value; so the empty text, a bare sign or any other character fails |
| Text.ParseIntToString | lambda/importer/main.go:86 | parsing the decimal rendering of any 64-bit integer gives that integer back |
| PrLink.SegmentLength | lambda/slack/main.go:23 | the longest prefix drawn from `[\w-]`: every character before it is in the class, and the one after it is not |
| PrLink.SplitSegment | lambda/slack/main.go:23 | splits the text into a `[\w-]*` part and a rest that does not start with a character of the class |
| PrLink.MatchPathSound | lambda/slack/main.go:23 | what the group matcher returns rebuilds the text it was given, with well-formed groups |
| PrLink.MatchPathComplete | lambda/slack/main.go:23 | the path of any well-formed triple is matched back to that triple |
| PrLink.MatchLineCorrect | lambda/slack/main.go:23 | a line yields given groups iff it is, as a whole, an instance of the pattern with those groups |
| PrLink.Lines | lambda/slack/main.go:23 | every text has at least one line |
| PrLink.LinesJoin | lambda/slack/main.go:23 | no line holds '\n', and joining the lines with '\n' rebuilds the text |
| PrLink.LinesAppend | lambda/slack/main.go:23 | the lines of `a + "\n" + b` are those of a followed by those of b |
| PrLink.MatchLine | lambda/slack/main.go:23 | the pattern on one line, anchored at both ends; `MatchLineCorrect` states what it accepts and the groups it yields |
| PrLink.FirstHit | lambda/slack/main.go:143 | returns the first line where the matcher succeeds; it fails on every line before |
| PrLink.FirstMatchIffSomeDenotes | lambda/slack/main.go:23 | some line yields a match iff some line is an instance of the pattern |
| PrLink.FindSubmatch | lambda/slack/main.go:143 | `FindStringSubmatch`: the groups of the first line that is, as a whole, a link; `FindSubmatchFirstDenoting`, `FirstMatchIffSomeDenotes`, `FindSubmatchOneLine` and `MatchOnLaterLine` state it |
| PrLink.FirstMatchIsFirstDenoting | lambda/slack/main.go:143 | the line where the first match is found is, as a whole, a link with those groups, and no earlier line is a link to any pull request |
| PrLink.FirstDenotingIsFirstMatch | lambda/slack/main.go:143 | conversely, a line that is a link with given groups and has no link before it is where the first match is found, with those groups |
| PrLink.FirstMatchFirstDenoting | lambda/slack/main.go:143 | the first match over the lines yields given groups iff some line is a link with those groups and no earlier line is a link |
| PrLink.FindSubmatchFirstDenoting | lambda/slack/main.go:143 | `FindStringSubmatch` yields given groups iff the first line that is a link is a link with those groups; the forward direction names that line as the first hit |
| PrLink.MatchString | lambda/slack/main.go:123 | `MatchString`: some line matches; `MatchStringIffSomeLine` states it |
| PrLink.MatchStringIffSomeLine | lambda/slack/main.go:123 | MatchString accepts a text iff one of its lines is, as a whole, an instance of the pattern |
| PrLink.FindSubmatchOneLine | lambda/slack/main.go:23 | on text without '\n' the pattern is matched against the whole text |
| PrLink.ParseLink | lambda/slack/main.go:143-150 | a one-line link of the shape "https://github", any character but '\n', "com/", owner, '/', repository, "/pull/", number yields exactly those groups |
| PrLink.ParseCanonicalLink | lambda/slack/main.go:143-150 | round trip: the canonical github.com link of an owner, a repository and a number, drawn from the allowed characters, parses back into those three parts |
| PrLink.MatchOnLaterLine | lambda/slack/main.go:143 | lines that do not match are skipped, so the groups come from the first matching line |
| PrLink.LooseLinksAccepted | lambda/slack/main.go:23 | any character in place of the dot, and empty owner, repository and number, are accepted |
| Intake.Field | lambda/slack/main.go:121 | a field missing from the submission reads as "", and a present one reads as its value |
| Intake.HandleRequest | lambda/slack/main.go:27-44 | 400 "Bad Request" with no effect exactly when the decoded payload is not an interaction; otherwise the reply is the dispatch of that interaction, always 200 |
| Intake.Dispatch | lambda/slack/main.go:46-181 | every interaction gets status 200 and at most one effect |
| Intake.Payload | lambda/slack/main.go:28-36 | the body, base64-decoded when flagged, then unescaped; its first "payload=" is cut out, the text before and after it kept, and a text without one is left unchanged |
| Intake.PayloadKeyStrippedOnce | lambda/slack/main.go:36 | for any text whose first "payload=" is at i: that occurrence, and only it, is removed, and the rest is kept |
| Intake.PayloadPrefixStripped | lambda/slack/main.go:36 | a body of the form "payload=" + rest yields exactly rest, even when rest holds "payload=" again |
| Intake.Submit | lambda/slack/main.go:120-176 | a dialog submission always gets 200; it has an effect iff the link field matches the pattern; otherwise it is exactly the "Invalid PR Link" reply; an accepted submission gets 200 with an empty body and exactly one effect, the enqueue |
| Intake.ImportMessageFor | lambda/slack/main.go:145-154 | the message built from the groups and the submission; `EnqueuedMessageFields` states its fields |
| Intake.EnqueueIffValidLink | lambda/slack/main.go:120-170 | a message is enqueued iff the interaction is a dialog submission whose link matches |
| Intake.InvalidLinkRejected | lambda/slack/main.go:123-139 | an invalid link gets 200, one "Invalid PR Link" error on prLink, and no effect |
| Intake.EnqueuedMessageFields | lambda/slack/main.go:143-154 | the enqueued message: owner, repository and number are the groups of the first line that is a link, which is that pull request's link, with no link on any earlier line; team, ticket and user are copied unchanged |
| Intake.CanonicalLinkEnqueued | lambda/slack/main.go:143-154 | a canonical link is enqueued with exactly its owner, repository and number |
| Intake.ShortcutOpensDialog | lambda/slack/main.go:47-119 | a shortcut opens the import dialog with its trigger id, and gets 200 with an empty body |
| Intake.ImportDialogElements | lambda/slack/main.go:48-111 | the dialog has exactly the elements prLink, prTeam and prJiraTicket; only the ticket is optional |
| Intake.OtherKindsInvalid | lambda/slack/main.go:178-181 | any other interaction type gets 200 "Invalid Request" and no effect |
| Requests.MergeRequestOptionsFor | lambda/importer/main.go:152-162 | the title is the ticket, " - ", then the PR title; the merge request goes from the imported branch to the base branch, in the mapped project |
| Requests.MergeRequestOptionsReadOnly | lambda/importer/main.go:152-162 | only the pull request's title, body and base branch are read |
| Requests.MergeRequestTitleInjective | lambda/importer/main.go:153 | for a given ticket, the title determines the PR title |
| Requests.MergeRequestFixedSettings | lambda/importer/main.go:154-161 | label "github", the body as description, source branch removed, not squashed, collaboration allowed |
| Requests.IssueFor | lambda/importer/main.go:259-281 | the mapped project; summary "[Github] " + title; description is the body, the footer "\n\n---\n\nImported from Github. Please see: ", then the PR link; exactly the four custom fields, with the team as an option id |
| Requests.IssueReadOnly | lambda/importer/main.go:259-281 | only the title, body, link and author of the pull request are read |
| Requests.IssueFixedFields | lambda/importer/main.go:264-278 | a public "Bug" labelled "Github", whose author and link fields hold the author's login and the link |
| Requests.IssueTeamInjective | lambda/importer/main.go:278 | different teams give different issues |
| Requests.UnknownRepositoryMessage | lambda/importer/main.go:61 | "This repository ", the name, then " cannot be imported as it is unknown"; what lies between the fixed parts is exactly the name |
| Requests.UnknownRepositoryMessageInjective | lambda/importer/main.go:61 | the message determines the repository it names |
| Requests.SuccessMessage | lambda/importer/main.go:133 | "Created merge request: " and the merge request's address, then "\nJira ticket: " and the tracker host, then "/browse/" and the ticket |
| Requests.CommentBody | lambda/importer/main.go:135-143 | the fixed greeting, the ticket, then the fixed closing; what lies between them is exactly the ticket |
| Requests.CommentBodyInjective | lambda/importer/main.go:135-143 | the comment determines the ticket it names |
| BranchImport.BranchName | lambda/importer/main.go:195 | the lowered ticket followed by "/auto-imported-from-github" |
| BranchImport.BranchNameSameIff | lambda/importer/main.go:195 | two tickets give the same branch iff they agree up to letter case |
| BranchImport.CommitMessage | lambda/importer/main.go:223-230 | ends with "\nfixes #" and the PR number; starts with ticket + " - " + previous message, or with " - " + previous message when that message already starts with the ticket; nothing else lies between, as the length states |
| BranchImport.CommitMessageTicketLed | lambda/importer/main.go:224-230 | the ticket stands at the front: before the separator, or right after it |
| BranchImport.PreviousMessage | lambda/importer/main.go:230 | reading a message back requires its "\nfixes #N" ending |
| BranchImport.PreviousMessageRecovers | lambda/importer/main.go:223-230 | round trip, for a ticket that does not start with a space: the first commit's message can be read back from the squashed message, so the key is never doubled and nothing is lost |
| BranchImport.PushUrl | lambda/importer/main.go:238 | "https://", the user name, ':' and the password, then "@" and the mapped clone endpoint; what lies between is exactly the credentials |
| BranchImport.Plan | lambda/importer/main.go:176-242 | nine commands when the PR has more than one commit, eight otherwise |
| BranchImport.ResetIffSeveralCommits | lambda/importer/main.go:215-221 | a soft reset is planned iff the commit count is above 1, and only onto the first commit |
| BranchImport.PlanOrder | lambda/importer/main.go:176-242 | clone, e-mail, name, remote, fetch, checkout; the amend with the composed message and the push of the ticket's branch come last |
| BranchImport.PlanReadsFirstCommitOnly | lambda/importer/main.go:215-223 | commit lists that agree on their first commit give the same commands |
| BranchImport.FailureMessage | lambda/importer/main.go:178-241 | the error text of each command, with the output appended for clone, amend and push; `Execute` states that a failed run returns the failing command's text |
| BranchImport.FirstFailure | lambda/importer/main.go:176-242 | the first command that fails; every command before it succeeds |
| BranchImport.Execute | lambda/importer/main.go:176-242 | with no error, every command ran and succeeded. Otherwise the commands that ran are a prefix of the plan: all but the last succeeded, the last failed, and the error is that command's message |
| BranchImport.PlanNamesTicket | lambda/importer/main.go:195-238 | every branch and message in the plan is derived from the given ticket |
| BranchImport.Import | lambda/importer/main.go:171-245 | a success returns the ticket's branch; every command that ran names that ticket |
| BranchImport.PushOnlyAfterSuccess | lambda/importer/main.go:238-244 | a command runs only after every earlier one succeeded; the import succeeds iff every command, the push included, did |
| BranchImport.RunCommands | lambda/importer/main.go:176-242 | the loop over the commands equals `Execute` |
| BranchImport.ImportBranch | lambda/importer/main.go:171-245 | the method equals `Import` |
| Importer.NotifyStep | lambda/importer/main.go:44-49 | the first stage; `NotifyObeys` states what it does |
| Importer.FetchUserStep | lambda/importer/main.go:51-56 | `FetchUserObeys` states what it does |
| Importer.ResolveMappingStep | lambda/importer/main.go:58-63 | `ResolveMappingObeys` states what it does |
| Importer.ParseInstallationIdStep | lambda/importer/main.go:65-70 | `ParseInstallationIdObeys` states what it does |
| Importer.ParseAppIdStep | lambda/importer/main.go:72-76 | `ParseAppIdObeys` states what it does |
| Importer.AuthenticateStep | lambda/importer/main.go:78-83 | `AuthenticateObeys` states what it does |
| Importer.ParsePrIdStep | lambda/importer/main.go:85-90 | `ParsePrIdObeys` states what it does |
| Importer.FetchPrStep | lambda/importer/main.go:92-97 | `FetchPrObeys` states what it does |
| Importer.FetchCommitsStep | lambda/importer/main.go:99-104 | `FetchCommitsObeys` states what it does |
| Importer.EnsureTicketStep | lambda/importer/main.go:106-115 | `EnsureTicketObeys` states what it does |
| Importer.BranchStep | lambda/importer/main.go:117-124 | `BranchObeys` states what it does |
| Importer.MergeRequestStep | lambda/importer/main.go:126-131 | `MergeRequestObeys` states what it does |
| Importer.ReportSuccessStep | lambda/importer/main.go:133 | `ReportSuccessObeys` states what it does |
| Importer.AnnotateStep | lambda/importer/main.go:135-146 | `AnnotateObeys` states what it does |
| Importer.NotifyObeys | lambda/importer/main.go:44-49 | the only request is the start message to the requester; the run ends iff sending it fails, and then silently; otherwise the context is unchanged |
| Importer.FetchUserObeys | lambda/importer/main.go:51-56 | the profile request; on success the profile is recorded and nothing else changes; on failure "Error while fetching user: " + the error is sent to the requester and ends the run |
| Importer.ResolveMappingObeys | lambda/importer/main.go:58-63 | no request; a repository in the table proceeds with its entry recorded; any other ends the run with the "unknown" notice naming it, sent to the requester |
| Importer.ParseInstallationIdObeys | lambda/importer/main.go:66-70 | no request; the run ends silently iff the installation id does not parse, and otherwise proceeds with the parsed value recorded |
| Importer.ParseAppIdObeys | lambda/importer/main.go:72-76 | no request; the run ends silently iff the app id does not parse, and otherwise proceeds with the parsed value recorded |
| Importer.AuthenticateObeys | lambda/importer/main.go:78-83 | with no client error: no request and no change. With one: "Error while creating GitHub client: " + the error is sent to the requester and ends the run |
| Importer.ParsePrIdObeys | lambda/importer/main.go:86-90 | no request; the run ends silently iff the message's number does not parse, and otherwise proceeds with that number recorded |
| Importer.FetchPrObeys | lambda/importer/main.go:92-97 | the request for the message's pull request; on success the pull request is recorded; on failure "Error while fetching PR: " + the error is sent to the requester and ends the run |
| Importer.FetchCommitsObeys | lambda/importer/main.go:99-104 | the request for its commits; on success they are recorded; on failure "Error while fetching PR commits: " + the error is sent to the requester and ends the run |
| Importer.EnsureTicketObeys | lambda/importer/main.go:106-115 | a supplied ticket: no request, no change. Otherwise a Jira client error is reported and ends the run; else the issue built from the pull request is requested, and its key becomes the ticket, or its error is reported and ends the run |
| Importer.BranchObeys | lambda/importer/main.go:117-124 | exactly the git commands that ran; success records the ticket's branch and nothing else; failure adds "Error while importing branch: " + the error to the requester and ends the run |
| Importer.BranchFailedObeys | lambda/importer/main.go:119-121 | a failed import ends the run with the branch error sent last |
| Importer.BranchImportedObeys | lambda/importer/main.go:117-124 | a successful import records the ticket's branch and changes nothing else |
| Importer.MergeRequestObeys | lambda/importer/main.go:126-131 | exactly one merge request, with the options built for the ticket's branch, in the mapped project; success records its address; failure sends "Error while creating merge request: " + the error to the requester and ends the run |
| Importer.ReportSuccessObeys | lambda/importer/main.go:133 | exactly the success message naming the merge request and the ticket; the run never ends here |
| Importer.AnnotateObeys | lambda/importer/main.go:135-146 | exactly the comment naming the ticket and the "Scheduled" label, both on the message's pull request; the answers are ignored |
| Importer.StepObeys | lambda/importer/main.go:43-147 | every stage keeps its promises |
| Importer.Step | lambda/importer/main.go:43-147 | the stage functions in the order of `handleMessage`; `StepObeys` states that each keeps its promises |
| Importer.RunFrom | lambda/importer/main.go:43-147 | the stages from a given one on, stopping at the first that ends the run; the `RunFrom…` lemmas state its properties |
| Importer.Run | lambda/importer/main.go:43-147 | `handleMessage` on one message; the run lemmas below state its properties |
| Importer.StepperLawful | lambda/importer/main.go:43-147 | the worker's stage function keeps every promise for every context |
| Importer.HandleMessage | lambda/importer/main.go:43-147 | the loop over the stages, returning at the first that ends the run, equals `Run` |
| Importer.RunFromAborted | lambda/importer/main.go:43-131 | for any lawful stage function: an aborted run stopped before the success message, made no request of a later stage, and is silent only at a log-only stage |
| Importer.RunFromNotice | lambda/importer/main.go:53-131 | for any lawful stage function: a run ending with a notice has that notice, sent to the requester, as its last request |
| Importer.RunFromTicket | lambda/importer/main.go:106-146 | for any lawful stage function: once a ticket is known, every later request uses it and the run completes with it |
| Importer.RunFromIssued | lambda/importer/main.go:106-115 | for any lawful stage function: a run that started without a ticket and completed, completed with a key returned by one of its issue requests |
| Importer.RunFromEnding | lambda/importer/main.go:133-146 | for any lawful stage function: a completed run parsed the number, and its last three requests are the success message, the comment and the label, with no comment or label before the last two |
| Importer.FinalStages | lambda/importer/main.go:133-146 | the last two stages always complete, with exactly those three requests |
| Importer.StartProperties | lambda/importer/main.go:43-147 | the five run properties above, for a run that starts from the message |
| Importer.AbortedFrom | lambda/importer/main.go:43-131 | for any lawful stage function, from the message: an aborted run stopped before the success message, made no request of a later stage, is silent only at a log-only stage, and otherwise sent its notice last |
| Importer.BranchFailureFrom | lambda/importer/main.go:117-131 | for any lawful stage function: a run aborted at the branch stage made no merge request, comment or label |
| Importer.SuppliedTicketFrom | lambda/importer/main.go:106-146 | for any lawful stage function: with a supplied ticket, every request uses it, none is an issue request, and a completed run completes with it |
| Importer.CreatedTicketFrom | lambda/importer/main.go:106-115 | for any lawful stage function: without a ticket, a completed run completes with a key an issue request returned |
| Importer.EndingFrom | lambda/importer/main.go:133-146 | for any lawful stage function: a completed run parsed the number and ends with the success message, the comment and the label, with no comment or label earlier |
| Importer.RunAborted | lambda/importer/main.go:43-131 | an aborted run stopped before the success message and made no request of a later stage. It ends silently only at a log-only stage; otherwise its last request is the notice to the requester |
| Importer.BranchFailureNoMergeRequest | lambda/importer/main.go:117-131 | after a failed import there is no merge request, no comment and no label |
| Importer.SuppliedTicketUsed | lambda/importer/main.go:106-146 | with a supplied ticket: no issue is requested; every branch, commit message, merge request and comment uses the ticket; the run completes with it |
| Importer.CreatedTicketUsed | lambda/importer/main.go:106-115 | without a ticket, a completed run completes with the key the tracker returned for an issue request |
| Importer.CompletedEnding | lambda/importer/main.go:133-146 | a completed run parsed the message's number and ends with the success message, then the comment and the label on that pull request; no earlier request is a comment or a label |
| Importer.NotifyFailureAborts | lambda/importer/main.go:44-49 | if the first send fails, the trace is that send alone, and the run ends silently |
| Importer.UnknownRepositoryAborts | lambda/importer/main.go:58-63 | an unknown repository: the start message, the profile request and the "unknown" notice naming the repository, then the run ends |
| Importer.UnknownRepositoryFrom | lambda/importer/main.go:58-63 | the lookup stage ends the run with the "unknown" notice as its only request |
| Importer.EmptyNumberNeverCompletes | lambda/importer/main.go:86-90 | a link whose number group is empty, which the intake pattern accepts, never completes |
| Importer.Decoded | lambda/importer/main.go:31-37 | at most one message per record, and each one decodes from some record |
| Importer.DecodedAppend | lambda/importer/main.go:31-40 | records are decoded independently, in order |
| Importer.DecodedAll | lambda/importer/main.go:31-40 | when every record decodes, record k yields message k |
| Importer.HandleRecords | lambda/importer/main.go:30-41 | records that do not decode are skipped; each remaining record gets its own run, in record order |

## Left out

- Logging is not modelled. A failure that is only logged (the two
  configuration numbers, the pull-request number, the first chat message)
  ends the run with no notice.
- The Lambda entry points and the queue transport are not modelled. The
  worker receives the record bodies; the intake handler returns the enqueue
  as an effect. A failure of the queue send is not modelled, and neither is
  the dereference of its message id after that failure
  (`lambda/slack/main.go:165-170`).
- Base64, URL unescaping and JSON (de)coding are not modelled: they are
  library codecs, and the model takes them as parameters (`Intake.Codecs`
  and the worker's `decode`). The validation-error reply is kept as data
  rather than as its JSON text.
- Chat, GitHub, GitLab and Jira calls are parameters of `Services`.
  - Reading the PEM key and building the app transport are folded into
    `authenticate`.
  - Building the GitHub, GitLab and Jira clients is not traced.
  - A failure to build the Jira client is `jiraClientError`.
  - Environment variables are fields of `Services` and `Workspace`.
- The effects of `git` on the repository are not modelled: what a soft
  reset does to the history, and what is pushed. Only the commands, their
  arguments and their success are kept.
- `os.MkdirTemp` and `os.RemoveAll` are not modelled; the directory is a
  field of `Workspace`.
- Text.Lower: lowers ASCII letters only; the Unicode behaviour of
  `strings.ToLower` is not modelled.
- Nil-dereference panics are not modelled:
  - `commits[0]` on an empty list is excluded by the `CommitList` type, since
    a pull request has at least one commit;
  - a failed merge-request call is a plain error, without the read of
    `resp.Body`;
  - a missing pull-request author or head is not modelled.
- The static list of team options in the dialog is presentation data and
  is left out.
- Every record of one batch is handled with the same `Services` value;
  answers that change over time are not modelled.
