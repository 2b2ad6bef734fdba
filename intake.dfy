/** The intake handler (lambda/slack/main.go:27-182): it receives the chat
    platform's interaction callbacks, opens the import dialog for a shortcut,
    and turns a dialog submission with a valid pull request link into an
    import message on the queue. Decoding (base64, URL unescaping, JSON) is
    taken as given functions; the dialog opening and the queue send are
    returned as effects. */
module Intake {
  import opened Wrappers
  import opened Text
  import opened PrLink
  import opened SharedTypes

  /** The HTTP request the function URL delivers. */
  datatype Request = Request(body: string, isBase64Encoded: bool)

  /** The decoded interaction callback: its type, the trigger id a dialog is
      opened with, the submitted dialog fields and the requesting user. */
  datatype Interaction = Interaction(
    kind: string,
    triggerId: string,
    submission: map<string, string>,
    userId: string
  )

  /** The library decoders the handler calls. Their errors are dropped by
      the handler (the decoded value is used as it is), except for the JSON
      decoding, whose failure is None. */
  datatype Codecs = Codecs(
    base64Decode: string -> string,
    queryUnescape: string -> string,
    parseInteraction: string -> Option<Interaction>
  )

  const ShortcutKind := "shortcut"
  const DialogSubmissionKind := "dialog_submission"
  const PayloadKey := "payload="

  /** A dialog element: a text input or a static select. */
  datatype DialogElement =
    | TextInput(name: string, caption: string, value: string, subtype: string,
                placeholder: string, optional: bool)
    | StaticSelect(name: string, caption: string, optional: bool)

  datatype Dialog = Dialog(callbackId: string, title: string, submitLabel: string,
                           elements: seq<DialogElement>)

  const LinkField := "prLink"
  const TeamField := "prTeam"
  const TicketField := "prJiraTicket"

  /** The import dialog. The team select's option list is not modelled. */
  const ImportDialog := Dialog("import_pr", "Import GitHub PR", "Import", [
    TextInput(LinkField, "PR Link", "", "url", "https://github.com/shopware/shopware/pull/1", false),
    StaticSelect(TeamField, "Team", false),
    TextInput(TicketField, "Jira Ticket (if existing)", "", "", "NEXT-1234", true)
  ])

  datatype FieldError = FieldError(name: string, error: string)

  /** A response body: plain text, or dialog validation errors. */
  datatype Body = Plain(text: string) | ValidationErrors(errors: seq<FieldError>)

  datatype Response = Response(statusCode: int, body: Body)

  /** What the handler asks of the outside world. */
  datatype Effect = OpenDialog(triggerId: string, dialog: Dialog) | Enqueue(message: ImportMessage)

  datatype Reply = Reply(response: Response, effects: seq<Effect>)

  /** A submitted field; a missing one reads as the empty string. */
  function Field(submission: map<string, string>, name: string): (r: string)
    ensures name !in submission ==> r == ""
    ensures name in submission ==> r == submission[name]
  {
    if name in submission then submission[name] else ""
  }

  /** The request body decoded as far as the JSON: base64 when flagged, then
      URL unescaping, then the first "payload=" removed. */
  function Payload(req: Request, codecs: Codecs): (r: string)
    ensures var str := codecs.queryUnescape(if req.isBase64Encoded then codecs.base64Decode(req.body) else req.body);
            match IndexOf(str, PayloadKey)
            case None => r == str
            case Some(i) => r == str[..i] + str[i + |PayloadKey|..]
  {
    var content := if req.isBase64Encoded then codecs.base64Decode(req.body) else req.body;
    var str := codecs.queryUnescape(content);
    match IndexOf(str, PayloadKey)
    case None => ReplaceFirst(str, PayloadKey, "")
    case Some(i) => PayloadKeyStrippedOnce(str, i); ReplaceFirst(str, PayloadKey, "")
  }

  const BadRequest := Reply(Response(400, Plain("Bad Request")), [])
  const InvalidRequest := Reply(Response(200, Plain("Invalid Request")), [])
  const InvalidLink := Reply(Response(200, ValidationErrors([FieldError(LinkField, "Invalid PR Link")])), [])
  const Accepted := Response(200, Plain(""))

  /** The queue message for a submission whose link matched. */
  function ImportMessageFor(ref: PrRef, interaction: Interaction): ImportMessage {
    ImportMessage(
      ImportPullRequest(repo := ref.repo, owner := ref.owner, id := ref.id),
      Field(interaction.submission, TeamField),
      Field(interaction.submission, TicketField),
      interaction.userId)
  }

  /** The dialog submission branch. */
  function Submit(interaction: Interaction): (r: Reply)
    ensures r.response.statusCode == 200
    ensures MatchString(Field(interaction.submission, LinkField)) <==> r.effects != []
    ensures r.effects == [] ==> r == InvalidLink
    ensures r.effects != [] ==> r.response == Response(200, Plain("")) && |r.effects| == 1 && r.effects[0].Enqueue?
  {
    var link := Field(interaction.submission, LinkField);
    match FindSubmatch(link)
    case None => InvalidLink
    case Some(ref) => Reply(Accepted, [Enqueue(ImportMessageFor(ref, interaction))])
  }

  /** The switch on the interaction type. */
  function Dispatch(interaction: Interaction): (r: Reply)
    ensures r.response.statusCode == 200 && |r.effects| <= 1
  {
    if interaction.kind == ShortcutKind then
      Reply(Accepted, [OpenDialog(interaction.triggerId, ImportDialog)])
    else if interaction.kind == DialogSubmissionKind then
      Submit(interaction)
    else
      InvalidRequest
  }

  /** HandleRequest: 400 "Bad Request" exactly when the payload is not an
      interaction; every other reply has status 200. */
  function HandleRequest(req: Request, codecs: Codecs): (r: Reply)
    ensures r.response.statusCode == 400 <==> codecs.parseInteraction(Payload(req, codecs)).None?
    ensures r.response.statusCode != 400 ==> r.response.statusCode == 200
    ensures r.response.statusCode == 400 ==> r.response.body == Plain("Bad Request") && r.effects == []
    ensures codecs.parseInteraction(Payload(req, codecs)).Some? ==>
              r == Dispatch(codecs.parseInteraction(Payload(req, codecs)).value)
  {
    match codecs.parseInteraction(Payload(req, codecs))
    case None => BadRequest
    case Some(interaction) => Dispatch(interaction)
  }

  /** Only the first "payload=" is removed, wherever it stands: the text
      before it and everything after it, later occurrences included, are
      kept. */
  lemma PayloadKeyStrippedOnce(s: string, i: nat)
    requires IndexOf(s, PayloadKey) == Some(i)
    ensures ReplaceFirst(s, PayloadKey, "") == s[..i] + s[i + |PayloadKey|..]
  {
    var r := ReplaceFirst(s, PayloadKey, "");
    assert r == r[..i] + r[i..];
  }

  /** A form body that starts with "payload=" loses just that key: a
      "payload=" the value itself holds survives. */
  lemma PayloadPrefixStripped(rest: string)
    ensures ReplaceFirst(PayloadKey + rest, PayloadKey, "") == rest
  {
    assert (PayloadKey + rest)[..|PayloadKey|] == PayloadKey;
  }

  /** A submission is put on the queue exactly when its link field matches
      the pull request pattern; nothing else is ever enqueued. */
  lemma EnqueueIffValidLink(interaction: Interaction)
    ensures var r := Dispatch(interaction);
            (exists e :: e in r.effects && e.Enqueue?) <==>
              interaction.kind == DialogSubmissionKind && MatchString(Field(interaction.submission, LinkField))
  {
    var r := Dispatch(interaction);
    if interaction.kind == DialogSubmissionKind && MatchString(Field(interaction.submission, LinkField)) {
      assert r.effects[0].Enqueue?;
    }
  }

  /** An invalid link gets status 200 with one validation error on the link
      field, and no effect. */
  lemma InvalidLinkRejected(interaction: Interaction)
    requires interaction.kind == DialogSubmissionKind
    requires !MatchString(Field(interaction.submission, LinkField))
    ensures Dispatch(interaction) == InvalidLink
    ensures InvalidLink.response.body.errors == [FieldError("prLink", "Invalid PR Link")]
  {
  }

  /** The enqueued message: owner, repository and number are the groups of
      the leftmost matching line: that line is, as a whole, that pull
      request's link, and no line before it is a link to any pull request;
      the team, the ticket and the user are copied unchanged. */
  lemma EnqueuedMessageFields(interaction: Interaction, m: ImportMessage)
    requires Enqueue(m) in Dispatch(interaction).effects
    ensures var link := Field(interaction.submission, LinkField);
            && FindSubmatch(link) == Some(PrRef(m.repository.owner, m.repository.repo, m.repository.id))
            && FirstDenoting(Lines(link), FirstHit(Lines(link), MatchLine),
                             PrRef(m.repository.owner, m.repository.repo, m.repository.id))
    ensures m.team == Field(interaction.submission, TeamField)
    ensures m.jiraTicket == Field(interaction.submission, TicketField)
    ensures m.slackUser == interaction.userId
  {
    var link := Field(interaction.submission, LinkField);
    var ref := PrRef(m.repository.owner, m.repository.repo, m.repository.id);
    assert interaction.kind == DialogSubmissionKind;
    assert Submit(interaction).effects == [Enqueue(m)];
    assert FindSubmatch(link) == Some(ref);
    FindSubmatchFirstDenoting(link, ref);
  }

  /** A canonical link is enqueued with exactly its owner, repository and
      number. */
  lemma CanonicalLinkEnqueued(interaction: Interaction, owner: string, repo: string, id: string)
    requires interaction.kind == DialogSubmissionKind
    requires Field(interaction.submission, LinkField) == CanonicalHost + owner + "/" + repo + PullInfix + id
    requires IsSegment(owner) && IsSegment(repo) && AllDigits(id)
    ensures Dispatch(interaction).effects ==
      [Enqueue(ImportMessage(ImportPullRequest(repo, owner, id),
                             Field(interaction.submission, TeamField),
                             Field(interaction.submission, TicketField),
                             interaction.userId))]
  {
    ParseCanonicalLink(owner, repo, id);
  }

  /** A shortcut opens the import dialog with the trigger id and answers 200
      with an empty body. */
  lemma ShortcutOpensDialog(interaction: Interaction)
    requires interaction.kind == ShortcutKind
    ensures Dispatch(interaction) ==
      Reply(Response(200, Plain("")), [OpenDialog(interaction.triggerId, ImportDialog)])
  {
  }

  /** The dialog has exactly three elements: the link and the team, both
      required, and the optional ticket. */
  lemma ImportDialogElements()
    ensures |ImportDialog.elements| == 3
    ensures ImportDialog.elements[0].name == LinkField
    ensures ImportDialog.elements[1].name == TeamField
    ensures ImportDialog.elements[2].name == TicketField
    ensures !ImportDialog.elements[0].optional && !ImportDialog.elements[1].optional
    ensures ImportDialog.elements[2].optional
  {
  }

  /** Any interaction type other than a shortcut or a dialog submission gets
      200 "Invalid Request" and no effect. */
  lemma OtherKindsInvalid(interaction: Interaction)
    requires interaction.kind != ShortcutKind && interaction.kind != DialogSubmissionKind
    ensures Dispatch(interaction) == Reply(Response(200, Plain("Invalid Request")), [])
  {
  }
}
