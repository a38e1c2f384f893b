/**
 * Formation notifications.  `SendEmail` decides whether a message is sent at
 * all and turns the mail provider's answer into a result; the provider's
 * answer is an input.  A formation email is built from the match
 * information merged with one recipient, and the batch sends one per
 * participant and reports how the sends settled.
 */
module Email {
  import opened Wrappers

  // ---------------------------------------------------------------------------
  // Sending one message
  // ---------------------------------------------------------------------------

  const Sender := "PlayerHoods <noreply@playerhoods.com>"

  /** The placeholder that counts as no key at all. */
  const PlaceholderKey := "re_your_api_key_here"

  /** A mail provider key counts as configured when it is set, non-empty
      and not the placeholder. */
  function ApiKeyConfigured(apiKey: Option<string>): (r: bool)
    ensures !r <==> apiKey in {None, Some(""), Some(PlaceholderKey)}
  {
    apiKey.Some? && apiKey.value != "" && apiKey.value != PlaceholderKey
  }

  /** The `to` of a message: one address or a list of them. */
  datatype Recipients = One(address: string) | Many(addresses: seq<string>)

  /** The list of addresses the provider is given. */
  function RecipientList(to: Recipients): (r: seq<string>)
    ensures to.One? ==> r == [to.address]
    ensures to.Many? ==> r == to.addresses
  {
    match to
    case One(a) => [a]
    case Many(addresses) => addresses
  }

  /** Normalising is idempotent: a normalised list passes through as it is. */
  lemma RecipientListIdempotent(to: Recipients)
    ensures RecipientList(Many(RecipientList(to))) == RecipientList(to)
  {
  }

  /** The message body.  The only body built here is the formation notice;
      it holds the interpolated values in the order the template uses them,
      and its fixed markup is not modelled. */
  datatype HtmlBody = FormationBody(
    recipientName: string,
    gameType: string,
    matchDate: string,
    matchTimeRange: string,
    venue: string,
    organizerName: string,
    participantList: string,
    matchUrl: string)

  /** What is handed to the provider. */
  datatype EmailRequest = EmailRequest(from: string, to: seq<string>, subject: string, html: HtmlBody)

  datatype SendData = SendData(id: string)

  /** An error value: one the provider reported, or one thrown by the call. */
  datatype ErrorValue = ProviderError(message: string) | Thrown(description: string)

  /** The provider's answer to a send: a response holding data and/or an
      error, or an exception. */
  datatype ProviderOutcome =
    | Responded(data: Option<SendData>, error: Option<string>)
    | Threw(description: string)

  /** The value `sendEmail` resolves with: skipped (reported as a success),
      failed with the error, or sent with the provider's data. */
  datatype SendResult = Skipped | Failed(error: ErrorValue) | Sent(data: Option<SendData>) {
    predicate Success() {
      !Failed?
    }
  }

  /** One call of `sendEmail`: the request issued, if any, and the result. */
  datatype SendStep = SendStep(request: Option<EmailRequest>, result: SendResult)

  /** `sendEmail`.  Without a configured key nothing is sent and the result
      is a skipped success.  Otherwise one request goes from the fixed sender
      to the normalised recipients; a reported error or an exception gives a
      failure carrying it, and anything else a success with the data.  It
      never fails itself: every outcome of the provider gives a result. */
  function SendEmail(apiKey: Option<string>, to: Recipients, subject: string, html: HtmlBody,
                     outcome: ProviderOutcome): (s: SendStep)
    ensures s.request.None? <==> !ApiKeyConfigured(apiKey)
    ensures s.result.Skipped? <==> !ApiKeyConfigured(apiKey)
    ensures s.request.Some? ==> s.request.value == EmailRequest(Sender, RecipientList(to), subject, html)
    ensures s.result.Success() <==>
              !ApiKeyConfigured(apiKey) || (outcome.Responded? && outcome.error.None?)
    ensures s.result.Failed? && outcome.Threw? ==> s.result.error == Thrown(outcome.description)
    ensures s.result.Failed? && outcome.Responded? ==> s.result.error == ProviderError(outcome.error.value)
    ensures s.result.Sent? ==> outcome.Responded? && s.result.data == outcome.data
  {
    if !ApiKeyConfigured(apiKey) then
      SendStep(None, Skipped)
    else
      var request := EmailRequest(Sender, RecipientList(to), subject, html);
      match outcome
      case Threw(description) => SendStep(Some(request), Failed(Thrown(description)))
      case Responded(data, error) =>
        if error.Some? then SendStep(Some(request), Failed(ProviderError(error.value)))
        else SendStep(Some(request), Sent(data))
  }

  // ---------------------------------------------------------------------------
  // The formation notice
  // ---------------------------------------------------------------------------

  /** The match information shared by every notice of one formation. */
  datatype MatchInfo = MatchInfo(
    matchDate: string,
    matchTimeRange: string,
    venue: string,
    gameType: string,
    organizerName: string,
    matchUrl: string,
    participantNames: seq<string>)

  /** The parameters of one notice: the shared information with one
      recipient. */
  datatype FormationEmailParams = FormationEmailParams(
    recipientEmail: string,
    recipientName: string,
    matchDate: string,
    matchTimeRange: string,
    venue: string,
    gameType: string,
    organizerName: string,
    matchUrl: string,
    participantNames: seq<string>)

  datatype Contact = Contact(email: string, name: string)

  /** `{...matchInfo, recipientEmail, recipientName}`. */
  function WithRecipient(info: MatchInfo, c: Contact): (p: FormationEmailParams)
    ensures InfoOf(p) == info
    ensures p.recipientEmail == c.email && p.recipientName == c.name
  {
    FormationEmailParams(c.email, c.name, info.matchDate, info.matchTimeRange, info.venue,
                         info.gameType, info.organizerName, info.matchUrl, info.participantNames)
  }

  /** The shared part of a notice's parameters. */
  function InfoOf(p: FormationEmailParams): MatchInfo {
    MatchInfo(p.matchDate, p.matchTimeRange, p.venue, p.gameType, p.organizerName, p.matchUrl,
              p.participantNames)
  }

  /** The parameters of a notice split back into the shared information and
      the recipient. */
  lemma MergeRoundTrip(p: FormationEmailParams)
    ensures WithRecipient(InfoOf(p), Contact(p.recipientEmail, p.recipientName)) == p
  {
  }

  const SubjectPrefix := "球局已成局 - "

  /** The subject opens with the fixed prefix and holds the date, a space
      and the game type, nothing more. */
  function Subject(matchDate: string, gameType: string): (r: string)
    ensures |r| == |SubjectPrefix| + |matchDate| + 1 + |gameType|
    ensures r[..|SubjectPrefix|] == SubjectPrefix
  {
    SubjectPrefix + matchDate + " " + gameType
  }

  /** The subject is the fixed prefix, the date, a space and the game type,
      so once the length of the date is known the subject determines both
      parts again. */
  lemma {:induction false} SubjectDeterminesParts(d1: string, g1: string, d2: string, g2: string)
    requires |d1| == |d2|
    requires Subject(d1, g1) == Subject(d2, g2)
    ensures d1 == d2 && g1 == g2
  {
    var n := |SubjectPrefix|;
    var s1 := Subject(d1, g1);
    var s2 := Subject(d2, g2);
    assert s1[n..n + |d1|] == d1;
    assert s2[n..n + |d2|] == d2;
    assert s1[n + |d1| + 1..] == g1;
    assert s2[n + |d2| + 1..] == g2;
  }

  function ListItem(name: string): string {
    "<li>" + name + "</li>"
  }

  /** The participants as list items, in order, with nothing between them. */
  function ParticipantList(names: seq<string>): (r: string)
    ensures r == "" <==> names == []
    ensures names != [] ==> |r| >= 9 && r[..4] == "<li>"
  {
    if names == [] then "" else ListItem(names[0]) + ParticipantList(names[1..])
  }

  lemma {:induction false} ParticipantListAppend(a: seq<string>, b: seq<string>)
    ensures ParticipantList(a + b) == ParticipantList(a) + ParticipantList(b)
  {
    if a == [] {
      assert a + b == b;
    } else {
      assert (a + b)[0] == a[0];
      assert (a + b)[1..] == a[1..] + b;
      ParticipantListAppend(a[1..], b);
    }
  }

  /** The total length of a list of names. */
  function NamesLength(names: seq<string>): nat {
    if names == [] then 0 else |names[0]| + NamesLength(names[1..])
  }

  /** Each name contributes its own characters and nine of markup. */
  lemma {:induction false} ParticipantListLength(names: seq<string>)
    ensures |ParticipantList(names)| == 9 * |names| + NamesLength(names)
  {
    if names != [] {
      ParticipantListLength(names[1..]);
    }
  }

  /** A single participant is a single item; the empty list is empty. */
  lemma ParticipantListSingle(name: string)
    ensures ParticipantList([name]) == ListItem(name)
    ensures ParticipantList([]) == ""
  {
    assert [name][1..] == [];
  }

  /** The body of a notice: the recipient's own name, the shared values, and
      one list item per participant. */
  function FormationHtml(p: FormationEmailParams): (h: HtmlBody)
    ensures h.recipientName == p.recipientName && h.matchUrl == p.matchUrl
    ensures |h.participantList| == 9 * |p.participantNames| + NamesLength(p.participantNames)
  {
    ParticipantListLength(p.participantNames);
    FormationBody(p.recipientName, p.gameType, p.matchDate, p.matchTimeRange, p.venue,
                  p.organizerName, ParticipantList(p.participantNames), p.matchUrl)
  }

  /** `sendMatchFormationEmail`: one message to the recipient alone. */
  function SendMatchFormationEmail(apiKey: Option<string>, p: FormationEmailParams,
                                   outcome: ProviderOutcome): (s: SendStep)
    ensures s.request.Some? ==>
              s.request.value.to == [p.recipientEmail] &&
              s.request.value.subject == Subject(p.matchDate, p.gameType) &&
              s.request.value.html.recipientName == p.recipientName &&
              s.request.value.html.participantList == ParticipantList(p.participantNames)
    ensures s.request.None? <==> !ApiKeyConfigured(apiKey)
  {
    SendEmail(apiKey, One(p.recipientEmail), Subject(p.matchDate, p.gameType), FormationHtml(p), outcome)
  }

  // ---------------------------------------------------------------------------
  // The batch
  // ---------------------------------------------------------------------------

  /** How one promise of the batch settled. */
  datatype Settled<T> = Fulfilled(value: T) | Rejected(reason: string)

  datatype BatchSummary = BatchSummary(successful: nat, failed: nat, total: nat)

  /** The sends of a batch, how each settled, and the summary reported. */
  datatype BatchRun = BatchRun(sends: seq<SendStep>, settled: seq<Settled<SendResult>>, summary: BatchSummary)

  function CountFulfilled<T>(rs: seq<Settled<T>>): (n: nat)
    ensures n <= |rs|
  {
    if rs == [] then 0 else (if rs[0].Fulfilled? then 1 else 0) + CountFulfilled(rs[1..])
  }

  function CountRejected<T>(rs: seq<Settled<T>>): (n: nat)
    ensures n <= |rs|
  {
    if rs == [] then 0 else (if rs[0].Rejected? then 1 else 0) + CountRejected(rs[1..])
  }

  /** Every settled promise is fulfilled or rejected, never both. */
  lemma {:induction false} SettledCountsAddUp<T>(rs: seq<Settled<T>>)
    ensures CountFulfilled(rs) + CountRejected(rs) == |rs|
  {
    if rs != [] {
      SettledCountsAddUp(rs[1..]);
    }
  }

  /** Nothing rejected counts as failed exactly when every promise was
      fulfilled. */
  lemma {:induction false} NoRejections<T>(rs: seq<Settled<T>>)
    ensures CountRejected(rs) == 0 <==> forall i :: 0 <= i < |rs| ==> rs[i].Fulfilled?
  {
    if rs != [] {
      NoRejections(rs[1..]);
      assert forall i :: 1 <= i < |rs| ==> rs[i] == rs[1..][i - 1];
    }
  }

  /** The summary as the batch computes it: fulfilled promises are counted as
      successful and rejected ones as failed. */
  function SummarizeBySettlement(rs: seq<Settled<SendResult>>, total: nat): (s: BatchSummary)
    ensures s.total == total
    ensures s.successful + s.failed == |rs|
  {
    SettledCountsAddUp(rs);
    BatchSummary(CountFulfilled(rs), CountRejected(rs), total)
  }

  /** The sends of a batch, one per participant in order, each with the
      provider outcome given for it. */
  function SendEach(apiKey: Option<string>, participants: seq<Contact>, info: MatchInfo,
                    outcomes: seq<ProviderOutcome>): (sends: seq<SendStep>)
    requires |outcomes| == |participants|
    ensures |sends| == |participants|
    ensures forall i :: 0 <= i < |participants| ==>
              sends[i] == SendMatchFormationEmail(apiKey, WithRecipient(info, participants[i]), outcomes[i])
  {
    seq(|participants|, i requires 0 <= i < |participants| =>
      SendMatchFormationEmail(apiKey, WithRecipient(info, participants[i]), outcomes[i]))
  }

  /** `sendMatchFormationEmails` as written.  A notice never rejects (the
      send turns every provider outcome into a result), so every promise is
      fulfilled with that result. */
  function SendMatchFormationEmails(apiKey: Option<string>, participants: seq<Contact>, info: MatchInfo,
                                    outcomes: seq<ProviderOutcome>): (run: BatchRun)
    requires |outcomes| == |participants|
    ensures |run.sends| == |run.settled| == |participants|
    ensures forall i :: 0 <= i < |participants| ==> run.settled[i] == Fulfilled(run.sends[i].result)
    ensures run.summary.total == |participants|
    ensures run.summary.successful + run.summary.failed == run.summary.total
  {
    var sends := SendEach(apiKey, participants, info, outcomes);
    var settled := seq(|sends|, i requires 0 <= i < |sends| => Fulfilled(sends[i].result));
    BatchRun(sends, settled, SummarizeBySettlement(settled, |participants|))
  }

  /** Each send of the batch goes to one participant, in order, and carries
      that participant's address and name with the shared information
      unchanged; without a configured key nothing is sent and every result is
      a skip. */
  lemma BatchSendsInOrder(apiKey: Option<string>, participants: seq<Contact>, info: MatchInfo,
                          outcomes: seq<ProviderOutcome>, i: int)
    requires |outcomes| == |participants|
    requires 0 <= i < |participants|
    ensures var run := SendMatchFormationEmails(apiKey, participants, info, outcomes);
            && (ApiKeyConfigured(apiKey) ==>
                  run.sends[i].request == Some(EmailRequest(
                    Sender,
                    [participants[i].email],
                    Subject(info.matchDate, info.gameType),
                    FormationBody(participants[i].name, info.gameType, info.matchDate, info.matchTimeRange,
                                  info.venue, info.organizerName, ParticipantList(info.participantNames),
                                  info.matchUrl))))
            && (!ApiKeyConfigured(apiKey) ==> run.sends[i] == SendStep(None, Skipped))
  {
  }

  /** The batch as written never reports a failure: every send counts as
      successful, whatever the provider answered. */
  lemma BatchNeverReportsFailure(apiKey: Option<string>, participants: seq<Contact>, info: MatchInfo,
                                 outcomes: seq<ProviderOutcome>)
    requires |outcomes| == |participants|
    ensures SendMatchFormationEmails(apiKey, participants, info, outcomes).summary ==
              BatchSummary(|participants|, 0, |participants|)
  {
    var run := SendMatchFormationEmails(apiKey, participants, info, outcomes);
    NoRejections(run.settled);
    SettledCountsAddUp(run.settled);
  }

  /** An empty batch sends nothing and reports zero of everything. */
  lemma EmptyBatch(apiKey: Option<string>, info: MatchInfo)
    ensures SendMatchFormationEmails(apiKey, [], info, []) == BatchRun([], [], BatchSummary(0, 0, 0))
  {
  }

  /** A concrete run: with a configured key, one participant and a provider
      that reports an error, the send fails, yet the batch reports one
      successful send and no failure. */
  lemma ProviderErrorCountedAsSent()
    ensures var run := SendMatchFormationEmails(Some("re_live_key"), [Contact("a@example.com", "A")],
                                                MatchInfo("d", "t", "v", "g", "o", "u", ["A"]),
                                                [Responded(None, Some("invalid recipient"))]);
            && run.sends[0].result == Failed(ProviderError("invalid recipient"))
            && run.summary == BatchSummary(1, 0, 1)
  {
  }

  // ---------------------------------------------------------------------------
  // The batch summary as intended
  // ---------------------------------------------------------------------------

  function CountSucceeded(rs: seq<Settled<SendResult>>): nat {
    if rs == [] then 0
    else (if rs[0].Fulfilled? && rs[0].value.Success() then 1 else 0) + CountSucceeded(rs[1..])
  }

  lemma {:induction false} SucceededAtMostFulfilled(rs: seq<Settled<SendResult>>)
    ensures CountSucceeded(rs) <= CountFulfilled(rs)
  {
    if rs != [] {
      SucceededAtMostFulfilled(rs[1..]);
    }
  }

  /** The summary the log line and the callers read it as: a send is
      successful when its result is a success, and failed otherwise
      (a failed result or a rejected promise). */
  function SummarizeByResult(rs: seq<Settled<SendResult>>): (s: BatchSummary)
    ensures s.successful == CountSucceeded(rs)
    ensures s.successful + s.failed == s.total == |rs|
    ensures s.successful <= CountFulfilled(rs)
  {
    SettledCountsAddUp(rs);
    SucceededAtMostFulfilled(rs);
    BatchSummary(CountSucceeded(rs), |rs| - CountSucceeded(rs), |rs|)
  }

  /** The batch with the summary counted by result. */
  function SendMatchFormationEmailsCorrected(apiKey: Option<string>, participants: seq<Contact>, info: MatchInfo,
                                             outcomes: seq<ProviderOutcome>): (run: BatchRun)
    requires |outcomes| == |participants|
    ensures run.sends == SendMatchFormationEmails(apiKey, participants, info, outcomes).sends
    ensures run.summary.total == |participants|
    ensures run.summary.successful + run.summary.failed == run.summary.total
    ensures run.summary.successful == |participants| <==>
              forall i :: 0 <= i < |participants| ==> run.sends[i].result.Success()
    ensures run.summary.failed == |participants| <==>
              forall i :: 0 <= i < |participants| ==> !run.sends[i].result.Success()
  {
    var asWritten := SendMatchFormationEmails(apiKey, participants, info, outcomes);
    CorrectedCountsSuccesses(asWritten.settled);
    BatchRun(asWritten.sends, asWritten.settled, SummarizeByResult(asWritten.settled))
  }

  /** Counted by result, every send is reported successful exactly when every
      send succeeded, and none is exactly when none did. */
  lemma {:induction false} CorrectedCountsSuccesses(rs: seq<Settled<SendResult>>)
    ensures SummarizeByResult(rs).successful == |rs| <==>
              forall i :: 0 <= i < |rs| ==> rs[i].Fulfilled? && rs[i].value.Success()
    ensures SummarizeByResult(rs).successful == 0 <==>
              forall i :: 0 <= i < |rs| ==> !(rs[i].Fulfilled? && rs[i].value.Success())
  {
    if rs != [] {
      CorrectedCountsSuccesses(rs[1..]);
      SucceededAtMostLength(rs[1..]);
      assert forall i :: 1 <= i < |rs| ==> rs[i] == rs[1..][i - 1];
    }
  }

  lemma {:induction false} SucceededAtMostLength(rs: seq<Settled<SendResult>>)
    ensures CountSucceeded(rs) <= |rs|
  {
    SucceededAtMostFulfilled(rs);
    SettledCountsAddUp(rs);
  }

  /** The same concrete run, counted by result: no successful send, one
      failure. */
  lemma ProviderErrorCountedAsFailed()
    ensures SendMatchFormationEmailsCorrected(Some("re_live_key"), [Contact("a@example.com", "A")],
                                              MatchInfo("d", "t", "v", "g", "o", "u", ["A"]),
                                              [Responded(None, Some("invalid recipient"))]).summary
            == BatchSummary(0, 1, 1)
  {
  }
}
