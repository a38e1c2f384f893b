/**
 * The match-creation form: its fields, the rule that resets the required
 * headcount to a default whenever the game type or the court count changes,
 * and the submission that builds the new `matches` row.  The signed-in user
 * and the outcome of the insert are inputs (the identity service and the
 * database are outside the model); navigation to the new match is recorded
 * as the path the form asked for.
 */
module CreateMatch {
  import opened Wrappers
  import opened Types
  import JsNumbers

  /** The suggested headcount: two players per court for singles, four per
      court for doubles, and four for a practice session whatever the number
      of courts. */
  function DefaultRequiredCount(t: GameType, courts: int): (r: int)
    ensures r % 2 == 0
    ensures courts >= 1 ==> r >= 2
    ensures t != Practice && courts >= 1 ==> r % courts == 0
  {
    match t
    case Singles => courts * 2
    case Doubles => courts * 4
    case Practice => 4
  }

  lemma DefaultRequiredCountRule(t: GameType, courts: int, otherCourts: int)
    ensures t == Singles ==> DefaultRequiredCount(t, courts) == 2 * courts
    ensures t == Doubles ==> DefaultRequiredCount(t, courts) == 4 * courts
    ensures t == Practice ==> DefaultRequiredCount(t, courts) == DefaultRequiredCount(t, otherCourts) == 4
    ensures DefaultRequiredCount(Doubles, courts) == 2 * DefaultRequiredCount(Singles, courts)
  {
  }

  /** The headcount typed into the number field: `parseInt` of the text, with
      `NaN` and zero (both falsy) replaced by 2. */
  function RequiredCountFromInput(text: string): (r: int)
    ensures r != 0
    ensures JsNumbers.ParseInt(text).None? ==> r == 2
    ensures JsNumbers.ParseInt(text) == Some(0) ==> r == 2
  {
    match JsNumbers.ParseInt(text)
    case None => 2
    case Some(n) => if n == 0 then 2 else n
  }

  /** A number typed in the field is taken as it is, except zero, which
      becomes 2; empty text and text with no leading digits also become 2. */
  lemma RequiredCountReadsNumber(n: nat)
    ensures RequiredCountFromInput(JsNumbers.DecimalString(n)) == if n == 0 then 2 else n
  {
    JsNumbers.ParseIntReadsDecimal(n, "");
    assert JsNumbers.DecimalString(n) + "" == JsNumbers.DecimalString(n);
  }

  lemma RequiredCountEmptyText()
    ensures RequiredCountFromInput("") == 2
  {
    JsNumbers.ParseIntWithoutDigits("");
  }

  lemma RequiredCountNonNumericText(s: string)
    requires s == [] || (!JsNumbers.IsStrWhiteSpace(s[0]) && s[0] != '-' && s[0] != '+' &&
                         !JsNumbers.IsRadixDigit(s[0], 10))
    ensures RequiredCountFromInput(s) == 2
  {
    JsNumbers.ParseIntWithoutDigits(s);
  }

  /** A negative number is not replaced: only zero and `NaN` fall back. */
  lemma RequiredCountKeepsNegative(n: nat)
    requires n > 0
    ensures RequiredCountFromInput("-" + JsNumbers.DecimalString(n)) == -(n as int)
  {
    JsNumbers.ParseIntSigned(n);
  }

  /** The values held by the form's fields. */
  datatype FormValues = FormValues(
    gameType: GameType,
    doublesMode: DoublesMode,
    courtCount: int,
    requiredCount: int,
    timeStatus: FinalizedStatus,
    venueStatus: FinalizedStatus,
    scheduledAt: string,
    venue: string)

  /** The columns the form sends to `matches`; the database fills in the
      rest. */
  datatype NewMatchRow = NewMatchRow(
    organizerId: string,
    gameType: GameType,
    doublesMode: Option<DoublesMode>,
    courtCount: int,
    requiredCount: int,
    timeStatus: FinalizedStatus,
    venueStatus: FinalizedStatus,
    scheduledAt: Option<string>,
    venue: Option<string>)

  /** JavaScript's `text || null`: the empty string is falsy. */
  function EmptyToNull(text: string): (r: Option<string>)
    ensures r.None? <==> text == ""
  {
    if text == "" then None else Some(text)
  }

  function NullToEmpty(value: Option<string>): string {
    value.GetOr("")
  }

  lemma EmptyToNullRoundTrip(text: string)
    ensures NullToEmpty(EmptyToNull(text)) == text
  {
  }

  /** The row inserted for a form submitted by the given user. */
  function BuildRow(organizerId: string, f: FormValues): (row: NewMatchRow)
    ensures ModeFitsGameType(row.gameType, row.doublesMode)
  {
    NewMatchRow(
      organizerId,
      f.gameType,
      if f.gameType == Doubles then Some(f.doublesMode) else None,
      f.courtCount,
      f.requiredCount,
      f.timeStatus,
      f.venueStatus,
      EmptyToNull(f.scheduledAt),
      EmptyToNull(f.venue))
  }

  /** The form a row came from, with `fallbackMode` standing for the mode the
      row does not record. */
  function FormOfRow(row: NewMatchRow, fallbackMode: DoublesMode): FormValues {
    FormValues(
      row.gameType,
      row.doublesMode.GetOr(fallbackMode),
      row.courtCount,
      row.requiredCount,
      row.timeStatus,
      row.venueStatus,
      NullToEmpty(row.scheduledAt),
      NullToEmpty(row.venue))
  }

  /** The row loses nothing of the form but the doubles mode of a game that
      is not doubles: the form is recovered from the row, the organizer is the
      submitting user, and the mode is recorded exactly for doubles. */
  lemma BuildRowRecoversForm(organizerId: string, f: FormValues)
    ensures BuildRow(organizerId, f).organizerId == organizerId
    ensures FormOfRow(BuildRow(organizerId, f), f.doublesMode) == f
    ensures BuildRow(organizerId, f).doublesMode ==
              if f.gameType == Doubles then Some(f.doublesMode) else None
    ensures BuildRow(organizerId, f).scheduledAt.None? <==> f.scheduledAt == ""
    ensures BuildRow(organizerId, f).venue.None? <==> f.venue == ""
  {
  }

  /** Two forms give the same row only when they agree on every field,
      except that the doubles mode matters only for doubles. */
  lemma BuildRowInjective(u: string, f1: FormValues, f2: FormValues)
    requires BuildRow(u, f1) == BuildRow(u, f2)
    ensures f1.(doublesMode := f2.doublesMode) == f2
    ensures f1.gameType == Doubles ==> f1 == f2
  {
  }

  /** The user the identity service reports as signed in. */
  datatype AuthUser = AuthUser(id: string)

  /** What the database answers to the insert: the new row's id, or an
      error message. */
  datatype InsertOutcome = Inserted(matchId: string) | InsertFailed(message: string)

  const LoginRequiredMessage := "请先登录"

  const MatchesPrefix := "/matches/"

  /** The page of a match: the fixed prefix followed by the match's id. */
  function MatchPath(matchId: string): (p: string)
    ensures |p| == |MatchesPrefix| + |matchId|
    ensures p[..|MatchesPrefix|] == MatchesPrefix && p[|MatchesPrefix|..] == matchId
  {
    MatchesPrefix + matchId
  }

  class CreateMatchForm {
    var gameType: GameType
    var doublesMode: DoublesMode
    var courtCount: int
    var requiredCount: int
    var timeStatus: FinalizedStatus
    var venueStatus: FinalizedStatus
    var scheduledAt: string
    var venue: string
    var loading: bool
    var error: Option<string>
    /** The page the form sent the browser to, once a match is created. */
    var navigatedTo: Option<string>

    function Values(): FormValues
      reads this
    {
      FormValues(gameType, doublesMode, courtCount, requiredCount, timeStatus, venueStatus, scheduledAt, venue)
    }

    /** A fresh form: mixed doubles on one court for four players, time and
        venue tentative and blank; four is the default for that choice. */
    constructor ()
      ensures gameType == Doubles && doublesMode == Mixed
      ensures courtCount == 1 && requiredCount == 4
      ensures requiredCount == DefaultRequiredCount(gameType, courtCount)
      ensures timeStatus == Tentative && venueStatus == Tentative
      ensures scheduledAt == "" && venue == ""
      ensures !loading && error.None? && navigatedTo.None?
    {
      gameType := Doubles;
      doublesMode := Mixed;
      courtCount := 1;
      requiredCount := 4;
      timeStatus := Tentative;
      venueStatus := Tentative;
      scheduledAt := "";
      venue := "";
      loading := false;
      error := None;
      navigatedTo := None;
    }

    /** Choosing a game type resets the headcount to that type's default for
        the current number of courts. */
    method HandleGameTypeChange(t: GameType)
      modifies this`gameType, this`requiredCount
      ensures gameType == t
      ensures requiredCount == DefaultRequiredCount(t, courtCount)
      ensures courtCount == old(courtCount)
    {
      gameType := t;
      requiredCount := DefaultRequiredCount(t, courtCount);
    }

    /** Choosing a number of courts resets the headcount to the current
        type's default for that number. */
    method HandleCourtCountChange(count: int)
      modifies this`courtCount, this`requiredCount
      ensures courtCount == count
      ensures requiredCount == DefaultRequiredCount(gameType, count)
      ensures gameType == old(gameType)
    {
      courtCount := count;
      requiredCount := DefaultRequiredCount(gameType, count);
    }

    method SetDoublesMode(m: DoublesMode)
      modifies this`doublesMode
      ensures doublesMode == m
    {
      doublesMode := m;
    }

    /** Editing the headcount field directly. */
    method HandleRequiredCountInput(text: string)
      modifies this`requiredCount
      ensures requiredCount == RequiredCountFromInput(text)
    {
      requiredCount := RequiredCountFromInput(text);
    }

    /** The "finalized" check box of the time. */
    method SetTimeFinalized(checked: bool)
      modifies this`timeStatus
      ensures timeStatus == if checked then Finalized else Tentative
    {
      timeStatus := if checked then Finalized else Tentative;
    }

    /** The "finalized" check box of the venue. */
    method SetVenueFinalized(checked: bool)
      modifies this`venueStatus
      ensures venueStatus == if checked then Finalized else Tentative
    {
      venueStatus := if checked then Finalized else Tentative;
    }

    method SetScheduledAt(text: string)
      modifies this`scheduledAt
      ensures scheduledAt == text
    {
      scheduledAt := text;
    }

    method SetVenue(text: string)
      modifies this`venue
      ensures venue == text
    {
      venue := text;
    }

    /** Submitting the form.  With nobody signed in it stops with the login
        message and inserts nothing.  Otherwise it inserts the row built from
        the fields with the user as organizer (returned as `inserted`); a
        failed insert shows the database's message, a successful one
        navigates to the new match and leaves the form loading. */
    method HandleSubmit(currentUser: Option<AuthUser>, outcome: InsertOutcome)
      returns (inserted: Option<NewMatchRow>)
      modifies this`loading, this`error, this`navigatedTo
      ensures Values() == old(Values())
      ensures currentUser.None? ==>
                inserted.None? && error == Some(LoginRequiredMessage) && !loading &&
                navigatedTo == old(navigatedTo)
      ensures currentUser.Some? ==> inserted == Some(BuildRow(currentUser.value.id, Values()))
      ensures currentUser.Some? && outcome.InsertFailed? ==>
                error == Some(outcome.message) && !loading && navigatedTo == old(navigatedTo)
      ensures currentUser.Some? && outcome.Inserted? ==>
                error.None? && loading && navigatedTo == Some(MatchPath(outcome.matchId))
    {
      error := None;
      loading := true;
      if currentUser.None? {
        error := Some(LoginRequiredMessage);
        loading := false;
        return None;
      }
      var row := BuildRow(currentUser.value.id, Values());
      inserted := Some(row);
      match outcome
      case InsertFailed(message) =>
        error := Some(message);
        loading := false;
      case Inserted(matchId) =>
        navigatedTo := Some(MatchPath(matchId));
    }
  }

  /** A session with the form: a fresh form, a few edits, and a submission,
      with what the methods' contracts let a caller conclude. */
  method CreateSinglesOnTwoCourts(user: AuthUser, matchId: string) returns (row: Option<NewMatchRow>)
    ensures row.Some?
    ensures row.value.organizerId == user.id
    ensures row.value.gameType == Singles && row.value.doublesMode.None?
    ensures row.value.courtCount == 2 && row.value.requiredCount == 4
    ensures row.value.scheduledAt.None? && row.value.venue == Some("Court 7")
  {
    var form := new CreateMatchForm();
    form.HandleGameTypeChange(Singles);
    form.HandleCourtCountChange(2);
    form.SetVenue("Court 7");
    row := form.HandleSubmit(Some(user), Inserted(matchId));
  }
}
