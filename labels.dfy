/**
 * The display labels the pages show for a game type (with its doubles
 * sub-mode) and for a participant state.  Both take the database's raw
 * strings, so any string is a possible input, and an unrecognised one is
 * shown as it is.
 */
module Labels {
  import opened Wrappers
  import opened Types

  const SinglesLabel := "单打"
  const DoublesLabel := "双打"
  const PracticeLabel := "练球"

  /** The labels of the four doubles sub-modes, keyed by their spelling. */
  const ModeLabels: map<string, string> := map[
    "mens" := "男双",
    "womens" := "女双",
    "mixed" := "混双",
    "open" := "双打（开放）"]

  predicate IsGameTypeName(s: string) {
    ParseGameType(s).Some?
  }

  predicate IsParticipantStateName(s: string) {
    ParseParticipantState(s).Some?
  }

  /** The label of a doubles game: the sub-mode's label when the mode is a
      non-empty string with an entry (and a non-empty label) in the table,
      plain doubles otherwise. */
  function DoublesGameLabel(doublesMode: Option<string>): (r: string)
    ensures r == DoublesLabel || r in ModeLabels.Values
    ensures r != DoublesLabel <==> doublesMode.Some? && doublesMode.value in ModeLabels
  {
    if doublesMode.Some? && doublesMode.value != "" then
      var modeLabel := if doublesMode.value in ModeLabels then ModeLabels[doublesMode.value] else "";
      if modeLabel != "" then modeLabel else DoublesLabel
    else DoublesLabel
  }

  /** The label of a game type; an unknown game type is its own label. */
  function GameTypeLabel(gameType: string, doublesMode: Option<string>): (r: string)
    ensures r == gameType <==> !IsGameTypeName(gameType)
  {
    if gameType == "singles" then SinglesLabel
    else if gameType == "doubles" then DoublesGameLabel(doublesMode)
    else if gameType == "practice" then PracticeLabel
    else gameType
  }

  /** The label of a participant state; an unknown state is its own label. */
  function ParticipantStatusLabel(state: string): (r: string)
    ensures r == state <==> !IsParticipantStateName(state)
  {
    if state == "pending" then "等待确认"
    else if state == "confirmed" then "已确认"
    else if state == "waitlisted" then "候补中"
    else if state == "removed" then "未参与"
    else state
  }

  /** Each of the four participant states has its own label. */
  lemma StatusLabels()
    ensures ParticipantStatusLabel("pending") == "等待确认"
    ensures ParticipantStatusLabel("confirmed") == "已确认"
    ensures ParticipantStatusLabel("waitlisted") == "候补中"
    ensures ParticipantStatusLabel("removed") == "未参与"
  {
  }

  /** Singles and practice ignore the doubles mode altogether. */
  lemma SinglesAndPracticeIgnoreMode(m1: Option<string>, m2: Option<string>)
    ensures GameTypeLabel("singles", m1) == GameTypeLabel("singles", m2) == SinglesLabel
    ensures GameTypeLabel("practice", m1) == GameTypeLabel("practice", m2) == PracticeLabel
  {
  }

  /** Each of the four sub-modes has its own doubles label. */
  lemma DoublesModeLabels()
    ensures GameTypeLabel("doubles", Some("mens")) == "男双"
    ensures GameTypeLabel("doubles", Some("womens")) == "女双"
    ensures GameTypeLabel("doubles", Some("mixed")) == "混双"
    ensures GameTypeLabel("doubles", Some("open")) == "双打（开放）"
  {
  }

  /** Doubles without a mode, or with a mode the table does not know, falls
      back to plain doubles. */
  lemma DoublesFallback(m: Option<string>)
    requires m.None? || ParseDoublesMode(m.value).None?
    ensures GameTypeLabel("doubles", m) == DoublesLabel
  {
  }

  /** The typed labels: a game type with a mode that fits it (as every row
      the creation form inserts does) gets a label no other such pair gets. */
  function MatchLabel(t: GameType, m: Option<DoublesMode>): string {
    GameTypeLabel(GameTypeName(t), if m.Some? then Some(DoublesModeName(m.value)) else None)
  }

  lemma MatchLabelInjective(t1: GameType, m1: Option<DoublesMode>, t2: GameType, m2: Option<DoublesMode>)
    requires ModeFitsGameType(t1, m1) && ModeFitsGameType(t2, m2)
    requires MatchLabel(t1, m1) == MatchLabel(t2, m2)
    ensures t1 == t2 && m1 == m2
  {
  }

  /** The four state labels are pairwise distinct, so a label tells the
      state apart. */
  lemma StatusLabelInjective(s1: ParticipantState, s2: ParticipantState)
    requires ParticipantStatusLabel(ParticipantStateName(s1)) == ParticipantStatusLabel(ParticipantStateName(s2))
    ensures s1 == s2
  {
  }
}
