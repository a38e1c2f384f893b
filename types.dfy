/**
 * The shared record types of the application: matches, participants, their
 * state history, and groups.  Enumerations become datatypes; each carries the
 * string spelling the database uses, with a parser that inverts it.  The
 * invariants the declarations state only in comments are written out as
 * predicates.
 */
module Types {
  import opened Wrappers

  // ---------------------------------------------------------------------------
  // Enumerations of a match
  // ---------------------------------------------------------------------------

  datatype GameType = Singles | Doubles | Practice

  datatype DoublesMode = Mens | Womens | Mixed | Open

  datatype MatchStatus = Active | Cancelled

  datatype FinalizedStatus = Tentative | Finalized

  /** The four states a participant row can be in; a row holds exactly one. */
  datatype ParticipantState = Pending | Confirmed | Waitlisted | Removed

  function GameTypeName(t: GameType): string {
    match t
    case Singles => "singles"
    case Doubles => "doubles"
    case Practice => "practice"
  }

  function ParseGameType(s: string): (r: Option<GameType>)
    ensures r.Some? ==> GameTypeName(r.value) == s
  {
    if s == "singles" then Some(Singles)
    else if s == "doubles" then Some(Doubles)
    else if s == "practice" then Some(Practice)
    else None
  }

  function DoublesModeName(m: DoublesMode): string {
    match m
    case Mens => "mens"
    case Womens => "womens"
    case Mixed => "mixed"
    case Open => "open"
  }

  function ParseDoublesMode(s: string): (r: Option<DoublesMode>)
    ensures r.Some? ==> DoublesModeName(r.value) == s
  {
    if s == "mens" then Some(Mens)
    else if s == "womens" then Some(Womens)
    else if s == "mixed" then Some(Mixed)
    else if s == "open" then Some(Open)
    else None
  }

  function MatchStatusName(s: MatchStatus): string {
    match s
    case Active => "active"
    case Cancelled => "cancelled"
  }

  function ParseMatchStatus(s: string): (r: Option<MatchStatus>)
    ensures r.Some? ==> MatchStatusName(r.value) == s
  {
    if s == "active" then Some(Active)
    else if s == "cancelled" then Some(Cancelled)
    else None
  }

  function FinalizedStatusName(s: FinalizedStatus): string {
    match s
    case Tentative => "tentative"
    case Finalized => "finalized"
  }

  function ParseFinalizedStatus(s: string): (r: Option<FinalizedStatus>)
    ensures r.Some? ==> FinalizedStatusName(r.value) == s
  {
    if s == "tentative" then Some(Tentative)
    else if s == "finalized" then Some(Finalized)
    else None
  }

  function ParticipantStateName(s: ParticipantState): string {
    match s
    case Pending => "pending"
    case Confirmed => "confirmed"
    case Waitlisted => "waitlisted"
    case Removed => "removed"
  }

  function ParseParticipantState(s: string): (r: Option<ParticipantState>)
    ensures r.Some? ==> ParticipantStateName(r.value) == s
  {
    if s == "pending" then Some(Pending)
    else if s == "confirmed" then Some(Confirmed)
    else if s == "waitlisted" then Some(Waitlisted)
    else if s == "removed" then Some(Removed)
    else None
  }

  /** The spellings of the enumerations are their exact string values: each
      parser inverts its name function, on every value. */
  lemma NamesRoundTrip(t: GameType, m: DoublesMode, st: MatchStatus, f: FinalizedStatus, p: ParticipantState)
    ensures ParseGameType(GameTypeName(t)) == Some(t)
    ensures ParseDoublesMode(DoublesModeName(m)) == Some(m)
    ensures ParseMatchStatus(MatchStatusName(st)) == Some(st)
    ensures ParseFinalizedStatus(FinalizedStatusName(f)) == Some(f)
    ensures ParseParticipantState(ParticipantStateName(p)) == Some(p)
  {
  }

  /** A participant state string stands for one of exactly four states. */
  lemma ParticipantStateHasFourValues(s: string)
    ensures ParseParticipantState(s).Some? <==>
              s == "pending" || s == "confirmed" || s == "waitlisted" || s == "removed"
  {
  }

  // ---------------------------------------------------------------------------
  // Matches
  // ---------------------------------------------------------------------------

  /** A match row.  Nullable columns are `Option`s; timestamps are the
      database's strings. */
  datatype Match = Match(
    id: string,
    organizerId: string,
    status: MatchStatus,
    gameType: GameType,
    doublesMode: Option<DoublesMode>,
    courtCount: int,
    requiredCount: int,
    timeStatus: FinalizedStatus,
    venueStatus: FinalizedStatus,
    scheduledAt: Option<string>,
    venue: Option<string>,
    durationMinutes: Option<int>,
    genderTargetFemale: Option<int>,
    genderTargetMale: Option<int>,
    createdAt: string,
    updatedAt: string)

  /** A doubles sub-mode is recorded exactly when the game is doubles; this is
      how the creation form fills the column. */
  predicate ModeFitsGameType(t: GameType, mode: Option<DoublesMode>) {
    mode.Some? <==> t == Doubles
  }

  /** A match row as read from the `match_details` view, with the columns the
      view derives.  The view computes them; this model only states what the
      declaration documents about them. */
  datatype MatchDetails = MatchDetails(
    base: Match,
    confirmedCount: int,
    isFull: bool,
    isFinalized: bool,
    isFormed: bool,
    organizerName: Option<string>)

  /** The meaning the declaration's comment gives `is_formed`: the confirmed
      headcount has reached the required headcount. */
  predicate FormedAsDocumented(d: MatchDetails) {
    d.isFormed <==> d.confirmedCount >= d.base.requiredCount
  }

  /** The meaning the match page reads into `is_formed`: a formed match is
      full with its time and venue finalized, and a full match whose time and
      venue are both finalized is formed (the page's "full, fix the time or
      venue" hint names nothing else that could be missing). */
  predicate FormedAsShown(d: MatchDetails) {
    d.isFormed <==> d.isFull && d.base.timeStatus == Finalized && d.base.venueStatus == Finalized
  }

  /** Under the documented meaning, formation is monotone in the headcount:
      with the same confirmed count, a lower requirement keeps a formed
      match formed, and a higher confirmed count keeps it formed too. */
  lemma FormedMonotone(d1: MatchDetails, d2: MatchDetails)
    requires FormedAsDocumented(d1) && FormedAsDocumented(d2)
    requires d2.confirmedCount >= d1.confirmedCount
    requires d2.base.requiredCount <= d1.base.requiredCount
    ensures d1.isFormed ==> d2.isFormed
  {
  }

  /** The two meanings disagree: a match that has its headcount but whose
      time or venue is still tentative is formed by the comment's reading and
      not by the page's. */
  lemma FormedReadingsDisagree(d: MatchDetails)
    requires FormedAsDocumented(d)
    requires d.confirmedCount >= d.base.requiredCount
    requires d.base.timeStatus == Tentative || d.base.venueStatus == Tentative
    ensures d.isFormed && !FormedAsShown(d)
  {
  }

  /** Where both meanings hold, formation needs everything at once: the
      headcount, a full match, and a finalized time and venue. */
  lemma FormedUnderBothReadings(d: MatchDetails)
    requires FormedAsDocumented(d) && FormedAsShown(d)
    ensures d.isFormed <==>
              && d.confirmedCount >= d.base.requiredCount
              && d.isFull && d.base.timeStatus == Finalized && d.base.venueStatus == Finalized
  {
  }

  // ---------------------------------------------------------------------------
  // Participants and their history
  // ---------------------------------------------------------------------------

  /** A registered user's relation to one match; it holds one state. */
  datatype Participant = Participant(
    id: string,
    matchId: string,
    userId: string,
    state: ParticipantState,
    createdAt: string,
    updatedAt: string)

  /** One recorded state change.  The new state is always present; the old
      state and the acting user (`changedBy`, the organizer or the user
      themself) may each be absent. */
  datatype ParticipantHistory = ParticipantHistory(
    id: string,
    participantId: string,
    oldState: Option<ParticipantState>,
    newState: ParticipantState,
    changedAt: string,
    changedBy: Option<string>)

  // ---------------------------------------------------------------------------
  // Groups
  // ---------------------------------------------------------------------------

  /** `Direct`: two to four people arranging games among equals.
      `Organized`: five or more people, governed by a boundary keeper. */
  datatype GroupType = Direct | Organized

  datatype GroupVisibility = Private | Discoverable | LinkAccessible

  /** `InviteOnly` is the only policy of a direct group; `OrganizerApproval`
      (the organized default) needs a boundary keeper; `AutoJoin` is for
      organized groups only. */
  datatype GroupJoinPolicy = InviteOnly | OrganizerApproval | AutoJoin

  /** A removed member keeps the record, with this status, for audit. */
  datatype GroupMemberStatus = MemberPending | MemberActive | MemberRemoved

  datatype GroupJoinMethod = Invited | Applied | Link | Founder

  datatype Group = Group(
    id: string,
    groupType: GroupType,
    name: Option<string>,
    visibility: GroupVisibility,
    joinPolicy: GroupJoinPolicy,
    createdBy: string,
    boundaryKeeperUserId: Option<string>,
    inviteCode: Option<string>,
    inviteCodeExpiresAt: Option<string>,
    inviteCodeMaxUses: Option<int>,
    inviteCodeUses: int,
    club: Option<string>,
    skillLevel: Option<string>,
    createdAt: string,
    updatedAt: string)

  datatype GroupDetails = GroupDetails(
    base: Group,
    memberCount: int,
    pendingCount: int,
    boundaryKeeperName: Option<string>)

  datatype GroupMember = GroupMember(
    id: string,
    groupId: string,
    userId: string,
    status: GroupMemberStatus,
    joinMethod: GroupJoinMethod,
    invitedBy: Option<string>,
    joinedAt: Option<string>,
    createdAt: string,
    updatedAt: string)

  datatype CreateGroupData = CreateGroupData(
    groupType: GroupType,
    name: Option<string>,
    visibility: Option<GroupVisibility>,
    joinPolicy: Option<GroupJoinPolicy>,
    club: Option<string>,
    skillLevel: Option<string>)

  /** Which join policies a group type admits. */
  predicate JoinPolicyAllowed(t: GroupType, p: GroupJoinPolicy) {
    match t
    case Direct => p == InviteOnly
    case Organized => true
  }

  /** The documented default policy of each group type. */
  function DefaultJoinPolicy(t: GroupType): (p: GroupJoinPolicy)
    ensures JoinPolicyAllowed(t, p)
    ensures t == Direct <==> p == InviteOnly
  {
    match t
    case Direct => InviteOnly
    case Organized => OrganizerApproval
  }

  /** The documented invariants of a group row: a boundary keeper exactly for
      organized groups, and a join policy its type admits. */
  predicate GroupValid(g: Group) {
    && (g.groupType == Organized <==> g.boundaryKeeperUserId.Some?)
    && JoinPolicyAllowed(g.groupType, g.joinPolicy)
  }

  /** A creation request: a name is required for an organized group, and an
      explicit join policy must be one the type admits. */
  predicate CreateGroupDataValid(d: CreateGroupData) {
    && (d.groupType == Organized ==> d.name.Some?)
    && (d.joinPolicy.Some? ==> JoinPolicyAllowed(d.groupType, d.joinPolicy.value))
  }

  /** In a valid group, auto-join implies an organized group, and a direct
      group never has a boundary keeper or any policy but invite-only. */
  lemma GroupPolicyConsequences(g: Group)
    requires GroupValid(g)
    ensures g.joinPolicy == AutoJoin ==> g.groupType == Organized
    ensures g.joinPolicy == OrganizerApproval ==> g.boundaryKeeperUserId.Some?
    ensures g.groupType == Direct ==> g.boundaryKeeperUserId.None? && g.joinPolicy == InviteOnly
  {
  }

  /** The policy a valid creation request ends up with, the explicit one or
      else the type's default, is one the type admits. */
  lemma CreatedPolicyAllowed(d: CreateGroupData)
    requires CreateGroupDataValid(d)
    ensures JoinPolicyAllowed(d.groupType, d.joinPolicy.GetOr(DefaultJoinPolicy(d.groupType)))
    ensures d.groupType == Direct ==> d.joinPolicy.GetOr(DefaultJoinPolicy(d.groupType)) == InviteOnly
  {
  }
}
