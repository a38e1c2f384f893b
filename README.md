# PlayerHoods match creation, labels and formation notices in Dafny

PlayerHoods organises sports matches. An organizer creates a match with a game type (singles, doubles or practice), a doubles sub-mode, a number of courts, a required headcount, and a time and venue that are each tentative or finalized. Players sign up as participants. When the match is "formed" (see below), they get an email. This project models four pieces of that system:

- **Types** (`types.dfy`): the record types of matches, participants, participant history and groups. They are datatypes. The invariants the declarations state only in comments are predicates: the two readings of `is_formed` (below), a boundary keeper exactly for organized groups, and the join policies each group type admits.
- **CreateMatch** (`create_match.dfy`): the match-creation form as a class whose fields are the form's state. It covers the default-headcount rule, and the reset of the headcount when the game type or the court count changes. It also covers the headcount field's `parseInt(...) || 2`, and a submission that builds the inserted `matches` row or stops with the login message.
- **JsNumbers** (`js_numbers.dfy`): JavaScript's `parseInt` without a radix, as section 19.2.5 of ECMA-262 defines it. The headcount field uses it.
- **Labels** (`labels.dfy`): the display labels for a game type with its sub-mode, and for a participant state.
- **Email** (`email.dfy`): three parts.
  - `sendEmail`'s decision logic. With no configured key it skips. It normalises the recipients, and turns the provider's answer into a result.
  - The subject and participant list of the formation notice.
  - The batch: one notice per participant, with its `{successful, failed, total}` summary.

Several things are inputs to the model, not parts of it:

- the signed-in user;
- the database's answer to the insert;
- the mail provider's answer to each send.

Navigation after a successful insert is recorded as the path the form asks for.

Two points where the source does not settle the behaviour:

- `is_formed` has two readings. The comment on its declaration (src/types/index.ts:58) says it means `confirmed_count >= required_count`. That is `Types.FormedAsDocumented`. The match page reads it differently (src/app/matches/[id]/page.tsx:200-203 and 416-428). There a full match that is not formed gets an "already full" badge and the hint "fix the time/venue to form". A formed match is described as "headcount met, time and venue fixed". That is `Types.FormedAsShown`. `Types.FormedReadingsDisagree` shows the readings differ as soon as the headcount is met while the time or venue is still tentative. The flag itself comes precomputed from a database view, so neither reading is preferred.
- `handleSubmit` does not check the headcount itself. Typing `-3` stores -3 in the form (`CreateMatch.RequiredCountKeepsNegative`), and the court count scales the default without a floor. The field declares `min={2} max={20}` (src/app/matches/create/page.tsx:191-192), so the browser's constraint validation blocks submission of such a value. That validation is not modelled (see "## Left out").

## Model

| member | source | states |
|---|---|---|
| Types.ParseGameType | src/types/index.ts:22 | a parsed game type has exactly the spelling it was parsed from |
| Types.ParseDoublesMode | src/types/index.ts:25 | a parsed doubles mode has exactly the spelling it was parsed from |
| Types.ParseParticipantState | src/types/index.ts:63 | a parsed participant state has exactly the spelling it was parsed from |
| Types.ParseMatchStatus | src/types/index.ts:28 | a parsed match status has exactly the spelling it was parsed from |
| Types.ParseFinalizedStatus | src/types/index.ts:31 | a parsed time or venue status has exactly the spelling it was parsed from |
| Types.NamesRoundTrip | src/types/index.ts:22-63 | parsing the spelling of every game type, doubles mode, match status, finalized status and participant state gives that value back |
| Types.ParticipantStateHasFourValues | src/types/index.ts:62-70 | a state string denotes a state exactly when it is one of pending, confirmed, waitlisted, removed |
| Types.FormedMonotone | src/types/index.ts:53-58 | under the documented meaning of `is_formed` (confirmed count at least required count), more confirmed players or a lower requirement keep a formed match formed |
| Types.FormedReadingsDisagree | src/types/index.ts:54-60 | a match whose headcount is met but whose time or venue is tentative is formed under the comment's reading and not under the match page's (full, time and venue finalized) |
| Types.FormedUnderBothReadings | src/types/index.ts:54-60 | where both readings hold, a match is formed exactly when it has its headcount, is full, and has a finalized time and venue |
| Types.DefaultJoinPolicy | src/types/index.ts:128-132 | the default policy is one the group type admits, and is invite-only exactly for direct groups |
| Types.GroupPolicyConsequences | src/types/index.ts:128-155 | in a valid group, auto-join implies organized, organizer approval implies a boundary keeper, and a direct group has no keeper and only invite-only |
| Types.CreatedPolicyAllowed | src/types/index.ts:192-200 | a valid creation request's policy, the explicit one or else the type's default, is one its type admits, and is invite-only for a direct group |
| JsNumbers.ParseIntNeedsDigit | src/app/matches/create/page.tsx:194 | `parseInt` gives a number only when the input holds a digit, and a negative number only when it holds a minus sign |
| JsNumbers.ParseIntReadsDecimal | src/app/matches/create/page.tsx:194 | `parseInt` reads back the decimal spelling of every natural number, also when a non-digit such as `.` or `e` follows |
| JsNumbers.ParseIntSigned | src/app/matches/create/page.tsx:194 | a leading `-` negates the number and a leading `+` is dropped |
| JsNumbers.ParseIntSkipsWhiteSpace | src/app/matches/create/page.tsx:194 | leading white space never changes what `parseInt` returns |
| JsNumbers.ParseIntWithoutDigits | src/app/matches/create/page.tsx:194 | text that is empty or opens with anything but white space, a sign or a digit is `NaN` |
| JsNumbers.ParseIntBareSignOrPrefix | src/app/matches/create/page.tsx:194 | a lone `-` and a bare `0x` are `NaN` |
| JsNumbers.ParseIntHexPrefix | src/app/matches/create/page.tsx:194 | after a `0x` prefix the digits are read in base 16 |
| JsNumbers.ParseIntHexadecimal | src/app/matches/create/page.tsx:194 | `"0x1A"` is 26 |
| Labels.DoublesGameLabel | src/lib/utils.ts:44-51 | the doubles label is plain doubles or one of the sub-mode labels, and differs from plain doubles exactly when the mode is a key of the table |
| Labels.GameTypeLabel | src/lib/utils.ts:40-57 | the label equals the game type string exactly when that string is not singles, doubles or practice |
| Labels.ParticipantStatusLabel | src/lib/utils.ts:60-72 | the label equals the state string exactly when that string is not one of the four states |
| Labels.SinglesAndPracticeIgnoreMode | src/lib/utils.ts:42-53 | singles is always 单打 and practice always 练球, whatever the doubles mode |
| Labels.DoublesModeLabels | src/lib/utils.ts:44-51 | doubles with mens, womens, mixed or open is 男双, 女双, 混双 or 双打（开放） |
| Labels.DoublesFallback | src/lib/utils.ts:51 | doubles with no mode or an unknown mode is 双打 |
| Labels.MatchLabelInjective | src/lib/utils.ts:40-55 | for game types whose mode fits them, different (type, mode) pairs get different labels |
| Labels.StatusLabels | src/lib/utils.ts:61-69 | pending, confirmed, waitlisted and removed are labelled 等待确认, 已确认, 候补中 and 未参与 |
| Labels.StatusLabelInjective | src/lib/utils.ts:61-69 | the four participant state labels are pairwise distinct |
| CreateMatch.DefaultRequiredCount | src/app/matches/create/page.tsx:25-36 | the default headcount is always even, at least 2 for one court or more, and a multiple of the court count for singles and doubles |
| CreateMatch.DefaultRequiredCountRule | src/app/matches/create/page.tsx:25-36 | the default is 2 per court for singles, 4 per court for doubles (twice singles), and 4 for practice whatever the courts |
| CreateMatch.RequiredCountFromInput | src/app/matches/create/page.tsx:194 | the typed headcount is never 0, and is 2 when the text does not parse or parses to zero |
| CreateMatch.RequiredCountReadsNumber | src/app/matches/create/page.tsx:194 | typing a natural number stores it, except 0, which stores 2 |
| CreateMatch.RequiredCountEmptyText | src/app/matches/create/page.tsx:194 | clearing the field stores 2 |
| CreateMatch.RequiredCountNonNumericText | src/app/matches/create/page.tsx:194 | text that is empty or opens with anything but white space, a sign or a digit stores 2 |
| CreateMatch.RequiredCountKeepsNegative | src/app/matches/create/page.tsx:194 | a typed negative number is stored as it is |
| CreateMatch.EmptyToNull | src/app/matches/create/page.tsx:76-77 | the stored value is null exactly when the text is empty |
| CreateMatch.EmptyToNullRoundTrip | src/app/matches/create/page.tsx:76-77 | reading null back as empty text recovers the original text |
| CreateMatch.BuildRow | src/app/matches/create/page.tsx:68-78 | every inserted row records a doubles mode exactly when its game type is doubles |
| CreateMatch.BuildRowRecoversForm | src/app/matches/create/page.tsx:68-78 | the organizer is the submitting user, the mode is the chosen one for doubles and null otherwise, an empty time or venue is stored as null and only then, and every other field of the form is recovered from the row |
| CreateMatch.MatchPath | src/app/matches/create/page.tsx:86 | the page of a new match is `/matches/` followed by exactly its id |
| CreateMatch.BuildRowInjective | src/app/matches/create/page.tsx:68-78 | two forms give the same row only when they agree on every field, the mode counting only for doubles |
| CreateMatch.CreateMatchForm.constructor | src/app/matches/create/page.tsx:11-22 | a new form is mixed doubles, 1 court, 4 players (the default for that choice), time and venue tentative and blank, not loading, no error |
| CreateMatch.CreateMatchForm.HandleGameTypeChange | src/app/matches/create/page.tsx:39-42 | sets the type and resets the headcount to that type's default for the current courts; nothing else changes |
| CreateMatch.CreateMatchForm.HandleCourtCountChange | src/app/matches/create/page.tsx:45-48 | sets the courts and resets the headcount to the current type's default for them; nothing else changes |
| CreateMatch.CreateMatchForm.SetDoublesMode | src/app/matches/create/page.tsx:146 | sets the doubles mode and nothing else |
| CreateMatch.CreateMatchForm.HandleRequiredCountInput | src/app/matches/create/page.tsx:194 | sets the headcount to `parseInt(text) \|\| 2` and nothing else |
| CreateMatch.CreateMatchForm.SetTimeFinalized | src/app/matches/create/page.tsx:219 | a checked box finalizes the time, an unchecked one makes it tentative |
| CreateMatch.CreateMatchForm.SetVenueFinalized | src/app/matches/create/page.tsx:245 | a checked box finalizes the venue, an unchecked one makes it tentative |
| CreateMatch.CreateMatchForm.SetScheduledAt | src/app/matches/create/page.tsx:212 | sets the scheduled time text and nothing else |
| CreateMatch.CreateMatchForm.SetVenue | src/app/matches/create/page.tsx:237 | sets the venue text and nothing else |
| CreateMatch.CreateMatchForm.HandleSubmit | src/app/matches/create/page.tsx:50-88 | with no user: the login message, not loading, no insert; otherwise inserts the row built from the fields with the user as organizer, then shows the database's error and stops loading, or navigates to the new match; the fields never change |
| CreateMatch.CreateSinglesOnTwoCourts | src/app/matches/create/page.tsx:15-88 | a caller choosing singles, two courts and a venue submits a singles row with no mode, 2 courts, 4 players, no time and that venue |
| Email.ApiKeyConfigured | src/lib/email.ts:14 | a key counts as missing exactly when it is unset, empty or the placeholder |
| Email.RecipientList | src/lib/email.ts:22 | one address becomes a one-element list, a list passes through unchanged |
| Email.RecipientListIdempotent | src/lib/email.ts:22 | normalising an already normalised list changes nothing |
| Email.SendEmail | src/lib/email.ts:12-38 | no request and a skipped success exactly when the key is missing, empty or the placeholder; otherwise one request from the fixed sender to the normalised recipients; success exactly on a response without error; a failure carries the reported or thrown error; a success carries the data |
| Email.WithRecipient | src/lib/email.ts:148-152 | merging a recipient into the match information keeps that information unchanged and carries the recipient's address and name |
| Email.MergeRoundTrip | src/lib/email.ts:144-153 | the parameters of a notice split back into the shared information and the recipient and merge to the same parameters |
| Email.Subject | src/lib/email.ts:136 | the subject opens with `球局已成局 - ` and is exactly as long as that prefix, the date, one space and the game type |
| Email.SubjectDeterminesParts | src/lib/email.ts:136 | the subject is the fixed prefix, the date, a space and the game type, and for dates of equal length it determines both |
| Email.ParticipantList | src/lib/email.ts:66 | the list is empty exactly when there are no names, and otherwise opens with an `<li>` item |
| Email.ParticipantListAppend | src/lib/email.ts:66 | the list of a concatenation of names is the concatenation of their lists, so the items appear in order |
| Email.ParticipantListLength | src/lib/email.ts:66 | each name contributes its own length plus nine characters of markup |
| Email.ParticipantListSingle | src/lib/email.ts:66 | one name gives one `<li>` item; no names give the empty string |
| Email.FormationHtml | src/lib/email.ts:68-132 | the body carries the recipient's own name and the match link, and a participant list of nine markup characters per name plus the names |
| Email.SendMatchFormationEmail | src/lib/email.ts:53-139 | a notice goes to its recipient alone, with the formation subject, the recipient's name and the participant list |
| Email.CountFulfilled | src/lib/email.ts:156 | the fulfilled count never exceeds the number of promises |
| Email.CountRejected | src/lib/email.ts:157 | the rejected count never exceeds the number of promises |
| Email.SettledCountsAddUp | src/lib/email.ts:156-157 | fulfilled plus rejected promises are all the promises |
| Email.NoRejections | src/lib/email.ts:156-157 | no promise counts as failed exactly when every promise was fulfilled |
| Email.SummarizeBySettlement | src/lib/email.ts:156-161 | the reported total is the given total, and successful plus failed is the number of settled sends |
| Email.SendEach | src/lib/email.ts:146-154 | exactly one notice per participant, in order, each with that participant merged into the shared information |
| Email.SendMatchFormationEmails | src/lib/email.ts:142-162 | one fulfilled send per participant, and successful + failed == total == the number of participants |
| Email.BatchSendsInOrder | src/lib/email.ts:146-153 | with a key, the i-th request goes to the i-th participant's address with their name and the shared information unchanged; without one, every send is a skip |
| Email.BatchNeverReportsFailure | src/lib/email.ts:156-161 | the batch as written always reports every send successful and none failed |
| Email.EmptyBatch | src/lib/email.ts:142-161 | an empty participant list sends nothing and reports 0/0/0 |
| Email.ProviderErrorCountedAsSent | src/lib/email.ts:156-161 | a send the provider answers with an error is still reported as one successful send and no failure |
| Email.SucceededAtMostFulfilled | src/lib/email.ts:156-157 | sends whose result is a success are among the fulfilled ones |
| Email.SummarizeByResult | src/lib/email.ts:156-161 | counted by result, successful is the number of successful results, and successful + failed == total == the number of sends |
| Email.SendMatchFormationEmailsCorrected | src/lib/email.ts:142-162 | the same sends as the batch, with successful + failed == total == the number of participants; every send is reported successful exactly when every send's result is a success, and every send failed exactly when none is |
| Email.CorrectedCountsSuccesses | src/lib/email.ts:156-161 | counted by result, all sends are reported successful exactly when all succeeded, and none exactly when none did |
| Email.ProviderErrorCountedAsFailed | src/lib/email.ts:156-161 | counted by result, the send the provider refused is reported as a failure: 0 successful, 1 failed |

## Findings

| source | as written | input that shows it | evidently intended | confidence | as-written member | corrected member |
|---|---|---|---|---|---|---|
| src/lib/email.ts:156-157 | counts a notice as successful when its promise is fulfilled and as failed when it is rejected; but `sendEmail` catches every error and resolves with `success: false`, so no notice ever rejects | a configured key, one participant, and a provider that answers with an error: the batch reports 1 successful and 0 failed, and the caller reports one email sent | a notice counts as successful only when its result has `success: true`, and as failed otherwise | medium, not executed | Email.ProviderErrorCountedAsSent | Email.SendMatchFormationEmailsCorrected |

## Left out

- Rendering: all JSX markup, class names and page layout are left out. The pages outside the creation form are not modelled either: the home page, the list page, the match page, the edit page and the sign-in pages. Neither are the dev-user switch and its helpers. They are UI, or plumbing over cookies, local storage and environment variables.
- `formatDateTime`, `formatDate` and `formatTime` depend on `Date` and locale formatting, and `cn` wraps class-name libraries. The model takes formatted strings as inputs where the email needs them.
- The identity service, the `matches` insert and router navigation are foreign calls. The identity service becomes the `currentUser` input and the insert becomes the `outcome` input. Navigation becomes the recorded `navigatedTo` path. The `.select().single()` read-back contributes only the new match's id.
- The mail provider client is created at module load from the environment. That creation, and the provider's own checks, are not modelled. Each send's answer is an input. Console logging is left out.
- The formation email's fixed HTML markup is left out. `Email.HtmlBody` keeps only the interpolated values, in template order. Names and other values are inserted without HTML escaping, as in the code.
- `Promise.allSettled` runs the sends concurrently. The model treats the batch as a sequence of settled outcomes in participant order, with no model of concurrency or timing.
- The participant state machine, history writes, guest admission and the computation of `is_full`, `is_finalized` and `is_formed` appear in no modelled file. The pages read those flags precomputed from a database view. Only the types and the two readings of `is_formed` are modelled, and no transition rule is invented.
- `Profile`, `UserSettings`, `ParticipantWithProfile`, `ParticipantWithHistory`, `GroupMemberWithProfile` and `CreateMatchData` carry no documented invariant and no modelled operation uses them, so they have no datatype.
- The documented group sizes (two to four people for a direct group, five or more for an organized one, src/types/index.ts:117-119) are not stated as a predicate. The only count is `member_count` of the group details view, and no modelled operation computes or checks it.
- JavaScript numbers are IEEE doubles; here they are unbounded integers. So court and headcount arithmetic never rounds, and `parseInt` of a digit string too long for a double gives its exact value.
- The browser's own validation of the headcount field (`min` 2, `max` 20) is not modelled. The stored headcount is whatever `parseInt(...) || 2` gives, negative values included.
- Labels.DoublesGameLabel: a JavaScript object also answers inherited keys such as `toString` with non-string values. The model treats only the table's four own keys as entries, so for those inputs it gives 双打.
