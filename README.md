# anecdote-rsvp: a verified model of the RSVP form, its two relays and the record shaping

The system is an RSVP page for three event mornings. For each day a visitor picks a
guest count from 0 to 5 and fills in one form per guest: the primary contact first,
then the friends. The page validates each step, formats phone numbers as
`+1 (XXX)-XXX-XXXX` and posts the day's entries as `{day, formData}`. Two relays can
receive that post:

- the Next.js route `app/api/rsvp/route.ts`, which checks truthiness and hands the
  records to `lib/notion.ts`;
- the Flask server `server/app.py`, which checks key presence and builds its own
  dicts.

Either relay writes one page per guest into a hosted database (Notion).

This project models that core in Dafny and proves properties of the model.

| file | module | models |
|---|---|---|
| `wrappers.dfy` | `Wrappers` | `Option` and `Result` |
| `text.dfy` | `Text` | `trim`, `\D` removal, JavaScript `charAt(0).toUpperCase()`, Python `capitalize`, `join`, `split(" ")[0]`, decimal text of a number |
| `entries.dfy` | `Entries` | day keys, one guest's four fields, the four error flags |
| `phone.dfy` | `Phone` | `formatPhoneNumber` and the phone branch of `handleInputChange` |
| `validation.dfy` | `Validation` | `validateStep`'s rules and the email regular expression |
| `labels.dfy` | `Labels` | `getOrdinalSuffix`, `getFriendLabel`, `getDayText`, the greeting |
| `form.dfy` | `FormController` | the page's state: a `DayForm` class per day and a `Page` class, with one method per handler |
| `payload.dfy` | `Payload` | the JSON body both relays receive |
| `store.dfy` | `Store` | `notion.pages.create` as a `Sink` class that records every property map, in order, and answers call number k with the reply given for k |
| `notion.dfy` | `Notion` | `addRSVPToNotion` (a method that inserts keys one by one) and `addMultipleRSVPsToNotion` (a function) |
| `route.dfy` | `Route` | the Next.js `POST` |
| `flask.dfy` | `Flask` | `create_notion_page` and `handle_rsvp` (methods, with the friends' loop), beside the functions that specify them |

Things outside the program become parameters:

- The store's answers are a function `reply: nat -> StoreReply`, indexed by call number.
- The `fetch` of the page becomes a `FetchOutcome`.
- The database id becomes a string parameter; `""` stands for "not set".

Whitespace is the ASCII set space, tab, line feed, carriage return, vertical tab and
form feed, and case mapping is ASCII only.

## Model

| member | source | states |
|---|---|---|
| Text.Digits | app/page.tsx:195 | all digits, no longer than the input, and holding exactly the digit characters of the input |
| Text.DigitsAppend | app/page.tsx:195 | order is kept: the digits of a concatenation are the digits of each part, concatenated |
| Text.DigitsOfDigits | app/page.tsx:195 | a string of digits is its own digits |
| Text.DigitsOfNonDigits | app/page.tsx:195 | a string without digits contributes nothing |
| Text.Trim | app/page.tsx:297-323 | an infix of the input between a whitespace prefix and a whitespace suffix, starting and ending with a non-space |
| Text.TrimEmptyIffBlank | app/page.tsx:297-323 | `!s.trim()` holds exactly when every character is whitespace |
| Text.Lower | server/app.py:62 | each character lower-cased, length kept |
| Text.UpperFirst | lib/notion.ts:55 | a lower-case first letter becomes its capital, which lower-cases back to it; any other first character and every later one are kept |
| Text.UpperFirstIdempotent | lib/notion.ts:55 | upper-casing the first letter twice is doing it once |
| Text.Capitalize | server/app.py:62 | Python `capitalize`: first character upper-cased, every later one lower-cased |
| Text.CapitalizeAgreesWithUpperFirst | server/app.py:62 | the Flask and Next.js day renderings agree when no later character is upper-case |
| Text.JoinSnoc | lib/notion.ts:84 | joining one more item appends the separator and the item |
| Text.JoinLength | lib/notion.ts:84 | the joined text's length is the items' lengths plus one separator between each two |
| Text.FirstWord | app/page.tsx:564 | the prefix before the first space: a prefix with no space, followed by a space or the end |
| Text.NatToString | app/page.tsx:517-530 | the decimal text of a number: non-empty, all digits, no leading zero |
| Text.DecimalRoundTrip | app/page.tsx:517-530 | reading the decimal text back gives the number |
| Entries.DayNameRoundTrip | app/page.tsx:21 | the three day keys and their names correspond one to one |
| Entries.GuestEntry.With | app/page.tsx:181-184 | replacing one field of an entry sets that field and keeps the other three |
| Entries.Flags.With | app/page.tsx:246-249 | replacing one flag sets it and keeps the other three |
| Phone.FormatPhoneNumber | app/page.tsx:260-283 | empty exactly for empty input; otherwise starts with `+1 (` |
| Phone.TenDigitShape | app/page.tsx:260-283 | ten digits give `+1 (XXX)-XXX-XXXX`, 17 characters |
| Phone.FormattedDigits | app/page.tsx:260-283 | the digits of the output are `1` then the first ten input digits |
| Phone.LongFormattedDigits | app/page.tsx:270-280 | with more than three digits, the area code, exchange and line number carry exactly the first ten digits |
| Phone.PhoneDigits | app/page.tsx:195-203 | the digits kept from typed text: all digits, at most ten |
| Phone.StoredPhone | app/page.tsx:175-206 | the three prefix remnants store `""`; any other non-empty value starts with `+1 (` |
| Phone.StoredPhoneHasAtMostTenDigits | app/page.tsx:195-206 | a stored value is empty or `+1` followed by one to ten digits |
| Phone.FormatIsInvertible | app/page.tsx:195-206 | reading a formatted number back through the phone branch gives its digits |
| Phone.StoredPhoneIdempotent | app/page.tsx:195-206 | feeding a stored value back in stores the same string |
| Phone.PrefixRemnantFormatsToEmpty | app/page.tsx:177-191 | the reset special case stores what the general path would store |
| Validation.IsEmail | app/page.tsx:292 | an accepted address has at least five characters, is not blank and has exactly one `@` |
| Validation.FirstAt | app/page.tsx:292 | the first `@`: no `@` before it |
| Validation.EmailTestMatchesPattern | app/page.tsx:292 | the direct email test accepts exactly what `^[^\s@]+@[^\s@]+\.[^\s@]+$` matches |
| Validation.EmailTestSound | app/page.tsx:292 | a string the test accepts matches the pattern |
| Validation.EmailTestComplete | app/page.tsx:292 | a string matching the pattern passes the test |
| Validation.EmailFromParts | app/page.tsx:292 | three non-empty plain runs joined by `@` and `.` form an address |
| Validation.EmailExamples | app/page.tsx:292 | `foo@bar.com` passes; `foo` and `foo@bar` fail |
| Validation.AcceptsFullAddress | app/page.tsx:292 | `foo@bar.com` passes |
| Validation.RejectsMissingDomain | app/page.tsx:292 | `foo` and `foo@bar` fail |
| Validation.EmailFieldRule | app/page.tsx:300-306 | "non-blank and matches" is the same as "matches" |
| Validation.StepValidWithoutTrim | app/page.tsx:295-323 | step 0 passes iff name, phone and about are not blank and the email matches; later steps iff name and about are not blank |
| Validation.StepValid | app/page.tsx:295-323 | a passing entry has a non-empty name and about; on step 0 also a non-empty phone and an email the test accepts |
| Validation.Failing | app/page.tsx:295-323 | no flag is raised exactly when the step passes; a friend's email and phone are never flagged |
| Validation.Raise | app/page.tsx:288 | each flag after validation is the old flag or the failing one; nothing is lowered |
| Labels.Ordinal | app/page.tsx:517-530 | the number's digits followed by one of `st`, `nd`, `rd`, `th` |
| Labels.SuffixIsPeriodic | app/page.tsx:518-529 | the suffix depends on the last two digits; 11, 12 and 13 take `th` |
| Labels.SmallOrdinals | app/page.tsx:517-530 | 1st, 2nd, 3rd, 4th |
| Labels.TeenOrdinals | app/page.tsx:517-530 | 11th, 12th, 13th, 21st, 101st |
| Labels.FriendLabel | app/page.tsx:533-540 | `your friend's name` exactly for the second of two guests; otherwise the index's ordinal between `your ` and ` friend's name` |
| Labels.FriendLabelsDistinct | app/page.tsx:533-540 | two friends of the same day never get the same label |
| Labels.FriendLabelsForFiveGuests | app/page.tsx:533-540 | the label of each friend step 1 to 4, with the two-guest special case |
| Labels.DayText | app/page.tsx:543-560 | the day's name followed by ` morning` |
| Labels.GreetingName | app/page.tsx:564 | `you`, or a space-free prefix of the primary's name; the first word when the name starts with a non-space |
| FormController.Resized | app/page.tsx:100-155 | count ≥ 1: length = count, prefix kept, new slots blank; count 0: list unchanged |
| FormController.ResizedIdempotent | app/page.tsx:96-170 | resizing twice to the same count is resizing once |
| FormController.DayForm.constructor | app/page.tsx:23-72 | a day starts with count 0, step 0, one empty entry, no flags, not submitted |
| FormController.DayForm.Increment | app/page.tsx:607-612 | count becomes min(count+1, 5); the invariant is kept |
| FormController.DayForm.Decrement | app/page.tsx:614-619 | count becomes max(count-1, 0); the invariant is kept |
| FormController.DayForm.SyncToCount | app/page.tsx:96-170 | both lists resized to the count; step becomes max(0, count-1) when count ≤ step; leaves the day settled |
| FormController.DayForm.HandleInputChange | app/page.tsx:173-257 | only the edited field of the edited entry changes (phone: its formatted form) and only its flag is lowered; a remnant keeps the flag; an index out of range changes nothing |
| FormController.DayForm.ValidateStep | app/page.tsx:286-337 | returns exactly the step rule; raises the failing flags, keeps the raised ones |
| FormController.DayForm.NextStep | app/page.tsx:621-628 | advances to min(step+1, count-1) exactly when the step validates |
| FormController.DayForm.PrevStep | app/page.tsx:630-635 | step becomes max(step-1, 0) |
| FormController.SubmissionErrorText | app/page.tsx:358-378 | no banner exactly on an ok response; a failed response shows its body's error or `Failed to submit RSVP`; a thrown `Error` shows its message, and any other thrown value the fallback sentence |
| FormController.Page.constructor | app/page.tsx:23-72 | three distinct days, each with count 0, step 0, one empty entry and no flags, nothing submitted, no banner |
| FormController.Page.SuccessScreen | app/page.tsx:649-655 | the first submitted day in the order thursday, friday, saturday; None when none is submitted |
| FormController.Page.BeginSubmit | app/page.tsx:341-356 | sends exactly when the current step validates; the payload is the day's entries and its first entry passed the primary rule |
| FormController.Page.FinishSubmit | app/page.tsx:358-381 | submitted on success, banner text on failure, not submitting afterwards |
| FormController.Page.HandleSubmit | app/page.tsx:341-383 | the whole submission: sent iff the step validates; the step's failing flags raised; submitted iff sent and the relay accepted; the banner shows the failure text, and is otherwise unchanged |
| FormController.Page.PrimaryButton | app/page.tsx:794-805 | does nothing while submitting; submits only from the last step |
| FormController.Page.DismissError | app/page.tsx:972 | clears the banner and nothing else |
| Payload.ClientRequest | app/page.tsx:353-356 | the posted body: the day's name and one JSON object per entry, in order |
| Store.Sink.constructor | lib/notion.ts:92-97 | an empty record of calls |
| Store.Sink.CreatePage | lib/notion.ts:92-97 | appends the map sent and answers with the reply for that call number |
| Notion.PropertiesFor | lib/notion.ts:28-89 | the keys are the six base columns, plus Primary Contact iff a friend names a contact, plus Guests iff a primary lists friends; empty email and phone are null |
| Notion.RowOfRecord | lib/notion.ts:28-89 | reading the page back gives every field, the day with its first letter upper-cased, and the names joined by `, ` |
| Notion.ReplyResult | lib/notion.ts:92-99 | success exactly when the store created the page |
| Notion.AddRsvpToNotion | lib/notion.ts:21-104 | no database id: error and nothing sent; otherwise sends exactly `PropertiesFor(d)` once |
| Notion.Records | lib/notion.ts:109-123 | the primary marked Primary and listing the friends' names; friend i marked Friend and naming the primary; all other fields the caller's |
| Notion.FirstRejection | lib/notion.ts:116-124 | the lowest index of a rejected reply, or None exactly when all were accepted |
| Notion.AddMultiple | lib/notion.ts:106-134 | success iff the id is set and every call is accepted, ids in input order; otherwise the first error; every map sent is the record's, in order |
| Notion.PrimaryPageFirst | lib/notion.ts:109-113 | the first page sent is the primary's, with Guests exactly when there are friends |
| Notion.PrimaryProperties | lib/notion.ts:58-89 | a primary's page has no Primary Contact column and has Guests exactly when it lists friends |
| Notion.FriendProperties | lib/notion.ts:66-76 | a friend naming a contact gets that Primary Contact column and no Guests |
| Notion.FriendPagesNamePrimary | lib/notion.ts:116-123 | every friend page sent names the primary and keeps the friend's name |
| Route.FriendRecord | app/api/rsvp/route.ts:49-56 | a falsy name becomes `Unknown`, a truthy one is kept; a falsy email, phone or about becomes `''`, a truthy one is kept; the record is a Friend's for the given day, with no contact and no guests |
| Route.Validate | app/api/rsvp/route.ts:9-56 | the three 400s in their fixed order; on success the primary is entry 0's four fields and there is one friend record per later entry, in order |
| Route.Post | app/api/rsvp/route.ts:4-81 | 400 exactly for validation failures, with nothing sent; 200 exactly when every store call is accepted; 500 otherwise; on a request that validates, the maps sent are `AddMultiple`'s for the validated records |
| Route.FriendsNeverRejected | app/api/rsvp/route.ts:27-36 | no friend entry changes whether or how validation fails |
| Route.OneFriendPerEntry | app/api/rsvp/route.ts:49-56 | appending an entry appends its friend record and changes nothing before it |
| Route.FilledEntryComplete | app/api/rsvp/route.ts:31-36 | an entry with four non-empty fields passes the completeness check |
| Route.ClientSubmissionsPass | app/api/rsvp/route.ts:31-46 | a body the page lets through passes, and the primary record is entry 0 as typed |
| Flask.MissingFields | server/app.py:138 | the listed names not present, and only those |
| Flask.MissingFieldsKeepOrder | server/app.py:136-139 | two missing names keep their order in the message |
| Flask.MissingPositions | server/app.py:136-139 | the positions of two missing names in the message, the earlier name first |
| Flask.ListReprShort | server/app.py:139 | Python's `str` of an empty list is `[]`, of a one-name list `['name']` |
| Flask.ListReprSnoc | server/app.py:139 | one more name adds `, 'name'` just before the closing bracket, so the names appear quoted, comma-separated, in order |
| Flask.CheckRequest | server/app.py:133-149 | every failure is a validation error; success exactly for a body with both keys, a non-empty list and the four contact keys |
| Flask.MissingBodyFieldsInOrder | server/app.py:136-139 | the message is `Missing required fields: ['day', 'formData']` |
| Flask.PresenceIsEnough | server/app.py:145-149 | empty or null contact values pass; only the keys matter |
| Flask.ClientSubmissionsPass | server/app.py:133-149 | every body the page posts passes |
| Flask.PrimaryData | server/app.py:152-157 | the primary's keys, overridden by day, guest type Primary and the friends' names |
| Flask.FriendDataAsWritten | server/app.py:163-175 | the dict as written has no `primary_contact` key |
| Flask.FriendData | server/app.py:163-175 | the corrected dict carries the primary's name under `primary_contact` |
| Flask.FirstNull | server/app.py:95 | the first None in a list, or None exactly when all are strings |
| Flask.PageProperties | server/app.py:54-96 | a missing name or a null day raises, and a built page had a name, day and guest type |
| Flask.PageColumns | server/app.py:54-96 | Name, Day and Guest Type always; every other column exactly when its value is truthy |
| Flask.PageValues | server/app.py:57-69 | the name or `Unnamed Guest`, the capitalised day, the guest type |
| Flask.OptionalValues | server/app.py:72-91 | each optional column holds the dict's text |
| Flask.PageRow | server/app.py:54-96 | the row read back from a page without guests |
| Flask.FriendRow | server/app.py:163-175 | a friend's row: an absent name reads `Unknown`, an empty or null one `Unnamed Guest`; falsy texts read as empty cells; the day is capitalised; the type is Friend |
| Flask.PrimaryPageListsFriends | server/app.py:93-96 | the primary's Guests column joins the friends' names; a null name makes the page fail with the join error |
| Flask.AsWrittenFriendPagesLackPrimaryContact | server/app.py:163-175 | as written, no friend page ever has a Primary Contact column |
| Flask.FriendPagesNamePrimary | server/app.py:88-91 | corrected, every friend page names the primary; it fails only for a null day |
| Flask.CorrectionOnlyAddsPrimaryContact | server/app.py:163-175 | both dicts build or fail alike, and their pages differ only in Primary Contact |
| Flask.FriendPage | server/app.py:163-176 | a friend's page fails to build, with the AttributeError text, exactly when the day is null |
| Flask.PageFor | server/app.py:152-176 | a null day makes every page fail with the AttributeError text; a friend's page builds exactly when the day is a string |
| Flask.FriendPagesCorrespond | server/app.py:163-175 | the friend page as written is the corrected page without Primary Contact, or fails alike |
| Flask.FriendsRunCorresponds | server/app.py:161-177 | the friends' loop over corresponding maps creates the same pages and fails alike; each map sent lacks only Primary Contact |
| Flask.RelayCorresponds | server/app.py:152-187 | the relay over corresponding maps gives the same response and sends the same maps but for Primary Contact on friend pages |
| Flask.FriendPageAsWritten | server/app.py:163-176 | the friend page as written builds exactly when the day is a string, fails with the AttributeError text on a null day, and never has a Primary Contact column |
| Flask.PageForAsWritten | server/app.py:152-176 | entry 0's page is the primary's, as in the corrected relay; a null day fails every page; a friend's page builds exactly on a string day and has no Primary Contact |
| Flask.PagesAsWritten | server/app.py:152-176 | one page per form entry, each the as-written page for that entry, the primary's page first and equal to the corrected one |
| Flask.PagesCorrespond | server/app.py:152-176 | the pages as written and the corrected pages: the same number, the same primary page, and each friend page the corrected one without Primary Contact, or failing alike (by `FriendPagesCorrespond`) |
| Flask.RsvpAsWritten | server/app.py:127-211 | `handle_rsvp` as written: 400 exactly for validation failures with nothing sent, 502 for store errors, 500 exactly for an unreadable body, and a checked request relayed over `PagesAsWritten` |
| Flask.AsWrittenFriendMapsLackPrimaryContact | server/app.py:161-176 | no friend map that `handle_rsvp` as written sends has a Primary Contact column |
| Flask.AsWrittenRsvpDropsOnlyPrimaryContact | server/app.py:127-211 | `handle_rsvp` as written answers every request exactly as the corrected relay; it sends the same primary map, and each friend map without Primary Contact |
| Flask.CreateNotionPage | server/app.py:50-107 | sends the map `PageProperties` gives, once, or sends nothing when building fails; the result is the store's page or the wrapped error |
| Flask.Pages | server/app.py:152-176 | one map (or the error) per form entry, primary first |
| Flask.FriendsRun | server/app.py:161-177 | friends created one after another, stopping at the first failure; with no failure, one page per friend |
| Flask.FailureStops | server/app.py:161-177 | after a failure no later friend is attempted |
| Flask.FriendsRunOkIff | server/app.py:161-177 | the run succeeds iff every friend page was built and accepted, friend j at call k+j-1 |
| Flask.FriendsRunSentInOrder | server/app.py:161-177 | a successful run sent every friend's map in order and kept the store's ids |
| Flask.ErrorResponse | server/app.py:189-211 | validation 400, store 502, anything else 500, each with its details |
| Flask.Relay | server/app.py:152-203 | 200 or 502; on 200 one id per friend and one map per guest |
| Flask.RelayOkIffAllCreated | server/app.py:158-187 | 200 exactly when every guest's page was built and accepted |
| Flask.RelayOkSendsInOrder | server/app.py:180-187 | on 200 every page was sent in form order; the ids returned are the store's, in order |
| Flask.Rsvp | server/app.py:127-211 | 400 exactly for validation failures, with nothing sent; 502 for store errors; 500 exactly for an unreadable body; a request that passes the checks is relayed over the pages `Pages` builds |
| Flask.CreatePrimaryPage | server/app.py:152-158 | the primary's call: sends and returns what `PageAttempt` gives for entry 0 |
| Flask.FriendStep | server/app.py:162-177 | one loop pass extends the friends' run by one friend |
| Flask.CreateFriendPage | server/app.py:163-176 | friend i's call: sends and returns what `PageAttempt` gives for entry i |
| Flask.CreateFriendPages | server/app.py:161-177 | the loop's pages, maps sent and failure are `FriendsRun`'s |
| Flask.CreatePages | server/app.py:152-203 | the response and maps sent are `Relay`'s |
| Flask.HandleRsvp | server/app.py:127-211 | the response and maps sent are `Rsvp`'s |

## Left out

- The network: the store, `databases.retrieve`, the page's `fetch`, and Flask/Next request plumbing. The store is the `Sink`; the fetch is a `FetchOutcome` parameter.
- `Promise.all` concurrency (lib/notion.ts:116). All friend calls are sent once the primary succeeds, in order, and the error reported is the lowest-index rejection.
- The `isSubmitting` race between an in-flight submission and new clicks.
- React rendering, animation, layout measurement, timers and tooltip state.
- app/config.ts is not part of this model. It is one `||` over environment variables.
- `/health`, `validate_notion_config` at startup, logging, CORS and dotenv loading.
- JSON shapes outside the model, each of which the relays do answer:
  - a number or boolean `day`: a truthy one passes both validations. Next.js then throws at `data.day.charAt` (lib/notion.ts:55) and answers 500. Flask raises at `.capitalize()` (server/app.py:62), wraps it as a NotionError and answers 502. A falsy one (`0`, `false`) is a 400 in Next.js and a 502 in Flask;
  - a `null` item in `formData`: Next.js throws at `primaryContact.name` (app/api/rsvp/route.ts:31) or `friend.name` (line 50) and answers 500. Flask raises at `field in primary_contact` (server/app.py:145) or `friend.get` (line 156) and answers 500;
  - a number or boolean body: Next.js answers 400 (`Invalid request format`). Flask answers 400 (`No data provided`) for a falsy one and 500 for a truthy one, where `field in data` raises;
  - numbers, booleans or nested values inside guest objects, and bodies that are arrays or strings.
- The `phoneError` state of page.tsx. It is never set to a non-empty value, so clearing it has no effect.
- Exact Unicode whitespace and case mapping. An ASCII subset is fixed instead.
- The Flask `DATABASE_ID` being `None`. It is folded into the store's replies, because the store is the one to refuse such a call.
- Route.Post: a thrown value that is not an `Error` (details `'Unknown error'`) is not modelled, because every store failure carries a message.
- FormController.DayForm.NextStep: requires a settled day with count ≥ 1. The button that calls it is only rendered when the day has guests (app/page.tsx:685), and the count effect has always run once React re-renders.
- FormController.Page.PrimaryButton: states the disabled gate and where a submission may start. It does not restate the whole new state, which `HandleSubmit` and `NextStep` state.
- Flask.Pages: builds friend maps from the corrected dict `FriendData` (see Findings). The maps as written are `PagesAsWritten`.
- Flask.CreateFriendPage: builds `FriendData`, where server/app.py:163-175 builds the `"Primary Contact"` dict. The call as written would send the same map without the Primary Contact column (`FriendPagesCorrespond`).
- Flask.Rsvp: relays the corrected friend maps. `RsvpAsWritten` is the relay as written, and `AsWrittenRsvpDropsOnlyPrimaryContact` proves it gives the same response and sends the same maps but for Primary Contact on friend pages.
- Flask.HandleRsvp: the method follows `Rsvp`, so it sends the corrected friend maps. What the program as written sends differs only as `AsWrittenRsvpDropsOnlyPrimaryContact` states.
- With a count of 0 the resize effect leaves both lists unchanged (the `count > 0` guard, app/page.tsx:119). So after a count drops to 0 the lists keep their former length.

## Findings

| source | as written | input that shows it | evidently intended | confidence | as-written member | corrected member |
|---|---|---|---|---|---|---|
| server/app.py:170-174 | the friend dict stores the primary's name under `"Primary Contact"`, already wrapped as rich text; `create_notion_page` reads `data.get("primary_contact")` (line 88) | a body whose `formData` has two entries, the first named `"Ann"`: the friend's page has no Primary Contact column | the friend's page names the primary contact, as the Next.js relay does | not executed | Flask.FriendDataAsWritten, Flask.AsWrittenFriendPagesLackPrimaryContact, Flask.AsWrittenRsvpDropsOnlyPrimaryContact | Flask.FriendData, Flask.FriendPagesNamePrimary, Flask.CorrectionOnlyAddsPrimaryContact |
