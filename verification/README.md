# EnviroSense chatbot action server, modelled in Dafny

This project models the custom actions of the EnviroSense Rasa chatbot
(`RasaChatBot/actions/actions.py`). Each action receives a snapshot of the
conversation turn: the latest text, its entities, the slots and the metadata
token. It replies with messages, each a response template or literal text, and
with tracker events (`SlotSet(name, None)`, `UserUtteranceReverted`). On the way
it may call the EnviroSense backend.

The model makes every action a pure function. Each backend call becomes an
abstract outcome in an `Env` record: `Ok` with the few JSON fields the action
reads, or `Err` for any `RequestException`. The clock becomes a field of the
same record. A handler returns `Reply(messages, events, requests)`. `requests`
lists, in order, the HTTP calls the action would make, so "no backend call"
means `requests == []`. Where the Python code would raise an exception that
escapes the action, the result is `Raised(...)`.

Modules, leaves first:

- `Wrappers`: `Option`.
- `Strings`: ASCII lower-casing, the substring test (`w in s`) proved equal to
  its specification `Occurs`, `sep.join`, slicing and integer rendering.
- `Json`: JSON leaf values, with Python truthiness and `str()`.
- `Moderation`: `contains_inappropriate`.
- `Conversation`: the turn snapshot, messages, events and requests;
  `get_auth_token`, slot and entity access, and the moderation and login
  short-circuit replies.
- `Pollutants`: `POLLUTANT_DB`, the lookup by alias, and the keyword scan.
- `Backend`: the per-endpoint outcomes.
- `Handlers`: the `run` of each action.
- `Validation`: `validate_symptom`.
- `Registry`: the action names, lookup by name, dispatch, and the gate ladder
  stated once for all handlers. The ladder is: moderation, then login, then the
  required slot, then the backend outcome.

In three places the code behaves in ways a reader might not expect; the model follows the code:

- The keyword fallback of the pollutant explainer lists the matching aliases in
  table order, not in the order they appear in the text.
- With no entities and no text at all, the explainer raises (`None.lower()`).
- The symptom report never reaches its POST (see Findings). `Registry.Run`
  dispatches to the code as written; the intended handler is modelled
  separately as `Handlers.ReportSymptom`.

## Model

| member | source | states |
|---|---|---|
| Strings.Lower | RasaChatBot/actions/actions.py:25 | lower-casing keeps the length, leaves no upper-case ASCII letter, and agrees with its input up to case |
| Strings.LowerIdempotent | RasaChatBot/actions/actions.py:87-88 | lower-casing an already lower-cased text changes nothing |
| Strings.Contains | RasaChatBot/actions/actions.py:25 | the scanning substring test holds iff the word occurs at some offset of the text |
| Strings.CountListing | RasaChatBot/actions/actions.py:167-168 | a titled listing joined with newlines has exactly one newline per listed line when no line contains one |
| Strings.Take | RasaChatBot/actions/actions.py:167 | the slice `xs[:n]` has `min(n, len(xs))` elements and they are the first ones of `xs` |
| Strings.Join | RasaChatBot/actions/actions.py:167-168 | `sep.join(parts)`: empty for no parts, the part itself for one, and otherwise starts with the first part and ends with the last; `Strings.JoinSnoc` fixes the rest |
| Strings.JoinSnoc | RasaChatBot/actions/actions.py:104 | appending a part to a non-empty join adds exactly one separator and that part, so with the zero- and one-part cases every join is the parts in order, separated by `sep` |
| Strings.CountJoin | RasaChatBot/actions/actions.py:167-168 | a join of n parts that never contain a character holds exactly n - 1 copies of the separator's count of it |
| Strings.NatToStringValue | RasaChatBot/actions/actions.py:135 | the decimal rendering of a natural number is a canonical numeral (digits only, no leading zero) whose value is that number |
| Strings.IntToString | RasaChatBot/actions/actions.py:135 | `str(i)` of an integer: the canonical numeral of its magnitude, with a leading '-' iff it is negative, on one line |
| Json.Render | RasaChatBot/actions/actions.py:135 | interpolating a string gives the string itself; an integer gives the decimal numeral of its value; booleans give "True"/"False" and null gives "None"; non-strings render as one non-empty line |
| Json.Truthy | RasaChatBot/actions/actions.py:124 | `if not x` rejects exactly the empty string, 0, False and None |
| Moderation.ContainsInappropriate | RasaChatBot/actions/actions.py:22-25 | flagged iff some word of the fixed list occurs as a substring of the lower-cased text |
| Moderation.ModerationIgnoresCase | RasaChatBot/actions/actions.py:25 | the verdict is the same for a text and its lower-cased form |
| Moderation.EmptyTextIsClean | RasaChatBot/actions/actions.py:24-25 | the empty text is never flagged |
| Moderation.ShoutedWordIsFlagged | RasaChatBot/actions/actions.py:22-25 | "You are STUPID!" is flagged, whatever the case of the word |
| Moderation.CleanWithoutLetterD | RasaChatBot/actions/actions.py:24 | a text with no 'd' in any case is never flagged, since every listed word has one |
| Conversation.AuthToken | RasaChatBot/actions/actions.py:12-19 | a token is returned iff the metadata is present and holds a "token" key, and it is that entry |
| Conversation.Slot | RasaChatBot/actions/actions.py:257 | `get_slot` returns a value iff the slot is set, and then its value |
| Conversation.Flagged | RasaChatBot/actions/actions.py:78 | the moderation gate fires iff there is a non-empty text in whose lower-cased form some listed word occurs |
| Conversation.EntityValues | RasaChatBot/actions/actions.py:82 | the values are exactly those of the entities of the requested type, never more than there are entities |
| Conversation.EntityValuesOne | RasaChatBot/actions/actions.py:82 | a single entity yields its value iff it has the requested type, and nothing otherwise |
| Conversation.EntityValuesAppend | RasaChatBot/actions/actions.py:82 | the values of two entity lists in a row are the values of the first followed by those of the second, so the values keep the entities' order and each matching entity gives one value |
| Pollutants.TableWellFormed | RasaChatBot/actions/actions.py:29-40 | the aliases are distinct and lower-case, and every description is non-empty |
| Pollutants.Describe | RasaChatBot/actions/actions.py:98 | the lookup finds a description iff the alias is a key, and then it is that key's description |
| Pollutants.KeywordScan | RasaChatBot/actions/actions.py:87-88 | an alias is found iff it occurs in the lower-cased text, and the found aliases are listed in table order |
| Pollutants.ScanKeepsKeyOrder | RasaChatBot/actions/actions.py:88 | the scan keeps the order of the key list, whatever order the matches have in the text |
| Pollutants.ScanNone | RasaChatBot/actions/actions.py:88-93 | when no alias occurs, the scan is empty |
| Pollutants.ScanOnly | RasaChatBot/actions/actions.py:88-90 | when only one alias occurs, the scan is exactly that alias |
| Pollutants.ScanFindsFineParticles | RasaChatBot/actions/actions.py:85-90 | the fallback scan of "what about pm2.5" finds exactly "pm2.5" |
| Pollutants.Piece | RasaChatBot/actions/actions.py:97-102 | a query whose lower-cased form is an alias gets that alias's description; any other query gets the fallback sentence quoting the query as typed |
| Pollutants.KnownAliasExplained | RasaChatBot/actions/actions.py:98-100 | any query that lower-cases to an alias, such as "CO", gets the description of that alias |
| Pollutants.Pieces | RasaChatBot/actions/actions.py:96-102 | one answer piece per query, in query order |
| Handlers.GeneralKnowledgeFallback | RasaChatBot/actions/actions.py:48-65 | for every turn, flagged or not and logged in or not, it sends only `utter_out_of_scope`, returns `[UserUtteranceReverted()]` and calls nothing |
| Handlers.ExplainPollutant | RasaChatBot/actions/actions.py:72-105 | flagged text gets only the warning; non-empty entities are answered as given; otherwise the aliases in the text are answered, or the clarification prompt is sent when none is found; with neither entities nor text it raises; when it completes it never calls the backend and sends exactly one message |
| Handlers.ExplainCarbonMonoxideEntity | RasaChatBot/actions/actions.py:82-104 | the entity "CO" is answered with exactly the carbon monoxide description |
| Handlers.ExplainFineParticlesFromText | RasaChatBot/actions/actions.py:85-104 | with no entities, the text "what about pm2.5" is answered with exactly the PM2.5 description |
| Handlers.ExplainAsksWhenNothingMatches | RasaChatBot/actions/actions.py:85-93 | for every unflagged turn with no entities and a text in whose lower-cased form no alias occurs, only the clarification prompt is sent, with no events and no request |
| Handlers.ExplainAsksOnHello | RasaChatBot/actions/actions.py:85-93 | the text "hello" with no entities gets only the clarification prompt |
| Handlers.GetEcoPoints | RasaChatBot/actions/actions.py:114-140 | moderation, then login (no events on refusal), then one GET of the profile with the bearer header; exactly one literal message, which is the apology iff the call failed and otherwise the sentence with the profile's point total; no events |
| Handlers.EcoPointsDefaultZero | RasaChatBot/actions/actions.py:134-135 | a profile without a points field is shown as "You currently have 0 Eco-Points!" |
| Handlers.GetMyReports | RasaChatBot/actions/actions.py:146-176 | the same gates; one GET of the user's reports; one literal message: the apology iff the call failed, the "haven't submitted" text iff the list is empty, and otherwise the titled listing of the returned reports |
| Handlers.ReportsListingLines | RasaChatBot/actions/actions.py:166-168 | when the fields of the shown reports (at most the first five) render on one line, a non-empty report list is shown as one header line plus one line per shown report, the i-th line describing the i-th report; later reports never matter |
| Handlers.ReportsBeyondFifthIgnored | RasaChatBot/actions/actions.py:167 | reports after the fifth never affect the listing |
| Handlers.GetDailyMission | RasaChatBot/actions/actions.py:182-208 | the same gates; one GET of today's mission; one literal message, which is the apology iff the call failed and otherwise the sentence with the mission's description |
| Handlers.MissionDefault | RasaChatBot/actions/actions.py:202-203 | a mission without a description is shown as "Today's mission: No mission assigned today." |
| Handlers.GetLeaderboardTop | RasaChatBot/actions/actions.py:214-241 | moderation only, with no login gate; one GET of the leaderboard with no Authorization header; one literal message: the apology iff the call failed, the "empty" text iff the list is empty, and otherwise the titled, ranked listing of the returned entries |
| Handlers.LeaderboardListingLines | RasaChatBot/actions/actions.py:231-233 | when the fields of the shown entries (at most the first three) render on one line, a non-empty leaderboard is shown as one header line plus one line per shown entry, the entry at position i with rank i + 1; later entries never matter |
| Handlers.LeadersBeyondThirdIgnored | RasaChatBot/actions/actions.py:232 | entries after the third never affect the listing |
| Handlers.LeaderboardIgnoresLogin | RasaChatBot/actions/actions.py:223-228 | the leaderboard reply does not depend on the metadata or the token |
| Handlers.ReportSymptomAsWritten | RasaChatBot/actions/actions.py:248-276 | as written: without login the slot is cleared, and with an empty slot the user is asked again; once both checks pass, the code raises `NameError` before any request or message |
| Handlers.ReportSymptom | RasaChatBot/actions/actions.py:248-276 | as intended: past both checks, one POST carries the symptom and the timestamp; the slot is always cleared; one literal message, which is the apology iff the POST failed and otherwise echoes the symptom back |
| Handlers.ReportSymptomAsWrittenNeverClears | RasaChatBot/actions/actions.py:265 | past both checks the code as written raises, while the intended handler clears the slot, so the two differ |
| Handlers.ReportSymptomCrashWitness | RasaChatBot/actions/actions.py:265 | a logged-in turn with symptom "cough" crashes as written, while the intended handler clears the slot |
| Handlers.ReportSymptomAgreesBeforeTimestamp | RasaChatBot/actions/actions.py:251-261 | on every path before the timestamp, the code as written and the intended handler agree |
| Handlers.CreateHealthReport | RasaChatBot/actions/actions.py:284-313 | without login the slot is cleared; with an empty slot one retry message, no events and no call; otherwise one POST with the location and the fixed details, the slot always cleared, and one literal message, which is the apology iff the POST failed and otherwise announces the returned id and the location |
| Handlers.ReportCreatedWithoutId | RasaChatBot/actions/actions.py:306-307 | a created report whose response has no id is announced with the id "N/A" and the location as given |
| Handlers.SendConnectionRequest | RasaChatBot/actions/actions.py:321-366 | login and slot gates as above; then the search comes first, and the POST comes second iff the first hit has a truthy id, addressed to that id; not-found and missing-id each get their own message; the apology is sent iff the search or the POST failed; success is reported iff the POST was made and succeeded; the slot is always cleared |
| Handlers.HealthEffects | RasaChatBot/actions/actions.py:373-389 | flagged text gets only the warning; otherwise `utter_health_effects` with no events and no call |
| Handlers.HealthEffectsIgnoresLogin | RasaChatBot/actions/actions.py:382-388 | the reply is the same whether or not the user is logged in |
| Validation.ValidateSymptom | RasaChatBot/actions/actions.py:398-403 | the symptom is kept iff the value is a string longer than two characters, and then no message is sent; otherwise the rejection message is sent and the slot is set to None |
| Validation.ValidateSymptomIdempotent | RasaChatBot/actions/actions.py:399-400 | validating an accepted value again accepts it unchanged |
| Validation.ValidateSymptomExamples | RasaChatBot/actions/actions.py:399-403 | "cough" is accepted and "ok" is rejected and cleared |
| Registry.Position | RasaChatBot/actions/actions.py:44-396 | every action class and the form validator have a place in the registry |
| Registry.NamesDistinct | RasaChatBot/actions/actions.py:44-396 | the eleven `name()` strings are pairwise distinct |
| Registry.NameInjective | RasaChatBot/actions/actions.py:44-396 | a name identifies its registered entry |
| Registry.Lookup | RasaChatBot/actions/actions.py:44-396 | lookup by name finds an entry carrying that name, and finds none iff nothing carries it |
| Registry.LookupName | RasaChatBot/actions/actions.py:44-396 | looking up the name of an entry finds exactly that entry |
| Registry.Invoke | RasaChatBot/actions/actions.py:44-389 | invoking an action's name runs that action as written, including the symptom report's crash; a name that belongs to no action runs nothing |
| Registry.ModerationShortCircuits | RasaChatBot/actions/actions.py:76-80 | every moderated action answers flagged text with exactly the warning and `[UserUtteranceReverted()]` |
| Registry.LoginGateRefuses | RasaChatBot/actions/actions.py:123-126 | every login-gated action without a token sends only `utter_need_login`; the three slot consumers return their slot's clearing event, and the others return nothing |
| Registry.GatedTurnsNeverCallBackend | RasaChatBot/actions/actions.py:287-290 | a turn stopped by moderation or login makes no request and does not depend on the backend |
| Registry.MissingSlotAsksAgain | RasaChatBot/actions/actions.py:292-296 | logged in with the consumed slot empty: one literal message, no events (the slot is kept) and no request |
| Registry.ConsumedSlotAlwaysCleared | RasaChatBot/actions/actions.py:298-366 | for the health report and the connection request, logged in with the slot filled: exactly one literal message and exactly the slot's clearing event, whatever the backend answers |
| Registry.WhichTurnsRaise | RasaChatBot/actions/actions.py:85-265 | no backend failure escapes an action; a turn raises iff it is the explainer's, unflagged with neither entities nor text, or the symptom report's, logged in with the symptom filled |
| Registry.SymptomReportRaises | RasaChatBot/actions/actions.py:251-265 | dispatched as written, the symptom report raises `NameError` on every turn past its login and slot checks |
| Registry.RequestsCarryToken | RasaChatBot/actions/actions.py:128-131 | every request carries the user's bearer token, except the leaderboard request, which carries no Authorization header |
| Registry.ConnectionPostOnlyAfterSearch | RasaChatBot/actions/actions.py:343-354 | in the connection request, a POST is only ever the second request, after the user search, when the first hit has a truthy id, and it is addressed to that id |

## Findings

| source | as written | input that shows it | evidently intended | confidence | as-written member | corrected member |
|---|---|---|---|---|---|---|
| RasaChatBot/actions/actions.py:265 | the payload timestamp calls `datetime.datetime.now()`, but `datetime` is never imported (lines 1-6), so `NameError` is raised before the `try`; the symptom is not posted, no message is sent and the `symptom` slot is not cleared | a logged-in turn (metadata token "jwt") with slot `symptom` = "cough" | POST the symptom with the current ISO timestamp, confirm or apologise, and always return `[SlotSet("symptom", None)]` | high (not executed) | Handlers.ReportSymptomAsWritten | Handlers.ReportSymptom |

## Left out

- HTTP transport: `requests.get`/`requests.post`, the `BACKEND_URL` prefix, `raise_for_status` and JSON decoding. Each call is an abstract `Ok`/`Err` outcome. Transport errors, non-2xx statuses and `JSONDecodeError` are all subclasses of `RequestException`, which the actions handle identically.
- JSON payloads of an unexpected shape: a non-object body, a `location` that is not an object, a non-string entity value, or a null or object where a list is expected. These either raise (`AttributeError`, `TypeError` or `KeyError`) or, for a null list, take the empty-list branch; the model assumes the documented shapes.
- JSON floats and containers as leaf values. Only strings, integers, booleans and null are modelled, with their `str()` and truthiness.
- Strings.Lower: folds only ASCII A-Z, not Python's full Unicode `str.lower()`. For the fixed word list and the table aliases this gives the same verdicts: outside ASCII, only U+212A (KELVIN SIGN, to 'k') and U+0130 (to "i" plus a combining dot) lower to ASCII letters. No word or alias contains a 'k'. The combining dot after an 'i' breaks every listed word or alias that contains an 'i'.
- URL encoding of the username in the search query string. The model keeps the path exactly as the f-string builds it.
- Debug `print` calls. They have no effect on messages or events.
- Rasa SDK machinery: `Tracker`, `CollectingDispatcher` and `FormValidationAction.run`. Which slots the form validator is asked about is SDK code outside this model; only `validate_symptom` is modelled. Registry.Invoke runs nothing for the validator's name.
- Conversation.EntityValues: does not model the SDK's filtering of entities by role and group in `get_latest_entity_values`. Entities are matched by type only.
- The `domain` argument of every `run`. No action reads it.
