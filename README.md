# VCEdge practice core in Dafny

VCEdge is a small adaptive-practice web app for VCE exam preparation. This project models the
three parts of it that hold deterministic logic, with I/O and randomness taken out:

- **The question route** (`POST /api/generate`, module `GenerateRoute`). It applies the request
  defaults (subject "English", difficulty 2) and the difficulty clamp to [1, 5]. It picks the
  prompt topic from the subject's topic pool. It makes one upstream completion call, modelled as
  an abstract `Upstream` outcome. It reads the reply text, applies the four-point shape check to
  the parsed value, and runs the failure ladder. Each failure the handler catches (no key, HTTP
  error, parse error, schema failure, thrown error) becomes a `demo` reply with a reason string
  and a question from the read-only demo bank, with English as the fallback bank. Only a reply
  that passes the shape check comes back as `ai`, and its value is returned unchanged. The
  handler throws, and the framework answers 500, in two cases: the body is JSON `null`, or the
  subject's conversion to a property key raises a TypeError (an object with its own `toString`
  key, or an array holding one).
- **The practice page** (module `Practice`, class `PracticePage`). It covers the topic selector,
  the request body it sends ("Any topic" sends no topic), the placeholder question shown on a
  non-ok reply, answer checking, the answer letters, the adaptive difficulty step, and the filter
  on saved subjects. It also covers the page state that `loadQ` and the event handlers update.
- **The onboarding page** (module `Onboarding`, class `OnboardingPage`). It covers the subject
  toggle and the profile row `save` writes, including the `subjects_per_day` clamp to [1, 3].

The supporting modules are `Wrappers` (Option), `Js` and `Quiz`. `Js` holds an abstract JSON
value and the pieces of JavaScript semantics the route relies on: truthiness, property reads and
optional chaining, `Number()`, `String.prototype.trim`, integer-to-decimal and
`Math.floor(Math.random() * n)`. `Quiz` holds the MCQ record.

Each `Math.random()` is a `real` roll in [0, 1), and the index picked is `floor(roll * n)`, as
in the source. `JSON.parse` and JavaScript's string-to-number conversion are function
parameters.

The route has no strict AI-only mode. REQUIRE_AI appears only in the practice page's
placeholder text. The shape check tests only four things: the value is truthy, `question` is a
string, `options` is an array of length 4, and `correctIndex` is a number. It does not
range-check `correctIndex`, and it does not check `subject`, `explanation` or the option types.

## Model

| member | source | states |
|---|---|---|
| `GenerateRoute.DemoBankWellFormed` | vcedge/src/app/api/generate/route.ts:23-90 | The demo bank and the topic table have the same subjects, and every bank entry is non-empty. Each demo question has 4 options, `correctIndex` in [0,3] and difficulty in [1,5]. It is filed under its own subject, and its topic is one of that subject's topics. |
| `GenerateRoute.DemoFor` | vcedge/src/app/api/generate/route.ts:92-95 | `demoFor` returns a member of the subject's bank, or of English's bank for an unknown subject. The question is well formed, and its subject is the requested one or "English". It never returns undefined. |
| `GenerateRoute.DemoForReachesEveryEntry` | vcedge/src/app/api/generate/route.ts:94 | Some roll of `Math.random` picks each question of a subject's bank. |
| `GenerateRoute.TopicPool` | vcedge/src/app/api/generate/route.ts:107 | The pool is never empty. It is the subject's topic list, or `["Core"]` for an unknown subject. |
| `GenerateRoute.PromptTopic` | vcedge/src/app/api/generate/route.ts:107-108 | The prompt topic is a member of `TOPICS[subject]`, or "Core" when the subject is unknown. |
| `GenerateRoute.ReadBody` | vcedge/src/app/api/generate/route.ts:98 | A body that is not JSON, and any non-null JSON body that is not an object, gives subject "English" and difficulty 2. For an object, a missing field takes its default and a present field is kept as it is. A JSON `null` body throws, because destructuring it fails outside the try block. |
| `GenerateRoute.ReadBodyIgnoresTopic` | vcedge/src/app/api/generate/route.ts:98 | A `topic` field in the request changes nothing. |
| `GenerateRoute.EffectiveDifficulty` | vcedge/src/app/api/generate/route.ts:110 | A TypeError is raised exactly when `Number(difficulty)` raises one. Otherwise the result is in [1,5]: NaN and 0 give 2, a value in [1,5] is kept, above 5 (or +Infinity) gives 5, and a nonzero value below 1 (or -Infinity) gives 1. |
| `GenerateRoute.MissingDifficultyIsTwo` | vcedge/src/app/api/generate/route.ts:98-110 | An unparseable body, or a body without `difficulty`, asks for difficulty 2. |
| `GenerateRoute.HttpOk` | vcedge/src/app/api/generate/route.ts:134 | `r.ok` holds exactly for a status in 200..299. |
| `GenerateRoute.Reason.Text` | vcedge/src/app/api/generate/route.ts:102-166 | Each failure point maps to its reason string, and an HTTP failure spells its status in decimal after "openai_http_". |
| `GenerateRoute.ReasonTextInjective` | vcedge/src/app/api/generate/route.ts:100-166 | The reason strings "no_key", "openai_http_"+status, "parse_error", "schema_fail" and "runtime_error" are pairwise distinct. The HTTP status can be recovered from its string. |
| `GenerateRoute.ReplyText` | vcedge/src/app/api/generate/route.ts:141 | A null envelope, or content that is not a string, throws. Missing or null content gives "{}". String content gives its trim, or "{}" when that is empty. The text is never empty. |
| `GenerateRoute.ValidShapeIff` | vcedge/src/app/api/generate/route.ts:151-156 | A parsed value passes exactly when it is an object with a string `question`, an array `options` of length 4 and a number `correctIndex`. |
| `GenerateRoute.ValidShapeIgnoresRanges` | vcedge/src/app/api/generate/route.ts:151-156 | These values all pass: an empty question, non-string options and `correctIndex` -1. |
| `GenerateRoute.ThreeOptionsFail` | vcedge/src/app/api/generate/route.ts:151-156 | A reply with three options fails the shape check, whatever else it holds. |
| `GenerateRoute.Resolve` | vcedge/src/app/api/generate/route.ts:134-166 | Failure ladder: a thrown error gives runtime_error, a non-ok status gives openai_http_status, a non-JSON envelope gives runtime_error, unparseable text gives parse_error and a bad shape gives schema_fail. Source is "ai" exactly when there is no reason, and only then is the question the parsed value. A demo reply carries the demo question. |
| `GenerateRoute.Post` | vcedge/src/app/api/generate/route.ts:97-168 | The handler throws exactly on a JSON null body or a subject whose key conversion raises. A missing key gives `{source:"demo", reason:"no_key"}` with no upstream call. With a key, a difficulty whose conversion raises gives runtime_error with no upstream call. Otherwise the prompt holds the subject, a topic from the subject's pool and the clamped difficulty, and the reply is the ladder's. |
| `GenerateRoute.EveryFailureServesDemo` | vcedge/src/app/api/generate/route.ts:100-166 | Every non-"ai" reply has a reason and a well-formed question from the requested subject's bank, or from English's bank. |
| `GenerateRoute.AiExactlyWhenAccepted` | vcedge/src/app/api/generate/route.ts:105-163 | A sent reply is "ai" exactly when a key is set, the difficulty converts without a TypeError, the call returned an ok JSON envelope, and its content parsed and passed the shape check. The parsed value is then returned unchanged. |
| `GenerateRoute.ResolveAiExactlyWhenAccepted` | vcedge/src/app/api/generate/route.ts:134-163 | The same property for the ladder on its own. |
| `GenerateRoute.EmptyContentIsSchemaFail` | vcedge/src/app/api/generate/route.ts:141-160 | An ok reply with missing, null or all-white-space content is parsed as "{}" and gives schema_fail. |
| `GenerateRoute.ChemistryWithoutKey` | vcedge/src/app/api/generate/route.ts:98-103 | With no key, a Chemistry request gets a Chemistry demo question, reason "no_key", and no prompt. |
| `GenerateRoute.DemoForAsWritten` | vcedge/src/app/api/generate/route.ts:92-95 | `demoFor` as written. It equals DemoFor for every subject except a name inherited from Object.prototype, for which it yields undefined. |
| `GenerateRoute.DemoForAsWrittenLosesQuestion` | vcedge/src/app/api/generate/route.ts:93-94 | The subject "constructor" gets no question from `demoFor` as written. The corrected lookup serves an English one. |
| `GenerateRoute.Known` | vcedge/src/app/api/generate/route.ts:93 | A subject names a table key only when it is a string that is a key of the table. |
| `GenerateRoute.HasKey` | vcedge/src/app/api/generate/route.ts:101 | `!apiKey` is false exactly when the key is set and not empty. |
| `GenerateRoute.MessageContent` | vcedge/src/app/api/generate/route.ts:141 | The optional chain `j.choices?.[0]?.message?.content`. |
| `GenerateRoute.ReplyTextIsTrimmed` | vcedge/src/app/api/generate/route.ts:141 | The text handed to `JSON.parse` is its own trim. |
| `GenerateRoute.ReplyTextOfEnvelope` | vcedge/src/app/api/generate/route.ts:141 | For a completion envelope holding string content, the text read back is the trimmed content, or "{}" when it is blank. |
| `GenerateRoute.ValidShape` | vcedge/src/app/api/generate/route.ts:151-156 | The four checks: truthy, a string `question`, an `options` array of length 4 and a number `correctIndex`. |
| `GenerateRoute.Throws` | vcedge/src/app/api/generate/route.ts:98-107 | The handler throws before any reply: the body is JSON null, or the subject's key conversion raises. |
| `GenerateRoute.ToStringDifficultyIsRuntimeError` | vcedge/src/app/api/generate/route.ts:110 | With a key, the difficulty `{"toString": 1}` gives a runtime_error demo reply with an English question, and no completion call is made. |
| `GenerateRoute.ToStringSubjectIsUnhandled` | vcedge/src/app/api/generate/route.ts:93-107 | The subject `[{"toString": 1}]` makes the handler throw, with or without a key. |
| `Js.Truthy` | vcedge/src/app/api/generate/route.ts:152 | The falsy JSON values are exactly null, false, 0 and the empty string. |
| `Js.ToStringThrows` | vcedge/src/app/api/generate/route.ts:110 | Conversion to a primitive raises for an object with its own `toString` key, and for an array holding such a value at any depth. |
| `Js.TrimIdempotent` | vcedge/src/app/api/generate/route.ts:141 | Trimming twice is the same as trimming once. |
| `Js.Trim` | vcedge/src/app/api/generate/route.ts:141 | `trim()` removes white space only, from the start and the end, and what it keeps neither starts nor ends with white space. The result is empty exactly when the input is all white space. |
| `Js.PickIndex` | vcedge/src/app/api/generate/route.ts:94 | `Math.floor(roll * n)` is a valid index for a roll in [0,1). |
| `Js.ToNumber` | vcedge/src/app/api/generate/route.ts:110 | `Number()` raises a TypeError exactly when the value is an object with its own `toString` key or an array holding one at any depth. Otherwise numbers are kept; null and false give 0, true gives 1; a string goes through StringToNumber; `[]` gives 0; an object or an array of two or more elements gives NaN. |
| `Js.Decimal` | vcedge/src/app/api/generate/route.ts:137 | The decimal spelling of a status is a non-empty digit string with no leading zero. |
| `Js.DecimalRoundTrip` | vcedge/src/app/api/generate/route.ts:137 | Reading the decimal spelling back gives the number. |
| `Js.Get` | vcedge/src/app/api/generate/route.ts:151-156 | Only an object, array or string has properties. An object has exactly its own keys. |
| `Js.Chain` | vcedge/src/app/api/generate/route.ts:141 | An optional-chain step on undefined or null gives undefined. |
| `Practice.DefaultSubjectsAreTopicKeys` | vcedge/src/app/practice/page.tsx:16-27 | The default subject list names each key of the topic table exactly once. |
| `Practice.TopicsAgreeWithRoute` | vcedge/src/app/practice/page.tsx:16-25 | Every subject the route knows has the same topics on the page. |
| `Practice.TopicOptions` | vcedge/src/app/practice/page.tsx:41-44 | The options start with "Any topic", followed by `TOPICS[subject]`, or by `["Core"]` for an unknown subject. |
| `Practice.RequestTopic` | vcedge/src/app/practice/page.tsx:81 | The request topic is absent exactly when the choice is "Any topic"; otherwise it is the choice unchanged. |
| `Practice.TopicOptionsRequest` | vcedge/src/app/practice/page.tsx:41-44 | The first option sends no topic, and every other option is sent as itself. |
| `Practice.RequestFor` | vcedge/src/app/practice/page.tsx:79-83 | The request carries the subject and difficulty. It has no topic exactly for "Any topic", and otherwise the chosen topic. |
| `Practice.Placeholder` | vcedge/src/app/practice/page.tsx:87-98 | The placeholder has 4 "Retry" options and `correctIndex` 0. It repeats the subject, topic and difficulty that were requested, and it is well formed for a difficulty in [1,5]. |
| `Practice.Correct` | vcedge/src/app/practice/page.tsx:110 | The answer is correct when an option is selected, a question is shown, and the selection is its `correctIndex`. |
| `Practice.CorrectOnlyAtAnswer` | vcedge/src/app/practice/page.tsx:110 | With no selection the answer is never correct. On a well-formed question, the selection is correct exactly at `correctIndex`. |
| `Practice.AnswerLetter` | vcedge/src/app/practice/page.tsx:235 | `String.fromCharCode(65+i)` is a UTF-16 code unit, and indices 0..3 give A..D. |
| `Practice.AnswerLettersDistinct` | vcedge/src/app/practice/page.tsx:254 | The four options get four different letters. |
| `Practice.NewDifficulty` | vcedge/src/app/practice/page.tsx:131-135 | The next difficulty is in [1,5]. From [1,5] it is one more after a correct answer (5 stays 5) and one less after a wrong one (1 stays 1). |
| `Practice.DifficultyAfter` | vcedge/src/app/practice/page.tsx:131-136 | After any run of answers the difficulty stays in [1,5] and moves at most one step per answer. |
| `Practice.RunsSaturate` | vcedge/src/app/practice/page.tsx:131-136 | k right answers in a row give min(5, d+k), and k wrong ones give max(1, d-k). |
| `Practice.SavedSubjects` | vcedge/src/app/practice/page.tsx:57-58 | The filter keeps exactly the saved subjects that are keys of the topic table. |
| `Practice.SavedSubjectsAppend` | vcedge/src/app/practice/page.tsx:58 | The filter distributes over concatenation, so saved order is kept. |
| `Practice.SavedSubjectsMayBeEmpty` | vcedge/src/app/practice/page.tsx:58 | The `|| DEFAULT_SUBJECTS` branch never fires: a list of unknown subjects filters to empty. |
| `Practice.MountMayLeaveSubjectUnlisted` | vcedge/src/app/practice/page.tsx:57-59 | The subject is set from the unfiltered saved list, so it can be missing from the selector's list. |
| `Practice.PracticePage.constructor` | vcedge/src/app/practice/page.tsx:30-39 | The initial state: default subjects, "English", "Any topic", difficulty 2, no question or selection, loading. |
| `Practice.PracticePage.BeginLoad` | vcedge/src/app/practice/page.tsx:68-84 | Before the fetch, `loadQ` sets loading, clears reveal and selection, and blanks the status. It sends the request for its arguments. |
| `Practice.PracticePage.FinishLoad` | vcedge/src/app/practice/page.tsx:86-107 | A non-ok reply shows the placeholder with a blank status. An ok reply shows its question with status `source ?? "ai"`. Loading ends. |
| `Practice.PracticePage.Mount` | vcedge/src/app/practice/page.tsx:47-66 | Saved subjects, if any, install the filtered list and the first saved subject. The first request still uses the subject, topic and difficulty held before they were installed. |
| `Practice.PracticePage.ChangeSubject` | vcedge/src/app/practice/page.tsx:162-167 | A new subject resets the topic to "Any topic" and requests a question with no topic. |
| `Practice.PracticePage.ChangeTopic` | vcedge/src/app/practice/page.tsx:181-185 | A new topic is stored and requested. |
| `Practice.PracticePage.ChangeDifficulty` | vcedge/src/app/practice/page.tsx:199-203 | A difficulty from 1..5 is stored and requested. |
| `Practice.PracticePage.Select` | vcedge/src/app/practice/page.tsx:225 | Clicking option i selects i. |
| `Practice.PracticePage.Check` | vcedge/src/app/practice/page.tsx:242-243 | Reveal happens only once an option is selected, which keeps "revealed implies selected" true. |
| `Practice.PracticePage.AttemptRecord` | vcedge/src/app/practice/page.tsx:112-127 | An attempt exists exactly when there is a question and a selection. It records the page's difficulty, and its indices agree exactly when the answer is correct. |
| `Practice.PracticePage.NextQuestion` | vcedge/src/app/practice/page.tsx:131-136 | The difficulty takes one adaptive step, and the new difficulty is requested. |
| `Practice.PracticePage.NextClicked` | vcedge/src/app/practice/page.tsx:261-264 | The attempt is recorded, then the difficulty steps by whether the selection was correct. |
| `Practice.PracticePage.Regenerate` | vcedge/src/app/practice/page.tsx:271-273 | The same subject, topic and difficulty are requested again. |
| `Onboarding.Without` | vcedge/src/app/onboarding/page.tsx:17 | Removal drops every occurrence of the subject and keeps every other one. |
| `Onboarding.WithoutAppend` | vcedge/src/app/onboarding/page.tsx:17 | Removal distributes over concatenation, so the other subjects keep their order. |
| `Onboarding.WithoutAbsent` | vcedge/src/app/onboarding/page.tsx:17 | Removing an absent subject changes nothing. |
| `Onboarding.WithoutKeepsNoDuplicates` | vcedge/src/app/onboarding/page.tsx:17 | Removal keeps a duplicate-free list duplicate-free. |
| `Onboarding.Toggled` | vcedge/src/app/onboarding/page.tsx:17 | An absent subject is appended at the end. A present one is removed everywhere, and the others stay. |
| `Onboarding.ToggleTwiceRestores` | vcedge/src/app/onboarding/page.tsx:17 | Toggling an absent subject twice gives back the original list. |
| `Onboarding.ToggleTwiceMovesToEnd` | vcedge/src/app/onboarding/page.tsx:17 | Toggling a chosen subject twice moves it to the end. |
| `Onboarding.ToggleKeepsNoDuplicates` | vcedge/src/app/onboarding/page.tsx:17 | Toggling keeps a duplicate-free list duplicate-free. |
| `Onboarding.ChoiceSurvivesPracticeFilter` | vcedge/src/app/onboarding/page.tsx:5-8 | Every onboarding subject is known to the practice page, so a saved choice passes its filter unchanged. |
| `Onboarding.SubjectsPerDay` | vcedge/src/app/onboarding/page.tsx:29 | `subjects_per_day` is in [1,3]. It is 1 for no subjects, the count for 1 to 3 subjects, and 3 beyond that. |
| `Onboarding.OnboardingPage.constructor` | vcedge/src/app/onboarding/page.tsx:11-14 | The initial state: year 12, 45 minutes, nothing chosen, no message. |
| `Onboarding.OnboardingPage.SetYear` | vcedge/src/app/onboarding/page.tsx:39 | The year selector sets 11 or 12. |
| `Onboarding.OnboardingPage.SetMinutes` | vcedge/src/app/onboarding/page.tsx:47 | The minutes input sets the minutes. |
| `Onboarding.OnboardingPage.Toggle` | vcedge/src/app/onboarding/page.tsx:16-18 | The chosen list becomes the toggled list. It stays a duplicate-free subset of SUBJECTS, because toggle is only called with SUBJECTS entries. |
| `Onboarding.OnboardingPage.Save` | vcedge/src/app/onboarding/page.tsx:20-33 | Nobody signed in means no row and a login message. Otherwise the row holds the year, dream ATAR 95, the minutes, `subjects_per_day` in [1,3] and the chosen list. The message reports the write's error or success. |

## Findings

| source | as written | input that shows it | evidently intended | confidence | as-written member | corrected member |
|---|---|---|---|---|---|---|
| vcedge/src/app/api/generate/route.ts:92-95 | `DEMO[subj] ?? DEMO["English"]` also finds members inherited from Object.prototype. `??` keeps them, and indexing them with a number yields undefined, so `demoFor` returns no question. | subject "constructor" (also "toString", "__proto__", and others) | an own-key lookup that falls back to the English bank | medium, not executed | `GenerateRoute.DemoForAsWritten`, `GenerateRoute.DemoForAsWrittenLosesQuestion` | `GenerateRoute.DemoFor` |

## Left out

- HTTP is not modelled: the `fetch` calls to the completion endpoint, `/api/generate` and `/api/attempt`, `NextResponse`, the `Cache-Control` headers and `console.error` logging. The upstream call is the abstract `Upstream` value, and the page's fetch is split into `BeginLoad` and `FinishLoad`.
- `JSON.parse` and the string-to-number part of `Number()` are function parameters, because a JSON parser and JavaScript's numeric-string grammar are outside this core.
- The prompt's wording and the random seed token are not modelled. `Prompt` keeps only the subject, topic and difficulty written into it.
- GenerateRoute.Known: only a string subject is matched against the tables. JavaScript would also convert, say, the array `["Chemistry"]` to the key "Chemistry"; the model treats every non-string subject as unknown.
- TOPICS lookups by inherited Object.prototype names (in the route and on the practice page) are not modelled. The main model uses own keys throughout, and the Findings row shows the effect on `demoFor`.
- A rejected `r.text()` on a non-ok upstream reply (it would give runtime_error) is not modelled.
- Time is not modelled: `Date.now`, `startedAt` and the `timeSeconds` rounding. `Attempt` omits the elapsed time.
- Supabase is not modelled: sign-in, profile reads and writes. These become parameters: `saved` for `Mount`, and `user` and `writeError` for `Save`.
- JSX rendering is not modelled. The "Loading…" gate appears only as `Mount`'s precondition that no question is shown yet.
- Practice.PracticePage.FinishLoad: the page's view of a served question is its declared MCQ type. A model reply that passes the route's four checks but has, say, non-string options is not tracked on the page side.
- Overlapping loads are not ordered: nothing relates the responses of two loads in flight. Each `FinishLoad` is a separate call.
- Js.Get: a string is indexed by character, not by UTF-16 code unit.
- Onboarding.OnboardingPage.Save: the interim "Saving…" message is overwritten before the method returns, so it is not stated.
- vcedge/src/app/login/page.tsx (Supabase sign-in and a redirect), vcedge/src/app/api/generate-question.ts (an unused SDK wrapper) and vcedge/src/app/api/diag/route.ts (an environment probe) are not part of this model.
- Strict AI-only mode does not exist in the route. The practice page mentions it only in its placeholder text.
