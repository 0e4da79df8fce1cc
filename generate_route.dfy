/**
 * The question route, POST /api/generate: request defaults, the topic and difficulty
 * written into the prompt, the single upstream completion call (an abstract outcome),
 * the shape check on the parsed reply, and the ladder that turns every failure into a
 * demo question tagged with the reason. There is no strict mode: every reply the handler
 * sends carries a question. It throws (and the framework answers 500) only on a JSON null
 * body or on a subject whose string conversion raises a TypeError.
 */
module GenerateRoute {
  import opened Wrappers
  import opened Js
  import opened Quiz

  // ---------------------------------------------------------------------------
  // The read-only tables

  const ENGLISH: seq<Mcq> := [
    Mcq("English", Some("Language analysis"), 2,
        "Which statement best describes the author\U{2019}s tone?",
        ["Dismissive", "Cautiously optimistic", "Ironic", "Indifferent"], 1,
        "Phrases like \U{201C}promising, provided\U{201D} indicate cautious optimism."),
    Mcq("English", Some("Argument analysis"), 2,
        "Which feature most directly strengthens an author\U{2019}s **appeal to logic (logos)**?",
        ["Emotive adjectives", "Inclusive language", "Statistical evidence", "Anecdotes"], 2,
        "Logos is supported by verifiable data such as statistics.")
  ]

  const MATHEMATICAL_METHODS: seq<Mcq> := [
    Mcq("Mathematical Methods", Some("Functions"), 2,
        "For f(x)=x^2\U{2212}4x, the x-coordinate of the vertex is:",
        ["\U{2212}4", "\U{2212}2", "2", "4"], 2,
        "Vertex at \U{2212}b/(2a)=\U{2212}(\U{2212}4)/(2\U{B7}1)=2."),
    Mcq("Mathematical Methods", Some("Calculus"), 3,
        "If f(x)=3x^2\U{2212}6x, what x maximises/minimises f?",
        ["x=\U{2212}1", "x=0", "x=1", "x=2"], 2,
        "f\U{2019}(x)=6x\U{2212}6=0 \U{21D2} x=1 (turning point).")
  ]

  const CHEMISTRY: seq<Mcq> := [
    Mcq("Chemistry", Some("Stoichiometry"), 3,
        "0.25 mol Na2CO3 reacts with excess HCl. Moles of CO2 produced?",
        ["0.125", "0.25", "0.50", "1.00"], 1,
        "1:1 stoichiometry Na2CO3\U{2192}CO2."),
    Mcq("Chemistry", Some("Acids and bases"), 2,
        "Which solution has the **lowest pH**?",
        ["0.10 M HCl", "0.10 M CH3COOH", "0.10 M NH3", "Pure water"], 0,
        "Strong acid at same molarity yields lowest pH.")
  ]

  /** The demo question bank, keyed by subject. */
  const DEMO: map<string, seq<Mcq>> :=
    map["English" := ENGLISH, "Mathematical Methods" := MATHEMATICAL_METHODS, "Chemistry" := CHEMISTRY]

  /** The topics the prompt draws from, keyed by subject. */
  const TOPICS: map<string, seq<string>> := map[
    "English" := ["Language analysis", "Argument analysis", "Comparative"],
    "Mathematical Methods" := ["Functions", "Calculus", "Probability", "Algebra"],
    "Chemistry" := ["Stoichiometry", "Acids and bases", "Redox", "Organic"]]

  /** Every demo question is well formed and filed under its own subject, with one of that subject's topics. */
  lemma DemoBankWellFormed()
    ensures DEMO.Keys == TOPICS.Keys
    ensures forall k | k in DEMO :: |DEMO[k]| > 0
    ensures forall k, i | k in DEMO && 0 <= i < |DEMO[k]| ::
      && WellFormed(DEMO[k][i])
      && DEMO[k][i].subject == k
      && DEMO[k][i].topic.Some? && DEMO[k][i].topic.value in TOPICS[k]
  {
  }

  // ---------------------------------------------------------------------------
  // Table lookups by the request's subject

  /** A subject value names a key of `table`. Only a string can (see README, Left out). */
  predicate Known<T>(subject: Json, table: map<string, T>) {
    subject.JStr? && subject.s in table
  }

  /** `demoFor(subject)`: a demo question of the subject, or of English when the subject has none. */
  function DemoFor(subject: Json, roll: real): (q: Mcq)
    requires 0.0 <= roll < 1.0
    ensures Known(subject, DEMO) ==> q in DEMO[subject.s]
    ensures !Known(subject, DEMO) ==> q in DEMO["English"]
    ensures WellFormed(q)
    ensures q.subject == if Known(subject, DEMO) then subject.s else "English"
  {
    DemoBankWellFormed();
    var arr := if Known(subject, DEMO) then DEMO[subject.s] else DEMO["English"];
    arr[PickIndex(roll, |arr|)]
  }

  /** Every question of a subject's bank is what some roll of Math.random picks. */
  lemma DemoForReachesEveryEntry(k: string, i: nat)
    requires k in DEMO && i < |DEMO[k]|
    ensures exists roll :: 0.0 <= roll < 1.0 && DemoFor(JStr(k), roll) == DEMO[k][i]
  {
    var n := |DEMO[k]|;
    var roll := i as real / n as real;
    assert roll * n as real == i as real;
    assert PickIndex(roll, n) == i;
    assert DemoFor(JStr(k), roll) == DEMO[k][i];
  }

  /** The topics the prompt may name: the subject's own, or the single generic "Core". */
  function TopicPool(subject: Json): (pool: seq<string>)
    ensures |pool| > 0
    ensures Known(subject, TOPICS) ==> pool == TOPICS[subject.s]
    ensures !Known(subject, TOPICS) ==> pool == ["Core"]
  {
    if Known(subject, TOPICS) then TOPICS[subject.s] else ["Core"]
  }

  /** The topic written into the prompt. */
  function PromptTopic(subject: Json, roll: real): (t: string)
    requires 0.0 <= roll < 1.0
    ensures Known(subject, TOPICS) ==> t in TOPICS[subject.s]
    ensures !Known(subject, TOPICS) ==> t == "Core"
  {
    var pool := TopicPool(subject);
    pool[PickIndex(roll, |pool|)]
  }

  // ---------------------------------------------------------------------------
  // The request body

  datatype Params = Params(subject: Json, difficulty: Json)

  /**
   * `const { subject = "English", difficulty = 2 } = await req.json().catch(() => ({}))`.
   * `body` is None when the request body is not JSON. The result is None when the body is
   * JSON null: destructuring null throws, outside the handler's try block.
   */
  function ReadBody(body: Option<Json>): (p: Option<Params>)
    ensures p.None? <==> body == Some(JNull)
    ensures body.None? ==> p == Some(Params(JStr("English"), JNum(2.0)))
    ensures body.Some? && body.value != JNull && !body.value.JObj? ==> p == Some(Params(JStr("English"), JNum(2.0)))
    ensures body.Some? && body.value.JObj? ==>
      && p.Some?
      && p.value.subject == (if "subject" in body.value.fields then body.value.fields["subject"] else JStr("English"))
      && p.value.difficulty == (if "difficulty" in body.value.fields then body.value.fields["difficulty"] else JNum(2.0))
  {
    NotIndexKeys();
    match body
    case None => Some(Params(JStr("English"), JNum(2.0)))
    case Some(JNull) => None
    case Some(v) => Some(Params(Get(v, "subject").GetOr(JStr("English")), Get(v, "difficulty").GetOr(JNum(2.0))))
  }

  /** Neither field name is an array index, so a string or array body has neither field. */
  lemma NotIndexKeys()
    ensures CanonicalIndex("subject").None? && CanonicalIndex("difficulty").None?
  {
    assert !AllDigits("subject") by { assert "subject"[0] == 's'; }
    assert !AllDigits("difficulty") by { assert "difficulty"[0] == 'd'; }
  }

  /** The route reads only `subject` and `difficulty`: a `topic` in the request changes nothing. */
  lemma ReadBodyIgnoresTopic(fields: map<string, Json>, topic: Json)
    ensures ReadBody(Some(JObj(fields["topic" := topic]))) == ReadBody(Some(JObj(fields - {"topic"})))
  {
  }

  /**
   * `Math.max(1, Math.min(5, Number(difficulty) || 2))`: NaN and 0 are falsy and become 2,
   * the rest is clamped to [1, 5]. TypeError where `Number` raises one.
   */
  function EffectiveDifficulty(difficulty: Json, fromString: string -> Num): (d: Outcome<real>)
    ensures d.TypeError? <==> ToStringThrows(difficulty)
    ensures d.Value? ==> 1.0 <= d.value <= 5.0
    ensures var n := ToNumber(difficulty, fromString);
      && (n == Value(NaN) || n == Value(Finite(0.0)) ==> d == Value(2.0))
      && (n.Value? && n.value.Finite? && 1.0 <= n.value.x <= 5.0 ==> d == Value(n.value.x))
      && (n.Value? && n.value.Finite? && n.value.x > 5.0 ==> d == Value(5.0))
      && (n.Value? && n.value.Finite? && n.value.x < 1.0 && n.value.x != 0.0 ==> d == Value(1.0))
      && (n == Value(PosInf) ==> d == Value(5.0))
      && (n == Value(NegInf) ==> d == Value(1.0))
  {
    match ToNumber(difficulty, fromString)
    case TypeError => TypeError
    case Value(NaN) => Value(2.0)
    case Value(PosInf) => Value(5.0)
    case Value(NegInf) => Value(1.0)
    case Value(Finite(n)) =>
      if n == 0.0 then Value(2.0)
      else if n < 1.0 then Value(1.0)
      else if n > 5.0 then Value(5.0)
      else Value(n)
  }

  /** A request without a usable difficulty asks for difficulty 2. */
  lemma MissingDifficultyIsTwo(body: Option<Json>, fromString: string -> Num)
    requires body.None? || (body.Some? && body.value.JObj? && "difficulty" !in body.value.fields)
    ensures ReadBody(body).Some? && EffectiveDifficulty(ReadBody(body).value.difficulty, fromString) == Value(2.0)
  {
  }

  // ---------------------------------------------------------------------------
  // The upstream call and its reply

  /** What the one completion request produced. */
  datatype Upstream =
    | Threw                                        // fetch rejected (network failure)
    | Responded(status: nat, body: Option<Json>)   // body None: not JSON, so r.json() rejects

  /** `r.ok`. */
  predicate HttpOk(status: nat) {
    200 <= status <= 299
  }

  /** The failure points, each with the reason string the reply carries. */
  datatype Reason = NoKey | OpenAiHttp(status: nat) | ParseError | SchemaFail | RuntimeError {
    function Text(): (t: string)
      ensures t != []
      ensures this.OpenAiHttp? ==> |t| > 12 && t[..12] == "openai_http_" && t[12..] == Decimal(status)
    {
      match this
      case NoKey => "no_key"
      case OpenAiHttp(status) => "openai_http_" + Decimal(status)
      case ParseError => "parse_error"
      case SchemaFail => "schema_fail"
      case RuntimeError => "runtime_error"
    }
  }

  /** The reason string identifies the failure point, and the HTTP status within it. */
  lemma ReasonTextInjective(a: Reason, b: Reason)
    ensures a.Text() == b.Text() ==> a == b
  {
    if a.Text() == b.Text() {
      if a.OpenAiHttp? || b.OpenAiHttp? {
        assert a.Text()[0] == b.Text()[0];
        assert a.OpenAiHttp? && b.OpenAiHttp? by {
          assert a.OpenAiHttp? ==> a.Text()[0] == 'o';
          assert b.OpenAiHttp? ==> b.Text()[0] == 'o';
        }
        assert a.Text()[12..] == Decimal(a.status);
        assert b.Text()[12..] == Decimal(b.status);
        DecimalInjective(a.status, b.status);
      }
    }
  }

  /** `j.choices?.[0]?.message?.content` on a non-null envelope. */
  function MessageContent(j: Json): Option<Json> {
    Chain(Chain(Chain(Get(j, "choices"), "0"), "message"), "content")
  }

  datatype Text = Thrown | Content(text: string)

  /** `j.choices?.[0]?.message?.content?.trim() || "{}"`; Thrown where JavaScript raises a TypeError. */
  function ReplyText(j: Json): (t: Text)
    ensures t.Thrown? <==> j == JNull || (MessageContent(j).Some? && !MessageContent(j).value.JNull? && !MessageContent(j).value.JStr?)
    ensures j != JNull && (MessageContent(j).None? || MessageContent(j) == Some(JNull)) ==> t == Content("{}")
    ensures j != JNull && MessageContent(j).Some? && MessageContent(j).value.JStr? ==>
      t == Content(if Trim(MessageContent(j).value.s) == "" then "{}" else Trim(MessageContent(j).value.s))
    ensures t.Content? ==> t.text != ""
  {
    if j == JNull then Thrown   // reading `.choices` of null
    else match MessageContent(j)
      case None => Content("{}")
      case Some(JNull) => Content("{}")
      case Some(JStr(s)) => if Trim(s) == "" then Content("{}") else Content(Trim(s))
      case Some(_) => Thrown      // `.trim` is not a function of a number, boolean, array or object
  }

  /** The text handed to JSON.parse is already trimmed. */
  lemma ReplyTextIsTrimmed(j: Json)
    ensures ReplyText(j).Content? ==> Trim(ReplyText(j).text) == ReplyText(j).text
  {
    TrimOfBraces();
    if j != JNull && MessageContent(j).Some? && MessageContent(j).value.JStr? {
      TrimIdempotent(MessageContent(j).value.s);
    }
  }

  lemma TrimOfBraces()
    ensures Trim("{}") == "{}"
  {
    var braces := "{}";
    assert braces[0] == '{' && !IsSpace(braces[0]);
    assert braces[|braces| - 1] == '}' && !IsSpace(braces[|braces| - 1]);
    assert TrimStart(braces) == braces;
    assert TrimEnd(braces) == braces;
  }

  /** The envelope a chat completion answers with, holding `content` as its first message. */
  function Envelope(content: Json): Json {
    JObj(map["choices" := JArr([JObj(map["message" := JObj(map["content" := content])])])])
  }

  /** The text read back from an envelope is the trimmed content, or "{}" for blank content. */
  lemma ReplyTextOfEnvelope(content: string)
    ensures ReplyText(Envelope(JStr(content))) == Content(if Trim(content) == "" then "{}" else Trim(content))
  {
    assert CanonicalIndex("0") == Some(0) by { assert DigitsValue("0") == 0; }
    assert MessageContent(Envelope(JStr(content))) == Some(JStr(content));
  }

  /** Four things only: truthy, a string `question`, an `options` array of length 4, a number `correctIndex`. */
  predicate ValidShape(parsed: Json) {
    && Truthy(parsed)
    && (match Get(parsed, "question") case Some(JStr(_)) => true case _ => false)
    && (match Get(parsed, "options") case Some(JArr(items)) => |items| == 4 case _ => false)
    && (match Get(parsed, "correctIndex") case Some(JNum(_)) => true case _ => false)
  }

  /** Only an object can pass, and then exactly when its three fields have those types. */
  lemma ValidShapeIff(v: Json)
    ensures ValidShape(v) <==>
      && v.JObj?
      && "question" in v.fields && v.fields["question"].JStr?
      && "options" in v.fields && v.fields["options"].JArr? && |v.fields["options"].items| == 4
      && "correctIndex" in v.fields && v.fields["correctIndex"].JNum?
  {
    if v.JArr? || v.JStr? {
      assert !AllDigits("question") by { assert "question"[0] == 'q'; }
    }
  }

  /** No range or element check: an empty question, non-string options and index -1 all pass. */
  lemma ValidShapeIgnoresRanges()
    ensures ValidShape(JObj(map[
      "question" := JStr(""),
      "options" := JArr([JNull, JNull, JNull, JNull]),
      "correctIndex" := JNum(-1.0)]))
  {
  }

  /** Three options fail the check, whatever else the reply holds. */
  lemma ThreeOptionsFail(fields: map<string, Json>, a: Json, b: Json, c: Json)
    ensures !ValidShape(JObj(fields["options" := JArr([a, b, c])]))
  {
  }

  // ---------------------------------------------------------------------------
  // The failure ladder

  datatype Source = Ai | Demo
  datatype Served = FromAi(value: Json) | FromBank(mcq: Mcq)
  datatype Reply = Reply(source: Source, reason: Option<Reason>, question: Served)

  function DemoReply(reason: Reason, demo: Mcq): Reply {
    Reply(Demo, Some(reason), FromBank(demo))
  }

  /** The try block from the completion call on, with `demo` the question `demoFor` would give. */
  function Resolve(upstream: Upstream, parse: string -> Option<Json>, demo: Mcq): (r: Reply)
    ensures r.source == Ai <==> r.reason.None?
    ensures r.source == Ai <==> r.question.FromAi?
    ensures r.question.FromBank? ==> r.question.mcq == demo
    ensures upstream.Threw? ==> r.reason == Some(RuntimeError)
    ensures upstream.Responded? && !HttpOk(upstream.status) ==> r.reason == Some(OpenAiHttp(upstream.status))
    ensures upstream.Responded? && HttpOk(upstream.status) && upstream.body.None? ==> r.reason == Some(RuntimeError)
    ensures upstream.Responded? && HttpOk(upstream.status) && upstream.body.Some? ==>
      match ReplyText(upstream.body.value)
      case Thrown => r.reason == Some(RuntimeError)
      case Content(text) =>
        match parse(text)
        case None => r.reason == Some(ParseError)
        case Some(v) => r == (if ValidShape(v) then Reply(Ai, None, FromAi(v)) else DemoReply(SchemaFail, demo))
  {
    match upstream
    case Threw => DemoReply(RuntimeError, demo)
    case Responded(status, body) =>
      if !HttpOk(status) then DemoReply(OpenAiHttp(status), demo)
      else if body.None? then DemoReply(RuntimeError, demo)   // r.json() rejected
      else match ReplyText(body.value)
        case Thrown => DemoReply(RuntimeError, demo)
        case Content(text) =>
          match parse(text)
          case None => DemoReply(ParseError, demo)
          case Some(parsed) => if ValidShape(parsed) then Reply(Ai, None, FromAi(parsed)) else DemoReply(SchemaFail, demo)
  }

  /** The prompt's variable parts; its wording and the random seed are not modelled. */
  datatype Prompt = Prompt(subject: Json, topic: string, difficulty: real)

  /** What the handler does: Unhandled when it throws, otherwise the prompt it sent (if any) and its reply. */
  datatype Handled = Unhandled | Sent(prompt: Option<Prompt>, reply: Reply)

  /** `!apiKey` is false: the variable is set and not empty. */
  predicate HasKey(apiKey: Option<string>) {
    apiKey.Some? && apiKey.value != ""
  }

  /** The request throws before any reply: its body is JSON null, or its subject cannot be made a key. */
  predicate Throws(body: Option<Json>) {
    ReadBody(body).None? || ToStringThrows(ReadBody(body).value.subject)
  }

  /**
   * POST. `body` is the request body (None when it is not JSON), `apiKey` the environment's
   * OPENAI_API_KEY, `upstream` what the completion call produced, the rolls are the values
   * Math.random returns for the topic and the demo pick, `parse` is JSON.parse (None when it
   * throws) and `fromString` JavaScript's string-to-number conversion.
   *
   * A subject whose conversion to a key raises is read by `demoFor` outside the try block when
   * there is no key, and by `TOPICS[subject]` inside it otherwise, where the catch block's own
   * `demoFor` raises again: either way the handler throws. A difficulty whose conversion raises
   * is caught before the completion call, and the reply is runtime_error.
   */
  function Post(body: Option<Json>, apiKey: Option<string>, upstream: Upstream,
                topicRoll: real, demoRoll: real,
                parse: string -> Option<Json>, fromString: string -> Num): (h: Handled)
    requires 0.0 <= topicRoll < 1.0 && 0.0 <= demoRoll < 1.0
    ensures h.Unhandled? <==> Throws(body)
    ensures h.Sent? && !HasKey(apiKey) ==> h.prompt.None? && h.reply == DemoReply(NoKey, DemoFor(ReadBody(body).value.subject, demoRoll))
    ensures h.Sent? ==> (h.prompt.Some? <==> HasKey(apiKey) && !ToStringThrows(ReadBody(body).value.difficulty))
    ensures h.Sent? && HasKey(apiKey) && h.prompt.None? ==>
      h.reply == DemoReply(RuntimeError, DemoFor(ReadBody(body).value.subject, demoRoll))
    ensures h.Sent? && h.prompt.Some? ==>
      && h.prompt.value.subject == ReadBody(body).value.subject
      && 1.0 <= h.prompt.value.difficulty <= 5.0
      && Value(h.prompt.value.difficulty) == EffectiveDifficulty(ReadBody(body).value.difficulty, fromString)
      && h.prompt.value.topic in TopicPool(ReadBody(body).value.subject)
      && h.reply == Resolve(upstream, parse, DemoFor(ReadBody(body).value.subject, demoRoll))
  {
    match ReadBody(body)
    case None => Unhandled
    case Some(p) =>
      if ToStringThrows(p.subject) then Unhandled
      else
        var demo := DemoFor(p.subject, demoRoll);
        if !HasKey(apiKey) then Sent(None, DemoReply(NoKey, demo))
        else
          var topic := PromptTopic(p.subject, topicRoll);
          match EffectiveDifficulty(p.difficulty, fromString)
          case TypeError => Sent(None, DemoReply(RuntimeError, demo))
          case Value(diff) => Sent(Some(Prompt(p.subject, topic, diff)), Resolve(upstream, parse, demo))
  }

  /** A difficulty with its own `toString` key is a runtime_error, and no completion call is made. */
  lemma ToStringDifficultyIsRuntimeError(upstream: Upstream, topicRoll: real, demoRoll: real,
                                         parse: string -> Option<Json>, fromString: string -> Num)
    requires 0.0 <= topicRoll < 1.0 && 0.0 <= demoRoll < 1.0
    ensures Post(Some(JObj(map["difficulty" := JObj(map["toString" := JNum(1.0)])])),
                 Some("k"), upstream, topicRoll, demoRoll, parse, fromString)
      == Sent(None, DemoReply(RuntimeError, DemoFor(JStr("English"), demoRoll)))
  {
    var body := Some(JObj(map["difficulty" := JObj(map["toString" := JNum(1.0)])]));
    assert ReadBody(body).value.subject == JStr("English");
    assert ToStringThrows(ReadBody(body).value.difficulty);
  }

  /** A subject with its own `toString` key makes the handler throw, with or without a key. */
  lemma ToStringSubjectIsUnhandled(apiKey: Option<string>, upstream: Upstream, topicRoll: real, demoRoll: real,
                                   parse: string -> Option<Json>, fromString: string -> Num)
    requires 0.0 <= topicRoll < 1.0 && 0.0 <= demoRoll < 1.0
    ensures Post(Some(JObj(map["subject" := JArr([JObj(map["toString" := JNum(1.0)])])])),
                 apiKey, upstream, topicRoll, demoRoll, parse, fromString).Unhandled?
  {
    var inner := JObj(map["toString" := JNum(1.0)]);
    assert ToStringThrows(JArr([inner])) by { assert ToStringThrows(JArr([inner]).items[0]); }
  }

  /**
   * Every reply that is not from the model is a demo reply with a reason, carrying a
   * well-formed question from the requested subject's bank, or from English's.
   */
  lemma EveryFailureServesDemo(body: Option<Json>, apiKey: Option<string>, upstream: Upstream,
                               topicRoll: real, demoRoll: real,
                               parse: string -> Option<Json>, fromString: string -> Num)
    requires 0.0 <= topicRoll < 1.0 && 0.0 <= demoRoll < 1.0
    ensures var h := Post(body, apiKey, upstream, topicRoll, demoRoll, parse, fromString);
      h.Sent? && h.reply.source == Demo ==>
        && h.reply.reason.Some?
        && h.reply.question.FromBank?
        && WellFormed(h.reply.question.mcq)
        && var subject := ReadBody(body).value.subject;
           h.reply.question.mcq in (if Known(subject, DEMO) then DEMO[subject.s] else DEMO["English"])
  {
  }

  /** The value the model's reply yields when every step succeeds and the shape check passes. */
  function Accepted(upstream: Upstream, parse: string -> Option<Json>): Option<Json> {
    if upstream.Responded? && HttpOk(upstream.status) && upstream.body.Some? then
      match ReplyText(upstream.body.value)
      case Thrown => None
      case Content(text) =>
        match parse(text)
        case Some(v) => if ValidShape(v) then Some(v) else None
        case None => None
    else None
  }

  /**
   * With a key, the reply is from the model exactly when the call answered with an ok status
   * and a JSON envelope, its content parsed, and the parsed value passed the shape check; the
   * parsed value is then returned unchanged. Without a key it never is.
   */
  lemma AiExactlyWhenAccepted(body: Option<Json>, apiKey: Option<string>, upstream: Upstream,
                              topicRoll: real, demoRoll: real,
                              parse: string -> Option<Json>, fromString: string -> Num)
    requires 0.0 <= topicRoll < 1.0 && 0.0 <= demoRoll < 1.0
    ensures var h := Post(body, apiKey, upstream, topicRoll, demoRoll, parse, fromString);
      h.Sent? ==>
        && (h.reply.source == Ai <==>
              HasKey(apiKey) && !ToStringThrows(ReadBody(body).value.difficulty) && Accepted(upstream, parse).Some?)
        && (h.reply.source == Ai ==> h.reply.question == FromAi(Accepted(upstream, parse).value))
  {
    if !Throws(body) {
      var demo := DemoFor(ReadBody(body).value.subject, demoRoll);
      ResolveAiExactlyWhenAccepted(upstream, parse, demo);
    }
  }

  lemma ResolveAiExactlyWhenAccepted(upstream: Upstream, parse: string -> Option<Json>, demo: Mcq)
    ensures var r := Resolve(upstream, parse, demo);
      && (r.source == Ai <==> Accepted(upstream, parse).Some?)
      && (r.source == Ai ==> r.question == FromAi(Accepted(upstream, parse).value))
  {
  }

  /**
   * An ok reply without content (or with only white space) is parsed as "{}", which fails the
   * shape check.
   */
  lemma EmptyContentIsSchemaFail(envelope: Json, status: nat, parse: string -> Option<Json>, demo: Mcq)
    requires parse("{}") == Some(JObj(map[]))
    requires HttpOk(status) && envelope != JNull
    requires MessageContent(envelope).None? || MessageContent(envelope) == Some(JNull)
      || (MessageContent(envelope).Some? && MessageContent(envelope).value.JStr? && Trim(MessageContent(envelope).value.s) == "")
    ensures Resolve(Responded(status, Some(envelope)), parse, demo) == DemoReply(SchemaFail, demo)
  {
    BlankContentReadsAsBraces(envelope);
    BracesFailSchema(status, envelope, parse, demo);
  }

  lemma BracesFailSchema(status: nat, envelope: Json, parse: string -> Option<Json>, demo: Mcq)
    requires parse("{}") == Some(JObj(map[]))
    requires HttpOk(status) && ReplyText(envelope) == Content("{}")
    ensures Resolve(Responded(status, Some(envelope)), parse, demo) == DemoReply(SchemaFail, demo)
  {
    var empty := JObj(map[]);
    assert !ValidShape(empty) by {
      assert Get(empty, "question").None?;
    }
    var text := ReplyText(envelope);
    assert text.Content? && parse(text.text) == Some(empty);
  }

  lemma BlankContentReadsAsBraces(envelope: Json)
    requires envelope != JNull
    requires MessageContent(envelope).None? || MessageContent(envelope) == Some(JNull)
      || (MessageContent(envelope).Some? && MessageContent(envelope).value.JStr? && Trim(MessageContent(envelope).value.s) == "")
    ensures ReplyText(envelope) == Content("{}")
  {
  }

  /** Without a key, a Chemistry request is answered with a Chemistry demo question and makes no upstream call. */
  lemma ChemistryWithoutKey(upstream: Upstream, topicRoll: real, demoRoll: real,
                            parse: string -> Option<Json>, fromString: string -> Num)
    requires 0.0 <= topicRoll < 1.0 && 0.0 <= demoRoll < 1.0
    ensures var h := Post(Some(JObj(map["subject" := JStr("Chemistry"), "difficulty" := JNum(3.0)])),
                          None, upstream, topicRoll, demoRoll, parse, fromString);
      && h.Sent? && h.prompt.None?
      && h.reply.source == Demo && h.reply.reason == Some(NoKey)
      && h.reply.question.FromBank? && h.reply.question.mcq.subject == "Chemistry"
  {
  }

  // ---------------------------------------------------------------------------
  // demoFor as written

  /** The members every plain object inherits from Object.prototype. */
  const INHERITED: set<string> := {
    "constructor", "__proto__", "toString", "toLocaleString", "valueOf", "hasOwnProperty",
    "isPrototypeOf", "propertyIsEnumerable", "__defineGetter__", "__defineSetter__",
    "__lookupGetter__", "__lookupSetter__"}

  /**
   * `demoFor` as written: `DEMO[subj]` also finds a member inherited from Object.prototype,
   * which `??` keeps; indexing that function (or Object.prototype itself) with a number
   * yields undefined, here None. DemoFor above reads own keys only, as intended.
   */
  function DemoForAsWritten(subj: string, roll: real): (q: Option<Mcq>)
    requires 0.0 <= roll < 1.0
    ensures subj !in INHERITED ==> q == Some(DemoFor(JStr(subj), roll))
    ensures subj in INHERITED ==> q.None?
  {
    if subj in DEMO then Some(DEMO[subj][PickIndex(roll, |DEMO[subj]|)])
    else if subj in INHERITED then None
    else Some(ENGLISH[PickIndex(roll, |ENGLISH|)])
  }

  /** The subject "constructor" gets no question at all from demoFor as written. */
  lemma DemoForAsWrittenLosesQuestion(roll: real)
    requires 0.0 <= roll < 1.0
    ensures DemoForAsWritten("constructor", roll) == None
    ensures DemoFor(JStr("constructor"), roll) in ENGLISH
  {
  }
}
