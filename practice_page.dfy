/**
 * The practice page: the topic selector, the request it sends, the placeholder shown when
 * that request fails, answer checking, the adaptive difficulty step, the filter on saved
 * subjects, and the state the page keeps between questions.
 */
module Practice {
  import opened Wrappers
  import opened Js
  import opened Quiz
  import GenerateRoute

  /** The subjects the page offers, with their topics. */
  const TOPICS: map<string, seq<string>> := map[
    "English" := ["Language analysis", "Argument analysis", "Comparative"],
    "Mathematical Methods" := ["Functions", "Calculus", "Probability", "Algebra"],
    "Specialist Mathematics" := ["Complex numbers", "Vectors", "Matrices", "Mechanics"],
    "Chemistry" := ["Stoichiometry", "Acids and bases", "Redox", "Organic"],
    "Physics" := ["Kinematics", "Dynamics", "Electricity", "Waves"],
    "Biology" := ["Cells", "Genetics", "Evolution", "Homeostasis"],
    "Economics" := ["Microeconomics", "Macroeconomics", "Policy", "Markets"],
    "Psychology" := ["Research methods", "Learning", "Memory", "Neuropsychology"]]

  /** `Object.keys(TOPICS)`, in declaration order. */
  const DEFAULT_SUBJECTS: seq<string> := [
    "English", "Mathematical Methods", "Specialist Mathematics", "Chemistry",
    "Physics", "Biology", "Economics", "Psychology"]

  const ANY_TOPIC: string := "Any topic"

  /** The default subject list names each key of the topic table once. */
  lemma DefaultSubjectsAreTopicKeys()
    ensures forall k :: k in DEFAULT_SUBJECTS <==> k in TOPICS
    ensures forall i, j | 0 <= i < j < |DEFAULT_SUBJECTS| :: DEFAULT_SUBJECTS[i] != DEFAULT_SUBJECTS[j]
  {
  }

  /** Every subject the route knows, the page knows with the same topics. */
  lemma TopicsAgreeWithRoute()
    ensures forall k | k in GenerateRoute.TOPICS :: k in TOPICS && TOPICS[k] == GenerateRoute.TOPICS[k]
  {
  }

  // ---------------------------------------------------------------------------
  // The topic selector and the request

  /** `["Any topic", ...(TOPICS[subject] ?? ["Core"])]`. */
  function TopicOptions(subject: string): (opts: seq<string>)
    ensures |opts| >= 2 && opts[0] == ANY_TOPIC
    ensures subject in TOPICS ==> opts[1..] == TOPICS[subject]
    ensures subject !in TOPICS ==> opts[1..] == ["Core"]
  {
    [ANY_TOPIC] + (if subject in TOPICS then TOPICS[subject] else ["Core"])
  }

  /** `top === "Any topic" ? undefined : top`. */
  function RequestTopic(top: string): (t: Option<string>)
    ensures t.None? <==> top == ANY_TOPIC
    ensures t.Some? ==> t.value == top
  {
    if top == ANY_TOPIC then None else Some(top)
  }

  /** The first option asks for no topic; every other option is sent as itself. */
  lemma TopicOptionsRequest(subject: string)
    ensures RequestTopic(TopicOptions(subject)[0]).None?
    ensures forall i | 1 <= i < |TopicOptions(subject)| ::
      RequestTopic(TopicOptions(subject)[i]) == Some(TopicOptions(subject)[i])
  {
    var opts := TopicOptions(subject);
    forall i | 1 <= i < |opts| ensures opts[i] != ANY_TOPIC {
      assert opts[i] in opts[1..];
    }
  }

  /** The body of the POST to /api/generate. */
  datatype Request = Request(subject: string, topic: Option<string>, difficulty: int)

  function RequestFor(subj: string, top: string, diff: int): (r: Request)
    ensures r.subject == subj && r.difficulty == diff
    ensures r.topic.None? <==> top == ANY_TOPIC
    ensures r.topic.Some? ==> r.topic.value == top
  {
    Request(subj, RequestTopic(top), diff)
  }

  /**
   * The question shown when the route answers with a non-ok status: four "Retry" options,
   * answer 0, and the subject, topic and difficulty that were asked for. `error` is the
   * reply's `error` field when it is a string; a missing or empty one gives the status.
   */
  function Placeholder(subj: string, top: string, diff: int, error: Option<string>, status: nat): (q: Mcq)
    ensures q.options == ["Retry", "Retry", "Retry", "Retry"] && q.correctIndex == 0
    ensures q.subject == subj && q.topic == RequestTopic(top) && q.difficulty == diff
    ensures 1 <= diff <= 5 ==> WellFormed(q)
  {
    var msg := if error.Some? && error.value != "" then error.value else "Generator error (" + Decimal(status) + ")";
    Mcq(subj, RequestTopic(top), diff,
        "Generation failed: " + msg + ". Check OPENAI_API_KEY and REQUIRE_AI env vars in Vercel.",
        ["Retry", "Retry", "Retry", "Retry"], 0,
        "This is a placeholder only due to upstream error.")
  }

  // ---------------------------------------------------------------------------
  // Answers and the adaptive difficulty

  /** `sel !== null && q ? sel === q.correctIndex : false`. */
  predicate Correct(sel: Option<int>, q: Option<Mcq>) {
    sel.Some? && q.Some? && sel.value == q.value.correctIndex
  }

  /** On a well-formed question only the one index among the four options is correct. */
  lemma CorrectOnlyAtAnswer(sel: Option<int>, q: Mcq)
    requires WellFormed(q)
    ensures Correct(sel, Some(q)) ==> 0 <= sel.value < 4
    ensures !Correct(None, Some(q))
    ensures forall i | 0 <= i < 4 :: Correct(Some(i), Some(q)) <==> i == q.correctIndex
  {
  }

  /** The UTF-16 code unit `String.fromCharCode(65 + i)` yields. */
  function AnswerLetter(i: int): (c: nat)
    ensures c < 0x1_0000
    ensures 0 <= i < 4 ==> c == "ABCD"[i] as int
  {
    (65 + i) % 0x1_0000
  }

  /** The four options get four different letters. */
  lemma AnswerLettersDistinct(i: int, j: int)
    requires 0 <= i < 4 && 0 <= j < 4 && i != j
    ensures AnswerLetter(i) != AnswerLetter(j)
  {
  }

  /** `Math.max(1, Math.min(5, difficulty + (adaptFromCorrect ? 1 : -1)))`. */
  function NewDifficulty(d: int, adaptFromCorrect: bool): (n: int)
    ensures 1 <= n <= 5
    ensures 1 <= d <= 5 && adaptFromCorrect ==> n == d + 1 || n == d == 5
    ensures 1 <= d <= 5 && !adaptFromCorrect ==> n == d - 1 || n == d == 1
  {
    var stepped := d + (if adaptFromCorrect then 1 else -1);
    if stepped > 5 then 5 else if stepped < 1 then 1 else stepped
  }

  /** The difficulty after answering a run of questions, right or wrong in turn. */
  function DifficultyAfter(d: int, answers: seq<bool>): (n: int)
    requires 1 <= d <= 5
    ensures 1 <= n <= 5
    ensures d - |answers| <= n <= d + |answers|
    decreases |answers|
  {
    if answers == [] then d else DifficultyAfter(NewDifficulty(d, answers[0]), answers[1..])
  }

  function Repeat(b: bool, k: nat): (s: seq<bool>)
    ensures |s| == k && forall i | 0 <= i < k :: s[i] == b
  {
    if k == 0 then [] else [b] + Repeat(b, k - 1)
  }

  /** k right answers in a row raise the difficulty by k, up to 5; k wrong ones lower it, down to 1. */
  lemma {:induction false} RunsSaturate(d: int, k: nat)
    requires 1 <= d <= 5
    ensures DifficultyAfter(d, Repeat(true, k)) == if d + k > 5 then 5 else d + k
    ensures DifficultyAfter(d, Repeat(false, k)) == if d - k < 1 then 1 else d - k
    decreases k
  {
    if k > 0 {
      assert Repeat(true, k)[1..] == Repeat(true, k - 1);
      assert Repeat(false, k)[1..] == Repeat(false, k - 1);
      RunsSaturate(NewDifficulty(d, true), k - 1);
      RunsSaturate(NewDifficulty(d, false), k - 1);
    }
  }

  // ---------------------------------------------------------------------------
  // Saved subjects

  /** `prof.subjects.filter((s) => TOPICS[s])`: the saved subjects the page knows, in saved order. */
  function SavedSubjects(saved: seq<string>): (known: seq<string>)
    ensures |known| <= |saved|
    ensures forall s :: s in known <==> s in saved && s in TOPICS
  {
    if saved == [] then []
    else (if saved[0] in TOPICS then [saved[0]] else []) + SavedSubjects(saved[1..])
  }

  /** Filtering distributes over concatenation, so the saved order is kept. */
  lemma {:induction false} SavedSubjectsAppend(a: seq<string>, b: seq<string>)
    ensures SavedSubjects(a + b) == SavedSubjects(a) + SavedSubjects(b)
  {
    if a != [] {
      assert (a + b)[0] == a[0];
      assert (a + b)[1..] == a[1..] + b;
      SavedSubjectsAppend(a[1..], b);
      var head := if a[0] in TOPICS then [a[0]] else [];
      calc {
        SavedSubjects(a + b);
        head + SavedSubjects(a[1..] + b);
        head + (SavedSubjects(a[1..]) + SavedSubjects(b));
        (head + SavedSubjects(a[1..])) + SavedSubjects(b);
        SavedSubjects(a) + SavedSubjects(b);
      }
    } else {
      assert a + b == b;
    }
  }

  /** `|| DEFAULT_SUBJECTS` never applies: a saved list of unknown subjects leaves the selector empty. */
  lemma SavedSubjectsMayBeEmpty()
    ensures SavedSubjects(["Latin"]) == []
  {
  }

  // ---------------------------------------------------------------------------
  // The page's state

  /** `status`: "", "ai" or "demo". */
  datatype Status = Blank | AiStatus | DemoStatus

  /** What the page's request to /api/generate came back with. */
  datatype LoadResponse =
    | NotOk(httpStatus: nat, error: Option<string>)
    | Ok(source: Option<GenerateRoute.Source>, question: Mcq)

  /** The body `recordAttempt` posts, without the elapsed time. */
  datatype Attempt = Attempt(subject: string, topic: Option<string>, difficulty: int, selectedIndex: int, correctIndex: int)

  class PracticePage {
    var subjects: seq<string>
    var subject: string
    var topic: string
    var difficulty: int
    var q: Option<Mcq>
    var sel: Option<int>
    var revealed: bool
    var loading: bool
    var status: Status

    /** The difficulty stays in [1, 5], the topic is one the selector offers, and an answer is revealed only once one is selected. */
    ghost predicate Valid()
      reads this
    {
      && 1 <= difficulty <= 5
      && topic in TopicOptions(subject)
      && (revealed ==> sel.Some?)
    }

    constructor ()
      ensures Valid()
      ensures subjects == DEFAULT_SUBJECTS && subject == DEFAULT_SUBJECTS[0] && topic == ANY_TOPIC && difficulty == 2
      ensures q.None? && sel.None? && !revealed && loading && status == Blank
    {
      subjects := DEFAULT_SUBJECTS;
      subject := DEFAULT_SUBJECTS[0];
      topic := ANY_TOPIC;
      difficulty := 2;
      q := None;
      sel := None;
      revealed := false;
      loading := true;
      status := Blank;
    }

    /** `loadQ` up to its fetch: the state reset and the request it sends. */
    method BeginLoad(subj: string, top: string, diff: int) returns (req: Request)
      requires Valid()
      modifies this`loading, this`revealed, this`sel, this`status
      ensures Valid()
      ensures loading && !revealed && sel.None? && status == Blank
      ensures req == RequestFor(subj, top, diff)
    {
      loading := true;
      revealed := false;
      sel := None;
      status := Blank;
      req := RequestFor(subj, top, diff);
    }

    /** `loadQ` after its fetch, for the arguments it was called with. */
    method FinishLoad(subj: string, top: string, diff: int, resp: LoadResponse)
      requires Valid()
      modifies this`q, this`status, this`loading
      ensures Valid() && !loading
      ensures resp.NotOk? ==> q == Some(Placeholder(subj, top, diff, resp.error, resp.httpStatus)) && status == Blank
      ensures resp.Ok? ==> q == Some(resp.question)
      ensures resp.Ok? ==> status == (if resp.source == Some(GenerateRoute.Demo) then DemoStatus else AiStatus)
    {
      match resp {
        case NotOk(httpStatus, error) =>
          q := Some(Placeholder(subj, top, diff, error, httpStatus));
          status := Blank;
        case Ok(source, question) =>
          status := if source == Some(GenerateRoute.Demo) then DemoStatus else AiStatus;
          q := Some(question);
      }
      loading := false;
    }

    /**
     * The mount effect: install the saved subjects (when there are any) and request the first
     * question, for the subject, topic and difficulty the page held before they were installed.
     */
    method Mount(saved: Option<seq<string>>) returns (req: Request)
      requires Valid() && q.None? && topic == ANY_TOPIC
      modifies this`subjects, this`subject, this`loading, this`revealed, this`sel, this`status
      ensures Valid()
      ensures saved.Some? && saved.value != [] ==> subjects == SavedSubjects(saved.value) && subject == saved.value[0]
      ensures !(saved.Some? && saved.value != []) ==> subjects == old(subjects) && subject == old(subject)
      ensures req == RequestFor(old(subject), old(topic), old(difficulty))
      ensures loading && !revealed && sel.None? && status == Blank
    {
      var subj, top, diff := subject, topic, difficulty;
      if saved.Some? && saved.value != [] {
        subjects := SavedSubjects(saved.value);
        subject := saved.value[0];
      }
      req := BeginLoad(subj, top, diff);
    }

    /** A new subject resets the topic to "Any topic" and loads a question. */
    method ChangeSubject(s: string) returns (req: Request)
      requires Valid() && s in subjects
      modifies this`subject, this`topic, this`loading, this`revealed, this`sel, this`status
      ensures Valid()
      ensures subject == s && topic == ANY_TOPIC
      ensures req == RequestFor(s, ANY_TOPIC, difficulty) && req.topic.None?
      ensures loading && !revealed && sel.None? && status == Blank
    {
      subject := s;
      topic := ANY_TOPIC;
      req := BeginLoad(s, ANY_TOPIC, difficulty);
    }

    method ChangeTopic(t: string) returns (req: Request)
      requires Valid() && t in TopicOptions(subject)
      modifies this`topic, this`loading, this`revealed, this`sel, this`status
      ensures Valid()
      ensures topic == t && req == RequestFor(subject, t, difficulty)
      ensures loading && !revealed && sel.None? && status == Blank
    {
      topic := t;
      req := BeginLoad(subject, t, difficulty);
    }

    /** The difficulty selector offers 1 to 5. */
    method ChangeDifficulty(d: int) returns (req: Request)
      requires Valid() && 1 <= d <= 5
      modifies this`difficulty, this`loading, this`revealed, this`sel, this`status
      ensures Valid()
      ensures difficulty == d && req == RequestFor(subject, topic, d)
      ensures loading && !revealed && sel.None? && status == Blank
    {
      difficulty := d;
      req := BeginLoad(subject, topic, d);
    }

    /** Clicking option `i` of the shown question. */
    method Select(i: int)
      requires Valid() && q.Some? && 0 <= i < |q.value.options|
      modifies this`sel
      ensures Valid() && sel == Some(i)
    {
      sel := Some(i);
    }

    /** "Check": enabled only once an option is selected. */
    method Check()
      requires Valid() && sel.Some?
      modifies this`revealed
      ensures Valid() && revealed
    {
      revealed := true;
    }

    /** What `recordAttempt` would post: nothing without a question and a selection. */
    function AttemptRecord(): (a: Option<Attempt>)
      reads this
      ensures a.Some? <==> q.Some? && sel.Some?
      ensures a.Some? ==> (a.value.selectedIndex == a.value.correctIndex <==> Correct(sel, q))
      ensures a.Some? ==> a.value.difficulty == difficulty && a.value.subject == q.value.subject
    {
      if q.None? || sel.None? then None
      else Some(Attempt(q.value.subject, q.value.topic, difficulty, sel.value, q.value.correctIndex))
    }

    /** `nextQuestion`: one adaptive step, then a load at the new difficulty. */
    method NextQuestion(adaptFromCorrect: bool) returns (req: Request)
      requires Valid()
      modifies this`difficulty, this`loading, this`revealed, this`sel, this`status
      ensures Valid()
      ensures difficulty == NewDifficulty(old(difficulty), adaptFromCorrect)
      ensures req == RequestFor(subject, topic, difficulty)
      ensures loading && !revealed && sel.None? && status == Blank
    {
      difficulty := NewDifficulty(difficulty, adaptFromCorrect);
      req := BeginLoad(subject, topic, difficulty);
    }

    /** "Next question": record the attempt, then step the difficulty by whether the answer was right. */
    method NextClicked() returns (attempt: Option<Attempt>, req: Request)
      requires Valid() && q.Some? && revealed
      modifies this`difficulty, this`loading, this`revealed, this`sel, this`status
      ensures Valid()
      ensures attempt.Some? && attempt == old(AttemptRecord())
      ensures difficulty == NewDifficulty(old(difficulty), Correct(old(sel), old(q)))
      ensures req == RequestFor(subject, topic, difficulty)
      ensures loading && !revealed && sel.None? && status == Blank
    {
      attempt := AttemptRecord();
      req := NextQuestion(Correct(sel, q));
    }

    /** "Regenerate": the same request again. */
    method Regenerate() returns (req: Request)
      requires Valid()
      modifies this`loading, this`revealed, this`sel, this`status
      ensures Valid()
      ensures req == RequestFor(subject, topic, difficulty)
      ensures loading && !revealed && sel.None? && status == Blank
    {
      req := BeginLoad(subject, topic, difficulty);
    }
  }

  /** A saved list whose first entry is unknown leaves the page on a subject its selector does not list. */
  lemma MountMayLeaveSubjectUnlisted()
    ensures var saved := ["Latin", "English"];
      SavedSubjects(saved) == ["English"] && saved[0] !in SavedSubjects(saved)
  {
  }
}
