/** The multiple-choice question record that the route serves and the practice page shows. */
module Quiz {
  import opened Wrappers

  datatype Mcq = Mcq(
    subject: string,
    topic: Option<string>,
    difficulty: int,
    question: string,
    options: seq<string>,
    correctIndex: int,
    explanation: string)

  /** Four options, an answer index among them and a difficulty in [1, 5]. */
  predicate WellFormed(q: Mcq) {
    |q.options| == 4 && 0 <= q.correctIndex < 4 && 1 <= q.difficulty <= 5
  }
}
