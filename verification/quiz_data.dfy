/**
 * The static quiz content and the history record written when a quiz is
 * completed. Quizzes are immutable values; the catalogue is a sequence of them.
 */
module QuizData {
  import opened Wrappers

  datatype Level = Easy | Medium | Hard

  /** A question; `correct` is the zero-based index of the right alternative. */
  datatype Question = Question(title: string, alternatives: seq<string>, correct: nat)

  datatype Quiz = Quiz(id: string, title: string, level: Level, questions: seq<Question>)

  /** What `historyAdd` stores for a finished attempt (the time-derived id is left out). */
  datatype HistoryRecord = HistoryRecord(title: string, level: Level, points: nat, questions: nat)

  /** The screen indexes `quiz.questions[currentQuestion]` on its first render, so a quiz needs a question. */
  predicate WellFormed(quiz: Quiz)
  {
    |quiz.questions| > 0
  }

  /** The record appended on completion with the given score. */
  function Record(quiz: Quiz, points: nat): HistoryRecord
  {
    HistoryRecord(quiz.title, quiz.level, points, |quiz.questions|)
  }

  /** Index of the first quiz with the given id, or |catalog| when there is none. */
  function FirstMatch(catalog: seq<Quiz>, id: string): (k: nat)
    ensures k <= |catalog|
    ensures forall j :: 0 <= j < k ==> catalog[j].id != id
    ensures k < |catalog| ==> catalog[k].id == id
  {
    if catalog == [] then 0
    else if catalog[0].id == id then 0
    else 1 + FirstMatch(catalog[1..], id)
  }

  /** The load lookup `QUIZ.filter(item => item.id === id)[0]`. */
  function Lookup(catalog: seq<Quiz>, id: string): (r: Option<Quiz>)
    ensures r.None? <==> forall j :: 0 <= j < |catalog| ==> catalog[j].id != id
    ensures r.Some? ==> r.value.id == id && r.value in catalog
    ensures r.Some? ==> r.value == catalog[FirstMatch(catalog, id)]
  {
    var k := FirstMatch(catalog, id);
    if k < |catalog| then Some(catalog[k]) else None
  }
}
