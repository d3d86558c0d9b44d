/**
 * The quiz document of Model/Quiz.js: the option, question and quiz
 * sub-documents, the schema's validators, the `pre('validate')` hook that
 * requires every question of a quiz to have options of the same kind, and
 * the document method `incrementOptionCount` that records one answer.
 *
 * JavaScript truthiness of a string field is modelled by `Present`: an
 * undefined, null or empty string is represented by "" and is falsy.
 */
module QuizModel {

  /** A value that may be missing: JavaScript's `undefined` is `None`. */
  datatype Maybe<T> = None | Some(value: T)

  /** JavaScript truthiness of a string (undefined, null and "" are falsy). */
  predicate Present(s: string)
  {
    |s| > 0
  }

  /** The quiz timer: `null` (untimed) or a number of seconds. */
  datatype Timer = Untimed | Seconds(seconds: int)

  /** One answer option (optionSchema). */
  datatype OptionDoc = OptionDoc(
    entity1: string,
    entity2: string,
    optionCountEntity1: int,
    optionCountEntity2: int)

  /** One question (questionSchema); `correctOption` is `None` when unset. */
  datatype QuestionDoc = QuestionDoc(
    question: string,
    options: seq<OptionDoc>,
    correctOption: Maybe<int>,
    userAnswers: seq<int>)

  /** One quiz (quizSchema); the timestamps are not modelled. */
  datatype QuizDoc = QuizDoc(
    quizName: string,
    quizType: string,
    timer: Timer,
    questions: seq<QuestionDoc>,
    creatorEmail: string,
    quizAttempts: nat,
    linkOpenCount: nat)

  /** The two members of the quizType enum. */
  const QA: string := "Q&A"
  const Poll: string := "Poll"

  // ---------------------------------------------------------------------
  // Schema validators
  // ---------------------------------------------------------------------

  /** The `options` validator: 2 to 4 options. */
  predicate OptionCountInRange(options: seq<OptionDoc>)
  {
    2 <= |options| <= 4
  }

  /** The `questions` validator: 1 to 5 questions. */
  predicate QuestionCountInRange(questions: seq<QuestionDoc>)
  {
    1 <= |questions| <= 5
  }

  /** The `correctOption` validator, which runs only when the field is set. */
  predicate CorrectOptionValid(q: QuestionDoc)
  {
    q.correctOption.Some? ==> 0 <= q.correctOption.value < |q.options|
  }

  /** `entity1` is required on every option. */
  predicate OptionValid(o: OptionDoc)
  {
    Present(o.entity1)
  }

  predicate QuestionValid(q: QuestionDoc)
  {
    && Present(q.question)
    && OptionCountInRange(q.options)
    && CorrectOptionValid(q)
    && forall j :: 0 <= j < |q.options| ==> OptionValid(q.options[j])
  }

  predicate QuizTypeValid(t: string)
  {
    t == QA || t == Poll
  }

  /** The schema's timer enum `[0, 5, 10]`; `required` rejects null. */
  predicate SchemaTimerValid(t: Timer)
  {
    t == Seconds(0) || t == Seconds(5) || t == Seconds(10)
  }

  /** Every schema validator of the quiz document and its sub-documents. */
  predicate SchemaValid(q: QuizDoc)
  {
    && Present(q.quizName)
    && QuizTypeValid(q.quizType)
    && SchemaTimerValid(q.timer)
    && QuestionCountInRange(q.questions)
    && (forall i :: 0 <= i < |q.questions| ==> QuestionValid(q.questions[i]))
    && Present(q.creatorEmail)
  }

  // ---------------------------------------------------------------------
  // The pre('validate') hook
  // ---------------------------------------------------------------------

  /** The kinds the hook assigns to a question; `NoKind` is its `null`. */
  datatype OptionKind = TextAndImageUrl | Text | ImageUrl | NoKind

  predicate AllHaveBoth(os: seq<OptionDoc>)
  {
    forall j :: 0 <= j < |os| ==> Present(os[j].entity1) && Present(os[j].entity2)
  }

  predicate AllHaveEntity1(os: seq<OptionDoc>)
  {
    forall j :: 0 <= j < |os| ==> Present(os[j].entity1)
  }

  predicate AllHaveEntity2(os: seq<OptionDoc>)
  {
    forall j :: 0 <= j < |os| ==> Present(os[j].entity2)
  }

  /**
   * The hook's classification of one question: the first rule that matches.
   * The postconditions describe each kind without relying on the order of
   * the rules.
   */
  function Classify(q: QuestionDoc): (k: OptionKind)
    ensures k == TextAndImageUrl <==> AllHaveBoth(q.options)
    ensures k == Text <==>
      AllHaveEntity1(q.options) && exists j :: 0 <= j < |q.options| && !Present(q.options[j].entity2)
    ensures k == ImageUrl <==>
      AllHaveEntity2(q.options) && exists j :: 0 <= j < |q.options| && !Present(q.options[j].entity1)
    ensures k == NoKind <==>
      (exists j :: 0 <= j < |q.options| && !Present(q.options[j].entity1)) &&
      (exists j :: 0 <= j < |q.options| && !Present(q.options[j].entity2))
  {
    if AllHaveBoth(q.options) then TextAndImageUrl
    else if AllHaveEntity1(q.options) then Text
    else if AllHaveEntity2(q.options) then ImageUrl
    else NoKind
  }

  /** The hook accepts when every question has the first question's kind. */
  predicate Homogeneous(questions: seq<QuestionDoc>)
  {
    |questions| == 0 ||
    forall i :: 0 <= i < |questions| ==> Classify(questions[i]) == Classify(questions[0])
  }

  /** What `save()` accepts: the hook passes and every validator passes. */
  predicate Persistable(q: QuizDoc)
  {
    Homogeneous(q.questions) && SchemaValid(q)
  }

  // ---------------------------------------------------------------------
  // incrementOptionCount
  // ---------------------------------------------------------------------

  /** The two errors `incrementOptionCount` throws. */
  datatype TallyError = QuestionNotFound | OptionNotFound

  datatype TallyResult = Tallied(quiz: QuizDoc) | TallyFailed(error: TallyError)

  /**
   * Reference definition of the counter update: each counter goes up by one
   * exactly when its own entity is present.
   */
  function Counted(o: OptionDoc): OptionDoc
  {
    o.(optionCountEntity1 := o.optionCountEntity1 + (if Present(o.entity1) then 1 else 0),
       optionCountEntity2 := o.optionCountEntity2 + (if Present(o.entity2) then 1 else 0))
  }

  /** The question after one answer for `optionIndex` is recorded. */
  function Answered(q: QuestionDoc, optionIndex: int): QuestionDoc
    requires 0 <= optionIndex < |q.options|
  {
    q.(options := q.options[optionIndex := Counted(q.options[optionIndex])],
       userAnswers := q.userAnswers + [optionIndex])
  }

  /** The effect of `incrementOptionCount(questionIndex, optionIndex)`. */
  function Tally(q: QuizDoc, questionIndex: int, optionIndex: int): TallyResult
  {
    if !(0 <= questionIndex < |q.questions|) then TallyFailed(QuestionNotFound)
    else if !(0 <= optionIndex < |q.questions[questionIndex].options|) then TallyFailed(OptionNotFound)
    else Tallied(q.(questions := q.questions[questionIndex := Answered(q.questions[questionIndex], optionIndex)]))
  }

  /** `n` tallies of the same option, one after the other. */
  function TallyTimes(q: QuizDoc, questionIndex: int, optionIndex: int, n: nat): TallyResult
    decreases n
  {
    if n == 0 then Tallied(q)
    else match Tally(q, questionIndex, optionIndex)
      case TallyFailed(e) => TallyFailed(e)
      case Tallied(q') => TallyTimes(q', questionIndex, optionIndex, n - 1)
  }

  function Repeat(x: int, n: nat): (s: seq<int>)
    ensures |s| == n && forall k :: 0 <= k < n ==> s[k] == x
  {
    seq(n, _ => x)
  }

  /**
   * A loaded quiz document, updated in place by its methods; `save()` is the
   * caller writing `Value()` back to the collection.
   */
  class QuizDocument {
    var quizName: string
    var quizType: string
    var timer: Timer
    var questions: seq<QuestionDoc>
    var creatorEmail: string
    var quizAttempts: nat
    var linkOpenCount: nat

    /** The document's fields as a value. */
    function Value(): QuizDoc
      reads this
    {
      QuizDoc(quizName, quizType, timer, questions, creatorEmail, quizAttempts, linkOpenCount)
    }

    /** Loading a stored quiz (`Quiz.findById`). */
    constructor Load(q: QuizDoc)
      ensures Value() == q
    {
      quizName, quizType, timer := q.quizName, q.quizType, q.timer;
      questions, creatorEmail := q.questions, q.creatorEmail;
      quizAttempts, linkOpenCount := q.quizAttempts, q.linkOpenCount;
    }

    /**
     * `incrementOptionCount(questionIndex, optionIndex)`: bumps the counters
     * of the chosen option that belong to its present entities (first
     * matching branch) and appends the option index to the answer log.
     */
    method IncrementOptionCount(questionIndex: int, optionIndex: int) returns (err: Maybe<TallyError>)
      modifies this
      ensures err.None? ==> Tally(old(Value()), questionIndex, optionIndex) == Tallied(Value())
      ensures err.Some? ==> Tally(old(Value()), questionIndex, optionIndex) == TallyFailed(err.value)
      ensures err.Some? ==> Value() == old(Value())
    {
      if !(0 <= questionIndex < |questions|) {
        return Some(QuestionNotFound);
      }
      var question := questions[questionIndex];
      if !(0 <= optionIndex < |question.options|) {
        return Some(OptionNotFound);
      }
      var option := question.options[optionIndex];
      if Present(option.entity1) && Present(option.entity2) {
        option := option.(optionCountEntity1 := option.optionCountEntity1 + 1,
                          optionCountEntity2 := option.optionCountEntity2 + 1);
      } else if Present(option.entity1) {
        option := option.(optionCountEntity1 := option.optionCountEntity1 + 1);
      } else if Present(option.entity2) {
        option := option.(optionCountEntity2 := option.optionCountEntity2 + 1);
      }
      question := question.(options := question.options[optionIndex := option],
                            userAnswers := question.userAnswers + [optionIndex]);
      questions := questions[questionIndex := question];
      err := None;
    }
  }

  // ---------------------------------------------------------------------
  // Properties of the classifier and of the hook
  // ---------------------------------------------------------------------

  /** The hook compares every pair of questions, not only against the first. */
  lemma HomogeneousPairwise(questions: seq<QuestionDoc>)
    ensures Homogeneous(questions) <==>
      forall i, j :: 0 <= i < |questions| && 0 <= j < |questions| ==>
        Classify(questions[i]) == Classify(questions[j])
  {
  }

  /** The hook's verdict depends only on which questions occur. */
  lemma HomogeneousByMembers(questions: seq<QuestionDoc>)
    ensures Homogeneous(questions) <==>
      forall a, b :: a in questions && b in questions ==> Classify(a) == Classify(b)
  {
  }

  /** Reordering the questions does not change the hook's verdict. */
  lemma {:induction false} HomogeneousReorder(questions: seq<QuestionDoc>, reordered: seq<QuestionDoc>)
    requires multiset(questions) == multiset(reordered)
    ensures Homogeneous(questions) <==> Homogeneous(reordered)
  {
    forall x
      ensures x in questions <==> x in reordered
    {
      assert x in questions <==> x in multiset(questions);
      assert x in reordered <==> x in multiset(reordered);
    }
    HomogeneousByMembers(questions);
    HomogeneousByMembers(reordered);
  }

  /** Two questions of different kinds make the hook reject the quiz. */
  lemma MixedKindsRejected(questions: seq<QuestionDoc>, i: int, j: int)
    requires 0 <= i < |questions| && 0 <= j < |questions|
    requires Classify(questions[i]) != Classify(questions[j])
    ensures !Homogeneous(questions)
  {
  }

  /** An empty or one-question quiz always passes the hook. */
  lemma ShortQuizHomogeneous(questions: seq<QuestionDoc>)
    requires |questions| <= 1
    ensures Homogeneous(questions)
  {
  }

  /**
   * `entity1` is required, so a storable quiz only has questions of kind
   * `TextAndImageUrl` or `Text`: image-only options can never be saved.
   */
  lemma PersistedKinds(q: QuizDoc, i: int)
    requires Persistable(q)
    requires 0 <= i < |q.questions|
    ensures Classify(q.questions[i]) == TextAndImageUrl || Classify(q.questions[i]) == Text
  {
  }

  /** What every stored quiz satisfies, spelled out field by field. */
  lemma PersistedShape(q: QuizDoc)
    requires Persistable(q)
    ensures 1 <= |q.questions| <= 5
    ensures forall i :: 0 <= i < |q.questions| ==> 2 <= |q.questions[i].options| <= 4
    ensures forall i :: 0 <= i < |q.questions| && q.questions[i].correctOption.Some? ==>
      0 <= q.questions[i].correctOption.value < |q.questions[i].options|
    ensures q.quizType == QA || q.quizType == Poll
    ensures q.timer == Seconds(0) || q.timer == Seconds(5) || q.timer == Seconds(10)
  {
  }

  // ---------------------------------------------------------------------
  // Properties of the tally
  // ---------------------------------------------------------------------

  /** An unknown question or option fails, naming which one. */
  lemma TallyErrors(q: QuizDoc, questionIndex: int, optionIndex: int)
    ensures !(0 <= questionIndex < |q.questions|) ==>
      Tally(q, questionIndex, optionIndex) == TallyFailed(QuestionNotFound)
    ensures 0 <= questionIndex < |q.questions| && !(0 <= optionIndex < |q.questions[questionIndex].options|) ==>
      Tally(q, questionIndex, optionIndex) == TallyFailed(OptionNotFound)
    ensures Tally(q, questionIndex, optionIndex).Tallied? <==>
      0 <= questionIndex < |q.questions| && 0 <= optionIndex < |q.questions[questionIndex].options|
  {
  }

  /**
   * Counter rule: both entities present bumps both counters by one; only
   * `entity1` bumps only the first; only `entity2` bumps only the second.
   */
  lemma TallyCounters(q: QuizDoc, questionIndex: int, optionIndex: int)
    requires 0 <= questionIndex < |q.questions|
    requires 0 <= optionIndex < |q.questions[questionIndex].options|
    ensures var o := q.questions[questionIndex].options[optionIndex];
      var o' := Tally(q, questionIndex, optionIndex).quiz.questions[questionIndex].options[optionIndex];
      && o'.entity1 == o.entity1 && o'.entity2 == o.entity2
      && (Present(o.entity1) && Present(o.entity2) ==>
            o'.optionCountEntity1 == o.optionCountEntity1 + 1 && o'.optionCountEntity2 == o.optionCountEntity2 + 1)
      && (Present(o.entity1) && !Present(o.entity2) ==>
            o'.optionCountEntity1 == o.optionCountEntity1 + 1 && o'.optionCountEntity2 == o.optionCountEntity2)
      && (!Present(o.entity1) && Present(o.entity2) ==>
            o'.optionCountEntity1 == o.optionCountEntity1 && o'.optionCountEntity2 == o.optionCountEntity2 + 1)
      && (!Present(o.entity1) && !Present(o.entity2) ==> o' == o)
  {
  }

  /**
   * One tally appends exactly `optionIndex` to the question's answer log and
   * changes nothing else: not the other options, not the other questions,
   * not the quiz-level fields.
   */
  lemma TallyFrame(q: QuizDoc, questionIndex: int, optionIndex: int)
    requires 0 <= questionIndex < |q.questions|
    requires 0 <= optionIndex < |q.questions[questionIndex].options|
    ensures var r := Tally(q, questionIndex, optionIndex).quiz;
      var question := q.questions[questionIndex];
      var question' := r.questions[questionIndex];
      && r == q.(questions := r.questions)
      && |r.questions| == |q.questions|
      && (forall k :: 0 <= k < |q.questions| && k != questionIndex ==> r.questions[k] == q.questions[k])
      && question'.userAnswers == question.userAnswers + [optionIndex]
      && question'.question == question.question
      && question'.correctOption == question.correctOption
      && |question'.options| == |question.options|
      && (forall j :: 0 <= j < |question.options| && j != optionIndex ==> question'.options[j] == question.options[j])
  {
  }

  /**
   * `n` tallies of the same option grow its question's answer log by exactly
   * `n` copies of the option index (no deduplication), and raise each counter
   * whose entity is present by exactly `n`.
   */
  lemma {:induction false} TallyTimesEffect(q: QuizDoc, questionIndex: int, optionIndex: int, n: nat)
    requires 0 <= questionIndex < |q.questions|
    requires 0 <= optionIndex < |q.questions[questionIndex].options|
    ensures TallyTimes(q, questionIndex, optionIndex, n).Tallied?
    ensures var r := TallyTimes(q, questionIndex, optionIndex, n).quiz;
      var o := q.questions[questionIndex].options[optionIndex];
      && |r.questions| == |q.questions|
      && |r.questions[questionIndex].options| == |q.questions[questionIndex].options|
      && r.questions[questionIndex].userAnswers == q.questions[questionIndex].userAnswers + Repeat(optionIndex, n)
      && r.questions[questionIndex].options[optionIndex].entity1 == o.entity1
      && r.questions[questionIndex].options[optionIndex].entity2 == o.entity2
      && r.questions[questionIndex].options[optionIndex].optionCountEntity1 ==
           o.optionCountEntity1 + (if Present(o.entity1) then n else 0)
      && r.questions[questionIndex].options[optionIndex].optionCountEntity2 ==
           o.optionCountEntity2 + (if Present(o.entity2) then n else 0)
    decreases n
  {
    if n > 0 {
      var q' := Tally(q, questionIndex, optionIndex).quiz;
      TallyFrame(q, questionIndex, optionIndex);
      TallyTimesEffect(q', questionIndex, optionIndex, n - 1);
      var log := q.questions[questionIndex].userAnswers;
      assert Repeat(optionIndex, n) == [optionIndex] + Repeat(optionIndex, n - 1);
      assert log + [optionIndex] + Repeat(optionIndex, n - 1) == log + Repeat(optionIndex, n);
    }
  }

  /** Two questions whose options carry the same entities have the same kind. */
  lemma SameEntitiesSameKind(a: QuestionDoc, b: QuestionDoc)
    requires |a.options| == |b.options|
    requires forall j :: 0 <= j < |a.options| ==>
      a.options[j].entity1 == b.options[j].entity1 && a.options[j].entity2 == b.options[j].entity2
    ensures Classify(a) == Classify(b)
  {
  }

  /** A tally of a storable quiz is storable, so its `save()` always succeeds. */
  lemma TallyPreservesPersistable(q: QuizDoc, questionIndex: int, optionIndex: int)
    requires Persistable(q)
    requires Tally(q, questionIndex, optionIndex).Tallied?
    ensures Persistable(Tally(q, questionIndex, optionIndex).quiz)
  {
    var question := q.questions[questionIndex];
    var question' := Answered(question, optionIndex);
    var r := Tally(q, questionIndex, optionIndex).quiz;
    SameEntitiesSameKind(question, question');
    assert r.questions == q.questions[questionIndex := question'];
    assert QuestionValid(question);
    assert QuestionValid(question');
    forall i | 0 <= i < |r.questions|
      ensures Classify(r.questions[i]) == Classify(r.questions[0])
      ensures QuestionValid(r.questions[i])
    {
      assert Classify(q.questions[i]) == Classify(q.questions[0]);
    }
  }
}
