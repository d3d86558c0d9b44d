/**
 * The quiz handlers of Controllers/quizController.js over an in-memory quiz
 * collection: the request payloads, the guard chains of `createQuiz` and
 * `updateQuiz` as functions of the request and the stored quizzes, and
 * class `QuizService`, whose methods are the handlers and whose field
 * `quizzes` is the collection, keyed by quiz id.
 */
module QuizController {
  import opened QuizModel

  // ---------------------------------------------------------------------
  // Request payloads
  // ---------------------------------------------------------------------

  /** An option as a client sends it; counters it omits take the schema default. */
  datatype OptionInput = OptionInput(
    entity1: string,
    entity2: string,
    optionType: string,
    optionCountEntity1: Maybe<int>,
    optionCountEntity2: Maybe<int>)

  /** A question as a client sends it; an array field may be absent but is truthy even when empty. */
  datatype QuestionInput = QuestionInput(
    question: string,
    options: Maybe<seq<OptionInput>>,
    correctOption: Maybe<int>,
    userAnswers: Maybe<seq<int>>)

  /** The body of `POST /quiz/create`; `timer` is `None` when undefined and `Some(Untimed)` when null. */
  datatype CreateRequest = CreateRequest(
    quizName: string,
    quizType: string,
    questions: Maybe<seq<QuestionInput>>,
    timer: Maybe<Timer>,
    creatorEmail: string)

  /** The body of `PUT /quiz/update/:quizId`. */
  datatype UpdateRequest = UpdateRequest(
    quizType: string,
    questions: Maybe<seq<QuestionInput>>,
    timer: Maybe<Timer>)

  /** Why a handler refused; the HTTP status and message text are not modelled. */
  datatype Reason =
    | MissingFields       // createQuiz: name, type or questions missing, no questions, or timer undefined
    | TooManyQuestions    // createQuiz: more than 5 questions
    | InvalidQuizType     // createQuiz: type is neither Q&A nor Poll
    | InvalidTimer        // createQuiz and updateQuiz: timer outside their allowed sets
    | InvalidOptionCount  // createQuiz and updateQuiz: a question without 2 to 4 options
    | DuplicateName       // createQuiz: a stored quiz already has that name
    | ValidationFailed    // save() refused by the schema or the pre('validate') hook
    | BadRequest          // an empty quiz id
    | MalformedPayload    // updateQuiz: the payload has no questions array
    | AnswerNotRecorded(error: TallyError)  // incrementOptionCount threw

  datatype Outcome = Ok | Rejected(reason: Reason) | NotFound

  // ---------------------------------------------------------------------
  // From a payload to a document (Mongoose casting)
  // ---------------------------------------------------------------------

  function CountOrZero(c: Maybe<int>): int
  {
    match c
    case None => 0
    case Some(n) => n
  }

  /** An option sub-document; `optionType` is not a schema field and is not kept. */
  function CastOption(o: OptionInput): (r: OptionDoc)
    ensures r.entity1 == o.entity1 && r.entity2 == o.entity2
    ensures r.optionCountEntity1 == if o.optionCountEntity1.Some? then o.optionCountEntity1.value else 0
    ensures r.optionCountEntity2 == if o.optionCountEntity2.Some? then o.optionCountEntity2.value else 0
  {
    OptionDoc(o.entity1, o.entity2, CountOrZero(o.optionCountEntity1), CountOrZero(o.optionCountEntity2))
  }

  function CastOptions(os: seq<OptionInput>): (r: seq<OptionDoc>)
    ensures |r| == |os|
    ensures forall j :: 0 <= j < |os| ==> r[j] == CastOption(os[j])
  {
    seq(|os|, j requires 0 <= j < |os| => CastOption(os[j]))
  }

  /** A question sub-document; a missing array takes the schema default `[]`. */
  function CastQuestion(q: QuestionInput): QuestionDoc
  {
    QuestionDoc(
      q.question,
      match q.options case None => [] case Some(os) => CastOptions(os),
      q.correctOption,
      match q.userAnswers case None => [] case Some(a) => a)
  }

  function CastQuestions(qs: seq<QuestionInput>): (r: seq<QuestionDoc>)
    ensures |r| == |qs|
    ensures forall i :: 0 <= i < |qs| ==> r[i] == CastQuestion(qs[i])
  {
    seq(|qs|, i requires 0 <= i < |qs| => CastQuestion(qs[i]))
  }

  /** `new Quiz({ quizName, quizType, questions, timer, creatorEmail })`. */
  function NewQuiz(quizName: string, quizType: string, questions: seq<QuestionInput>, timer: Timer,
                   creatorEmail: string): (q: QuizDoc)
    ensures q.quizAttempts == 0 && q.linkOpenCount == 0
    ensures q.quizName == quizName && q.quizType == quizType && q.timer == timer
    ensures q.creatorEmail == creatorEmail && |q.questions| == |questions|
  {
    QuizDoc(quizName, quizType, timer, CastQuestions(questions), creatorEmail, 0, 0)
  }

  // ---------------------------------------------------------------------
  // createQuiz
  // ---------------------------------------------------------------------

  /** Guard 1: name, type and questions given, questions non-empty, timer not undefined. */
  predicate RequiredFieldsPresent(req: CreateRequest)
  {
    && Present(req.quizName)
    && Present(req.quizType)
    && req.questions.Some?
    && |req.questions.value| != 0
    && req.timer.Some?
  }

  /** Guard 4 of createQuiz: `[null, 0, 5, 10].includes(timer)`. */
  predicate CreateTimerAllowed(t: Timer)
  {
    t == Untimed || t == Seconds(0) || t == Seconds(5) || t == Seconds(10)
  }

  /** Guard 5, for one question: options given and 2 to 4 of them. */
  predicate OptionCountOk(q: QuestionInput)
  {
    q.options.Some? && 2 <= |q.options.value| <= 4
  }

  predicate AllOptionCountsOk(qs: seq<QuestionInput>)
  {
    forall i :: 0 <= i < |qs| ==> OptionCountOk(qs[i])
  }

  /** `Quiz.findOne({ quizName })` finds a quiz. */
  predicate NameTaken(quizzes: map<string, QuizDoc>, name: string)
  {
    exists id | id in quizzes :: quizzes[id].quizName == name
  }

  const DefaultOptionType: string := "default"

  /** `{ ...option, optionType: option.optionType || 'default' }`. */
  function NormaliseOption(o: OptionInput): OptionInput
  {
    o.(optionType := if Present(o.optionType) then o.optionType else DefaultOptionType)
  }

  function NormaliseQuestion(q: QuestionInput): QuestionInput
  {
    match q.options
    case None => q
    case Some(os) => q.(options := Some(seq(|os|, j requires 0 <= j < |os| => NormaliseOption(os[j]))))
  }

  function NormalisedQuestions(qs: seq<QuestionInput>): seq<QuestionInput>
  {
    seq(|qs|, i requires 0 <= i < |qs| => NormaliseQuestion(qs[i]))
  }

  /**
   * The loop of createQuiz: stops at the first question without 2 to 4
   * options, and fills in each option's default `optionType` on the way.
   */
  method NormaliseQuestions(questions: seq<QuestionInput>) returns (ok: bool, normalised: seq<QuestionInput>)
    ensures ok <==> AllOptionCountsOk(questions)
    ensures ok ==> normalised == NormalisedQuestions(questions)
  {
    normalised := [];
    var i := 0;
    while i < |questions|
      invariant 0 <= i <= |questions|
      invariant forall k :: 0 <= k < i ==> OptionCountOk(questions[k])
      invariant normalised == NormalisedQuestions(questions[..i])
    {
      var question := questions[i];
      if !OptionCountOk(question) {
        return false, normalised;
      }
      normalised := normalised + [NormaliseQuestion(question)];
      i := i + 1;
      assert questions[..i] == questions[..i - 1] + [question];
    }
    assert questions[..i] == questions;
    ok := true;
  }

  /** The document createQuiz saves. */
  function Created(req: CreateRequest): QuizDoc
    requires req.questions.Some? && req.timer.Some?
  {
    NewQuiz(req.quizName, req.quizType, NormalisedQuestions(req.questions.value), req.timer.value, req.creatorEmail)
  }

  /** createQuiz's verdict: the first failing check, in the code's order. */
  function CreateOutcome(req: CreateRequest, quizzes: map<string, QuizDoc>): Outcome
  {
    if !RequiredFieldsPresent(req) then Rejected(MissingFields)
    else if |req.questions.value| > 5 then Rejected(TooManyQuestions)
    else if !QuizTypeValid(req.quizType) then Rejected(InvalidQuizType)
    else if !CreateTimerAllowed(req.timer.value) then Rejected(InvalidTimer)
    else if !AllOptionCountsOk(req.questions.value) then Rejected(InvalidOptionCount)
    else if NameTaken(quizzes, req.quizName) then Rejected(DuplicateName)
    else if !Persistable(Created(req)) then Rejected(ValidationFailed)
    else Ok
  }

  // ---------------------------------------------------------------------
  // updateQuiz
  // ---------------------------------------------------------------------

  /** updateQuiz's timer check: exactly 0, 5 or 10 (null and undefined are refused). */
  predicate UpdateTimerAllowed(t: Maybe<Timer>)
  {
    t == Some(Seconds(0)) || t == Some(Seconds(5)) || t == Some(Seconds(10))
  }

  /** The question used when the existing quiz has none at that index (`{}`). */
  const EmptyQuestion: QuestionDoc := QuestionDoc("", [], None, [])

  /** `{ ...existing, question: patch.question || existing.question, options: patch.options || existing.options }`. */
  function MergeQuestion(existing: QuestionDoc, patch: QuestionInput): QuestionDoc
  {
    existing.(question := if Present(patch.question) then patch.question else existing.question,
              options := match patch.options case Some(os) => CastOptions(os) case None => existing.options)
  }

  /** `updatedData.questions.map(...)`: one merged question per payload question. */
  function MergeQuestions(existing: seq<QuestionDoc>, payload: seq<QuestionInput>): seq<QuestionDoc>
  {
    seq(|payload|, i requires 0 <= i < |payload| =>
      MergeQuestion(if i < |existing| then existing[i] else EmptyQuestion, payload[i]))
  }

  /** The `forEach` that copies each supplied `correctOption`. */
  function WithCorrectOptions(questions: seq<QuestionDoc>, payload: seq<QuestionInput>): seq<QuestionDoc>
  {
    seq(|questions|, i requires 0 <= i < |questions| =>
      if i < |payload| && payload[i].correctOption.Some?
      then questions[i].(correctOption := payload[i].correctOption)
      else questions[i])
  }

  /** The type merge: a payload type replaces the stored one only when truthy. */
  function MergedType(existing: string, payload: string): string
  {
    if Present(payload) then payload else existing
  }

  /** The document updateQuiz saves. */
  function Updated(existing: QuizDoc, req: UpdateRequest): QuizDoc
    requires req.questions.Some? && req.timer.Some?
  {
    var merged := MergeQuestions(existing.questions, req.questions.value);
    var quizType := MergedType(existing.quizType, req.quizType);
    existing.(questions := if quizType == QA then WithCorrectOptions(merged, req.questions.value) else merged,
              quizType := quizType,
              timer := req.timer.value)
  }

  predicate AllOptionCountsInRange(questions: seq<QuestionDoc>)
  {
    forall i :: 0 <= i < |questions| ==> OptionCountInRange(questions[i].options)
  }

  /** updateQuiz's verdict, in the code's order. */
  function UpdateOutcome(quizId: string, req: UpdateRequest, quizzes: map<string, QuizDoc>): Outcome
  {
    if !Present(quizId) then Rejected(BadRequest)
    else if quizId !in quizzes then NotFound
    else if req.questions.None? then Rejected(MalformedPayload)
    else if !UpdateTimerAllowed(req.timer) then Rejected(InvalidTimer)
    else if !AllOptionCountsInRange(Updated(quizzes[quizId], req).questions) then Rejected(InvalidOptionCount)
    else if !Persistable(Updated(quizzes[quizId], req)) then Rejected(ValidationFailed)
    else Ok
  }

  /** updateQuiz's loop over the merged questions, stopping at the first bad option count. */
  method CheckOptionCounts(questions: seq<QuestionDoc>) returns (ok: bool)
    ensures ok <==> AllOptionCountsInRange(questions)
  {
    var i := 0;
    while i < |questions|
      invariant 0 <= i <= |questions|
      invariant forall k :: 0 <= k < i ==> OptionCountInRange(questions[k].options)
    {
      if !OptionCountInRange(questions[i].options) {
        return false;
      }
      i := i + 1;
    }
    return true;
  }

  /** The `forEach` of updateQuiz, setting `correctOption` on each merged question in place. */
  method SetCorrectOptions(doc: QuizDocument, payload: seq<QuestionInput>)
    modifies doc
    ensures doc.Value() == old(doc.Value()).(questions := WithCorrectOptions(old(doc.questions), payload))
  {
    var i := 0;
    while i < |doc.questions|
      invariant 0 <= i <= |doc.questions|
      invariant |doc.questions| == |old(doc.questions)|
      invariant forall k :: 0 <= k < i ==> doc.questions[k] == WithCorrectOptions(old(doc.questions), payload)[k]
      invariant forall k :: i <= k < |doc.questions| ==> doc.questions[k] == old(doc.questions)[k]
      invariant doc.Value() == old(doc.Value()).(questions := doc.questions)
    {
      if i < |payload| && payload[i].correctOption.Some? {
        doc.questions := doc.questions[i := doc.questions[i].(correctOption := payload[i].correctOption)];
      }
      i := i + 1;
    }
    assert doc.questions == WithCorrectOptions(old(doc.questions), payload);
  }

  // ---------------------------------------------------------------------
  // The collection and its handlers
  // ---------------------------------------------------------------------

  /** No two stored quizzes share a name. */
  ghost predicate NamesUnique(quizzes: map<string, QuizDoc>)
  {
    forall a, b :: a in quizzes && b in quizzes && quizzes[a].quizName == quizzes[b].quizName ==> a == b
  }

  class QuizService {
    /** The quiz collection, keyed by `_id`. */
    var quizzes: map<string, QuizDoc>

    /** Every stored quiz passed `save()`'s validation, and names are unique. */
    ghost predicate Valid()
      reads this
    {
      (forall id :: id in quizzes ==> Persistable(quizzes[id])) && NamesUnique(quizzes)
    }

    constructor ()
      ensures Valid() && quizzes == map[]
    {
      quizzes := map[];
    }

    /**
     * `createQuiz`. `newId` is the `_id` the store assigns to a new document.
     * On any rejection nothing is stored.
     */
    method CreateQuiz(req: CreateRequest, newId: string) returns (out: Outcome)
      requires Valid()
      requires Present(newId) && newId !in quizzes
      modifies this
      ensures Valid()
      ensures out == CreateOutcome(req, old(quizzes))
      ensures out.Ok? ==> quizzes == old(quizzes)[newId := Created(req)]
      ensures !out.Ok? ==> quizzes == old(quizzes)
    {
      if !RequiredFieldsPresent(req) {
        return Rejected(MissingFields);
      }
      var questions := req.questions.value;
      if |questions| > 5 {
        return Rejected(TooManyQuestions);
      }
      if !QuizTypeValid(req.quizType) {
        return Rejected(InvalidQuizType);
      }
      var timer := req.timer.value;
      if !CreateTimerAllowed(timer) {
        return Rejected(InvalidTimer);
      }
      var ok, normalised := NormaliseQuestions(questions);
      if !ok {
        return Rejected(InvalidOptionCount);
      }
      if NameTaken(quizzes, req.quizName) {
        return Rejected(DuplicateName);
      }
      var quiz := NewQuiz(req.quizName, req.quizType, normalised, timer, req.creatorEmail);
      if !Persistable(quiz) {
        return Rejected(ValidationFailed);
      }
      quizzes := quizzes[newId := quiz];
      out := Ok;
    }

    /**
     * `updateQuiz`: merges the payload into the loaded document, checks the
     * timer and the option counts, and saves. On any rejection nothing is stored.
     */
    method UpdateQuiz(quizId: string, req: UpdateRequest) returns (out: Outcome)
      requires Valid()
      modifies this
      ensures Valid()
      ensures out == UpdateOutcome(quizId, req, old(quizzes))
      ensures out.Ok? ==> quizzes == old(quizzes)[quizId := Updated(old(quizzes)[quizId], req)]
      ensures !out.Ok? ==> quizzes == old(quizzes)
    {
      if !Present(quizId) {
        return Rejected(BadRequest);
      }
      if quizId !in quizzes {
        return NotFound;
      }
      var doc := new QuizDocument.Load(quizzes[quizId]);
      if req.questions.None? {
        return Rejected(MalformedPayload);
      }
      var payload := req.questions.value;
      doc.questions := MergeQuestions(doc.questions, payload);
      doc.quizType := MergedType(doc.quizType, req.quizType);
      if doc.quizType == QA {
        SetCorrectOptions(doc, payload);
      }
      if !UpdateTimerAllowed(req.timer) {
        return Rejected(InvalidTimer);
      }
      doc.timer := req.timer.value;
      assert doc.Value() == Updated(quizzes[quizId], req);
      var countsOk := CheckOptionCounts(doc.questions);
      if !countsOk {
        return Rejected(InvalidOptionCount);
      }
      var updated := doc.Value();
      if !Persistable(updated) {
        return Rejected(ValidationFailed);
      }
      quizzes := quizzes[quizId := updated];
      out := Ok;
    }

    /**
     * `updateOptionCount` and `answerCount`: both load the quiz and call the
     * tally; `userId` is passed along but the tally ignores it.
     */
    method UpdateOptionCount(quizId: string, questionIndex: int, optionIndex: int, userId: string)
      returns (out: Outcome)
      requires Valid()
      modifies this
      ensures Valid()
      ensures quizId !in old(quizzes) ==> out == NotFound && quizzes == old(quizzes)
      ensures quizId in old(quizzes) ==>
        match Tally(old(quizzes)[quizId], questionIndex, optionIndex)
        case Tallied(q) => out == Ok && quizzes == old(quizzes)[quizId := q]
        case TallyFailed(e) => out == Rejected(AnswerNotRecorded(e)) && quizzes == old(quizzes)
    {
      if quizId !in quizzes {
        return NotFound;
      }
      var doc := new QuizDocument.Load(quizzes[quizId]);
      var err := doc.IncrementOptionCount(questionIndex, optionIndex);
      if err.Some? {
        return Rejected(AnswerNotRecorded(err.value));
      }
      TallyPreservesPersistable(quizzes[quizId], questionIndex, optionIndex);
      quizzes := quizzes[quizId := doc.Value()];
      out := Ok;
    }

    /**
     * `incrementLinkOpenCount`: an atomic `$inc` of `linkOpenCount` on the
     * quiz whose `_id` is the route's `quizName` parameter; returns the new count.
     */
    method IncrementLinkOpenCount(quizName: string) returns (out: Outcome, linkOpenCount: nat)
      requires Valid()
      modifies this
      ensures Valid()
      ensures quizName !in old(quizzes) ==> out == NotFound && quizzes == old(quizzes)
      ensures quizName in old(quizzes) ==>
        && out == Ok
        && quizzes == old(quizzes)[quizName := old(quizzes)[quizName].(linkOpenCount := old(quizzes)[quizName].linkOpenCount + 1)]
        && linkOpenCount == old(quizzes)[quizName].linkOpenCount + 1
    {
      if quizName !in quizzes {
        return NotFound, 0;
      }
      var quiz := quizzes[quizName];
      linkOpenCount := quiz.linkOpenCount + 1;
      quizzes := quizzes[quizName := quiz.(linkOpenCount := linkOpenCount)];
      out := Ok;
    }

    /** `updatyeAttemptsById`: loads the quiz, adds one to `quizAttempts`, saves. */
    method UpdateAttemptsById(quizId: string) returns (out: Outcome)
      requires Valid()
      modifies this
      ensures Valid()
      ensures quizId !in old(quizzes) ==> out == NotFound && quizzes == old(quizzes)
      ensures quizId in old(quizzes) ==>
        && out == Ok
        && quizzes == old(quizzes)[quizId := old(quizzes)[quizId].(quizAttempts := old(quizzes)[quizId].quizAttempts + 1)]
    {
      if quizId !in quizzes {
        return NotFound;
      }
      var doc := new QuizDocument.Load(quizzes[quizId]);
      doc.quizAttempts := doc.quizAttempts + 1;
      quizzes := quizzes[quizId := doc.Value()];
      out := Ok;
    }

    /** `deleteQuizById`: removes exactly that quiz. */
    method DeleteQuizById(quizId: string) returns (out: Outcome)
      requires Valid()
      modifies this
      ensures Valid()
      ensures !Present(quizId) ==> out == Rejected(BadRequest) && quizzes == old(quizzes)
      ensures Present(quizId) && quizId !in old(quizzes) ==> out == NotFound && quizzes == old(quizzes)
      ensures Present(quizId) && quizId in old(quizzes) ==> out == Ok && quizzes == old(quizzes) - {quizId}
    {
      if !Present(quizId) {
        return Rejected(BadRequest);
      }
      if quizId !in quizzes {
        return NotFound;
      }
      quizzes := quizzes - {quizId};
      out := Ok;
    }
  }
}
