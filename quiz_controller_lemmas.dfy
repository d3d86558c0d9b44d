/**
 * Properties of the handlers of Controllers/quizController.js, stated about
 * the functions that specify them in module QuizController.
 */
module QuizControllerLemmas {
  import opened QuizModel
  import opened QuizController

  // ---------------------------------------------------------------------
  // createQuiz
  // ---------------------------------------------------------------------

  /** createQuiz rejects at the first failing check, in the code's order. */
  lemma CreateFailFast(req: CreateRequest, quizzes: map<string, QuizDoc>)
    ensures CreateOutcome(req, quizzes) == Rejected(MissingFields) <==> !RequiredFieldsPresent(req)
    ensures CreateOutcome(req, quizzes) == Rejected(TooManyQuestions) <==>
      RequiredFieldsPresent(req) && |req.questions.value| > 5
    ensures CreateOutcome(req, quizzes) == Rejected(InvalidQuizType) <==>
      RequiredFieldsPresent(req) && |req.questions.value| <= 5 && !QuizTypeValid(req.quizType)
    ensures CreateOutcome(req, quizzes) == Rejected(InvalidTimer) <==>
      RequiredFieldsPresent(req) && |req.questions.value| <= 5 && QuizTypeValid(req.quizType)
      && !CreateTimerAllowed(req.timer.value)
    ensures CreateOutcome(req, quizzes) == Rejected(InvalidOptionCount) <==>
      RequiredFieldsPresent(req) && |req.questions.value| <= 5 && QuizTypeValid(req.quizType)
      && CreateTimerAllowed(req.timer.value) && !AllOptionCountsOk(req.questions.value)
    ensures CreateOutcome(req, quizzes) == Rejected(DuplicateName) <==>
      RequiredFieldsPresent(req) && |req.questions.value| <= 5 && QuizTypeValid(req.quizType)
      && CreateTimerAllowed(req.timer.value) && AllOptionCountsOk(req.questions.value)
      && NameTaken(quizzes, req.quizName)
    ensures CreateOutcome(req, quizzes) == Ok <==>
      RequiredFieldsPresent(req) && |req.questions.value| <= 5 && QuizTypeValid(req.quizType)
      && CreateTimerAllowed(req.timer.value) && AllOptionCountsOk(req.questions.value)
      && !NameTaken(quizzes, req.quizName) && Persistable(Created(req))
  {
  }

  /**
   * With every other field valid, the controller's checks pass exactly when
   * there are 1 to 5 questions: 0 questions is a missing field, 6 is too many.
   */
  lemma CreateQuestionBounds(req: CreateRequest, quizzes: map<string, QuizDoc>)
    requires Present(req.quizName) && QuizTypeValid(req.quizType)
    requires req.questions.Some? && AllOptionCountsOk(req.questions.value)
    requires req.timer.Some? && CreateTimerAllowed(req.timer.value)
    ensures |req.questions.value| == 0 ==> CreateOutcome(req, quizzes) == Rejected(MissingFields)
    ensures |req.questions.value| > 5 ==> CreateOutcome(req, quizzes) == Rejected(TooManyQuestions)
    ensures 1 <= |req.questions.value| <= 5 <==>
      CreateOutcome(req, quizzes) in {Ok, Rejected(DuplicateName), Rejected(ValidationFailed)}
  {
  }

  /** The default-fill gives every option a truthy `optionType` and leaves the rest alone. */
  lemma NormaliseOptionEffect(o: OptionInput)
    ensures NormaliseOption(o).optionType == if Present(o.optionType) then o.optionType else DefaultOptionType
    ensures Present(NormaliseOption(o).optionType)
    ensures NormaliseOption(o) == o.(optionType := NormaliseOption(o).optionType)
  {
  }

  /** The default-fill is idempotent. */
  lemma {:induction false} NormaliseIdempotent(questions: seq<QuestionInput>)
    ensures NormalisedQuestions(NormalisedQuestions(questions)) == NormalisedQuestions(questions)
  {
    var once := NormalisedQuestions(questions);
    forall i | 0 <= i < |questions|
      ensures NormaliseQuestion(once[i]) == once[i]
    {
      match questions[i].options
      case None =>
      case Some(os) =>
        var os' := once[i].options.value;
        assert |os'| == |os|;
        assert seq(|os'|, j requires 0 <= j < |os'| => NormaliseOption(os'[j])) == os';
    }
  }

  /** The default-fill does not touch `entity1`, `entity2`, the counters or the question fields. */
  lemma NormaliseKeepsContent(questions: seq<QuestionInput>, i: int, j: int)
    requires 0 <= i < |questions| && questions[i].options.Some?
    requires 0 <= j < |questions[i].options.value|
    ensures var q := NormalisedQuestions(questions)[i];
      var o := questions[i].options.value[j];
      && q.question == questions[i].question
      && q.correctOption == questions[i].correctOption
      && q.userAnswers == questions[i].userAnswers
      && q.options.Some? && |q.options.value| == |questions[i].options.value|
      && q.options.value[j] == NormaliseOption(o)
      && q.options.value[j].entity1 == o.entity1
      && q.options.value[j].entity2 == o.entity2
  {
  }

  /**
   * `optionType` is not a schema field, so the document createQuiz saves is
   * the same whether or not the default-fill ran.
   */
  lemma {:induction false} NormalisationNotStored(questions: seq<QuestionInput>)
    ensures CastQuestions(NormalisedQuestions(questions)) == CastQuestions(questions)
  {
    var normalised := NormalisedQuestions(questions);
    forall i | 0 <= i < |questions|
      ensures CastQuestion(normalised[i]) == CastQuestion(questions[i])
    {
      match questions[i].options
      case None =>
      case Some(os) =>
        var os' := normalised[i].options.value;
        assert CastOptions(os') == CastOptions(os);
    }
  }

  /**
   * A created quiz starts with zero attempts and link opens, and every option
   * counter the request omits starts at zero.
   */
  lemma CreatedStartsAtZero(req: CreateRequest, i: int, j: int)
    requires req.questions.Some? && req.timer.Some?
    requires 0 <= i < |req.questions.value|
    requires req.questions.value[i].options.Some?
    requires 0 <= j < |req.questions.value[i].options.value|
    ensures Created(req).quizAttempts == 0 && Created(req).linkOpenCount == 0
    ensures var o := req.questions.value[i].options.value[j];
      var o' := Created(req).questions[i].options[j];
      && o'.entity1 == o.entity1 && o'.entity2 == o.entity2
      && (o.optionCountEntity1.None? ==> o'.optionCountEntity1 == 0)
      && (o.optionCountEntity2.None? ==> o'.optionCountEntity2 == 0)
    ensures req.questions.value[i].userAnswers.None? ==> Created(req).questions[i].userAnswers == []
  {
  }

  /** A successful create stores a quiz that satisfies every schema rule. */
  lemma CreatedIsPersistable(req: CreateRequest, quizzes: map<string, QuizDoc>)
    requires CreateOutcome(req, quizzes) == Ok
    ensures Persistable(Created(req))
    ensures Created(req).quizName == req.quizName && Created(req).creatorEmail == req.creatorEmail
    ensures |Created(req).questions| == |req.questions.value|
  {
  }

  /**
   * createQuiz's timer check admits null, but the schema does not: a
   * request with a null timer is never stored.
   */
  lemma CreateNullTimerNotStored(req: CreateRequest, quizzes: map<string, QuizDoc>)
    requires req.timer == Some(Untimed)
    ensures CreateOutcome(req, quizzes) != Ok
  {
  }

  /** Two creates with the same name, one after the other: the second is never stored. */
  lemma SecondCreateSameNameRejected(first: CreateRequest, second: CreateRequest,
                                     quizzes: map<string, QuizDoc>, newId: string)
    requires CreateOutcome(first, quizzes) == Ok
    requires second.quizName == first.quizName
    ensures CreateOutcome(second, quizzes[newId := Created(first)]) != Ok
  {
    var after := quizzes[newId := Created(first)];
    assert after[newId].quizName == second.quizName;
    assert NameTaken(after, second.quizName);
  }

  /** A create stores the quiz under its new id and keeps every other entry. */
  lemma CreateAddsExactlyOne(req: CreateRequest, quizzes: map<string, QuizDoc>, newId: string)
    requires CreateOutcome(req, quizzes) == Ok && newId !in quizzes
    requires NamesUnique(quizzes)
    ensures var after := quizzes[newId := Created(req)];
      && after.Keys == quizzes.Keys + {newId}
      && |after| == |quizzes| + 1
      && after[newId].quizName == req.quizName
      && (forall id :: id in quizzes ==> after[id] == quizzes[id])
      && NamesUnique(after)
  {
  }

  // ---------------------------------------------------------------------
  // updateQuiz
  // ---------------------------------------------------------------------

  /**
   * The merge maps over the payload's questions: the result has exactly as
   * many questions as the payload; at each index the question text and the
   * options are the payload's when given (truthy) and the existing
   * question's otherwise; the existing question's other fields are kept,
   * and a payload question past the existing ones starts from `{}`.
   */
  lemma UpdateMergeAt(existing: QuizDoc, req: UpdateRequest, i: int)
    requires req.questions.Some? && req.timer.Some?
    requires 0 <= i < |req.questions.value|
    ensures |Updated(existing, req).questions| == |req.questions.value|
    ensures var patch := req.questions.value[i];
      var base := if i < |existing.questions| then existing.questions[i] else EmptyQuestion;
      var merged := Updated(existing, req).questions[i];
      && merged.question == (if Present(patch.question) then patch.question else base.question)
      && merged.options == (if patch.options.Some? then CastOptions(patch.options.value) else base.options)
      && merged.userAnswers == base.userAnswers
  {
  }

  /**
   * `quizType` changes only to a truthy payload value; `correctOption` at an
   * index is overwritten only when the resulting type is Q&A and the payload
   * supplies one there.
   */
  lemma UpdateTypeAndCorrectOption(existing: QuizDoc, req: UpdateRequest, i: int)
    requires req.questions.Some? && req.timer.Some?
    requires 0 <= i < |req.questions.value|
    ensures Updated(existing, req).quizType == if Present(req.quizType) then req.quizType else existing.quizType
    ensures var patch := req.questions.value[i];
      var base := if i < |existing.questions| then existing.questions[i] else EmptyQuestion;
      Updated(existing, req).questions[i].correctOption ==
        if Updated(existing, req).quizType == QA && patch.correctOption.Some?
        then patch.correctOption else base.correctOption
  {
  }

  /** An update never changes the name, the creator or the counters. */
  lemma UpdateKeepsIdentity(existing: QuizDoc, req: UpdateRequest)
    requires req.questions.Some? && req.timer.Some?
    ensures var u := Updated(existing, req);
      && u.quizName == existing.quizName
      && u.creatorEmail == existing.creatorEmail
      && u.quizAttempts == existing.quizAttempts
      && u.linkOpenCount == existing.linkOpenCount
      && u.timer == req.timer.value
  {
  }

  /** A payload of an empty question here keeps the stored question there unchanged. */
  lemma UpdateEmptyPatchKeepsQuestion(existing: QuizDoc, req: UpdateRequest, i: int)
    requires req.questions.Some? && req.timer.Some?
    requires 0 <= i < |req.questions.value| && i < |existing.questions|
    requires req.questions.value[i].question == "" && req.questions.value[i].options.None?
    requires req.questions.value[i].correctOption.None?
    ensures Updated(existing, req).questions[i] == existing.questions[i]
  {
  }

  /**
   * Updating one question's text with a payload that lists every other
   * question as `{}` leaves those questions identical; a payload that lists
   * only the first question drops the others.
   */
  lemma UpdateOnlyFirstText(existing: QuizDoc, text: string, timer: Timer)
    requires |existing.questions| == 3
    ensures var blank := QuestionInput("", None, None, None);
      var full := UpdateRequest("", Some([QuestionInput(text, None, None, None), blank, blank]), Some(timer));
      && Updated(existing, full).questions[1] == existing.questions[1]
      && Updated(existing, full).questions[2] == existing.questions[2]
    ensures |Updated(existing, UpdateRequest("", Some([QuestionInput(text, None, None, None)]), Some(timer))).questions| == 1
  {
  }

  /**
   * updateQuiz changes nothing for an unknown id, for a timer outside
   * {0, 5, 10} (null and a missing timer included), and when a merged
   * question has fewer than 2 or more than 4 options.
   */
  lemma UpdateRejections(quizId: string, req: UpdateRequest, quizzes: map<string, QuizDoc>)
    ensures Present(quizId) && quizId !in quizzes ==> UpdateOutcome(quizId, req, quizzes) == NotFound
    ensures Present(quizId) && quizId in quizzes && req.questions.Some? && !UpdateTimerAllowed(req.timer) ==>
      UpdateOutcome(quizId, req, quizzes) == Rejected(InvalidTimer)
    ensures req.timer.None? || req.timer == Some(Untimed) ==> UpdateOutcome(quizId, req, quizzes) != Ok
    ensures UpdateOutcome(quizId, req, quizzes) == Ok ==>
      && req.questions.Some? && UpdateTimerAllowed(req.timer)
      && (forall i :: 0 <= i < |Updated(quizzes[quizId], req).questions| ==>
            2 <= |Updated(quizzes[quizId], req).questions[i].options| <= 4)
  {
  }

  /**
   * An accepted update keeps the collection's invariant: the saved quiz is
   * storable and no two quizzes share a name.
   */
  lemma UpdateKeepsCollectionValid(quizId: string, req: UpdateRequest, quizzes: map<string, QuizDoc>)
    requires UpdateOutcome(quizId, req, quizzes) == Ok
    requires NamesUnique(quizzes)
    ensures Persistable(Updated(quizzes[quizId], req))
    ensures NamesUnique(quizzes[quizId := Updated(quizzes[quizId], req)])
  {
  }

  // ---------------------------------------------------------------------
  // An end-to-end scenario
  // ---------------------------------------------------------------------

  /**
   * A one-question poll with text options (and timer 0) is stored with all
   * counters at zero; two answers for option 1 make its first counter 2 and
   * its answer log [1, 1].
   */
  lemma PetsScenario()
    ensures var cat := OptionInput("Cat", "", "", None, None);
      var dog := OptionInput("Dog", "", "", None, None);
      var req := CreateRequest("Pets", Poll, Some([QuestionInput("Cat or Dog?", Some([cat, dog]), None, None)]),
                               Some(Seconds(0)), "a@gmail.com");
      var q := Created(req);
      && CreateOutcome(req, map[]) == Ok
      && q.linkOpenCount == 0
      && TallyTimes(q, 0, 1, 2).Tallied?
      && TallyTimes(q, 0, 1, 2).quiz.questions[0].options[1].optionCountEntity1 == 2
      && TallyTimes(q, 0, 1, 2).quiz.questions[0].options[1].optionCountEntity2 == 0
      && TallyTimes(q, 0, 1, 2).quiz.questions[0].userAnswers == [1, 1]
  {
  }
}
