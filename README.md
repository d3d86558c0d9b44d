# Quiz backend: document model, validation and tallying

This project models the core of a quiz-hosting backend (an Express/Mongoose
service). A quiz has 1 to 5 questions and a type, `Q&A` or `Poll`. Each
question has 2 to 4 answer options. Respondents' answers raise per-option
counters and are appended to the question's answer log.

The model is in three modules:

- `QuizModel` (`quiz_model.dfy`) models `Model/Quiz.js`. It holds the option,
  question and quiz documents as datatypes, the schema validators and the
  `pre('validate')` hook that classifies each question's options. Together
  these give `Persistable`: what `save()` accepts. It also holds the tally
  (`incrementOptionCount`) in two forms: the specification function `Tally`,
  and the class `QuizDocument`, whose method changes a loaded document in
  place as the source does.
- `QuizController` (`quiz_controller.dfy`) models
  `Controllers/quizController.js`. It holds the request payloads and the guard
  chains of `createQuiz` and `updateQuiz`, written as functions
  (`CreateOutcome`, `Created`, `UpdateOutcome`, `Updated`). It also holds the
  loops those handlers run, as methods. Class `QuizService` holds the quiz
  collection as a map from id to quiz, and its methods are the handlers. Each
  handler returns `Ok`, `Rejected(reason)` or `NotFound`. Its `ensures` says
  that on anything but `Ok` the collection is unchanged, and the class
  invariant `Valid()` says that every stored quiz is `Persistable` and that
  names are unique.
- `QuizControllerLemmas` (`quiz_controller_lemmas.dfy`) holds the properties
  of those handlers.

Conventions:

- JavaScript truthiness of a string is `Present(s)`. An undefined, null or
  empty string is written `""`.
- An array in a payload is `Maybe<seq<…>>`. An empty array is truthy, so
  `Some([])` is kept by `patch.options || existing.options`.
- A request timer is `None` when undefined and `Some(Untimed)` when null.
- Numbers are `int`. The option counters are `int` too: the schema gives
  them no minimum (Model/Quiz.js:11-18) and a client may send any value.
  `quizAttempts` and `linkOpenCount` start at 0 and are only ever increased by
  the handlers, so they are `nat`.

Notes on what the source does, which the model follows:

- The schema sets `required: true` on `entity1` (Model/Quiz.js:4-7). So a
  stored option always has `entity1`, and only the kinds `TextAndImageUrl` and
  `Text` can be saved (`PersistedKinds`). An image-only quiz can never be
  stored, although the hook has an `imageUrl` kind (Model/Quiz.js:100).
- `createQuiz` admits a `null` timer (Controllers/quizController.js:30). The
  schema's timer is `required` with enum `[0, 5, 10]` (Model/Quiz.js:66-71).
  The model reads `required` as rejecting null, so a create with a null timer
  gets past the controller's checks but fails at `save()`
  (`CreateNullTimerNotStored`). `PetsScenario` shows a poll stored with
  timer 0.
- The update merge maps over the payload's questions
  (Controllers/quizController.js:109-116, `UpdateMergeAt`). A payload question
  past the existing ones is built from `{}`. An existing question past the
  payload's length is dropped. So an update can both grow and shrink the
  quiz. Keeping the other questions of a 3-question quiz while changing one
  text needs a payload that lists them, even as empty objects
  (`UpdateOnlyFirstText`).
- `save()` runs every schema validator and the hook. So `createQuiz` and
  `updateQuiz` also reject on a missing question text, a missing `entity1`,
  a `correctOption` out of range, a mix of option kinds, a missing creator
  email, and an `updateQuiz` type outside the enum. The source's empty or
  generic `catch` turns these into a failed outcome, which the model calls
  `Rejected(ValidationFailed)`.

## Model

| member | source | states |
|---|---|---|
| `QuizModel.Classify` | Model/Quiz.js:97-102 | a question is TextAndImageUrl iff all options have both entities; Text iff all have entity1 and some lacks entity2; ImageUrl iff all have entity2 and some lacks entity1; null iff some lacks entity1 and some lacks entity2 |
| `QuizModel.HomogeneousPairwise` | Model/Quiz.js:104-108 | comparing each class with the first question's is the same as requiring every pair of questions to have the same class |
| `QuizModel.HomogeneousByMembers` | Model/Quiz.js:96-111 | the hook's verdict holds iff any two questions that occur in the quiz have the same class |
| `QuizModel.HomogeneousReorder` | Model/Quiz.js:96-111 | two question lists that are permutations of each other get the same verdict |
| `QuizModel.MixedKindsRejected` | Model/Quiz.js:104-108 | two questions of different classes make the hook reject |
| `QuizModel.ShortQuizHomogeneous` | Model/Quiz.js:95-111 | an empty or one-question list always passes the hook |
| `QuizModel.PersistedKinds` | Model/Quiz.js:4-7 | every question of a storable quiz is of class TextAndImageUrl or Text, because entity1 is required |
| `QuizModel.PersistedShape` | Model/Quiz.js:29-81 | a storable quiz has 1..5 questions, each with 2..4 options, any correctOption in [0, options), type Q&A or Poll, timer 0, 5 or 10 |
| `QuizModel.SchemaValid` | Model/Quiz.js:3-87 | the schema validators: quizName, quizType in the enum, timer in [0, 5, 10] and not null, 1..5 questions, each with a text and 2..4 options each having entity1, any correctOption in [0, options), and creatorEmail |
| `QuizModel.Homogeneous` | Model/Quiz.js:95-111 | the hook's verdict: no questions, or every question classified like the first |
| `QuizModel.Persistable` | Model/Quiz.js:3-111 | what `save()` accepts: the hook passes and every schema validator passes |
| `QuizModel.Tally` | Model/Quiz.js:115-131 | the specification of one `incrementOptionCount`: QuestionNotFound, OptionNotFound, or the quiz with that option counted and its index appended to the answer log |
| `QuizModel.QuizDocument.IncrementOptionCount` | Model/Quiz.js:115-134 | the in-place update equals `Tally` of the old document; when it fails, the document is unchanged and the error is QuestionNotFound or OptionNotFound |
| `QuizModel.TallyErrors` | Model/Quiz.js:116-120 | an out-of-range question index fails with QuestionNotFound; an out-of-range option index fails with OptionNotFound; the tally succeeds iff both indices are in range |
| `QuizModel.TallyCounters` | Model/Quiz.js:122-129 | both entities present: both counters +1; only entity1: only the first +1; only entity2: only the second +1; neither: option unchanged |
| `QuizModel.TallyFrame` | Model/Quiz.js:115-131 | one tally appends exactly optionIndex to that question's userAnswers; it changes no other option, no other question and no quiz-level field |
| `QuizModel.TallyTimesEffect` | Model/Quiz.js:122-131 | n tallies of one option append n copies of its index, with no deduplication, and raise each counter whose entity is present by exactly n |
| `QuizModel.TallyPreservesPersistable` | Model/Quiz.js:133 | tallying a storable quiz gives a storable quiz, so the tally's save cannot fail validation |
| `QuizController.CastOption` | Model/Quiz.js:3-18 | a cast option keeps both entities; a counter the request supplies is kept as sent, and one it omits starts at 0 |
| `QuizController.NewQuiz` | Controllers/quizController.js:55-61 | the new document has the request's name, type, timer and creator, one question per request question, and zero attempts and link opens |
| `QuizController.NormaliseOption` | Controllers/quizController.js:41-44 | the default-fill of one option: `optionType` becomes 'default' when falsy |
| `QuizController.Created` | Controllers/quizController.js:55-61 | the document createQuiz saves: the request's fields with the default-filled questions cast to sub-documents |
| `QuizController.CreateOutcome` | Controllers/quizController.js:12-63 | createQuiz's verdict: the first failing check in the order required, count, type, timer, option counts, name, save validation; else Ok |
| `QuizController.MergeQuestion` | Controllers/quizController.js:110-115 | one merged question: the existing question (or `{}`) with the payload's text and options where truthy |
| `QuizController.MergeQuestions` | Controllers/quizController.js:109-116 | the merge maps over the payload's questions, pairing each with the existing question at its index |
| `QuizController.WithCorrectOptions` | Controllers/quizController.js:120-128 | each question whose payload question supplies a correctOption takes it; the others are unchanged |
| `QuizController.Updated` | Controllers/quizController.js:109-133 | the document updateQuiz saves: merged questions, the merged type, correctOption copied under Q&A, and the payload timer |
| `QuizController.UpdateOutcome` | Controllers/quizController.js:93-150 | updateQuiz's verdict: empty id, unknown id, no questions array, timer outside {0, 5, 10}, a merged question without 2..4 options, save validation, in that order; else Ok |
| `QuizController.NormaliseQuestions` | Controllers/quizController.js:36-45 | the loop succeeds iff every question has options and 2..4 of them; on success it returns every question with its options default-filled |
| `QuizController.CheckOptionCounts` | Controllers/quizController.js:140-148 | the loop succeeds iff every merged question has 2..4 options |
| `QuizController.SetCorrectOptions` | Controllers/quizController.js:120-128 | the in-place loop leaves the document equal to the old one with WithCorrectOptions applied to its questions |
| `QuizController.QuizService.CreateQuiz` | Controllers/quizController.js:6-72 | the outcome is `CreateOutcome` of the request and the old collection; on Ok exactly the new quiz is added under the new id; otherwise the collection is unchanged; the invariant is kept |
| `QuizController.QuizService.UpdateQuiz` | Controllers/quizController.js:89-160 | the outcome is `UpdateOutcome`; on Ok only that id changes, to `Updated` of the stored quiz; otherwise the collection is unchanged; the invariant is kept |
| `QuizController.QuizService.UpdateOptionCount` | Controllers/quizController.js:178-211 | unknown id: NotFound and no change; otherwise the stored quiz becomes `Tally` of it, or the tally error is returned with no change; userId has no effect |
| `QuizController.QuizService.IncrementLinkOpenCount` | Controllers/quizController.js:75-87 | unknown id: NotFound and no change; otherwise only linkOpenCount of that quiz goes up by 1, and the new value is returned |
| `QuizController.QuizService.UpdateAttemptsById` | Controllers/quizController.js:214-232 | unknown id: NotFound and no change; otherwise only quizAttempts of that quiz goes up by 1 |
| `QuizController.QuizService.DeleteQuizById` | Controllers/quizController.js:234-250 | empty id: BadRequest; unknown id: NotFound; both with no change; otherwise exactly that id is removed |
| `QuizControllerLemmas.CreateFailFast` | Controllers/quizController.js:12-53 | each rejection reason occurs exactly when all earlier checks pass and its own check fails, in the order required, count, type, timer, option counts, name; Ok exactly when all pass and the document is storable |
| `QuizControllerLemmas.CreateQuestionBounds` | Controllers/quizController.js:12-22 | other fields valid: 0 questions is MissingFields, more than 5 is TooManyQuestions, and the controller's checks pass iff there are 1..5 questions |
| `QuizControllerLemmas.NormaliseOptionEffect` | Controllers/quizController.js:41-44 | optionType becomes the original value if truthy, else 'default'; it is always truthy afterwards; nothing else changes |
| `QuizControllerLemmas.NormaliseIdempotent` | Controllers/quizController.js:41-44 | default-filling twice gives the same questions as once |
| `QuizControllerLemmas.NormaliseKeepsContent` | Controllers/quizController.js:41-44 | default-filling keeps each question's text, correctOption, answers and option count, and each option's entity1 and entity2 |
| `QuizControllerLemmas.NormalisationNotStored` | Controllers/quizController.js:41-44 | the stored questions are the same with or without the default-fill, because optionType is not a schema field |
| `QuizControllerLemmas.CreatedStartsAtZero` | Controllers/quizController.js:55-61 | a created quiz has zero attempts and link opens; option counters and answer logs the request omits start at 0 and [] |
| `QuizControllerLemmas.CreatedIsPersistable` | Controllers/quizController.js:55-63 | an accepted create stores a storable quiz with the request's name, creator and question count |
| `QuizControllerLemmas.CreateNullTimerNotStored` | Model/Quiz.js:66-71 | a create request with a null timer is never stored |
| `QuizControllerLemmas.SecondCreateSameNameRejected` | Controllers/quizController.js:47-53 | after an accepted create, a second create with the same name on the new collection is not accepted |
| `QuizControllerLemmas.CreateAddsExactlyOne` | Controllers/quizController.js:47-63 | an accepted create adds exactly one key and keeps every other entry; names stay unique |
| `QuizControllerLemmas.UpdateMergeAt` | Controllers/quizController.js:109-116 | the result has as many questions as the payload; at each index, text and options are the payload's when given, else the existing question's (or {}'s past the end); the answer log is the existing one |
| `QuizControllerLemmas.UpdateTypeAndCorrectOption` | Controllers/quizController.js:118-128 | quizType is replaced only by a truthy payload value; correctOption at i is the payload's only when the resulting type is Q&A and the payload supplies one, else the existing one |
| `QuizControllerLemmas.UpdateKeepsIdentity` | Controllers/quizController.js:109-133 | an update keeps the name, creator, attempts and link opens, and sets the payload's timer |
| `QuizControllerLemmas.UpdateEmptyPatchKeepsQuestion` | Controllers/quizController.js:109-128 | an empty payload question at an existing index leaves that stored question identical |
| `QuizControllerLemmas.UpdateOnlyFirstText` | Controllers/quizController.js:109-116 | for a 3-question quiz, changing question 0's text with {} for the others keeps questions 1 and 2; a one-question payload leaves one question |
| `QuizControllerLemmas.UpdateRejections` | Controllers/quizController.js:99-148 | an unknown id gives NotFound; a timer outside {0,5,10}, null or missing included, gives InvalidTimer and is never accepted; an accepted update has 2..4 options per question |
| `QuizControllerLemmas.UpdateKeepsCollectionValid` | Controllers/quizController.js:150 | an accepted update stores a storable quiz and keeps names unique |
| `QuizControllerLemmas.PetsScenario` | Controllers/quizController.js:55-67 | a one-question text poll is accepted into an empty collection with zero link opens; two tallies of option 1 give its counter 2, the other counter 0, and the log [1, 1] |

## Left out

- Routing, the server, the database connection and the user controller (registration, bcrypt hashing, JWT signing) are not part of this model.
- `getallQuizzes` and `getQuizById` are store queries with no logic of their own. The first filters on a `Category` field the schema does not have; the second projects fields the schema does not have.
- Mongoose casting is left out. Route parameters are modelled as `int` indices and string ids. A malformed id, which makes Mongoose throw a cast error, is not modelled.
- Payload numbers are `int`, so a fractional `correctOption` or option counter is out of scope. A payload `correctOption` of `null` is not modelled either; it is either absent (`None`) or a number.
- Payload fields a client may send besides the modelled ones (`_id`, timestamps) are not modelled, and neither are the timestamps.
- The quiz id that the store assigns on create is a parameter of `CreateQuiz`, required to be fresh.
- A payload that is not an array where an array is expected, and a `null` element inside the questions array, are not modelled.
- For a new question in an update whose payload gives no options, the model uses the schema default `[]`; the outcome, a rejection with nothing stored, is the same as a thrown error.
- On save, the model validates the whole document. Mongoose may skip validators of unmodified paths, but for a stored quiz those pass anyway.
- The race between the name lookup and the save in `createQuiz`, and concurrent writes to one document, are not modelled: each handler runs to completion.
- HTTP status codes and message texts are not modelled; outcomes are datatype tags. A request left unanswered by an empty `catch` is modelled as a rejection with no change.
