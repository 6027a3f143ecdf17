/** The domain records the core reads: questions, objectives with their key
    results, and failures. Timestamps are milliseconds since the epoch. */
module Domain {
  import opened Wrappers

  datatype QuestionStatus = Draft | Answered | Verified
  datatype KeyResultStatus = Pending | InProgress | Completed | Failed
  datatype FailureStatus = New | Analyzed | Sedimented

  /** A question: the "A" strand of the helix. `level` is the learning level 0, 1 or 2. */
  datatype Question = Question(
    id: string,
    title: string,
    content: string,
    level: int,
    tags: seq<string>,
    linkedQuestionIds: seq<string>,
    linkedOKRIds: seq<string>,
    status: QuestionStatus,
    createdAt: int,
    updatedAt: int)

  datatype KeyResult = KeyResult(
    id: string,
    title: string,
    status: KeyResultStatus,
    metric: string,
    linkedQuestionIds: seq<string>,
    createdAt: int,
    updatedAt: int)

  /** An objective: the "B" strand of the helix. */
  datatype Objective = Objective(
    id: string,
    title: string,
    description: string,
    keyResults: seq<KeyResult>,
    linkedQuestionIds: seq<string>,
    createdAt: int,
    updatedAt: int)

  datatype Failure = Failure(
    id: string,
    description: string,
    analysis5W2H: string,
    relatedKRId: Option<string>,
    convertedToQuestionId: Option<string>,
    status: FailureStatus,
    createdAt: int,
    updatedAt: int)

  /** The entity kinds a node action or a search result names. */
  datatype EntityKind = QuestionKind | ObjectiveKind | FailureKind
}
