/** The sedimentation transaction of services/SedimentationService.ts: a
    failure becomes a draft question, and the failure is marked as
    sedimented into it. The clock reading is the parameter `now`; the
    source reads it three times, the model once. */
module Sedimentation {
  import opened Wrappers
  import opened Strings
  import opened Seqs
  import opened Domain
  import opened MemoryRepository

  const NOT_FOUND: string := "Failure not found"
  const TITLE_PREFIX: string := "Analysis: "
  /** Characters of the description kept in the title. */
  const TITLE_KEEP: nat := 40
  const SEDIMENT_TAGS: seq<string> := ["Sediment", "Auto-Generated"]

  /** `q-sed-${Date.now()}` */
  function SedimentId(now: int): string {
    "q-sed-" + IntToString(now)
  }

  function AnalysisContent(f: Failure): string {
    "### Root Cause Analysis\n\n" + f.analysis5W2H + "\n\n*Sedimented from Failure " + f.id + "*"
  }

  /** The draft question a failure sediments into. */
  function SedimentQuestion(f: Failure, now: int): (q: Question)
    ensures q.id == SedimentId(now)
    ensures q.title == TITLE_PREFIX + Take(f.description, TITLE_KEEP) + "..."
    ensures StartsWith(q.title, TITLE_PREFIX) && |q.title| <= |TITLE_PREFIX| + TITLE_KEEP + 3
    ensures q.level == 0 && q.tags == SEDIMENT_TAGS && q.linkedQuestionIds == [] && q.status == Draft
    ensures q.linkedOKRIds == (if Truthy(f.relatedKRId) then [f.relatedKRId.value] else [])
    ensures |q.linkedOKRIds| <= 1
    ensures q.createdAt == now && q.updatedAt == now
  {
    Question(SedimentId(now), TITLE_PREFIX + Take(f.description, TITLE_KEEP) + "...", AnalysisContent(f),
             0, SEDIMENT_TAGS, [], if Truthy(f.relatedKRId) then [f.relatedKRId.value] else [], Draft, now, now)
  }

  /** The update `sedimentFailure` sends for the failure. */
  function SedimentUpdates(questionId: string): FailureUpdates {
    NoUpdates.(status := Some(Sedimented), convertedToQuestionId := Some(Some(questionId)))
  }

  /** `sedimentFailure`: an unknown id fails with "Failure not found" and
      leaves the store as it was. Otherwise the new question heads the
      question list, the first failure with the id is marked sedimented into
      it, and exactly that question is returned. */
  method SedimentFailure(store: Store, failureId: string, now: int) returns (r: Result<Question, string>)
    modifies store
    ensures r.Err? <==> forall j :: 0 <= j < |old(store.failures)| ==> old(store.failures)[j].id != failureId
    ensures r.Err? ==> r.error == NOT_FOUND && store.questions == old(store.questions)
                       && store.failures == old(store.failures)
    ensures r.Ok? ==> exists k :: 0 <= k < |old(store.failures)| && old(store.failures)[k].id == failureId
                        && (forall j :: 0 <= j < k ==> old(store.failures)[j].id != failureId)
                        && r.value == SedimentQuestion(old(store.failures)[k], now)
                        && store.failures == old(store.failures)[k := old(store.failures)[k].(
                             status := Sedimented, convertedToQuestionId := Some(r.value.id), updatedAt := now)]
    ensures r.Ok? ==> store.questions == [r.value] + old(store.questions)
    ensures store.objectives == old(store.objectives)
  {
    var failure := store.FindFailure(failureId);
    if failure.None? {
      return Err(NOT_FOUND);
    }
    var q := SedimentQuestion(failure.value, now);
    var _ := store.AddQuestion(q);
    var _ := store.UpdateFailure(failureId, SedimentUpdates(q.id), now);
    r := Ok(q);
  }

  /** A sedimented failure records the question it became, and that
      question carries the failure's key result, if any, as its only OKR
      link. */
  lemma SedimentLinksBack(f: Failure, now: int)
    ensures Overlay(f, SedimentUpdates(SedimentId(now)), now).convertedToQuestionId == Some(SedimentQuestion(f, now).id)
    ensures Overlay(f, SedimentUpdates(SedimentId(now)), now).status == Sedimented
    ensures Overlay(f, SedimentUpdates(SedimentId(now)), now).id == f.id
    ensures SedimentQuestion(f, now).linkedOKRIds != [] <==> Truthy(f.relatedKRId)
  {
  }
}
