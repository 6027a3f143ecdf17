/** The in-memory repository of repositories/MemoryRepository.ts: three
    module-level lists of questions, failures and objectives, replaced or
    written in place by each operation. The simulated network delay is not
    part of this model; "now" is a parameter. */
module MemoryRepository {
  import opened Wrappers
  import opened Seqs
  import opened Domain

  /** `Partial<Failure>`: the fields an update may overlay. `updatedAt` is
      absent because `updateFailure` always overwrites it. Optional fields
      carry `Some(None)` to clear and `Some(Some(v))` to set. */
  datatype FailureUpdates = FailureUpdates(
    id: Option<string>,
    description: Option<string>,
    analysis5W2H: Option<string>,
    relatedKRId: Option<Option<string>>,
    convertedToQuestionId: Option<Option<string>>,
    status: Option<FailureStatus>,
    createdAt: Option<int>)

  const NoUpdates: FailureUpdates := FailureUpdates(None, None, None, None, None, None, None)

  /** `{ ...f, ...updates, updatedAt: now }` */
  function Overlay(f: Failure, u: FailureUpdates, now: int): (r: Failure)
    ensures r.updatedAt == now
    ensures r.id == u.id.GetOr(f.id) && r.status == u.status.GetOr(f.status)
    ensures r.description == u.description.GetOr(f.description)
    ensures r.analysis5W2H == u.analysis5W2H.GetOr(f.analysis5W2H)
    ensures r.relatedKRId == u.relatedKRId.GetOr(f.relatedKRId)
    ensures r.convertedToQuestionId == u.convertedToQuestionId.GetOr(f.convertedToQuestionId)
    ensures r.createdAt == u.createdAt.GetOr(f.createdAt)
  {
    Failure(u.id.GetOr(f.id), u.description.GetOr(f.description), u.analysis5W2H.GetOr(f.analysis5W2H),
            u.relatedKRId.GetOr(f.relatedKRId), u.convertedToQuestionId.GetOr(f.convertedToQuestionId),
            u.status.GetOr(f.status), u.createdAt.GetOr(f.createdAt), now)
  }

  /** An empty update only refreshes the time stamp; overlaying twice is
      overlaying once at the later time. */
  lemma OverlayFacts(f: Failure, u: FailureUpdates, t1: int, t2: int)
    ensures Overlay(f, NoUpdates, t1) == f.(updatedAt := t1)
    ensures Overlay(Overlay(f, u, t1), u, t2) == Overlay(f, u, t2)
  {
  }

  /** `_failures.find(f => f.id === id)` on a list. */
  function FirstFailure(failures: seq<Failure>, id: string): (r: Option<Failure>)
    ensures r.Some? ==> r.value in failures && r.value.id == id
    ensures r.None? <==> forall j :: 0 <= j < |failures| ==> failures[j].id != id
    ensures r.Some? ==> exists k :: 0 <= k < |failures| && failures[k] == r.value && forall j :: 0 <= j < k ==> failures[j].id != id
  {
    match FindIndex(failures, (f: Failure) => f.id == id)
    case None => None
    case Some(k) => Some(failures[k])
  }

  /** The repository's storage. */
  class Store {
    var questions: seq<Question>
    var failures: seq<Failure>
    var objectives: seq<Objective>

    /** The lists start as copies of the seed data. */
    constructor (initialQuestions: seq<Question>, initialFailures: seq<Failure>, initialObjectives: seq<Objective>)
      ensures questions == initialQuestions && failures == initialFailures && objectives == initialObjectives
    {
      questions, failures, objectives := initialQuestions, initialFailures, initialObjectives;
    }

    /** `getQuestions`: a copy of the current list. */
    method GetQuestions() returns (r: seq<Question>)
      ensures r == questions
    {
      r := questions;
    }

    /** `addQuestion`: the new question goes to the front; the rest keep
        their order; the question is handed back. */
    method AddQuestion(q: Question) returns (r: Question)
      modifies this
      ensures r == q
      ensures questions == [q] + old(questions)
      ensures failures == old(failures) && objectives == old(objectives)
    {
      questions := [q] + questions;
      r := q;
    }

    /** `deleteQuestion`: every question with the id goes, the others keep
        their order, and the answer says whether the list got shorter. */
    method DeleteQuestion(id: string) returns (removed: bool)
      modifies this
      ensures questions == Filter(old(questions), (q: Question) => q.id != id)
      ensures removed <==> exists i :: 0 <= i < |old(questions)| && old(questions)[i].id == id
      ensures failures == old(failures) && objectives == old(objectives)
    {
      var initialLen := |questions|;
      var keep := (q: Question) => q.id != id;
      FilterShrinks(questions, keep);
      questions := Filter(questions, keep);
      removed := |questions| < initialLen;
    }

    /** `getFailures`: a copy of the current list. */
    method GetFailures() returns (r: seq<Failure>)
      ensures r == failures
    {
      r := failures;
    }

    /** `updateFailure`: an unknown id yields nothing and changes nothing;
        otherwise the first failure with the id is overlaid in place, its
        time stamp set, and the new record returned. */
    method UpdateFailure(id: string, updates: FailureUpdates, now: int) returns (r: Option<Failure>)
      modifies this
      ensures r.None? <==> forall j :: 0 <= j < |old(failures)| ==> old(failures)[j].id != id
      ensures r.None? ==> failures == old(failures)
      ensures r.Some? ==> exists k :: 0 <= k < |old(failures)| && old(failures)[k].id == id
                           && (forall j :: 0 <= j < k ==> old(failures)[j].id != id)
                           && r.value == Overlay(old(failures)[k], updates, now)
                           && failures == old(failures)[k := r.value]
      ensures questions == old(questions) && objectives == old(objectives)
    {
      var idx := FindIndex(failures, (f: Failure) => f.id == id);
      if idx.None? {
        return None;
      }
      var k := idx.value;
      failures := failures[k := Overlay(failures[k], updates, now)];
      r := Some(failures[k]);
    }

    /** `findFailure`: the first failure with the id, if any. */
    method FindFailure(id: string) returns (r: Option<Failure>)
      ensures r == FirstFailure(failures, id)
    {
      var idx := FindIndex(failures, (f: Failure) => f.id == id);
      if idx.None? {
        return None;
      }
      r := Some(failures[idx.value]);
    }

    /** `getObjectives`: a copy of the current list. */
    method GetObjectives() returns (r: seq<Objective>)
      ensures r == objectives
    {
      r := objectives;
    }

    /** `deleteObjective`: as `deleteQuestion`, on objectives. */
    method DeleteObjective(id: string) returns (removed: bool)
      modifies this
      ensures objectives == Filter(old(objectives), (o: Objective) => o.id != id)
      ensures removed <==> exists i :: 0 <= i < |old(objectives)| && old(objectives)[i].id == id
      ensures questions == old(questions) && failures == old(failures)
    {
      var initialLen := |objectives|;
      var keep := (o: Objective) => o.id != id;
      FilterShrinks(objectives, keep);
      objectives := Filter(objectives, keep);
      removed := |objectives| < initialLen;
    }
  }

  /** After a delete no question with the id is left, and every question
      with another id survives. */
  lemma DeleteLeavesNoMatch(qs: seq<Question>, id: string)
    ensures forall q :: q in Filter(qs, (x: Question) => x.id != id) <==> q in qs && q.id != id
  {
    forall q
      ensures q in Filter(qs, (x: Question) => x.id != id) <==> q in qs && q.id != id
    {
      FilterMembership(qs, (x: Question) => x.id != id, q);
    }
  }

  /** Deleting the same id twice is deleting it once. */
  lemma DeleteIdempotent(qs: seq<Question>, id: string)
    ensures Filter(Filter(qs, (x: Question) => x.id != id), (x: Question) => x.id != id)
         == Filter(qs, (x: Question) => x.id != id)
  {
    var keep := (x: Question) => x.id != id;
    FilterFilter(qs, keep, keep, keep);
  }

  /** After an update that keeps the id the record is found again as the
      overlaid one. */
  lemma {:induction false} UpdateThenFind(failures: seq<Failure>, k: nat, id: string, updates: FailureUpdates, now: int)
    requires k < |failures| && failures[k].id == id && (forall j :: 0 <= j < k ==> failures[j].id != id)
    requires updates.id.None? || updates.id == Some(id)
    ensures FirstFailure(failures[k := Overlay(failures[k], updates, now)], id) == Some(Overlay(failures[k], updates, now))
  {
    var after := failures[k := Overlay(failures[k], updates, now)];
    assert after[k].id == id;
    assert forall j :: 0 <= j < k ==> after[j] == failures[j];
  }
}
