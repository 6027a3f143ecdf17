/** The statistics of components/DashboardView.tsx: the question, objective,
    key-result and failure counts, the progress-bar percentage, and the two
    five-entry lists. Rendering is not part of this model. */
module Dashboard {
  import opened Seqs
  import opened Domain

  /** The length of the OKR-progress and recent-activity lists. */
  const LIST_LENGTH: nat := 5

  /** `keyResults.filter(kr => kr.status === 'Completed').length` */
  function CompletedIn(o: Objective): nat {
    Count(o.keyResults, (kr: KeyResult) => kr.status == Completed)
  }

  /** `keyResults.some(kr => kr.status === 'Completed')` */
  predicate HasCompletedKR(o: Objective) {
    exists i :: 0 <= i < |o.keyResults| && o.keyResults[i].status == Completed
  }

  /** `objectives.reduce((acc, o) => acc + o.keyResults.length, 0)` */
  function TotalKRs(objectives: seq<Objective>): nat
    decreases |objectives|
  {
    if objectives == [] then 0 else |objectives[0].keyResults| + TotalKRs(objectives[1..])
  }

  /** `objectives.reduce((acc, o) => acc + completed(o), 0)` */
  function CompletedKRs(objectives: seq<Objective>): nat
    decreases |objectives|
  {
    if objectives == [] then 0 else CompletedIn(objectives[0]) + CompletedKRs(objectives[1..])
  }

  /** The dashboard's numbers. */
  datatype Stats = Stats(
    totalQuestions: nat, answeredQuestions: nat, verifiedQuestions: nat,
    totalObjectives: nat, completedObjectives: nat,
    totalKRs: nat, completedKRs: nat,
    totalFailures: nat, sedimentedFailures: nat, pendingFailures: nat)

  /** Two exclusive conditions count no more elements than there are. */
  lemma {:induction false} CountDisjoint<T>(s: seq<T>, p: T -> bool, q: T -> bool)
    requires forall x :: !(p(x) && q(x))
    ensures Count(s, p) + Count(s, q) <= |s|
    decreases |s|
  {
    if s != [] {
      CountDisjoint(s[1..], p, q);
    }
  }

  /** An objective has a completed key result exactly when its completed
      count is positive. */
  lemma CompletedMeansSome(o: Objective)
    ensures HasCompletedKR(o) <==> CompletedIn(o) > 0
  {
    var p := (kr: KeyResult) => kr.status == Completed;
    FilterShrinks(o.keyResults, (kr: KeyResult) => !p(kr));
    assert Filter(o.keyResults, p) != [] <==> exists kr :: kr in Filter(o.keyResults, p) by {
      if Filter(o.keyResults, p) != [] {
        assert Filter(o.keyResults, p)[0] in Filter(o.keyResults, p);
      }
    }
    forall kr
      ensures kr in Filter(o.keyResults, p) <==> kr in o.keyResults && kr.status == Completed
    {
      FilterMembership(o.keyResults, p, kr);
    }
    if HasCompletedKR(o) {
      var i :| 0 <= i < |o.keyResults| && o.keyResults[i].status == Completed;
      assert o.keyResults[i] in Filter(o.keyResults, p);
    }
  }

  /** Completed key results are among all key results, and every objective
      counted as completed holds at least one of them. */
  lemma {:induction false} KRCountsBounded(objectives: seq<Objective>)
    ensures CompletedKRs(objectives) <= TotalKRs(objectives)
    ensures Count(objectives, HasCompletedKR) <= CompletedKRs(objectives)
    decreases |objectives|
  {
    if objectives != [] {
      KRCountsBounded(objectives[1..]);
      CompletedMeansSome(objectives[0]);
    }
  }

  predicate IsAnswered(q: Question) { q.status == Answered }
  predicate IsVerified(q: Question) { q.status == Verified }
  predicate IsSedimented(f: Failure) { f.status == Sedimented }
  predicate IsPending(f: Failure) { f.status == New }

  /** The figures the stat cards show: each is the count of its filter or
      the sum of its reduce, and together they bound one another. */
  function Summarize(questions: seq<Question>, objectives: seq<Objective>, failures: seq<Failure>): (s: Stats)
    ensures s.totalQuestions == |questions| && s.totalObjectives == |objectives| && s.totalFailures == |failures|
    ensures s.answeredQuestions == Count(questions, IsAnswered)
    ensures s.verifiedQuestions == Count(questions, IsVerified)
    ensures s.completedObjectives == Count(objectives, HasCompletedKR)
    ensures s.totalKRs == TotalKRs(objectives) && s.completedKRs == CompletedKRs(objectives)
    ensures s.sedimentedFailures == Count(failures, IsSedimented)
    ensures s.pendingFailures == Count(failures, IsPending)
    ensures s.answeredQuestions + s.verifiedQuestions <= s.totalQuestions
    ensures s.completedObjectives <= s.totalObjectives
    ensures s.completedObjectives <= s.completedKRs <= s.totalKRs
    ensures s.sedimentedFailures + s.pendingFailures <= s.totalFailures
  {
    CountDisjoint(questions, IsAnswered, IsVerified);
    CountDisjoint(failures, IsSedimented, IsPending);
    KRCountsBounded(objectives);
    Stats(
      |questions|, Count(questions, IsAnswered), Count(questions, IsVerified),
      |objectives|, Count(objectives, HasCompletedKR),
      TotalKRs(objectives), CompletedKRs(objectives),
      |failures|, Count(failures, IsSedimented), Count(failures, IsPending))
  }

  /** The sums are over every objective: adding one adds its counts. */
  lemma {:induction false} KRCountsAppend(objectives: seq<Objective>, o: Objective)
    ensures TotalKRs(objectives + [o]) == TotalKRs(objectives) + |o.keyResults|
    ensures CompletedKRs(objectives + [o]) == CompletedKRs(objectives) + CompletedIn(o)
    decreases |objectives|
  {
    if objectives != [] {
      assert (objectives + [o])[1..] == objectives[1..] + [o];
      KRCountsAppend(objectives[1..], o);
    } else {
      assert [] + [o] == [o];
    }
  }

  /** `ProgressBar`'s width: 0 for an empty bar, else the share in percent. */
  function Percent(value: int, max: int): (p: real)
    ensures max <= 0 ==> p == 0.0
    ensures max > 0 && 0 <= value <= max ==> 0.0 <= p <= 100.0
    ensures max > 0 ==> (p == 100.0 <==> value == max) && (p == 0.0 <==> value == 0)
  {
    if max > 0 then (value as real / max as real) * 100.0 else 0.0
  }

  /** An objective's progress bar lies between empty and full. */
  lemma ObjectiveProgressInRange(o: Objective)
    ensures 0.0 <= Percent(CompletedIn(o), |o.keyResults|) <= 100.0
  {
  }

  /** `objectives.slice(0, 5)` and `questions.slice(0, 5)`: the first five,
      in order. */
  function FirstFive<T>(s: seq<T>): (r: seq<T>)
    ensures |r| <= LIST_LENGTH && |r| <= |s| && r == s[..|r|]
    ensures |s| <= LIST_LENGTH ==> r == s
  {
    Take(s, LIST_LENGTH)
  }
}
