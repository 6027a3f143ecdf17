/** The result computation of components/SearchModal.tsx: a blank query
    finds nothing; otherwise the lowercased query is looked for in the
    lowercased fields of each kind of record, and each list keeps its first
    five matches. Rendering is not part of this model. */
module SearchModal {
  import opened Strings
  import opened Seqs
  import opened Domain

  /** The length of each result list. */
  const MAX_RESULTS: nat := 5

  /** A question matches on its title, its content or any of its tags. */
  predicate QuestionMatches(q: string, i: Question) {
    || Contains(Lower(i.title), q)
    || Contains(Lower(i.content), q)
    || exists k :: 0 <= k < |i.tags| && Contains(Lower(i.tags[k]), q)
  }

  /** An objective matches on its title or its description. */
  predicate ObjectiveMatches(q: string, i: Objective) {
    Contains(Lower(i.title), q) || Contains(Lower(i.description), q)
  }

  /** A failure matches on its description or its 5W2H analysis. */
  predicate FailureMatches(q: string, i: Failure) {
    Contains(Lower(i.description), q) || Contains(Lower(i.analysis5W2H), q)
  }

  /** The query is empty or whitespace only. */
  predicate Blank(query: string) {
    |Trim(query)| == 0
  }

  datatype Results = Results(questions: seq<Question>, objectives: seq<Objective>, failures: seq<Failure>)

  /** `results`: nothing for a blank query; otherwise the first five matches
      of each kind for the lowercased (untrimmed) query. */
  function Search(query: string, questions: seq<Question>, objectives: seq<Objective>, failures: seq<Failure>): (r: Results)
    ensures Blank(query) ==> r == Results([], [], [])
    ensures |r.questions| <= MAX_RESULTS && |r.objectives| <= MAX_RESULTS && |r.failures| <= MAX_RESULTS
  {
    if Blank(query) then Results([], [], [])
    else
      var q := Lower(query);
      Results(
        Take(Filter(questions, (i: Question) => QuestionMatches(q, i)), MAX_RESULTS),
        Take(Filter(objectives, (i: Objective) => ObjectiveMatches(q, i)), MAX_RESULTS),
        Take(Filter(failures, (i: Failure) => FailureMatches(q, i)), MAX_RESULTS))
  }

  /** `total`: the number of results shown, at most five per kind. */
  function Total(r: Results): (n: nat)
    ensures n == |r.questions| + |r.objectives| + |r.failures|
    ensures |r.questions| <= MAX_RESULTS && |r.objectives| <= MAX_RESULTS && |r.failures| <= MAX_RESULTS ==> n <= 3 * MAX_RESULTS
  {
    |r.questions| + |r.objectives| + |r.failures|
  }

  /** A blank query shows no result at all. */
  lemma BlankQueryTotalsZero(query: string, questions: seq<Question>, objectives: seq<Objective>, failures: seq<Failure>)
    requires Blank(query)
    ensures Total(Search(query, questions, objectives, failures)) == 0
  {
  }

  /** The first `n` elements satisfying `p`: all of them satisfy `p` and
      come from `s`, in order; when fewer than `n` are kept, none is missed. */
  lemma FirstMatches<T>(s: seq<T>, p: T -> bool, n: nat, x: T)
    ensures var r := Take(Filter(s, p), n);
      && r == Filter(s, p)[..|r|]
      && (x in r ==> x in s && p(x))
      && (|r| < n && x in s && p(x) ==> x in r)
  {
    var f := Filter(s, p);
    var r := Take(f, n);
    FilterMembership(s, p, x);
    if x in r {
      var i :| 0 <= i < |r| && r[i] == x;
      assert f[i] == x;
    }
  }

  /** The question list holds only matching questions, in input order, the
      first ones; with fewer than five shown, every match is shown. */
  lemma QuestionResults(query: string, questions: seq<Question>, objectives: seq<Objective>, failures: seq<Failure>, x: Question)
    requires !Blank(query)
    ensures var r := Search(query, questions, objectives, failures).questions;
      var matches := Filter(questions, (i: Question) => QuestionMatches(Lower(query), i));
      && r == matches[..|r|]
      && (x in r ==> x in questions && QuestionMatches(Lower(query), x))
      && (|r| < MAX_RESULTS && x in questions && QuestionMatches(Lower(query), x) ==> x in r)
  {
    FirstMatches(questions, (i: Question) => QuestionMatches(Lower(query), i), MAX_RESULTS, x);
  }

  /** The objective list holds only matching objectives, the first ones in
      input order; with fewer than five shown, every match is shown. */
  lemma ObjectiveResults(query: string, questions: seq<Question>, objectives: seq<Objective>, failures: seq<Failure>, x: Objective)
    requires !Blank(query)
    ensures var r := Search(query, questions, objectives, failures).objectives;
      var matches := Filter(objectives, (i: Objective) => ObjectiveMatches(Lower(query), i));
      && r == matches[..|r|]
      && (x in r ==> x in objectives && ObjectiveMatches(Lower(query), x))
      && (|r| < MAX_RESULTS && x in objectives && ObjectiveMatches(Lower(query), x) ==> x in r)
  {
    FirstMatches(objectives, (i: Objective) => ObjectiveMatches(Lower(query), i), MAX_RESULTS, x);
  }

  /** The failure list holds only matching failures, the first ones in
      input order; with fewer than five shown, every match is shown. */
  lemma FailureResults(query: string, questions: seq<Question>, objectives: seq<Objective>, failures: seq<Failure>, x: Failure)
    requires !Blank(query)
    ensures var r := Search(query, questions, objectives, failures).failures;
      var matches := Filter(failures, (i: Failure) => FailureMatches(Lower(query), i));
      && r == matches[..|r|]
      && (x in r ==> x in failures && FailureMatches(Lower(query), x))
      && (|r| < MAX_RESULTS && x in failures && FailureMatches(Lower(query), x) ==> x in r)
  {
    FirstMatches(failures, (i: Failure) => FailureMatches(Lower(query), i), MAX_RESULTS, x);
  }

  /** Lowercasing never turns a character into whitespace or back. */
  lemma LowerKeepsBlank(query: string)
    ensures Blank(Lower(query)) <==> Blank(query)
  {
    var l := Lower(query);
    TrimFacts(query);
    TrimFacts(l);
    forall i | 0 <= i < |query|
      ensures IsSpace(l[i]) <==> IsSpace(query[i])
    {
      LowerCharKeepsSpace(query[i]);
    }
  }

  lemma LowerCharKeepsSpace(c: char)
    ensures IsSpace(LowerChar(c)) <==> IsSpace(c)
  {
  }

  /** The search ignores the query's letter case. */
  lemma CaseIgnored(query: string, questions: seq<Question>, objectives: seq<Objective>, failures: seq<Failure>)
    ensures Search(Lower(query), questions, objectives, failures) == Search(query, questions, objectives, failures)
  {
    LowerKeepsBlank(query);
    LowerIdempotent(query);
  }

  /** The query is not trimmed: a leading space loses a match that the bare
      word finds. */
  lemma QueryNotTrimmed()
    ensures var q := Question("q1", "ab", "", 0, [], [], [], Draft, 0, 0);
      && Search("ab", [q], [], []).questions == [q]
      && Search(" ab", [q], [], []).questions == []
  {
    var q := Question("q1", "ab", "", 0, [], [], [], Draft, 0, 0);
    assert Lower("ab") == "ab";
    assert Lower(" ab") == " ab";
    assert StartsWith("ab", "ab");
    assert !Blank("ab") by { TrimFacts("ab"); assert !IsSpace("ab"[0]); }
    assert !Blank(" ab") by { TrimFacts(" ab"); assert !IsSpace(" ab"[1]); }
    assert QuestionMatches("ab", q);
    if Contains("ab", " ab") {
      ContainsFirstChar("ab", " ab");
    }
    if Contains("", " ab") {
      ContainsFirstChar("", " ab");
    }
    assert !QuestionMatches(" ab", q);
  }
}
