/** The creation dialog of components/CreationModal.tsx: the records its
    submit builds, its two submit gates, and the edits of the key-result
    drafts. The clock reading is the parameter `now`, in milliseconds, used
    for both the ids and the time stamps. */
module CreationModal {
  import opened Strings
  import opened Seqs
  import opened Domain
  import opened DomainRules

  const DEFAULT_METRIC: string := "Boolean"
  const OKR_TITLE_MIN: nat := 5
  const COMMA: char := ','

  datatype Tab = QA | OKR

  /** A key-result draft, `{ title, metric }`. */
  datatype KRDraft = KRDraft(title: string, metric: string)

  const EMPTY_DRAFT: KRDraft := KRDraft("", "")

  /** Every piece, trimmed. */
  function TrimAll(pieces: seq<string>): (r: seq<string>)
    ensures |r| == |pieces| && forall i :: 0 <= i < |r| ==> r[i] == Trim(pieces[i])
    decreases |pieces|
  {
    if pieces == [] then [] else [Trim(pieces[0])] + TrimAll(pieces[1..])
  }

  /** A piece survives as a tag when it is not empty. */
  predicate IsTag(t: string) {
    t != ""
  }

  /** The non-empty trimmed pieces, in order. */
  function TagsOf(pieces: seq<string>): seq<string> {
    Filter(TrimAll(pieces), IsTag)
  }

  /** `qTags.split(',').map(t => t.trim()).filter(t => t)` */
  function ParseTags(s: string): seq<string> {
    TagsOf(Split(s, COMMA))
  }

  /** The kept texts are exactly the non-empty trimmed pieces. */
  lemma TrimmedKept(pieces: seq<string>, x: string)
    ensures x in TagsOf(pieces) <==> x != "" && exists k :: 0 <= k < |pieces| && x == Trim(pieces[k])
  {
    var trimmed := TrimAll(pieces);
    FilterMembership(trimmed, IsTag, x);
    if x in trimmed {
      var k :| 0 <= k < |trimmed| && trimmed[k] == x;
      assert x == Trim(pieces[k]);
    }
    if exists k :: 0 <= k < |pieces| && x == Trim(pieces[k]) {
      var k :| 0 <= k < |pieces| && x == Trim(pieces[k]);
      assert trimmed[k] == x;
    }
  }

  /** Trimming keeps only characters of the text and leaves no whitespace
      at either end. */
  lemma TrimClean(p: string, c: char)
    requires c !in p
    ensures c !in Trim(p)
    ensures Trim(p) != "" ==> !IsSpace(Trim(p)[0]) && !IsSpace(Trim(p)[|Trim(p)| - 1])
  {
    TrimFacts(p);
    var t := TrimStart(p);
    var r := TrimEnd(t);
    var k := |p| - |t|;
    forall m | 0 <= m < |r|
      ensures r[m] != c
    {
      assert r[m] == t[m];
      assert t[m] == p[k + m];
    }
  }

  /** No kept text is empty, starts or ends with whitespace, or holds a
      character no piece holds. */
  lemma TagOfIsClean(pieces: seq<string>, t: string, c: char)
    requires t in TagsOf(pieces)
    requires forall k :: 0 <= k < |pieces| ==> c !in pieces[k]
    ensures t != "" && !IsSpace(t[0]) && !IsSpace(t[|t| - 1]) && c !in t
  {
    TrimmedKept(pieces, t);
    var k :| 0 <= k < |pieces| && t == Trim(pieces[k]);
    TrimClean(pieces[k], c);
  }

  /** No tag is empty, starts or ends with whitespace, or holds a comma. */
  lemma TagsAreClean(s: string, x: string)
    requires x in ParseTags(s)
    ensures x != "" && !IsSpace(x[0]) && !IsSpace(x[|x| - 1]) && COMMA !in x
  {
    var pieces := Split(s, COMMA);
    SplitPiecesHaveNoSeparator(s, COMMA);
    forall k | 0 <= k < |pieces|
      ensures COMMA !in pieces[k]
    {
      assert forall j :: 0 <= j < |pieces[k]| ==> pieces[k][j] != COMMA;
    }
    TagOfIsClean(pieces, x, COMMA);
  }

  /** The question the QA tab submits: no links, a draft, created and
      updated at `now`. */
  function NewQuestion(title: string, content: string, level: int, tagText: string, now: int): (q: Question)
    ensures q.id == "q-" + IntToString(now) && q.title == title && q.content == content && q.level == level
    ensures q.tags == ParseTags(tagText)
    ensures q.linkedQuestionIds == [] && q.linkedOKRIds == [] && q.status == Draft
    ensures q.createdAt == now && q.updatedAt == now
  {
    Question("q-" + IntToString(now), title, content, level, ParseTags(tagText), [], [], Draft, now, now)
  }

  /** `kr.metric || 'Boolean'` */
  function MetricOr(metric: string): (m: string)
    ensures m != ""
    ensures metric != "" ==> m == metric
  {
    if metric != "" then metric else DEFAULT_METRIC
  }

  /** The drafts with a title, in order. */
  function TitledDrafts(drafts: seq<KRDraft>): seq<KRDraft> {
    Filter(drafts, (d: KRDraft) => d.title != "")
  }

  /** The key results an objective is created with: one per titled draft,
      in order, each pending, with its draft's title and a metric that falls
      back to "Boolean". */
  function NewKeyResults(drafts: seq<KRDraft>, now: int): (r: seq<KeyResult>)
    ensures |r| == |TitledDrafts(drafts)|
    ensures forall i :: 0 <= i < |r| ==>
              && r[i].id == "kr-" + IntToString(now) + "-" + IntToString(i)
              && r[i].title == TitledDrafts(drafts)[i].title && r[i].title != ""
              && r[i].metric == MetricOr(TitledDrafts(drafts)[i].metric)
              && r[i].status == Pending && r[i].linkedQuestionIds == []
              && r[i].createdAt == now && r[i].updatedAt == now
  {
    var kept := TitledDrafts(drafts);
    TitledHaveTitles(drafts);
    seq(|kept|, i requires 0 <= i < |kept| =>
      KeyResult("kr-" + IntToString(now) + "-" + IntToString(i), kept[i].title, Pending, MetricOr(kept[i].metric), [], now, now))
  }

  lemma TitledHaveTitles(drafts: seq<KRDraft>)
    ensures forall i :: 0 <= i < |TitledDrafts(drafts)| ==> TitledDrafts(drafts)[i].title != ""
  {
    forall i | 0 <= i < |TitledDrafts(drafts)|
      ensures TitledDrafts(drafts)[i].title != ""
    {
      FilterMembership(drafts, (d: KRDraft) => d.title != "", TitledDrafts(drafts)[i]);
    }
  }

  /** Some draft has a title exactly when a key result survives. */
  lemma {:induction false} SomeTitledMeansKept(drafts: seq<KRDraft>)
    ensures (exists i :: 0 <= i < |drafts| && drafts[i].title != "") <==> |TitledDrafts(drafts)| > 0
    decreases |drafts|
  {
    if drafts != [] {
      SomeTitledMeansKept(drafts[1..]);
      if exists i :: 0 <= i < |drafts| && drafts[i].title != "" {
        var i :| 0 <= i < |drafts| && drafts[i].title != "";
        if i > 0 {
          assert drafts[1..][i - 1].title != "";
        }
      }
      if exists i :: 0 <= i < |drafts[1..]| && drafts[1..][i].title != "" {
        var i :| 0 <= i < |drafts[1..]| && drafts[1..][i].title != "";
        assert drafts[i + 1].title != "";
      }
    }
  }

  /** The objective the OKR tab submits. */
  function NewObjective(title: string, description: string, drafts: seq<KRDraft>, now: int): (o: Objective)
    ensures o.id == "o-" + IntToString(now) && o.title == title && o.description == description
    ensures o.keyResults == NewKeyResults(drafts, now) && o.linkedQuestionIds == []
    ensures o.createdAt == now && o.updatedAt == now
  {
    Objective("o-" + IntToString(now), title, description, NewKeyResults(drafts, now), [], now, now)
  }

  /** `hasLinks`, the submit gate of each tab. */
  predicate HasLinks(tab: Tab, content: string, objectiveTitle: string, drafts: seq<KRDraft>) {
    if tab == QA then Contains(content, "[[") || Contains(content, "@") || |content| > 20
    else |objectiveTitle| > OKR_TITLE_MIN && exists i :: 0 <= i < |drafts| && drafts[i].title != ""
  }

  /** The QA gate is the cognitive-cost rule, and the OKR gate is the
      objective rule applied to the key results that would be created. */
  lemma GatesMatchDomainRules(content: string, objectiveTitle: string, drafts: seq<KRDraft>, now: int)
    ensures HasLinks(QA, content, objectiveTitle, drafts) <==> ValidateCognitiveCost(content)
    ensures HasLinks(OKR, content, objectiveTitle, drafts) <==> ValidateObjectiveConfig(objectiveTitle, |NewKeyResults(drafts, now)|)
  {
    SomeTitledMeansKept(drafts);
  }

  datatype Created = CreatedQuestion(question: Question) | CreatedObjective(objective: Objective)

  /** The record the active tab submits. */
  function Record(tab: Tab, qTitle: string, qContent: string, qLevel: int, qTags: string,
                  oTitle: string, oDesc: string, drafts: seq<KRDraft>, now: int): Created
  {
    if tab == QA then CreatedQuestion(NewQuestion(qTitle, qContent, qLevel, qTags, now))
    else CreatedObjective(NewObjective(oTitle, oDesc, drafts, now))
  }

  /** The dialog's form state. */
  class Form {
    var activeTab: Tab
    var qTitle: string
    var qContent: string
    var qLevel: int
    var qTags: string
    var oTitle: string
    var oDesc: string
    var keyResults: seq<KRDraft>

    constructor ()
      ensures activeTab == QA && qTitle == "" && qContent == "" && qLevel == 0 && qTags == ""
      ensures oTitle == "" && oDesc == "" && keyResults == [EMPTY_DRAFT]
    {
      activeTab, qTitle, qContent, qLevel, qTags := QA, "", "", 0, "";
      oTitle, oDesc, keyResults := "", "", [EMPTY_DRAFT];
    }

    /** `ADD KR`: one empty draft at the end. */
    method AddKeyResult()
      modifies this
      ensures keyResults == old(keyResults) + [EMPTY_DRAFT]
      ensures activeTab == old(activeTab) && oTitle == old(oTitle) && oDesc == old(oDesc)
      ensures qTitle == old(qTitle) && qContent == old(qContent) && qLevel == old(qLevel) && qTags == old(qTags)
    {
      keyResults := keyResults + [EMPTY_DRAFT];
    }

    /** The trash button of draft `idx`: that entry goes, the others keep
        their order. */
    method RemoveKeyResult(idx: int)
      modifies this
      ensures 0 <= idx < |old(keyResults)| ==> keyResults == old(keyResults)[..idx] + old(keyResults)[idx + 1..]
      ensures !(0 <= idx < |old(keyResults)|) ==> keyResults == old(keyResults)
      ensures activeTab == old(activeTab) && oTitle == old(oTitle) && oDesc == old(oDesc)
      ensures qTitle == old(qTitle) && qContent == old(qContent) && qLevel == old(qLevel) && qTags == old(qTags)
    {
      if 0 <= idx < |keyResults| {
        keyResults := keyResults[..idx] + keyResults[idx + 1..];
      }
    }

    /** Typing into draft `idx`'s title. */
    method EditKeyResultTitle(idx: nat, title: string)
      requires idx < |keyResults|
      modifies this
      ensures keyResults == old(keyResults)[idx := old(keyResults)[idx].(title := title)]
      ensures activeTab == old(activeTab) && oTitle == old(oTitle) && oDesc == old(oDesc)
      ensures qTitle == old(qTitle) && qContent == old(qContent) && qLevel == old(qLevel) && qTags == old(qTags)
    {
      keyResults := keyResults[idx := keyResults[idx].(title := title)];
    }

    /** Typing into draft `idx`'s metric. */
    method EditKeyResultMetric(idx: nat, metric: string)
      requires idx < |keyResults|
      modifies this
      ensures keyResults == old(keyResults)[idx := old(keyResults)[idx].(metric := metric)]
      ensures activeTab == old(activeTab) && oTitle == old(oTitle) && oDesc == old(oDesc)
      ensures qTitle == old(qTitle) && qContent == old(qContent) && qLevel == old(qLevel) && qTags == old(qTags)
    {
      keyResults := keyResults[idx := keyResults[idx].(metric := metric)];
    }

    /** `handleSubmit`: the active tab's record is built and handed on.
        When the create callback settles (`accepted`), the dialog closes and
        the titles, texts and drafts are reset, while the tag text, the level
        and the tab are kept; when it rejects, the awaited call throws before
        the reset and the form stays as it was. */
    method Submit(now: int, accepted: bool) returns (created: Created)
      modifies this
      ensures old(activeTab) == QA ==> created == CreatedQuestion(NewQuestion(old(qTitle), old(qContent), old(qLevel), old(qTags), now))
      ensures old(activeTab) == OKR ==> created == CreatedObjective(NewObjective(old(oTitle), old(oDesc), old(keyResults), now))
      ensures accepted ==> qTitle == "" && qContent == "" && oTitle == "" && oDesc == "" && keyResults == [EMPTY_DRAFT]
      ensures !accepted ==> qTitle == old(qTitle) && qContent == old(qContent) && oTitle == old(oTitle)
                            && oDesc == old(oDesc) && keyResults == old(keyResults)
      ensures activeTab == old(activeTab) && qLevel == old(qLevel) && qTags == old(qTags)
    {
      created := Record(activeTab, qTitle, qContent, qLevel, qTags, oTitle, oDesc, keyResults, now);
      if accepted {
        qTitle, qContent, oTitle, oDesc, keyResults := "", "", "", "", [EMPTY_DRAFT];
      }
    }
  }
}
