/** The question feed of components/QAView.tsx: the "cognitive cost" submit
    gate, the level filter, the crystallized flag of a card, and the
    composer's input state with its asset and link menus. Rendering is not
    part of this model. */
module QAView {
  import opened Strings
  import opened Seqs
  import opened Domain
  import opened DomainRules

  const ASSET_MARK: string := "@"
  const LINK_OPEN: string := "[["
  const LINK_CLOSE: string := "]]"

  /** The content links to knowledge or anchors to an asset. */
  predicate HasPaidCost(content: string) {
    Contains(content, LINK_OPEN) || Contains(content, ASSET_MARK)
  }

  /** The send button's gate: non-blank content that has paid the cost. */
  predicate CanSubmit(content: string) {
    |Trim(content)| > 0 && HasPaidCost(content)
  }

  /** Content that has paid the cost is never blank, so the gate is the cost
      alone; paying it passes the domain rule too, but long content without
      an anchor passes the domain rule and not this gate. */
  lemma SubmitGateIsPaidCost(content: string)
    ensures CanSubmit(content) <==> HasPaidCost(content)
    ensures HasPaidCost(content) ==> ValidateCognitiveCost(content)
  {
    if HasPaidCost(content) {
      var c: char;
      if Contains(content, LINK_OPEN) {
        ContainsFirstChar(content, LINK_OPEN);
        c := '[';
      } else {
        ContainsFirstChar(content, ASSET_MARK);
        c := '@';
      }
      var i :| 0 <= i < |content| && content[i] == c;
      TrimFacts(content);
      assert !IsSpace(content[i]);
    }
  }

  /** Long text with no anchor character passes the domain rule but not
      the composer's gate. */
  lemma LongPlainTextBlocked(s: string)
    requires |s| > MIN_STANDALONE_LENGTH
    requires forall i :: 0 <= i < |s| ==> s[i] != '@' && s[i] != '['
    ensures ValidateCognitiveCost(s) && !CanSubmit(s)
  {
    if Contains(s, LINK_OPEN) {
      ContainsFirstChar(s, LINK_OPEN);
    }
    if Contains(s, ASSET_MARK) {
      ContainsFirstChar(s, ASSET_MARK);
    }
  }

  /** The level chip: every level, or one. */
  datatype LevelFilter = All | Level(level: int)

  /** The `.filter` test for one level. */
  function AtLevel(level: int): Question -> bool {
    (q: Question) => q.level == level
  }

  /** `filtered`: the questions at the chosen level, in their order and
      with their multiplicity, as `.filter` keeps them. */
  function Filtered(questions: seq<Question>, f: LevelFilter): (r: seq<Question>)
    ensures f.All? ==> r == questions
    ensures f.Level? ==> r == Filter(questions, AtLevel(f.level))
    ensures forall q :: q in r <==> q in questions && (f.All? || q.level == f.level)
  {
    if f.All? then questions
    else
      var r := Filter(questions, AtLevel(f.level));
      assert forall q :: q in r <==> q in questions && q.level == f.level by {
        forall q
          ensures q in r <==> q in questions && q.level == f.level
        {
          FilterMembership(questions, AtLevel(f.level), q);
        }
      }
      r
  }

  /** A card is crystallized when its question links to some objective. */
  predicate IsCrystallized(q: Question) {
    q.linkedOKRIds != []
  }

  /** `s.replace(/suffix$/, '')`: one trailing occurrence is removed. */
  function StripSuffix(s: string, suffix: string): (r: string)
    ensures EndsWith(s, suffix) ==> r + suffix == s
    ensures !EndsWith(s, suffix) ==> r == s
  {
    if EndsWith(s, suffix) then s[..|s| - |suffix|] else s
  }

  /** Dropping a final character that `sub` does not use keeps `sub`. */
  lemma {:induction false} ContainsDropLast(a: string, c: char, sub: string)
    requires c !in sub && Contains(a + [c], sub)
    ensures Contains(a, sub)
    decreases |a|
  {
    if StartsWith(a + [c], sub) {
      if |sub| > |a| {
        LastCharUsed(a, c, sub);
        assert false;
      }
      assert a[..|sub|] == (a + [c])[..|sub|];
    } else if a != [] {
      assert (a + [c])[1..] == a[1..] + [c];
      ContainsDropLast(a[1..], c, sub);
    }
  }

  /** A prefix of `a + [c]` as long as it uses `c`. */
  lemma LastCharUsed(a: string, c: char, sub: string)
    requires |sub| == |a| + 1 && StartsWith(a + [c], sub)
    ensures c in sub
  {
    assert sub[|a|] == (a + [c])[|a|];
  }

  /** Stripping a trailing asset mark or link opener keeps the other anchor. */
  lemma StripKeepsOtherAnchor(s: string)
    ensures Contains(s, LINK_OPEN) ==> Contains(StripSuffix(s, ASSET_MARK), LINK_OPEN)
    ensures Contains(s, ASSET_MARK) ==> Contains(StripSuffix(s, LINK_OPEN), ASSET_MARK)
  {
    var a := StripSuffix(s, ASSET_MARK);
    if EndsWith(s, ASSET_MARK) && Contains(s, LINK_OPEN) {
      assert s == a + ['@'];
      ContainsDropLast(a, '@', LINK_OPEN);
    }
    var l := StripSuffix(s, LINK_OPEN);
    if EndsWith(s, LINK_OPEN) && Contains(s, ASSET_MARK) {
      assert s == (l + ['[']) + ['['];
      ContainsDropLast(l + ['['], '[', ASSET_MARK);
      ContainsDropLast(l, '[', ASSET_MARK);
    }
  }

  /** An inserted asset token is an asset mark, and a link opener before
      it survives. */
  lemma AssetInserted(prev: string, token: string)
    ensures var c := StripSuffix(prev, ASSET_MARK) + ASSET_MARK + token + " ";
      Contains(c, ASSET_MARK) && (Contains(prev, LINK_OPEN) ==> Contains(c, LINK_OPEN))
  {
    var kept := StripSuffix(prev, ASSET_MARK);
    var c := kept + ASSET_MARK + token + " ";
    assert c[|kept|..|kept| + 1] == ASSET_MARK;
    ContainsAt(c, ASSET_MARK, |kept|);
    if Contains(prev, LINK_OPEN) {
      StripKeepsOtherAnchor(prev);
      ContainsInContext([], kept, ASSET_MARK + token + " ", LINK_OPEN);
      assert [] + kept + (ASSET_MARK + token + " ") == c;
    }
  }

  /** An inserted link token opens a link, and an asset mark before it
      survives. */
  lemma LinkInserted(prev: string, token: string)
    ensures var c := StripSuffix(prev, LINK_OPEN) + LINK_OPEN + token + LINK_CLOSE + " ";
      Contains(c, LINK_OPEN) && (Contains(prev, ASSET_MARK) ==> Contains(c, ASSET_MARK))
  {
    var kept := StripSuffix(prev, LINK_OPEN);
    var c := kept + LINK_OPEN + token + LINK_CLOSE + " ";
    assert c[|kept|..|kept| + 2] == LINK_OPEN;
    ContainsAt(c, LINK_OPEN, |kept|);
    if Contains(prev, ASSET_MARK) {
      StripKeepsOtherAnchor(prev);
      ContainsInContext([], kept, LINK_OPEN + token + LINK_CLOSE + " ", ASSET_MARK);
      assert [] + kept + (LINK_OPEN + token + LINK_CLOSE + " ") == c;
    }
  }

  datatype TokenKind = Asset | Link

  /** The composer's state. */
  class Composer {
    var inputContent: string
    var showAssetMenu: bool
    var showLinkMenu: bool

    /** At most one menu is open, and an open menu's anchor is in the text. */
    predicate Valid()
      reads this
    {
      && !(showAssetMenu && showLinkMenu)
      && (showAssetMenu ==> Contains(inputContent, ASSET_MARK))
      && (showLinkMenu ==> Contains(inputContent, LINK_OPEN))
    }

    constructor ()
      ensures Valid() && inputContent == "" && !showAssetMenu && !showLinkMenu
    {
      inputContent, showAssetMenu, showLinkMenu := "", false, false;
    }

    /** `handleInput`: a trailing "@" opens the asset menu, else a trailing
        "[[" opens the link menu, each closing the other; otherwise a menu
        only closes once its anchor is gone. */
    method HandleInput(val: string)
      requires Valid()
      modifies this
      ensures Valid() && inputContent == val
      ensures EndsWith(val, ASSET_MARK) ==> showAssetMenu && !showLinkMenu
      ensures !EndsWith(val, ASSET_MARK) && EndsWith(val, LINK_OPEN) ==> showLinkMenu && !showAssetMenu
      ensures !EndsWith(val, ASSET_MARK) && !EndsWith(val, LINK_OPEN) ==>
                showAssetMenu == (old(showAssetMenu) && Contains(val, ASSET_MARK))
                && showLinkMenu == (old(showLinkMenu) && Contains(val, LINK_OPEN))
    {
      inputContent := val;
      if EndsWith(val, ASSET_MARK) {
        EndsWithContains(val, ASSET_MARK);
        showAssetMenu, showLinkMenu := true, false;
      } else if EndsWith(val, LINK_OPEN) {
        EndsWithContains(val, LINK_OPEN);
        showLinkMenu, showAssetMenu := true, false;
      } else {
        if !Contains(val, ASSET_MARK) {
          showAssetMenu := false;
        }
        if !Contains(val, LINK_OPEN) {
          showLinkMenu := false;
        }
      }
    }

    /** `insertToken`: the trailing trigger is replaced by the full token
        and its menu closes; the other menu stays as it was. */
    method InsertToken(token: string, kind: TokenKind)
      requires Valid()
      modifies this
      ensures Valid() && HasPaidCost(inputContent)
      ensures kind == Asset ==> inputContent == StripSuffix(old(inputContent), ASSET_MARK) + ASSET_MARK + token + " "
                                && !showAssetMenu && showLinkMenu == old(showLinkMenu)
      ensures kind == Link ==> inputContent == StripSuffix(old(inputContent), LINK_OPEN) + LINK_OPEN + token + LINK_CLOSE + " "
                               && !showLinkMenu && showAssetMenu == old(showAssetMenu)
    {
      var prev := inputContent;
      if kind == Asset {
        AssetInserted(prev, token);
        inputContent := StripSuffix(prev, ASSET_MARK) + ASSET_MARK + token + " ";
        showAssetMenu := false;
      } else {
        LinkInserted(prev, token);
        inputContent := StripSuffix(prev, LINK_OPEN) + LINK_OPEN + token + LINK_CLOSE + " ";
        showLinkMenu := false;
      }
    }
  }
}
