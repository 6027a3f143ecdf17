/** The business rules of services/DomainRules.ts: the cognitive-cost check
    on question content, entropy decay of a node by its age, and the
    objective configuration check. */
module DomainRules {
  import opened Strings

  const MS_PER_DAY: int := 1000 * 60 * 60 * 24

  /** Days a node stays fully fresh. */
  const FRESH_DAYS: real := 14.0

  /** Days of linear decay after the fresh period. */
  const DECAY_DAYS: real := 60.0

  /** The opacity a fully decayed node keeps. */
  const ENTROPY_FLOOR: real := 0.3

  /** Longer content stands alone without any anchor. */
  const MIN_STANDALONE_LENGTH: nat := 20

  /** The law of resistance: content links to knowledge (`[[`), anchors to
      an asset (`@`) or is long enough to stand alone. */
  predicate ValidateCognitiveCost(content: string) {
    Contains(content, "[[") || Contains(content, "@") || |content| > MIN_STANDALONE_LENGTH
  }

  /** Content that pays the cost keeps paying it however it is extended. */
  lemma CognitiveCostMonotone(before: string, content: string, after: string)
    requires ValidateCognitiveCost(content)
    ensures ValidateCognitiveCost(before + content + after)
  {
    if Contains(content, "[[") {
      ContainsInContext(before, content, after, "[[");
    } else if Contains(content, "@") {
      ContainsInContext(before, content, after, "@");
    }
  }

  /** Short content with neither anchor fails; one anchor character alone
      already passes. */
  lemma CognitiveCostExamples()
    ensures !ValidateCognitiveCost("why?")
    ensures ValidateCognitiveCost("@")
    ensures ValidateCognitiveCost("see [[q-1]]")
  {
    if Contains("why?", "[[") {
      ContainsFirstChar("why?", "[[");
    }
    ContainsChar("why?", '@');
    ContainsChar("@", '@');
    ContainsAt("see [[q-1]]", "[[", 4);
  }

  function Max(a: real, b: real): real {
    if a >= b then a else b
  }

  /** Age in days at time `now` of something last updated at `updated`. */
  function DaysOld(updated: int, now: int): real {
    (now - updated) as real / MS_PER_DAY as real
  }

  /** The law of entropy: 1.0 for the first 14 days, then a linear fall over
      60 days that stops at 0.3. */
  function CalculateEntropy(updated: int, now: int): (e: real)
    ensures ENTROPY_FLOOR <= e <= 1.0
    ensures DaysOld(updated, now) <= FRESH_DAYS ==> e == 1.0
    ensures DaysOld(updated, now) >= FRESH_DAYS + (1.0 - ENTROPY_FLOOR) * DECAY_DAYS ==> e == ENTROPY_FLOOR
  {
    var days := DaysOld(updated, now);
    if days <= FRESH_DAYS then 1.0
    else Max(ENTROPY_FLOOR, 1.0 - (days - FRESH_DAYS) / DECAY_DAYS)
  }

  /** Entropy never grows with age. */
  lemma EntropyMonotone(updated1: int, updated2: int, now: int)
    requires updated2 <= updated1
    ensures CalculateEntropy(updated2, now) <= CalculateEntropy(updated1, now)
  {
    var d1 := DaysOld(updated1, now);
    var d2 := DaysOld(updated2, now);
    assert d1 <= d2 by {
      assert now - updated1 <= now - updated2;
    }
    if d1 > FRESH_DAYS {
      assert (d1 - FRESH_DAYS) / DECAY_DAYS <= (d2 - FRESH_DAYS) / DECAY_DAYS;
    }
  }

  /** Strictly inside the decay window the factor is the linear formula and
      stays above the floor. */
  lemma EntropyDecayWindow(updated: int, now: int)
    requires FRESH_DAYS < DaysOld(updated, now) < FRESH_DAYS + (1.0 - ENTROPY_FLOOR) * DECAY_DAYS
    ensures CalculateEntropy(updated, now) == 1.0 - (DaysOld(updated, now) - FRESH_DAYS) / DECAY_DAYS
    ensures ENTROPY_FLOOR < CalculateEntropy(updated, now) < 1.0
  {
  }

  /** Halfway down: a node 44 days old has entropy 0.5; one 74 days old has
      reached the floor. */
  lemma EntropyMilestones(updated: int)
    ensures CalculateEntropy(updated, updated + 44 * MS_PER_DAY) == 0.5
    ensures CalculateEntropy(updated, updated + 74 * MS_PER_DAY) == ENTROPY_FLOOR
  {
    assert DaysOld(updated, updated + 44 * MS_PER_DAY) == 44.0;
    assert DaysOld(updated, updated + 74 * MS_PER_DAY) == 74.0;
  }

  /** A strategic objective: a title longer than 5 characters and at least
      one key result. */
  predicate ValidateObjectiveConfig(title: string, krCount: int) {
    |title| > 5 && krCount > 0
  }
}
