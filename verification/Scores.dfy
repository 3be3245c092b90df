/** The composite sorted-set score. */
module Scores {
  import opened Types

  /** `PRIORITY_WEIGHTS`, in seconds. */
  function Weight(p: Priority): int {
    match p
    case High => 0
    case Medium => 10_000_000_000
    case Low => 20_000_000_000
  }

  /** Position in `PRIORITY_ORDER`, and in the enum PostgreSQL sorts by. */
  function Rank(p: Priority): nat {
    match p
    case High => 0
    case Medium => 1
    case Low => 2
  }

  /** `PRIORITY_WEIGHTS[priority] + send_at.timestamp()`, in microseconds. */
  function PriorityScore(p: Priority, sendAt: int): int {
    Weight(p) * SECOND + sendAt
  }

  const HORIZON: int := 10_000_000_000 * SECOND

  /** `ORDER BY priority ASC, send_at ASC`: strictly earlier. */
  predicate Before(p: Priority, s: int, q: Priority, t: int) {
    Rank(p) < Rank(q) || (p == q && s < t)
  }

  /** One number orders jobs as the pair (priority, send_at) does, as long as
      both instants lie within the 10^10 seconds a weight is worth. */
  lemma ScoreOrdersLikeThePair(p: Priority, s: int, q: Priority, t: int)
    requires 0 <= s < HORIZON && 0 <= t < HORIZON
    ensures PriorityScore(p, s) < PriorityScore(q, t) <==> Before(p, s, q, t)
    ensures PriorityScore(p, s) == PriorityScore(q, t) <==> p == q && s == t
  {
  }

  /** Outside that range it fails exactly when the later priority is due sooner by
      the weights between them: one step of 10^10 seconds each, two from high to
      low. */
  lemma WhenTheWeightDominates(p: Priority, s: int, q: Priority, t: int)
    requires Rank(p) < Rank(q)
    ensures PriorityScore(p, s) < PriorityScore(q, t)
            <==> s - t < (Rank(q) - Rank(p)) * HORIZON
  {
  }

  // Midnight, 1 January, of the years 1000 and 2026, in Unix time.
  const YEAR_1000: int := -30_610_224_000 * SECOND
  const YEAR_2026: int := 1_767_225_600 * SECOND

  /** Two dates the API accepts: a low-priority job for the year 1000 scores below
      every high-priority job of the present. */
  lemma AncientLowJobsScoreBelowHighOnes(now: int)
    requires now >= YEAR_2026
    ensures PriorityScore(Low, YEAR_1000) < PriorityScore(High, now)
  {
    WhenTheWeightDominates(High, now, Low, YEAR_1000);
  }
}
