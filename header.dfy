/**
 * src/components/header/Header.js: the table of the eight ranks and the lookup of the
 * signed-in user's rank, which falls back to the first rank for any value outside 1..8.
 */
module Header {
  import opened Wrappers
  import Helper

  datatype RankEntry = RankEntry(id: int, name: string, icon: string)

  const Ranks: seq<RankEntry> := [
    RankEntry(1, "کهربا", "/ranks/rank-1.png"),
    RankEntry(2, "اوپال", "/ranks/rank-2.png"),
    RankEntry(3, "یشم", "/ranks/rank-3.png"),
    RankEntry(4, "مرمر", "/ranks/rank-4.png"),
    RankEntry(5, "فیروزه", "/ranks/rank-5.png"),
    RankEntry(6, "زمرد", "/ranks/rank-6.png"),
    RankEntry(7, "یاقوت", "/ranks/rank-7.png"),
    RankEntry(8, "الماس", "/ranks/rank-8.png")
  ]

  /** The table lists the ranks in order: entry `k` is rank `k + 1`. */
  lemma RanksInOrder()
    ensures |Ranks| == 8
    ensures forall k :: 0 <= k < |Ranks| ==> Ranks[k].id == k + 1
  {
  }

  /**
   * `ranks[(rank || 1) - 1] || ranks[0]`: an absent or zero rank reads as 1, and an index
   * outside the table falls back to the first entry.
   */
  function UserRank(rank: Option<int>): (e: RankEntry)
    ensures e in Ranks
    ensures rank.Some? && 1 <= rank.value <= 8 ==> e.id == rank.value
    ensures !(rank.Some? && 1 <= rank.value <= 8) ==> e == Ranks[0]
  {
    var r := if rank.None? || rank.value == 0 then 1 else rank.value;
    if 0 <= r - 1 < |Ranks| then Ranks[r - 1] else Ranks[0]
  }

  /** Every rank the server computes from a score is shown as itself, never as the fallback. */
  lemma ComputedRankShown(totalScore: int)
    ensures UserRank(Some(Helper.CalculateRank(totalScore))).id == Helper.CalculateRank(totalScore)
  {
  }

  /** A rank outside the table, such as 9 or -1, is shown as the first rank. */
  lemma OutOfRangeFallsBack()
    ensures UserRank(Some(9)) == Ranks[0] && UserRank(Some(-1)) == Ranks[0] && UserRank(None) == Ranks[0]
  {
  }
}
