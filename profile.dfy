/**
 * Facts the profile page derives: the user's 1-based rank on the
 * leaderboard, the progress level for the points, the progress bar, and the
 * list of achievements earned.
 */
module Profile {
  import opened Common
  import opened UserModel

  // ---------------------------------------------------------------------------
  // Rank

  /** `findIndex(u => u.email === email)`, plus one; `None` when absent. */
  function RankOf(board: seq<User>, email: string): (r: Option<nat>)
    ensures r.None? <==> forall i :: 0 <= i < |board| ==> board[i].email != email
    ensures r.Some? ==> 1 <= r.value <= |board| && board[r.value - 1].email == email
    ensures r.Some? ==> forall i :: 0 <= i < r.value - 1 ==> board[i].email != email
  {
    if board == [] then None
    else if board[0].email == email then Some(1)
    else
      var t := RankOf(board[1..], email);
      assert forall i :: 1 <= i < |board| ==> board[i] == board[1..][i - 1];
      if t.None? then None else Some(t.value + 1)
  }

  /** The board's leader has rank 1. */
  lemma LeaderRanksFirst(board: seq<User>)
    requires |board| > 0
    ensures RankOf(board, board[0].email) == Some(1)
  {
  }

  /** The rank state of the page: `userRank`, `totalUsers`, `loading`. */
  class RankState {
    var userRank: Option<nat>
    var totalUsers: nat
    var loading: bool

    constructor()
      ensures userRank.None? && totalUsers == 0 && loading
    {
      userRank, totalUsers, loading := None, 0, true;
    }

    /**
     * `fetchUserRank`: without an email nothing happens (the page keeps
     * loading); a failed fetch only ends loading; otherwise rank and size
     * come from the board.
     */
    method FetchRank(email: Option<string>, board: Option<seq<User>>)
      modifies this
      ensures !TruthyString(email) ==>
        userRank == old(userRank) && totalUsers == old(totalUsers) && loading == old(loading)
      ensures TruthyString(email) && board.None? ==>
        userRank == old(userRank) && totalUsers == old(totalUsers) && !loading
      ensures TruthyString(email) && board.Some? ==>
        userRank == RankOf(board.value, email.value) && totalUsers == |board.value| && !loading
    {
      if !TruthyString(email) {
        return;
      }
      if board.Some? {
        userRank := RankOf(board.value, email.value);
        totalUsers := |board.value|;
      }
      loading := false;
    }
  }

  // ---------------------------------------------------------------------------
  // Progress level

  datatype Level = Novice | Beginner | Intermediate | Advanced | Expert | Master

  function Ordinal(l: Level): nat
  {
    match l
    case Novice => 0
    case Beginner => 1
    case Intermediate => 2
    case Advanced => 3
    case Expert => 4
    case Master => 5
  }

  datatype Progress = Progress(level: Level, next: Level, nextAt: int)

  /** `getProgressLevel`: thresholds 1000, 500, 200, 50, tested from the top. */
  function ProgressLevel(points: int): (p: Progress)
    ensures p.level == Expert <==> points >= 1000
    ensures p.level == Advanced <==> 500 <= points < 1000
    ensures p.level == Intermediate <==> 200 <= points < 500
    ensures p.level == Beginner <==> 50 <= points < 200
    ensures p.level == Novice <==> points < 50
    ensures Ordinal(p.next) == Ordinal(p.level) + 1
  {
    if points >= 1000 then Progress(Expert, Master, 2000)
    else if points >= 500 then Progress(Advanced, Expert, 1000)
    else if points >= 200 then Progress(Intermediate, Advanced, 500)
    else if points >= 50 then Progress(Beginner, Intermediate, 200)
    else Progress(Novice, Beginner, 50)
  }

  /** More points never mean a lower level. */
  lemma LevelMonotone(p1: int, p2: int)
    requires p1 <= p2
    ensures Ordinal(ProgressLevel(p1).level) <= Ordinal(ProgressLevel(p2).level)
  {
  }

  /** Below Expert the next threshold is still ahead, and reaching it is the next level. */
  lemma NextAtAhead(points: int)
    requires ProgressLevel(points).level != Expert
    ensures ProgressLevel(points).nextAt > points
    ensures ProgressLevel(ProgressLevel(points).nextAt).level == ProgressLevel(points).next
  {
  }

  /** `Math.min(100, points / nextAt * 100)`: within [0, 100] for non-negative points. */
  function ProgressWidth(points: int): (w: real)
    ensures points >= 0 ==> 0.0 <= w <= 100.0
    ensures points >= ProgressLevel(points).nextAt ==> w == 100.0
  {
    var nextAt := ProgressLevel(points).nextAt;
    var f := points as real / nextAt as real;
    assert f * nextAt as real == points as real;
    MinReal(100.0, f * 100.0)
  }

  /** The line under the bar: points still needed, or the top message. */
  datatype ProgressText = PointsToGo(n: int) | MaxLevelAchieved

  function ProgressTextFor(points: int): (t: ProgressText)
    ensures t == MaxLevelAchieved <==> points >= 2000
    ensures t.PointsToGo? ==> t.n > 0 && t.n == ProgressLevel(points).nextAt - points
  {
    var left := ProgressLevel(points).nextAt - points;
    if left > 0 then PointsToGo(left) else MaxLevelAchieved
  }

  // ---------------------------------------------------------------------------
  // Achievements

  datatype Achievement = CenturyClub | HighAchiever | CoinCollector | TopTen | Champion

  /** The condition for each achievement; a missing rank earns neither rank badge. */
  predicate Earned(a: Achievement, points: int, coins: int, rank: Option<nat>)
  {
    match a
    case CenturyClub => points >= 100
    case HighAchiever => points >= 500
    case CoinCollector => coins >= 1000
    case TopTen => rank.Some? && rank.value != 0 && rank.value <= 10
    case Champion => rank == Some(1)
  }

  /** The order the list is built in. */
  function Position(a: Achievement): nat
  {
    match a
    case CenturyClub => 0
    case HighAchiever => 1
    case CoinCollector => 2
    case TopTen => 3
    case Champion => 4
  }

  /**
   * `getAchievements`: every earned achievement, and nothing else, in the
   * fixed order.
   */
  method GetAchievements(points: int, coins: int, rank: Option<nat>) returns (list: seq<Achievement>)
    ensures forall a :: a in list <==> Earned(a, points, coins, rank)
    ensures forall i, j :: 0 <= i < j < |list| ==> Position(list[i]) < Position(list[j])
  {
    list := [];
    if points >= 100 {
      list := list + [CenturyClub];
    }
    if points >= 500 {
      list := list + [HighAchiever];
    }
    if coins >= 1000 {
      list := list + [CoinCollector];
    }
    if rank.Some? && rank.value != 0 && rank.value <= 10 {
      list := list + [TopTen];
    }
    if rank == Some(1) {
      list := list + [Champion];
    }
  }

  /** A champion is always also in the top ten. */
  lemma ChampionIsTopTen(points: int, coins: int, rank: Option<nat>)
    requires Earned(Champion, points, coins, rank)
    ensures Earned(TopTen, points, coins, rank)
  {
  }
}
