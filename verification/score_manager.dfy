/** The score keeper: a point goes to the side opposite the floor the ball
    lands on, and after every point a win check reports, without acting on
    it, whether a side has at least 3 points and a lead of more than 2. */
module ScoreManager {
  import opened Wrappers

  datatype Score = Score(side1: int, side2: int)

  /** Tag of the object the ball collided with. */
  datatype Surface = Side1Floor | Side2Floor | Untagged

  /** What the win check logs: one flag per side. */
  datatype WinReport = WinReport(side1Wins: bool, side2Wins: bool)

  /** Result of a collision: the new score and the win report, if a point was scored. */
  datatype Scored = Scored(score: Score, report: Option<WinReport>)

  const WinningScore: int := 3

  /** The score a match starts from, set by Start and by the match reset. */
  function Start(): (s: Score)
    ensures s.side1 == s.side2 == 0
    ensures !CheckWin(s).side1Wins && !CheckWin(s).side2Wins
  {
    Score(0, 0)
  }

  /** The win check: at least 3 points and a lead of at least 3. */
  function CheckWin(s: Score): (w: WinReport)
    ensures w.side1Wins <==> s.side1 >= WinningScore && s.side1 - s.side2 >= 3
    ensures w.side2Wins <==> s.side2 >= WinningScore && s.side2 - s.side1 >= 3
    ensures !(w.side1Wins && w.side2Wins)
  {
    WinReport(s.side1 >= WinningScore && s.side1 > s.side2 + 2,
              s.side2 >= WinningScore && s.side2 > s.side1 + 2)
  }

  /** The ball touching a side's floor scores for the other side; anything else scores nothing. */
  function OnCollisionEnter(s: Score, tag: Surface): (r: Scored)
    ensures tag == Side1Floor ==> r.score == Score(s.side1, s.side2 + 1)
    ensures tag == Side2Floor ==> r.score == Score(s.side1 + 1, s.side2)
    ensures tag == Untagged <==> r.report == None
    ensures tag == Untagged ==> r.score == s
    ensures r.report.Some? ==> r.report.value == CheckWin(r.score)
    ensures s.side1 <= r.score.side1 && s.side2 <= r.score.side2
  {
    match tag
    case Side1Floor =>
      var t := s.(side2 := s.side2 + 1);
      Scored(t, Some(CheckWin(t)))
    case Side2Floor =>
      var t := s.(side1 := s.side1 + 1);
      Scored(t, Some(CheckWin(t)))
    case Untagged => Scored(s, None)
  }

  /** The score after a sequence of collisions, in order. */
  function Replay(s: Score, tags: seq<Surface>): Score
    decreases |tags|
  {
    if |tags| == 0 then s else Replay(OnCollisionEnter(s, tags[0]).score, tags[1..])
  }

  /** Number of collisions in `tags` with the given surface. */
  function Count(tags: seq<Surface>, tag: Surface): nat
    decreases |tags|
  {
    if |tags| == 0 then 0 else (if tags[0] == tag then 1 else 0) + Count(tags[1..], tag)
  }

  /** Over any sequence of collisions each side gains exactly one point per
      landing on the other side's floor, so no score ever decreases. */
  lemma {:induction false} ReplayCounts(s: Score, tags: seq<Surface>)
    ensures Replay(s, tags).side1 == s.side1 + Count(tags, Side2Floor)
    ensures Replay(s, tags).side2 == s.side2 + Count(tags, Side1Floor)
    ensures s.side1 <= Replay(s, tags).side1 && s.side2 <= Replay(s, tags).side2
    decreases |tags|
  {
    if |tags| > 0 {
      ReplayCounts(OnCollisionEnter(s, tags[0]).score, tags[1..]);
    }
  }

  /** The win threshold on concrete scores: a two-point lead is not enough. */
  lemma WinExamples()
    ensures CheckWin(Score(3, 0)).side1Wins
    ensures !CheckWin(Score(3, 1)).side1Wins
    ensures !CheckWin(Score(4, 2)).side1Wins
    ensures CheckWin(Score(5, 2)).side1Wins
    ensures !CheckWin(Score(4, 3)).side1Wins && !CheckWin(Score(5, 3)).side1Wins
    ensures CheckWin(Score(0, 3)).side2Wins && !CheckWin(Score(1, 3)).side2Wins
  {
  }

  /** The two win conditions mirror each other. */
  lemma CheckWinSymmetric(s: Score)
    ensures CheckWin(s).side1Wins == CheckWin(Score(s.side2, s.side1)).side2Wins
  {
  }

}
