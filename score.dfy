/** The two players' scores (duel/Score.java). */
module Scores {

  class Score {
    var leftPlayerScore: int
    var rightPlayerScore: int

    constructor ()
      ensures leftPlayerScore == 0 && rightPlayerScore == 0
    {
      leftPlayerScore := 0;
      rightPlayerScore := 0;
    }

    method ScoreLeftPlayer()
      modifies this
      ensures leftPlayerScore == old(leftPlayerScore) + 1
      ensures rightPlayerScore == old(rightPlayerScore)
    {
      leftPlayerScore := leftPlayerScore + 1;
    }

    method ScoreRightPlayer()
      modifies this
      ensures rightPlayerScore == old(rightPlayerScore) + 1
      ensures leftPlayerScore == old(leftPlayerScore)
    {
      rightPlayerScore := rightPlayerScore + 1;
    }

    method GetLeftPlayerScore() returns (s: int)
      ensures s == leftPlayerScore
    {
      s := leftPlayerScore;
    }

    method GetRightPlayerScore() returns (s: int)
      ensures s == rightPlayerScore
    {
      s := rightPlayerScore;
    }

    method Reset()
      modifies this
      ensures leftPlayerScore == 0 && rightPlayerScore == 0
    {
      leftPlayerScore := 0;
      rightPlayerScore := 0;
    }
  }
}
