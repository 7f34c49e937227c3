/** Properties of the checkpoint search and of the session transitions. */
module CompactViewProperties {
  import opened Wrappers
  import opened CompactView

  /** The search from index `i` returns the entry at the highest index k in [2, i] below `mapX`. */
  lemma {:induction false} CheckpointFromFound(table: seq<int>, mapX: int, i: int, k: int)
    requires 2 <= k <= i < |table|
    requires table[k] < mapX
    requires forall j :: k < j <= i ==> table[j] >= mapX
    ensures CheckpointFrom(table, mapX, i) == table[k]
    decreases i
  {
    if i > k {
      CheckpointFromFound(table, mapX, i - 1, k);
    }
  }

  /** With no entry below `mapX` among indices 2..i, the search falls back to entry 1. */
  lemma {:induction false} CheckpointFromFallback(table: seq<int>, mapX: int, i: int)
    requires 1 <= i < |table|
    requires forall j :: 2 <= j <= i ==> table[j] >= mapX
    ensures CheckpointFrom(table, mapX, i) == table[1]
    decreases i
  {
    if i > 1 {
      CheckpointFromFallback(table, mapX, i - 1);
    }
  }

  /**
   * What the checkpoint search returns: a failure exactly when the table has
   * fewer than two entries; otherwise the entry at the highest index i >= 2
   * that lies strictly below `mapX`, every later entry being at or above it;
   * and when there is no such index, entry 1, whatever its value. Entry 0 is
   * never the answer unless it equals one of these.
   */
  lemma CheckpointCharacterization(table: seq<int>, mapX: int)
    ensures Checkpoint(table, mapX).Failure? <==> |table| < 2
    ensures |table| >= 2 && (exists i :: 2 <= i < |table| && table[i] < mapX) ==>
              exists i :: 2 <= i < |table| && table[i] < mapX
                          && Checkpoint(table, mapX) == Success(table[i])
                          && forall j :: i < j < |table| ==> table[j] >= mapX
    ensures |table| >= 2 && (forall i :: 2 <= i < |table| ==> table[i] >= mapX) ==>
              Checkpoint(table, mapX) == Success(table[1])
  {
    if |table| >= 2 {
      if exists i :: 2 <= i < |table| && table[i] < mapX {
        var k := HighestBelow(table, mapX, |table| - 1);
        CheckpointFromFound(table, mapX, |table| - 1, k);
      } else {
        CheckpointFromFallback(table, mapX, |table| - 1);
      }
    }
  }

  /** The highest index k in [2, i] whose entry is below `mapX`, when there is one. */
  lemma {:induction false} HighestBelow(table: seq<int>, mapX: int, i: int) returns (k: int)
    requires 2 <= i < |table|
    requires exists j :: 2 <= j <= i && table[j] < mapX
    ensures 2 <= k <= i && table[k] < mapX
    ensures forall j :: k < j <= i ==> table[j] >= mapX
    decreases i
  {
    if table[i] < mapX {
      k := i;
    } else {
      k := HighestBelow(table, mapX, i - 1);
    }
  }

  /**
   * The stage table [0, 5000, 12000, 20000]: at map X 13500 the checkpoint is
   * 12000; at 100, and even at 0, it is 5000 and never the origin 0.
   */
  lemma StageTableExample()
    ensures Checkpoint([0, 5000, 12000, 20000], 13500) == Success(12000)
    ensures Checkpoint([0, 5000, 12000, 20000], 100) == Success(5000)
    ensures Checkpoint([0, 5000, 12000, 20000], 0) == Success(5000)
  {
    var table := [0, 5000, 12000, 20000];
    CheckpointFromFound(table, 13500, 3, 2);
    CheckpointFromFallback(table, 100, 3);
    CheckpointFromFallback(table, 0, 3);
  }

  /**
   * When some stage beyond the first starts before the current map X,
   * restarting at the checkpoint found moves the landscape strictly back.
   */
  lemma RestartAtCheckpointRewinds(c: Config, s: SessionState)
    requires |c.stageStartingX| >= 2
    requires exists i :: 2 <= i < |c.stageStartingX| && c.stageStartingX[i] < s.mapX
    ensures Checkpoint(c.stageStartingX, s.mapX).Success?
    ensures AfterRestart(c, s, Checkpoint(c.stageStartingX, s.mapX).value).mapX < s.mapX
  {
    CheckpointCharacterization(c.stageStartingX, s.mapX);
  }

  /** Returning to the menu banks the current score: the sum of both scores is kept and the current one is 0. */
  lemma SetStartBanksScore(c: Config, s: SessionState)
    ensures AfterSetStart(c, s).currentScore == 0
    ensures AfterSetStart(c, s).totalScore + AfterSetStart(c, s).currentScore == s.totalScore + s.currentScore
  {
  }

  /** Returning to the menu twice in a row leaves the same state as once. */
  lemma SetStartIdempotent(c: Config, s: SessionState)
    ensures AfterSetStart(c, AfterSetStart(c, s)) == AfterSetStart(c, s)
  {
  }

  /** The state after returning to the menu does not depend on the state before, apart from the banked score. */
  lemma SetStartForgetsSession(c: Config, s: SessionState, t: SessionState)
    requires s.totalScore + s.currentScore == t.totalScore + t.currentScore
    ensures AfterSetStart(c, s) == AfterSetStart(c, t)
  {
  }

  /** A checkpoint restart keeps lives and scores, and the tanks follow the landscape's map X. */
  lemma RestartKeepsLivesAndScores(c: Config, s: SessionState, p: int)
    ensures AfterRestart(c, s, p).lives == s.lives
    ensures AfterRestart(c, s, p).currentScore == s.currentScore
    ensures AfterRestart(c, s, p).totalScore == s.totalScore
    ensures AfterRestart(c, s, p).tankMapX == AfterRestart(c, s, p).mapX == p
    ensures AfterRestart(c, s, p).rocketMapX == 0
  {
  }

  /** Restarting at the same position twice leaves the same state as once. */
  lemma RestartIdempotent(c: Config, s: SessionState, p: int)
    ensures AfterRestart(c, AfterRestart(c, s, p), p) == AfterRestart(c, s, p)
  {
  }
}
