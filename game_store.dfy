/**
 * src/features/game/stores/useGameStore.ts: the game's status, score, high
 * score and selected character, with the high score persisted under one
 * storage key. Storage is abstract: `stored` is the value last written under
 * the key (None when absent), and `storageAvailable` is false when there is no
 * window or the storage throws, in which case reads give nothing and writes
 * are dropped.
 */
module GameStore {
  import opened Wrappers

  datatype RunnerModel = FanFan | Rabbit | Tako

  datatype GameStatus = Loading | Ready | Playing | GameOver

  /** `Math.max` on integers: the least value at least as large as both. */
  function Max(a: int, b: int): (r: int)
    ensures r >= a && r >= b
    ensures r == a || r == b
  {
    if a >= b then a else b
  }

  /**
   * `getStoredHighScore()`: 0 when storage is unavailable or holds nothing,
   * otherwise the stored value floored at 0.
   */
  function StoredHighScore(storageAvailable: bool, stored: Option<int>): (r: int)
    ensures r >= 0
    ensures !storageAvailable || stored.None? ==> r == 0
    ensures storageAvailable && stored.Some? && stored.value >= 0 ==> r == stored.value
    ensures storageAvailable && stored.Some? && stored.value < 0 ==> r == 0
  {
    if !storageAvailable then 0
    else match stored
      case None => 0
      case Some(v) => Max(0, v)
  }

  /** A high score written to working storage reads back unchanged. */
  lemma StoredHighScoreRoundTrip(h: int)
    requires h >= 0
    ensures StoredHighScore(true, Some(h)) == h
  {
  }

  class GameStore {
    var status: GameStatus
    var score: int
    var highScore: int
    var selectedModel: RunnerModel
    var isDucking: bool
    /** The value persisted under `pina-game-high-score`. */
    var stored: Option<int>
    const storageAvailable: bool

    /** The high score is never negative. */
    ghost predicate Valid()
      reads this
    {
      highScore >= 0
    }

    /** The store as created: loading, score 0, FanFan, high score read from storage. */
    constructor (storageAvailable: bool, stored: Option<int>)
      ensures Valid()
      ensures status == Loading && score == 0 && selectedModel == FanFan && !isDucking
      ensures highScore == StoredHighScore(storageAvailable, stored)
      ensures this.storageAvailable == storageAvailable && this.stored == stored
    {
      this.status := Loading;
      this.score := 0;
      this.highScore := StoredHighScore(storageAvailable, stored);
      this.selectedModel := FanFan;
      this.isDucking := false;
      this.stored := stored;
      this.storageAvailable := storageAvailable;
    }

    /** `setStatus`: any status, from any status. */
    method SetStatus(s: GameStatus)
      requires Valid()
      modifies this`status
      ensures Valid() && status == s
    {
      status := s;
    }

    /** `setScore`. */
    method SetScore(s: int)
      requires Valid()
      modifies this`score
      ensures Valid() && score == s
    {
      score := s;
    }

    /** `addScore(delta)`. */
    method AddScore(delta: int)
      requires Valid()
      modifies this`score
      ensures Valid() && score == old(score) + delta
    {
      score := score + delta;
    }

    /** Writes the high score to storage; dropped when storage is unavailable. */
    method Persist(h: int)
      modifies this`stored
      ensures stored == if storageAvailable then Some(h) else old(stored)
    {
      if storageAvailable {
        stored := Some(h);
      }
    }

    /**
     * `setHighScore(x)`: the maximum of x and the value in STORAGE (not the
     * in-memory high score), written back and kept.
     */
    method SetHighScore(x: int)
      requires Valid()
      modifies this`highScore, this`stored
      ensures Valid()
      ensures highScore == Max(StoredHighScore(storageAvailable, old(stored)), x)
      ensures highScore >= x
      ensures stored == if storageAvailable then Some(highScore) else old(stored)
    {
      var prev := StoredHighScore(storageAvailable, stored);
      var next := Max(prev, x);
      Persist(next);
      highScore := next;
    }

    /** `setSelectedModel`: only the character changes. */
    method SetSelectedModel(m: RunnerModel)
      requires Valid()
      modifies this`selectedModel
      ensures Valid() && selectedModel == m
    {
      selectedModel := m;
    }

    /** `setDucking`. */
    method SetDucking(d: bool)
      requires Valid()
      modifies this`isDucking
      ensures Valid() && isDucking == d
    {
      isDucking := d;
    }

    /** `startGame`: playing with a fresh score, from any status. */
    method StartGame()
      requires Valid()
      modifies this`status, this`score
      ensures Valid() && status == Playing && score == 0
    {
      status := Playing;
      score := 0;
    }

    /**
     * `endGame`: game over; the high score becomes the larger of itself and
     * the score, so it never decreases, and that value is persisted.
     */
    method EndGame()
      requires Valid()
      modifies this`status, this`highScore, this`stored
      ensures Valid() && status == GameOver
      ensures highScore == Max(old(highScore), score)
      ensures highScore >= old(highScore)
      ensures stored == if storageAvailable then Some(highScore) else old(stored)
    {
      var nextHigh := Max(highScore, score);
      Persist(nextHigh);
      status := GameOver;
      highScore := nextHigh;
    }

    /** `restart`: back to ready with a fresh score; the high score is kept. */
    method Restart()
      requires Valid()
      modifies this`status, this`score
      ensures Valid() && status == Ready && score == 0
    {
      status := Ready;
      score := 0;
    }
  }
}
