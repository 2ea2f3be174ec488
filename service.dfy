/**
 * What the two game clients exchange with the score server, seen from the
 * client: the requests they send, the leaderboard rows they receive, and the
 * ways an HTTP call can end. The server itself is not part of this model.
 */
module Service {
  import opened Wrappers

  /**
   * One row of GET /leaderboard. best_score is MAX(score) over the player's
   * games and is null for a player who never finished one.
   */
  datatype Entry = Entry(username: string, bestScore: Option<int>, gamesPlayed: int, avgScore: Option<real>)

  /** A request a client puts on the wire. */
  datatype Request =
    | Register(username: string)
    | Submit(playerId: int, score: int, duration: real, pipesPassed: Option<int>)
    | Fetch(limit: nat)

  /** Both clients always ask for the top ten. */
  const LeaderboardLimit: nat := 10

  /** Python's `not p_id` is true of None and of 0. */
  predicate IsTruthy(id: Option<int>) {
    id.Some? && id.value != 0
  }

  /**
   * How POST /player/register ended: status 200 with the body's player_id
   * (None when the key is missing), another status, or an exception (a
   * refused connection, a timeout, a body that is not JSON).
   */
  datatype RegisterOutcome = RegisterOk(playerId: Option<int>) | RegisterRefused | RegisterFailed

  /**
   * How GET /leaderboard ended: status 200 with the body's "leaderboard" list
   * (None when the key is missing), another status, or an exception.
   */
  datatype FetchOutcome = FetchOk(leaderboard: Option<seq<Entry>>) | FetchRefused | FetchFailed

  function CountSubmits(rs: seq<Request>): (n: nat)
    ensures n <= |rs|
  {
    if rs == [] then 0 else CountSubmits(rs[..|rs| - 1]) + (if rs[|rs| - 1].Submit? then 1 else 0)
  }

  /** One more request adds one to the count exactly when it is a submission. */
  lemma CountSubmitsSnoc(rs: seq<Request>, r: Request)
    ensures CountSubmits(rs + [r]) == CountSubmits(rs) + (if r.Submit? then 1 else 0)
  {
    assert (rs + [r])[..|rs|] == rs;
  }

  lemma {:induction false} CountSubmitsAppend(a: seq<Request>, b: seq<Request>)
    ensures CountSubmits(a + b) == CountSubmits(a) + CountSubmits(b)
    decreases |b|
  {
    if b == [] {
      assert a + b == a;
    } else {
      assert (a + b)[..|a + b| - 1] == a + b[..|b| - 1];
      CountSubmitsAppend(a, b[..|b| - 1]);
    }
  }
}
