/**
 * fp.py, the main loop: the three-state machine (entering a name, playing,
 * game over), the per-frame physics tick, the pipe spawn timer, scoring and
 * the fire-and-forget calls to the score server.
 *
 * The module-level globals of the loop are one World value; a frame is a
 * function from World to World (AfterFrame), and class Game runs the same
 * frame on objects (Bird, Pipe) the way the source does. The clock, the
 * random draw and the flag read from the gesture controller are inputs. A
 * background request is an entry appended to the outbox; the moment its
 * answer arrives is a separate operation (OnRegistered, OnLeaderboard).
 */
module FpGame {
  import opened Wrappers
  import opened Text
  import opened Service
  import opened FpEngine
  import opened Events
  import FpGesture

  const MaxDt: real := 0.05
  const PipeSpawnTime: real := 2.0
  const MaxNameLength := 12
  const LeaderboardRefresh: real := 15.0

  datatype World = World(
    state: GameState,
    username: string,
    playerId: Option<int>,
    score: int,
    pipeTimer: real,
    startTime: real,
    lastLeaderboardUpdate: real,
    leaderboard: seq<Entry>,
    bird: BirdState,
    pipes: seq<PipeState>,
    outbox: seq<Request>,
    running: bool)

  /** The globals when the program starts. */
  const Initial := World(EnteringName, "", None, 0, 0.0, 0.0, 0.0, [], BirdStart, [], [], true)

  /** dt: the frame time in seconds, clamped to at most 0.05. */
  function ClampDt(tickMs: nat): (dt: real)
    ensures 0.0 <= dt <= MaxDt
    ensures dt == MaxDt || dt == tickMs as real / 1000.0
    ensures dt < MaxDt ==> dt == tickMs as real / 1000.0
  {
    var dt := tickMs as real / 1000.0;
    if dt > MaxDt then MaxDt else dt
  }

  /** reset_game: a new bird, no pipes, score 0, timer 0, PLAYING; name and player id kept. */
  function Reset(w: World, now: real): (r: World)
    ensures r.state == Playing && r.score == 0 && r.pipes == [] && r.pipeTimer == 0.0
    ensures r.bird == BirdStart && r.startTime == now
    ensures r == w.(state := r.state, score := 0, pipes := [], pipeTimer := 0.0, bird := BirdStart, startTime := now)
  {
    w.(bird := BirdStart, pipes := [], score := 0, state := Playing, pipeTimer := 0.0, startTime := now)
  }

  /** Confirming a name: reset_game, then a background register call for that name. */
  function StartSession(w: World, now: real): (r: World)
    ensures r.state == Playing && r.score == 0 && r.pipes == [] && r.bird == BirdStart && r.startTime == now
    ensures r.username == w.username && r.playerId == w.playerId && r.running == w.running
    ensures r.outbox == w.outbox + [Register(w.username)]
  {
    Reset(w, now).(outbox := w.outbox + [Register(w.username)])
  }

  /** submit_score_async: nothing at all for a falsy player id. */
  function SubmitRequests(id: Option<int>, score: int, duration: real): (rs: seq<Request>)
    ensures IsTruthy(id) ==> rs == [Submit(id.value, score, duration, None)]
    ensures !IsTruthy(id) ==> rs == []
  {
    if IsTruthy(id) then [Submit(id.value, score, duration, None)] else []
  }

  /** One terminal condition: GAME_OVER, a score submission and a leaderboard refresh. */
  function EndSession(w: World, now: real): (r: World)
    ensures r.state == GameOver && r.bird == w.bird && r.pipes == w.pipes && r.score == w.score
    ensures r.playerId == w.playerId && r.username == w.username && r.running == w.running
    ensures r.outbox == w.outbox
      + (if IsTruthy(w.playerId) then [Submit(w.playerId.value, w.score, now - w.startTime, None)] else [])
      + [Fetch(LeaderboardLimit)]
  {
    w.(state := GameOver,
       outbox := w.outbox + SubmitRequests(w.playerId, w.score, now - w.startTime) + [Fetch(LeaderboardLimit)])
  }

  /**
   * One KEYDOWN event. The state changes only on Return with a non-empty
   * name (to PLAYING, with a register call) and on Escape at game over (back
   * to the name screen with an empty name and the player id kept).
   */
  function AfterKey(w: World, k: Key, now: real): (r: World)
    ensures r.playerId == w.playerId && r.running == w.running && r.leaderboard == w.leaderboard
    ensures r.state != w.state <==>
      (w.state == EnteringName && k == Return && |w.username| > 0) || (w.state == GameOver && k == Escape)
    ensures w.state == EnteringName && k == Return && |w.username| > 0 ==>
      r.state == Playing && r.outbox == w.outbox + [Register(w.username)]
    ensures w.state == GameOver && k == Escape ==> r.state == EnteringName && r.username == ""
    ensures r.outbox == w.outbox || r.outbox == w.outbox + [Register(w.username)]
    ensures w.state == EnteringName && k == Return && |w.username| == 0 ==> r == w
    ensures w.state == EnteringName && k == Backspace ==> r == w.(username := DropLast(w.username))
    ensures w.state == EnteringName && k != Return && k != Backspace ==>
      r == if IsPrintable(Unicode(k)) && |w.username| < MaxNameLength then w.(username := w.username + Upper(Unicode(k))) else w
    ensures w.state == Playing ==> r == if k == Space then w.(bird := BirdFlap(w.bird)) else w
  {
    assert Unicode(Return)[0] == 13 as char;
    if w.state == EnteringName then
      if k == Return && |w.username| > 0 then StartSession(w, now)
      else if k == Backspace then w.(username := DropLast(w.username))
      else if IsPrintable(Unicode(k)) && |w.username| < MaxNameLength then
        w.(username := w.username + Upper(Unicode(k)))
      else w
    else if w.state == Playing && k == Space then w.(bird := BirdFlap(w.bird))
    else if w.state == GameOver && k == Escape then w.(state := EnteringName, username := "")
    else w
  }

  /** One event; QUIT ends the program, so nothing after it is handled. */
  function AfterEvent(w: World, e: Event, now: real): (r: World)
    ensures r.running <==> w.running && e != Quit
    ensures !w.running ==> r == w
    ensures r.playerId == w.playerId && r.leaderboard == w.leaderboard
  {
    if !w.running then w
    else match e
      case Quit => w.(running := false)
      case KeyDown(k) => AfterKey(w, k, now)
  }

  function AfterEvents(w: World, events: seq<Event>, now: real): (r: World)
    ensures r.running <==> w.running && Quit !in events
    ensures !w.running ==> r == w
    ensures r.playerId == w.playerId && r.leaderboard == w.leaderboard
    decreases |events|
  {
    if events == [] then w
    else
      var n := |events|;
      assert events == events[..n - 1] + [events[n - 1]];
      AfterEvent(AfterEvents(w, events[..n - 1], now), events[n - 1], now)
  }

  /**
   * One pass of the pipe loop for pipe i: move it, end the game if it hits
   * the bird (again, if the game already ended this frame), and give a point
   * for it if it is an unscored top pipe that has passed the bird.
   */
  function PipeTick(w: World, i: nat, dt: real, now: real): (r: World)
    requires i < |w.pipes|
    ensures |r.pipes| == |w.pipes| && r.bird == w.bird && r.playerId == w.playerId
    ensures forall j :: 0 <= j < |w.pipes| && j != i ==> r.pipes[j] == w.pipes[j]
    ensures r.username == w.username && r.pipeTimer == w.pipeTimer && r.running == w.running
    ensures var p := PipeUpdate(w.pipes[i], dt);
      && r.pipes[i] == p.(scored := p.scored || Passed(p))
      && r.score == w.score + (if !p.scored && Passed(p) then 1 else 0)
      && r.state == (if Collides(p, w.bird) then GameOver else w.state)
  {
    var p := PipeUpdate(w.pipes[i], dt);
    var w1 := w.(pipes := w.pipes[i := p]);
    var w2 := if Collides(p, w.bird) then EndSession(w1, now) else w1;
    if !p.scored && Passed(p) then w2.(score := w2.score + 1, pipes := w2.pipes[i := p.(scored := true)])
    else w2
  }

  /** The pipe loop over the first n pipes, in list order. */
  function Scan(w: World, n: nat, dt: real, now: real): (r: World)
    requires n <= |w.pipes|
    ensures |r.pipes| == |w.pipes| && r.bird == w.bird && r.playerId == w.playerId
    ensures forall j :: n <= j < |w.pipes| ==> r.pipes[j] == w.pipes[j]
    ensures r.username == w.username && r.pipeTimer == w.pipeTimer && r.running == w.running
    decreases n
  {
    if n == 0 then w else PipeTick(Scan(w, n - 1, dt, now), n - 1, dt, now)
  }

  /** The spawn timer: a new pair once more than PIPE_SPAWN_TIME has accumulated. */
  function AfterSpawn(w: World, dt: real, u: Unit): (r: World)
    ensures w.pipeTimer + dt > PipeSpawnTime ==> r == w.(pipes := w.pipes + CreatePipes(u), pipeTimer := 0.0)
    ensures w.pipeTimer + dt <= PipeSpawnTime ==> r == w.(pipeTimer := w.pipeTimer + dt)
  {
    var timer := w.pipeTimer + dt;
    if timer > PipeSpawnTime then w.(pipes := w.pipes + CreatePipes(u), pipeTimer := 0.0)
    else w.(pipeTimer := timer)
  }

  /** The bird's part of the PLAYING branch: flap, fall, and game over on the floor. */
  function AfterBird(w: World, flap: bool, dt: real, now: real): (r: World)
    ensures var step := BirdUpdate(if flap then BirdFlap(w.bird) else w.bird, dt);
      && r.bird == step.bird && r.pipes == w.pipes && r.score == w.score && r.pipeTimer == w.pipeTimer
      && r.running == w.running && r.playerId == w.playerId && r.username == w.username
      && r.state == (if step.alive then w.state else GameOver)
      && r.outbox == w.outbox + (if step.alive then [] else SubmitRequests(w.playerId, w.score, now - w.startTime) + [Fetch(LeaderboardLimit)])
  {
    var b := if flap then BirdFlap(w.bird) else w.bird;
    var step := BirdUpdate(b, dt);
    var w1 := w.(bird := step.bird);
    if !step.alive then EndSession(w1, now) else w1
  }

  /** The PLAYING branch of the loop. */
  function AfterPlayTick(w: World, flap: bool, dt: real, now: real, u: Unit): (r: World)
    ensures r.running == w.running && r.playerId == w.playerId && r.username == w.username
    ensures |r.pipes| == |w.pipes| + (if w.pipeTimer + dt > PipeSpawnTime then 2 else 0)
    ensures r.pipeTimer == if w.pipeTimer + dt > PipeSpawnTime then 0.0 else w.pipeTimer + dt
  {
    var w3 := AfterSpawn(AfterBird(w, flap, dt, now), dt, u);
    Scan(w3, |w3.pipes|, dt, now)
  }

  /** The branch of the loop for the state left by the events. */
  function AfterLogic(w: World, flap: bool, dt: real, now: real, u: Unit): (r: World)
    ensures w.state == EnteringName ==> (r.state != w.state <==> flap && |w.username| > 0)
    ensures w.state == GameOver ==> (r.state != w.state <==> flap)
    ensures w.state != Playing && r.state != w.state ==>
      r.state == Playing && r.score == 0 && r.pipes == [] && r.bird == BirdStart && r.startTime == now
    ensures w.state == EnteringName && r.state != w.state ==> r.outbox == w.outbox + [Register(w.username)]
    ensures w.state == GameOver ==> r.outbox == w.outbox && r.playerId == w.playerId
    ensures w.state != Playing && r.state == w.state ==> r == w
    ensures r.running == w.running
  {
    match w.state
    case EnteringName => if flap && |w.username| > 0 then StartSession(w, now) else w
    case Playing => AfterPlayTick(w, flap, dt, now, u)
    case GameOver => if flap then Reset(w, now) else w
  }

  /** The leaderboard refresh every 15 seconds, in every state. */
  function AfterRefresh(w: World, now: real): (r: World)
    ensures now - w.lastLeaderboardUpdate > LeaderboardRefresh ==>
      r == w.(outbox := w.outbox + [Fetch(LeaderboardLimit)], lastLeaderboardUpdate := now)
    ensures now - w.lastLeaderboardUpdate <= LeaderboardRefresh ==> r == w
    ensures now - r.lastLeaderboardUpdate <= LeaderboardRefresh
  {
    if now - w.lastLeaderboardUpdate > LeaderboardRefresh then
      w.(outbox := w.outbox + [Fetch(LeaderboardLimit)], lastLeaderboardUpdate := now)
    else w
  }

  /**
   * One iteration of the main loop: tickMs is what clock.tick returned, flap
   * what get_state returned, now the wall clock and u the random draw used
   * if a pair spawns.
   */
  function AfterFrame(w: World, tickMs: nat, events: seq<Event>, flap: bool, now: real, u: Unit): (r: World)
    ensures !w.running ==> r == w
    ensures r.running <==> w.running && Quit !in events
  {
    if !w.running then w
    else
      var w1 := AfterEvents(w, events, now);
      if !w1.running then w1
      else AfterRefresh(AfterLogic(w1, flap, ClampDt(tickMs), now, u), now)
  }

  /** The register call's callback: 200 sets PLAYER_ID (maybe to None), an exception clears it. */
  function AfterRegister(w: World, o: RegisterOutcome): (r: World)
    ensures r == w.(playerId := r.playerId)
    ensures o.RegisterRefused? ==> r.playerId == w.playerId
    ensures o.RegisterFailed? ==> r.playerId == None
    ensures o.RegisterOk? ==> r.playerId == o.playerId
  {
    match o
    case RegisterOk(id) => w.(playerId := id)
    case RegisterRefused => w
    case RegisterFailed => w.(playerId := None)
  }

  /** The fetch call's callback: a 200 replaces the cache wholesale, anything else keeps it. */
  function AfterFetch(w: World, o: FetchOutcome): (r: World)
    ensures r == w.(leaderboard := r.leaderboard)
    ensures o.FetchOk? && o.leaderboard.Some? ==> r.leaderboard == o.leaderboard.value
    ensures o.FetchOk? && o.leaderboard.None? ==> r.leaderboard == []
    ensures !o.FetchOk? ==> r.leaderboard == w.leaderboard
  {
    match o
    case FetchOk(rows) => w.(leaderboard := if rows.Some? then rows.value else [])
    case _ => w
  }

  // ---------------------------------------------------------------------
  // Invariants of the loop

  /** How many pipes in the list have passed the bird. */
  function CountPassed(ps: seq<PipeState>): nat
    decreases |ps|
  {
    if ps == [] then 0 else CountPassed(ps[..|ps| - 1]) + FpGesture.Bit(Passed(ps[|ps| - 1]))
  }

  lemma {:induction false} CountPassedAppend(a: seq<PipeState>, b: seq<PipeState>)
    ensures CountPassed(a + b) == CountPassed(a) + CountPassed(b)
    decreases |b|
  {
    if b == [] {
      assert a + b == a;
    } else {
      assert (a + b)[..|a + b| - 1] == a + b[..|b| - 1];
      CountPassedAppend(a, b[..|b| - 1]);
    }
  }

  lemma {:induction false} CountPassedUpdate(ps: seq<PipeState>, i: nat, p: PipeState)
    requires i < |ps|
    ensures CountPassed(ps[i := p]) + FpGesture.Bit(Passed(ps[i])) == CountPassed(ps) + FpGesture.Bit(Passed(p))
    decreases |ps|
  {
    var last := |ps| - 1;
    if i == last {
      assert ps[i := p][..last] == ps[..last];
    } else {
      assert ps[i := p][..last] == ps[..last][i := p];
      CountPassedUpdate(ps[..last], i, p);
    }
  }

  /** Each pipe carries its point exactly when it has passed the bird, and the score counts them. */
  ghost predicate ScoreMatchesPipes(w: World) {
    && (forall i :: 0 <= i < |w.pipes| ==> (w.pipes[i].scored <==> Passed(w.pipes[i])))
    && w.score == CountPassed(w.pipes)
  }

  /**
   * What every frame keeps: the score invariant, a name of at most 12
   * upper-case characters, a spawn timer in [0, PIPE_SPAWN_TIME] and a bird
   * inside the playfield no faster than MAX_FALL_SPEED downwards.
   */
  ghost predicate Inv(w: World) {
    && ScoreMatchesPipes(w)
    && |w.username| <= MaxNameLength
    && NoLower(w.username)
    && 0.0 <= w.pipeTimer <= PipeSpawnTime
    && 0 <= w.bird.y && w.bird.y + BirdSize <= GameHeight
    && w.bird.velocity <= MaxFallSpeed
  }

  lemma InitialInv()
    ensures Inv(Initial)
  {
  }

  lemma KeyKeepsInv(w: World, k: Key, now: real)
    requires Inv(w)
    ensures Inv(AfterKey(w, k, now))
  {
    if w.state == EnteringName && k != Return && k != Backspace && IsPrintable(Unicode(k)) && |w.username| < MaxNameLength {
      AppendUpperKeepsNoLower(w.username, Unicode(k));
    }
  }

  lemma {:induction false} EventsKeepInv(w: World, events: seq<Event>, now: real)
    requires Inv(w)
    ensures Inv(AfterEvents(w, events, now))
    decreases |events|
  {
    if events != [] {
      EventsKeepInv(w, events[..|events| - 1], now);
      var w1 := AfterEvents(w, events[..|events| - 1], now);
      match events[|events| - 1]
      case Quit =>
      case KeyDown(k) => if w1.running { KeyKeepsInv(w1, k, now); }
    }
  }

  lemma PipeTickKeepsScore(w: World, i: nat, dt: real, now: real)
    requires i < |w.pipes| && 0.0 <= dt && ScoreMatchesPipes(w)
    ensures ScoreMatchesPipes(PipeTick(w, i, dt, now))
  {
    var old_p := w.pipes[i];
    var p := PipeUpdate(old_p, dt);
    var r := PipeTick(w, i, dt, now);
    assert old_p.scored ==> Passed(p);
    if !p.scored && Passed(p) {
      CountPassedUpdate(w.pipes, i, p.(scored := true));
      assert r.pipes == w.pipes[i := p.(scored := true)];
    } else {
      CountPassedUpdate(w.pipes, i, p);
      assert r.pipes == w.pipes[i := p];
    }
  }

  lemma {:induction false} ScanKeepsScore(w: World, n: nat, dt: real, now: real)
    requires n <= |w.pipes| && 0.0 <= dt && ScoreMatchesPipes(w)
    ensures ScoreMatchesPipes(Scan(w, n, dt, now))
    decreases n
  {
    if n > 0 {
      ScanKeepsScore(w, n - 1, dt, now);
      ScanStepKeepsScore(w, n, dt, now);
    }
  }

  lemma ScanStepKeepsScore(w: World, n: nat, dt: real, now: real)
    requires 0 < n <= |w.pipes| && 0.0 <= dt && ScoreMatchesPipes(Scan(w, n - 1, dt, now))
    ensures ScoreMatchesPipes(Scan(w, n, dt, now))
  {
    PipeTickKeepsScore(Scan(w, n - 1, dt, now), n - 1, dt, now);
  }

  /** The pipe loop ends the game exactly when one of the first n pipes, once moved, overlaps the bird. */
  lemma {:induction false} ScanGameOver(w: World, n: nat, dt: real, now: real)
    requires n <= |w.pipes|
    ensures Scan(w, n, dt, now).state ==
      if exists j :: 0 <= j < n && Collides(PipeUpdate(w.pipes[j], dt), w.bird) then GameOver else w.state
    decreases n
  {
    if n > 0 {
      ScanGameOver(w, n - 1, dt, now);
      var p := PipeUpdate(w.pipes[n - 1], dt);
      assert Scan(w, n - 1, dt, now).pipes[n - 1] == w.pipes[n - 1];
      if !Collides(p, w.bird) {
        assert forall j :: 0 <= j < n && Collides(PipeUpdate(w.pipes[j], dt), w.bird) ==> j < n - 1;
      }
    }
  }

  /**
   * The terminal conditions of a PLAYING frame: it ends in GAME_OVER exactly
   * when Bird.update reports the floor or one of the pipes, including a pair
   * spawned this frame, overlaps the bird once both have moved.
   */
  lemma PlayTickGameOver(w: World, flap: bool, dt: real, now: real, u: Unit)
    requires w.state == Playing
    ensures var step := BirdUpdate(if flap then BirdFlap(w.bird) else w.bird, dt);
      var ps := if w.pipeTimer + dt > PipeSpawnTime then w.pipes + CreatePipes(u) else w.pipes;
      AfterPlayTick(w, flap, dt, now, u).state == GameOver <==>
        !step.alive || exists i :: 0 <= i < |ps| && Collides(PipeUpdate(ps[i], dt), step.bird)
  {
    var w3 := AfterSpawn(AfterBird(w, flap, dt, now), dt, u);
    ScanGameOver(w3, |w3.pipes|, dt, now);
  }

  lemma PlayTickKeepsInv(w: World, flap: bool, dt: real, now: real, u: Unit)
    requires Inv(w) && 0.0 <= dt
    ensures Inv(AfterPlayTick(w, flap, dt, now, u))
  {
    var w2 := AfterBird(w, flap, dt, now);
    BirdKeepsInv(w, flap, dt, now);
    SpawnKeepsInv(w2, dt, u);
    var w3 := AfterSpawn(w2, dt, u);
    ScanKeepsScore(w3, |w3.pipes|, dt, now);
  }

  lemma BirdKeepsInv(w: World, flap: bool, dt: real, now: real)
    requires Inv(w)
    ensures Inv(AfterBird(w, flap, dt, now))
  {
  }

  /** A new pair has not passed the bird, so the score invariant survives the spawn. */
  lemma SpawnKeepsInv(w: World, dt: real, u: Unit)
    requires Inv(w) && 0.0 <= dt
    ensures Inv(AfterSpawn(w, dt, u))
  {
    if w.pipeTimer + dt > PipeSpawnTime {
      var pair := CreatePipes(u);
      CountPassedAppend(w.pipes, pair);
      assert pair == [pair[0]] + [pair[1]];
      CountPassedAppend([pair[0]], [pair[1]]);
      assert [pair[0]][..0] == [];
      assert [pair[1]][..0] == [];
      assert CountPassed(pair) == 0;
    }
  }

  /** Every frame keeps Inv. */
  lemma FrameKeepsInv(w: World, tickMs: nat, events: seq<Event>, flap: bool, now: real, u: Unit)
    requires Inv(w)
    ensures Inv(AfterFrame(w, tickMs, events, flap, now, u))
  {
    if w.running {
      EventsKeepInv(w, events, now);
      var w1 := AfterEvents(w, events, now);
      if w1.running && w1.state == Playing {
        PlayTickKeepsInv(w1, flap, ClampDt(tickMs), now, u);
      }
    }
  }

  // ---------------------------------------------------------------------
  // Score submissions

  lemma EndSessionSubmits(w: World, now: real)
    ensures var r := EndSession(w, now);
      CountSubmits(r.outbox) == CountSubmits(w.outbox) + FpGesture.Bit(IsTruthy(w.playerId))
  {
    var subs := SubmitRequests(w.playerId, w.score, now - w.startTime);
    if IsTruthy(w.playerId) {
      CountSubmitsSnoc(w.outbox, subs[0]);
      assert w.outbox + subs == w.outbox + [subs[0]];
    } else {
      assert w.outbox + subs == w.outbox;
    }
    CountSubmitsSnoc(w.outbox + subs, Fetch(LeaderboardLimit));
  }

  lemma {:induction false} EventsSubmitNothing(w: World, events: seq<Event>, now: real)
    ensures var r := AfterEvents(w, events, now);
      r.playerId == w.playerId && CountSubmits(r.outbox) == CountSubmits(w.outbox)
    decreases |events|
  {
    if events != [] {
      EventsSubmitNothing(w, events[..|events| - 1], now);
      var w1 := AfterEvents(w, events[..|events| - 1], now);
      match events[|events| - 1]
      case Quit =>
      case KeyDown(k) =>
        if AfterKey(w1, k, now).outbox != w1.outbox {
          CountSubmitsSnoc(w1.outbox, Register(w1.username));
        }
    }
  }

  lemma {:induction false} ScanSubmitsNothingWithoutId(w: World, n: nat, dt: real, now: real)
    requires n <= |w.pipes| && !IsTruthy(w.playerId)
    ensures CountSubmits(Scan(w, n, dt, now).outbox) == CountSubmits(w.outbox)
    decreases n
  {
    if n > 0 {
      ScanSubmitsNothingWithoutId(w, n - 1, dt, now);
      var w1 := Scan(w, n - 1, dt, now);
      EndSessionSubmits(w1.(pipes := w1.pipes[n - 1 := PipeUpdate(w1.pipes[n - 1], dt)]), now);
    }
  }

  lemma PlayTickSubmitsNothingWithoutId(w: World, flap: bool, dt: real, now: real, u: Unit)
    requires !IsTruthy(w.playerId)
    ensures var r := AfterPlayTick(w, flap, dt, now, u);
      r.playerId == w.playerId && CountSubmits(r.outbox) == CountSubmits(w.outbox)
  {
    var b := if flap then BirdFlap(w.bird) else w.bird;
    EndSessionSubmits(w.(bird := BirdUpdate(b, dt).bird), now);
    var w3 := AfterSpawn(AfterBird(w, flap, dt, now), dt, u);
    ScanSubmitsNothingWithoutId(w3, |w3.pipes|, dt, now);
  }

  lemma LogicSubmitsNothingWithoutId(w: World, flap: bool, dt: real, now: real, u: Unit)
    requires !IsTruthy(w.playerId)
    ensures var r := AfterLogic(w, flap, dt, now, u);
      r.playerId == w.playerId && CountSubmits(r.outbox) == CountSubmits(w.outbox)
  {
    match w.state
    case EnteringName =>
      if flap && |w.username| > 0 {
        CountSubmitsSnoc(w.outbox, Register(w.username));
      }
    case Playing => PlayTickSubmitsNothingWithoutId(w, flap, dt, now, u);
    case GameOver =>
  }

  lemma RefreshSubmitsNothing(w: World, now: real)
    ensures var r := AfterRefresh(w, now);
      r.playerId == w.playerId && CountSubmits(r.outbox) == CountSubmits(w.outbox)
  {
    CountSubmitsSnoc(w.outbox, Fetch(LeaderboardLimit));
  }

  /**
   * Without a truthy player id (registration failed, or returned no id or id
   * 0), a frame never submits a score, and no frame changes the player id:
   * only the register callback does.
   */
  lemma NoIdNoSubmission(w: World, tickMs: nat, events: seq<Event>, flap: bool, now: real, u: Unit)
    requires !IsTruthy(w.playerId)
    ensures var r := AfterFrame(w, tickMs, events, flap, now, u);
      r.playerId == w.playerId && CountSubmits(r.outbox) == CountSubmits(w.outbox)
  {
    if w.running {
      EventsSubmitNothing(w, events, now);
      var w1 := AfterEvents(w, events, now);
      if w1.running {
        LogicSubmitsNothingWithoutId(w1, flap, ClampDt(tickMs), now, u);
        RefreshSubmitsNothing(AfterLogic(w1, flap, ClampDt(tickMs), now, u), now);
      }
    }
  }

  /** A bird 10 pixels above the floor at full fall speed reaches it in a 50 ms frame. */
  lemma FallingBirdLands()
    ensures BirdUpdate(BirdState(430, MaxFallSpeed), MaxDt) == BirdStep(BirdState(GameHeight - BirdSize, MaxFallSpeed), false)
  {
    var b := BirdState(430, MaxFallSpeed);
    assert Fallen(b, MaxDt) == MaxFallSpeed;
    assert MovedY(b, MaxDt) == 470;
  }

  /** A bottom pipe at the bird's column still overlaps the bird on the floor after a 50 ms move. */
  lemma PipeReachesLandedBird()
    ensures Collides(PipeUpdate(NewPipe(BirdX - CameraWidth, 180, true), MaxDt), BirdState(GameHeight - BirdSize, MaxFallSpeed))
  {
    assert PipeUpdate(NewPipe(BirdX - CameraWidth, 180, true), MaxDt).x == 408;
  }

  /** A PLAYING world: the bird 10 pixels above the floor at full fall speed, a bottom pipe at its column. */
  const LandingOnPipe := Initial.(state := Playing, playerId := Some(7), bird := BirdState(430, MaxFallSpeed),
                                  pipes := [NewPipe(BirdX - CameraWidth, 180, true)])

  /** The PLAYING branch of a 50 ms frame from LandingOnPipe ends the game twice. */
  lemma LandingOnPipeTick()
    ensures CountSubmits(AfterPlayTick(LandingOnPipe, false, MaxDt, 1.0, 0.0).outbox) == 2
  {
    var w := LandingOnPipe;
    FallingBirdLands();
    var w1 := w.(bird := BirdState(GameHeight - BirdSize, MaxFallSpeed));
    var w2 := EndSession(w1, 1.0);
    EndSessionSubmits(w1, 1.0);
    var w3 := AfterSpawn(w2, MaxDt, 0.0);
    assert w3 == w2.(pipeTimer := MaxDt);
    var p := PipeUpdate(w3.pipes[0], MaxDt);
    PipeReachesLandedBird();
    var w4 := w3.(pipes := w3.pipes[0 := p]);
    EndSessionSubmits(w4, 1.0);
    assert AfterBird(w, false, MaxDt, 1.0) == w2;
    assert AfterPlayTick(w, false, MaxDt, 1.0, 0.0) == Scan(w3, 1, MaxDt, 1.0) == PipeTick(w3, 0, MaxDt, 1.0);
  }

  /**
   * The terminal conditions are not idempotent: a bird that reaches the floor
   * in the same frame as it hits a pipe submits its score twice (and asks
   * for the leaderboard twice). The world before the frame, LandingOnPipe,
   * satisfies Inv, and the frame lasts 50 ms.
   */
  lemma FloorAndPipeInOneFrameSubmitTwice()
    ensures Inv(LandingOnPipe) && CountSubmits(AfterFrame(LandingOnPipe, 50, [], false, 1.0, 0.0).outbox) == 2
  {
    var w := LandingOnPipe;
    assert CountPassed(w.pipes) == 0 by {
      assert w.pipes[..0] == [];
    }
    assert ClampDt(50) == MaxDt;
    LandingOnPipeTick();
    assert AfterEvents(w, [], 1.0) == w;
    assert AfterFrame(w, 50, [], false, 1.0, 0.0) == AfterRefresh(AfterPlayTick(w, false, MaxDt, 1.0, 0.0), 1.0);
  }

  // ---------------------------------------------------------------------
  // The loop on objects

  /** The values of a list of Pipe objects. */
  function PipeValues(ps: seq<Pipe>): (vs: seq<PipeState>)
    reads ps
    ensures |vs| == |ps| && forall i :: 0 <= i < |ps| ==> vs[i] == ps[i].Value()
  {
    seq(|ps|, i requires 0 <= i < |ps| reads ps => ps[i].Value())
  }

  /** The module globals of fp.py that the loop reads and writes. */
  class Game {
    var state: GameState
    var username: string
    var playerId: Option<int>
    var score: int
    var pipeTimer: real
    var startTime: real
    var lastLeaderboardUpdate: real
    var leaderboard: seq<Entry>
    var bird: Bird
    var pipes: seq<Pipe>
    var outbox: seq<Request>
    var running: bool

    /** No Pipe object is in the list twice. */
    ghost predicate Valid()
      reads this
    {
      forall i, j :: 0 <= i < j < |pipes| ==> pipes[i] != pipes[j]
    }

    function Globals(): World
      reads this, bird, pipes
    {
      World(state, username, playerId, score, pipeTimer, startTime, lastLeaderboardUpdate, leaderboard,
            bird.Value(), PipeValues(pipes), outbox, running)
    }

    constructor ()
      ensures Valid() && Globals() == Initial
    {
      state := EnteringName;
      username := "";
      playerId := None;
      score := 0;
      pipeTimer := 0.0;
      startTime := 0.0;
      lastLeaderboardUpdate := 0.0;
      leaderboard := [];
      bird := new Bird();
      pipes := [];
      outbox := [];
      running := true;
    }

    method ResetGame(now: real)
      modifies this
      ensures Valid() && fresh(bird)
      ensures Globals() == Reset(old(Globals()), now)
    {
      bird := new Bird();
      pipes := [];
      ResetScore();
      RestartClocks(now);
    }

    /** score 0 and PLAYING. */
    method ResetScore()
      modifies this
      ensures bird == old(bird) && pipes == old(pipes)
      ensures Globals() == old(Globals()).(score := 0, state := Playing)
    {
      score, state := 0, Playing;
    }

    /** The spawn timer and the session clock of reset_game. */
    method RestartClocks(now: real)
      modifies this
      ensures bird == old(bird) && pipes == old(pipes)
      ensures Globals() == old(Globals()).(pipeTimer := 0.0, startTime := now)
    {
      pipeTimer, startTime := 0.0, now;
    }

    /** reset_game followed by a background register call, as both ways of confirming a name do. */
    method StartGame(now: real)
      modifies this
      ensures Valid() && fresh(bird)
      ensures Globals() == StartSession(old(Globals()), now)
    {
      var name := username;
      ResetGame(now);
      outbox := outbox + [Register(name)];
    }

    /** GAME_OVER, submit_score_async and fetch_leaderboard_async. */
    method EndGame(now: real)
      modifies this
      ensures bird == old(bird) && pipes == old(pipes)
      ensures Globals() == EndSession(old(Globals()), now)
    {
      state := GameOver;
      if IsTruthy(playerId) {
        outbox := outbox + [Submit(playerId.value, score, now - startTime, None)];
      }
      outbox := outbox + [Fetch(LeaderboardLimit)];
    }

    /** A key on the name screen: confirm, erase, or type one more character. */
    method NameKey(k: Key, now: real)
      requires Valid() && state == EnteringName
      modifies this
      ensures Valid() && (bird == old(bird) || fresh(bird)) && (pipes == old(pipes) || pipes == [])
      ensures Globals() == AfterKey(old(Globals()), k, now)
    {
      assert Unicode(Return)[0] == 13 as char;
      if k == Return && |username| > 0 {
        StartGame(now);
      } else if k == Backspace {
        username := DropLast(username);
      } else if IsPrintable(Unicode(k)) && |username| < MaxNameLength {
        username := username + Upper(Unicode(k));
      }
    }

    method HandleKey(k: Key, now: real)
      requires Valid()
      modifies this, bird
      ensures Valid() && (bird == old(bird) || fresh(bird)) && (pipes == old(pipes) || pipes == [])
      ensures Globals() == AfterKey(old(Globals()), k, now)
    {
      if state == EnteringName {
        NameKey(k, now);
      } else if state == Playing {
        if k == Space {
          bird.Flap();
        }
      } else if k == Escape {
        state, username := EnteringName, "";
      }
    }

    /** One event, unless a QUIT earlier in the frame has already stopped the program. */
    method HandleEvent(e: Event, now: real)
      requires Valid()
      modifies this, bird
      ensures Valid() && (bird == old(bird) || fresh(bird)) && (pipes == old(pipes) || pipes == [])
      ensures Globals() == AfterEvent(old(Globals()), e, now)
    {
      if running {
        match e {
          case Quit => running := false;
          case KeyDown(k) => HandleKey(k, now);
        }
      }
    }

    /** The event loop; QUIT stops the program before anything else is handled. */
    method HandleEvents(events: seq<Event>, now: real)
      requires Valid()
      modifies this, bird
      ensures Valid() && (bird == old(bird) || fresh(bird)) && (pipes == old(pipes) || pipes == [])
      ensures Globals() == AfterEvents(old(Globals()), events, now)
    {
      ghost var w0 := Globals();
      var i := 0;
      while i < |events|
        invariant 0 <= i <= |events|
        invariant Valid() && (bird == old(bird) || fresh(bird)) && (pipes == old(pipes) || pipes == [])
        invariant Globals() == AfterEvents(w0, events[..i], now)
      {
        assert events[..i + 1][..i] == events[..i];
        HandleEvent(events[i], now);
        assert AfterEvents(w0, events[..i + 1], now) == AfterEvent(AfterEvents(w0, events[..i], now), events[i], now);
        i := i + 1;
      }
      assert events[..|events|] == events;
    }

    /** The bird's part of the PLAYING branch. */
    method BirdTick(flap: bool, dt: real, now: real)
      modifies this, bird
      ensures bird == old(bird) && pipes == old(pipes)
      ensures Globals() == AfterBird(old(Globals()), flap, dt, now)
    {
      if flap {
        bird.Flap();
      }
      var alive := bird.Update(dt);
      if !alive {
        EndGame(now);
      }
    }

    /** The spawn timer: PIPES.extend(create_pipes()) once it runs over. */
    method Spawn(dt: real, u: Unit)
      requires Valid()
      modifies this
      ensures Valid() && bird == old(bird)
      ensures forall p :: p in pipes ==> p in old(pipes) || fresh(p)
      ensures Globals() == AfterSpawn(old(Globals()), dt, u)
    {
      pipeTimer := pipeTimer + dt;
      if pipeTimer > PipeSpawnTime {
        var top, bottom := NewPipePair(u);
        pipes := pipes + [top, bottom];
        pipeTimer := 0.0;
      }
    }

    /** One pass of the pipe loop, for the pipe at index i. */
    method PipeStep(i: nat, dt: real, now: real)
      requires Valid() && i < |pipes|
      modifies this, pipes[i]
      ensures Valid() && bird == old(bird) && pipes == old(pipes)
      ensures Globals() == PipeTick(old(Globals()), i, dt, now)
    {
      MovePipe(i, dt);
      if Collides(pipes[i].Value(), bird.Value()) {
        EndGame(now);
      }
      ScorePipe(i);
    }

    /** p.update(dt) for the pipe at index i. */
    method MovePipe(i: nat, dt: real)
      requires Valid() && i < |pipes|
      modifies pipes[i]
      ensures Globals() == old(Globals()).(pipes := old(PipeValues(pipes))[i := PipeUpdate(old(pipes[i].Value()), dt)])
    {
      ghost var vs := PipeValues(pipes);
      pipes[i].Update(dt);
      assert PipeValues(pipes) == vs[i := pipes[i].Value()];
    }

    /** The point for the pipe at index i: once, when it is an unscored top pipe that has passed the bird. */
    method ScorePipe(i: nat)
      requires Valid() && i < |pipes|
      modifies this, pipes[i]
      ensures bird == old(bird) && pipes == old(pipes)
      ensures var p := old(pipes[i].Value());
        Globals() == if !p.scored && Passed(p)
          then old(Globals()).(score := old(score) + 1, pipes := old(PipeValues(pipes))[i := p.(scored := true)])
          else old(Globals())
    {
      var p := pipes[i];
      if !p.scored && p.x + PipeWidth < BirdX && p.y == 0 {
        score := score + 1;
        ghost var vs := PipeValues(pipes);
        p.scored := true;
        assert PipeValues(pipes) == vs[i := p.Value()];
      }
    }

    /** The pipe loop, over a copy of the list taken when the loop begins. */
    method ScanPipes(dt: real, now: real)
      requires Valid()
      modifies this, set p | p in pipes
      ensures Valid() && bird == old(bird) && pipes == old(pipes)
      ensures Globals() == Scan(old(Globals()), |old(pipes)|, dt, now)
    {
      ghost var w0 := Globals();
      var i := 0;
      while i < |pipes|
        invariant 0 <= i <= |pipes| == |w0.pipes| && pipes == old(pipes) && bird == old(bird) && Valid()
        invariant Globals() == Scan(w0, i, dt, now)
      {
        PipeStep(i, dt, now);
        assert Scan(w0, i + 1, dt, now) == PipeTick(Scan(w0, i, dt, now), i, dt, now);
        i := i + 1;
      }
    }

    /** The PLAYING branch: the bird, the spawn timer, then each pipe in list order. */
    method PlayTick(flap: bool, dt: real, now: real, u: Unit)
      requires Valid()
      modifies this, bird, pipes
      ensures Valid()
      ensures Globals() == AfterPlayTick(old(Globals()), flap, dt, now, u)
    {
      BirdTick(flap, dt, now);
      Spawn(dt, u);
      ScanPipes(dt, now);
    }

    /** The branch of the loop for the current state. */
    method Logic(flap: bool, dt: real, now: real, u: Unit)
      requires Valid()
      modifies this, bird, pipes
      ensures Valid()
      ensures Globals() == AfterLogic(old(Globals()), flap, dt, now, u)
    {
      if state == EnteringName {
        if flap && |username| > 0 {
          StartGame(now);
        }
      } else if state == Playing {
        PlayTick(flap, dt, now, u);
      } else if flap {
        ResetGame(now);
      }
    }

    /** The leaderboard refresh every 15 seconds. */
    method Refresh(now: real)
      modifies this
      ensures bird == old(bird) && pipes == old(pipes) && Valid() == old(Valid())
      ensures Globals() == AfterRefresh(old(Globals()), now)
    {
      if now - lastLeaderboardUpdate > LeaderboardRefresh {
        outbox := outbox + [Fetch(LeaderboardLimit)];
        lastLeaderboardUpdate := now;
      }
    }

    /**
     * One iteration of the main loop, reading and clearing the flag of the
     * gesture controller the way get_state does.
     */
    method Frame(gesture: FpGesture.GestureController, tickMs: nat, events: seq<Event>, now: real, u: Unit)
      requires Valid()
      modifies this, bird, gesture, pipes
      ensures Valid()
      ensures Globals() == AfterFrame(old(Globals()), tickMs, events, old(gesture.gestureFlap), now, u)
      ensures gesture.gestureFlap == (old(gesture.gestureFlap) && !running)
      ensures gesture.State() == old(gesture.State())
    {
      if !running {
        return;
      }
      var dt := ClampDt(tickMs);
      HandleEvents(events, now);
      if !running {
        return;
      }
      var flap := gesture.GetState();
      Logic(flap, dt, now, u);
      Refresh(now);
    }

    /** The register callback, run when the background call ends. */
    method OnRegistered(o: RegisterOutcome)
      requires Valid()
      modifies this
      ensures Valid() && bird == old(bird) && pipes == old(pipes)
      ensures Globals() == AfterRegister(old(Globals()), o)
    {
      match o {
        case RegisterOk(id) => playerId := id;
        case RegisterRefused =>
        case RegisterFailed => playerId := None;
      }
    }

    /** The leaderboard callback, run when the background call ends. */
    method OnLeaderboard(o: FetchOutcome)
      requires Valid()
      modifies this
      ensures Valid() && bird == old(bird) && pipes == old(pipes)
      ensures Globals() == AfterFetch(old(Globals()), o)
    {
      match o {
        case FetchOk(rows) => leaderboard := if rows.Some? then rows.value else [];
        case FetchRefused =>
        case FetchFailed =>
      }
    }
  }
}
