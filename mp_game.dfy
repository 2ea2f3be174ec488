/**
 * game_multiplayer.py, the main loop: the same three screens as fp.py, run
 * one frame at a time with blocking server calls, a millisecond clock, a
 * flap cooldown, a pipe spawn period and one point per spawned pair.
 *
 * The module globals are one World value and a frame is a function from
 * World to World (AfterFrame); class Game runs the same frame on Bird and
 * Pipe objects. The frame's inputs are the clock readings, the events, the
 * camera sample, the random draw of create_pipes and how the server answers.
 * A request put on the wire is appended to the outbox.
 */
module MpGame {
  import opened Wrappers
  import opened Text
  import opened Service
  import opened Events
  import opened MpEngine

  const FlapCooldown := 200
  /** The gap a pinch needs after the previous one to start or restart a game. */
  const StartGate := 500
  const PipeFrequency := 1800
  const MaxNameLength := 15
  const LeaderboardRefresh: real := 5.0

  /**
   * One pass of the camera step: cap.read() failed, no hand was found, or
   * the integer pixel positions of the thumb tip and the index tip.
   */
  datatype CameraRead = ReadFailed | NoHand | Hand(thumbX: int, thumbY: int, indexX: int, indexY: int)

  /** How the server answers the calls made in this frame. */
  datatype Server = Server(register: RegisterOutcome, leaderboard: FetchOutcome)

  /**
   * A frame's inputs: get_ticks() at the top of the loop and inside
   * reset_game (later, if a blocking register call came in between),
   * time.time(), the event queue, the camera, the draw create_pipes would
   * make and the server's answers.
   */
  datatype FrameInput = FrameInput(
    ticks: int,
    resetTicks: int,
    wall: real,
    events: seq<Event>,
    camera: CameraRead,
    draw: PipeDraw,
    server: Server)

  datatype World = World(
    state: GameState,
    username: string,
    playerId: Option<int>,
    score: int,
    lastPipe: int,
    lastFlapTime: int,
    startTime: real,
    leaderboard: seq<Entry>,
    lastLeaderboardUpdate: real,
    bird: BirdState,
    pipes: seq<PipeState>,
    pipePassed: bool,
    /** None until the first successful camera read assigns gesture_flap. */
    gestureFlap: Option<bool>,
    /** Whether a hand was ever seen, which is what defines the frame height h. */
    handSeen: bool,
    outbox: seq<Request>,
    running: bool,
    /** The loop stopped on a NameError. */
    crashed: bool)

  /** The globals when the program starts. */
  const Initial := World(EnteringName, "", None, 0, 0, 0, 0.0, [], 0.0, BirdStart, [], false,
                         None, false, [], true, false)

  /** register_player: the player id of a 200 answer, None otherwise. */
  function RegisterResult(o: RegisterOutcome): (id: Option<int>)
    ensures o.RegisterOk? ==> id == o.playerId
    ensures !o.RegisterOk? ==> id == None
  {
    if o.RegisterOk? then o.playerId else None
  }

  /** fetch_leaderboard: the rows of a 200 answer ([] without the key), [] on any failure. */
  function FetchResult(o: FetchOutcome): (rows: seq<Entry>)
    ensures o.FetchOk? && o.leaderboard.Some? ==> rows == o.leaderboard.value
    ensures !(o.FetchOk? && o.leaderboard.Some?) ==> rows == []
  {
    if o.FetchOk? && o.leaderboard.Some? then o.leaderboard.value else []
  }

  /** submit_score: nothing for a falsy player id; pipes_passed is the score. */
  function SubmitRequests(id: Option<int>, score: int, duration: real): (rs: seq<Request>)
    ensures IsTruthy(id) ==> rs == [Submit(id.value, score, duration, Some(score))]
    ensures !IsTruthy(id) ==> rs == []
  {
    if IsTruthy(id) then [Submit(id.value, score, duration, Some(score))] else []
  }

  /**
   * reset_game: a new bird, an empty group, score 0, PLAYING, and a spawn
   * clock set back so that the first pair comes 500 ms after the reset.
   */
  function Reset(w: World, resetTicks: int, wall: real): (r: World)
    ensures r.state == Playing && r.score == 0 && r.pipes == [] && !r.pipePassed && r.bird == BirdStart
    ensures r.lastPipe + PipeFrequency == resetTicks + StartGate
  {
    w.(bird := BirdStart, pipes := [], score := 0, state := Playing,
       lastPipe := resetTicks - PipeFrequency + StartGate, pipePassed := false, startTime := wall)
  }

  /** Confirming a name: the blocking register call sets the player id, then reset_game. */
  function StartSession(w: World, inp: FrameInput): (r: World)
    ensures r.state == Playing && r.score == 0 && r.pipes == [] && r.bird == BirdStart
    ensures r.playerId == RegisterResult(inp.server.register) && r.outbox == w.outbox + [Register(w.username)]
    ensures r.username == w.username && r.lastFlapTime == w.lastFlapTime && r.running == w.running
  {
    var w1 := w.(playerId := RegisterResult(inp.server.register), outbox := w.outbox + [Register(w.username)]);
    Reset(w1, inp.resetTicks, inp.wall)
  }

  /** Game over: submit the score, then replace the cache with a fresh fetch. */
  function EndSession(w: World, inp: FrameInput): (r: World)
    ensures r.state == GameOver && r.leaderboard == FetchResult(inp.server.leaderboard)
    ensures SameGame(w, r)
  {
    w.(state := GameOver,
       outbox := w.outbox + SubmitRequests(w.playerId, w.score, inp.wall - w.startTime) + [Fetch(LeaderboardLimit)],
       leaderboard := FetchResult(inp.server.leaderboard))
  }

  /**
   * One KEYDOWN event. The state changes only on Return with a non-empty
   * name and on Escape at game over, which forgets the name and the player
   * id; Escape on the name screen ends the loop.
   */
  function AfterKey(w: World, k: Key, inp: FrameInput): (r: World)
    ensures r.lastFlapTime == w.lastFlapTime && r.crashed == w.crashed && r.gestureFlap == w.gestureFlap
    ensures r.handSeen == w.handSeen
    ensures r.state != w.state <==>
      (w.state == EnteringName && k == Return && |w.username| > 0) || (w.state == GameOver && k == Escape)
    ensures w.state == GameOver && k == Escape ==> r.state == EnteringName && r.username == "" && r.playerId == None
    ensures w.state == EnteringName && k == Escape ==> r == w.(running := false)
    ensures !(w.state == EnteringName && k == Escape) ==> r.running == w.running
    ensures w.state == EnteringName && k == Return && |w.username| == 0 ==> r == w
    ensures r.outbox == w.outbox || r.outbox == w.outbox + [Register(w.username)]
    ensures w.state == EnteringName && k == Return && |w.username| > 0 ==>
      r.state == Playing && r.playerId == RegisterResult(inp.server.register) &&
      r.outbox == w.outbox + [Register(w.username)] && r.username == w.username
    ensures w.state == EnteringName && k == Backspace ==> r == w.(username := DropLast(w.username))
    ensures w.state == EnteringName && k != Return && k != Backspace && k != Escape ==>
      r == if IsPrintable(Unicode(k)) && |w.username| < MaxNameLength then w.(username := w.username + Upper(Unicode(k))) else w
    ensures w.state == Playing ==> r == if k == Space then w.(bird := BirdFlap(w.bird)) else w
  {
    match w.state
    case EnteringName =>
      assert Unicode(Return)[0] == 13 as char;
      if k == Return && |w.username| > 0 then StartSession(w, inp)
      else if k == Backspace then w.(username := DropLast(w.username))
      else if k == Escape then w.(running := false)
      else if IsPrintable(Unicode(k)) && |w.username| < MaxNameLength then
        w.(username := w.username + Upper(Unicode(k)))
      else w
    case Playing => if k == Space then w.(bird := BirdFlap(w.bird)) else w
    case GameOver => if k == Escape then w.(state := EnteringName, username := "", playerId := None) else w
  }

  /** One event; QUIT only clears the loop flag, and the frame goes on. */
  function AfterEvent(w: World, e: Event, inp: FrameInput): (r: World)
    ensures r.crashed == w.crashed && r.gestureFlap == w.gestureFlap && r.handSeen == w.handSeen
    ensures r.lastFlapTime == w.lastFlapTime
  {
    match e
    case Quit => w.(running := false)
    case KeyDown(k) => AfterKey(w, k, inp)
  }

  function AfterEvents(w: World, events: seq<Event>, inp: FrameInput): (r: World)
    ensures r.crashed == w.crashed && r.gestureFlap == w.gestureFlap && r.handSeen == w.handSeen
    ensures r.lastFlapTime == w.lastFlapTime
    decreases |events|
  {
    if events == [] then w
    else AfterEvent(AfterEvents(w, events[..|events| - 1], inp), events[|events| - 1], inp)
  }

  /** An uncaught exception: the program stops. */
  function Crash(w: World): World {
    w.(running := false, crashed := true)
  }

  /**
   * The camera step: a failed read leaves gesture_flap as it was; a
   * successful one sets it to whether the hand pinches. The overlay text
   * uses the frame height h, which is only assigned when a hand is found, so
   * a read without a hand before any hand was ever seen raises NameError.
   */
  function AfterCamera(w: World, read: CameraRead): (r: World)
    ensures read.ReadFailed? ==> r == w
    ensures read.Hand? ==> r.gestureFlap == Some(IsPinch(read.thumbX, read.thumbY, read.indexX, read.indexY))
    ensures read.NoHand? ==> r.gestureFlap == Some(false)
    ensures r.crashed <==> w.crashed || (read.NoHand? && !w.handSeen)
  {
    match read
    case ReadFailed => w
    case NoHand =>
      var w1 := w.(gestureFlap := Some(false));
      if w.handSeen then w1 else Crash(w1)
    case Hand(tx, ty, ix, iy) => w.(gestureFlap := Some(IsPinch(tx, ty, ix, iy)), handSeen := true)
  }

  /** The pinch flap in PLAYING, gated by FLAP_COOLDOWN. */
  function FlapGate(w: World, flap: bool, ticks: int): (r: World)
    ensures r.lastFlapTime == w.lastFlapTime || (r.lastFlapTime == ticks && ticks - w.lastFlapTime > FlapCooldown)
    ensures r.lastFlapTime != w.lastFlapTime <==> flap && ticks - w.lastFlapTime > FlapCooldown
    ensures r.bird == (if flap && ticks - w.lastFlapTime > FlapCooldown then BirdFlap(w.bird) else w.bird)
  {
    if flap && ticks - w.lastFlapTime > FlapCooldown then w.(bird := BirdFlap(w.bird), lastFlapTime := ticks)
    else w
  }

  /** Spawning a pair: more than PIPE_FREQUENCY ms after the last one, appended bottom first. */
  function Spawn(w: World, inp: FrameInput): (r: World)
    ensures inp.ticks - w.lastPipe > PipeFrequency ==>
      r == w.(pipes := w.pipes + CreatePipes(inp.draw), lastPipe := inp.ticks, pipePassed := false)
    ensures inp.ticks - w.lastPipe <= PipeFrequency ==> r == w
  {
    if inp.ticks - w.lastPipe > PipeFrequency then
      w.(pipes := w.pipes + CreatePipes(inp.draw), lastPipe := inp.ticks, pipePassed := false)
    else w
  }

  /** The collision and fall check: a single game over for either or both. */
  function Judge(w: World, fell: bool, inp: FrameInput): (r: World)
    ensures r == w || r == EndSession(w, inp)
    ensures SameGame(w, r)
    ensures r.state == GameOver <==> w.state == GameOver || AnyCollides(w.pipes, w.bird) || fell
  {
    if AnyCollides(w.pipes, w.bird) || fell then EndSession(w, inp) else w
  }

  /** The parts of the world that the game-over, refresh and scoring steps leave alone. */
  predicate SameGame(a: World, b: World) {
    && a.pipes == b.pipes && a.bird == b.bird && a.lastPipe == b.lastPipe && a.lastFlapTime == b.lastFlapTime
    && a.username == b.username && a.playerId == b.playerId && a.running == b.running && a.crashed == b.crashed
    && a.score == b.score && a.pipePassed == b.pipePassed
  }

  /** One point when the oldest pipe in the group has passed the bird and this pair has not scored. */
  function ScorePass(w: World): (r: World)
    ensures r == w || (r == w.(score := w.score + 1, pipePassed := true) && !w.pipePassed)
    ensures w.pipePassed ==> r == w
    ensures r.score == w.score + 1 <==> !w.pipePassed && |w.pipes| > 0 && Right(w.pipes[0]) < BirdLeft
  {
    if !w.pipePassed && |w.pipes| > 0 && Right(w.pipes[0]) < BirdLeft then
      w.(score := w.score + 1, pipePassed := true)
    else w
  }

  /** draw_leaderboard's refresh: every 5 seconds the cache is replaced by a fresh fetch. */
  function Refresh(w: World, inp: FrameInput): (r: World)
    ensures SameGame(w, r) && r.state == w.state
    ensures r.outbox == w.outbox || r.outbox == w.outbox + [Fetch(LeaderboardLimit)]
    ensures r.outbox != w.outbox <==> inp.wall - w.lastLeaderboardUpdate > LeaderboardRefresh
    ensures r.outbox != w.outbox ==>
      r.leaderboard == FetchResult(inp.server.leaderboard) && r.lastLeaderboardUpdate == inp.wall
    ensures r.outbox == w.outbox ==> r == w
  {
    if inp.wall - w.lastLeaderboardUpdate > LeaderboardRefresh then
      w.(leaderboard := FetchResult(inp.server.leaderboard), outbox := w.outbox + [Fetch(LeaderboardLimit)],
         lastLeaderboardUpdate := inp.wall)
    else w
  }

  /** The bird and the group for one PLAYING frame, before the spawn check. */
  function Motion(w: World, flap: bool, inp: FrameInput): (r: World)
    ensures r.score == w.score && r.pipePassed == w.pipePassed && r.lastPipe == w.lastPipe
    ensures r.state == w.state && r.outbox == w.outbox && r.playerId == w.playerId && r.username == w.username
    ensures r.running == w.running && r.crashed == w.crashed
    ensures r.pipes == GroupUpdate(w.pipes) && r.bird == BirdUpdate(FlapGate(w, flap, inp.ticks).bird).bird
    ensures r.lastFlapTime == FlapGate(w, flap, inp.ticks).lastFlapTime
  {
    var w1 := FlapGate(w, flap, inp.ticks);
    w1.(bird := BirdUpdate(w1.bird).bird, pipes := GroupUpdate(w1.pipes))
  }

  /** Whether this frame's Bird.update reports a floor contact. */
  predicate Fell(w: World, flap: bool, inp: FrameInput) {
    !BirdUpdate(FlapGate(w, flap, inp.ticks).bird).alive
  }

  /** The PLAYING branch of the loop. */
  function AfterPlayTick(w: World, flap: bool, inp: FrameInput): (r: World)
    ensures r.running == w.running && r.crashed == w.crashed
  {
    var w2 := Motion(w, flap, inp);
    Refresh(ScorePass(Judge(Spawn(w2, inp), Fell(w, flap, inp), inp)), inp)
  }

  /** The branch of the loop for the state the events left, with the flap the camera set. */
  function AfterLogic(w: World, flap: bool, inp: FrameInput): (r: World)
    ensures r.running == w.running && r.crashed == w.crashed
    ensures w.state == EnteringName ==>
      (r.state != w.state <==> flap && |w.username| > 0 && inp.ticks - w.lastFlapTime > StartGate)
    ensures w.state == GameOver ==> (r.state != w.state <==> flap && inp.ticks - w.lastFlapTime > StartGate)
    ensures w.state != Playing && r.state != w.state ==>
      r.state == Playing && r.lastFlapTime == inp.ticks && r.score == 0 && r.pipes == [] && r.bird == BirdStart
    ensures w.state == EnteringName && r.state != w.state ==>
      r.playerId == RegisterResult(inp.server.register) && r.outbox == w.outbox + [Register(w.username)]
    ensures w.state == GameOver && r.state != w.state ==> r.playerId == w.playerId && r.username == w.username
    ensures w.state != Playing && r.state == w.state ==> r.lastFlapTime == w.lastFlapTime && r.score == w.score
  {
    match w.state
    case EnteringName =>
      if flap && |w.username| > 0 && inp.ticks - w.lastFlapTime > StartGate then
        StartSession(w, inp).(lastFlapTime := inp.ticks)
      else w
    case Playing => AfterPlayTick(w, flap, inp)
    case GameOver =>
      var w1 := Refresh(w, inp);
      if flap && inp.ticks - w1.lastFlapTime > StartGate then
        Reset(w1, inp.resetTicks, inp.wall).(lastFlapTime := inp.ticks)
      else w1
  }

  /**
   * One iteration of the loop. A frame that starts with the loop flag clear
   * is never run; the events, the camera and the game logic all run in a
   * frame that clears it. Reading gesture_flap before any successful camera
   * read raises NameError.
   */
  function AfterFrame(w: World, inp: FrameInput): (r: World)
    ensures !w.running ==> r == w
    ensures r.running ==> w.running
    ensures r.crashed && !w.crashed ==> !r.running
  {
    if !w.running then w
    else
      var w1 := AfterEvents(w, inp.events, inp);
      var w2 := AfterCamera(w1, inp.camera);
      if w2.crashed then w2
      else if w2.gestureFlap.None? then Crash(w2)
      else AfterLogic(w2, w2.gestureFlap.value, inp)
  }

  // ---------------------------------------------------------------------
  // Invariants of the loop

  /**
   * What every frame keeps: a name of at most 15 upper-case characters, a
   * bird between the ceiling and the floor, only pipes still on the field,
   * and a crash that has stopped the loop.
   */
  ghost predicate Inv(w: World) {
    && |w.username| <= MaxNameLength
    && NoLower(w.username)
    && Ceiling <= w.bird.top && w.bird.top + BirdSize <= GameHeight
    && (forall i :: 0 <= i < |w.pipes| ==> OnField(w.pipes[i]))
    && (w.crashed ==> !w.running)
  }

  lemma InitialInv()
    ensures Inv(Initial)
  {
  }

  lemma KeyKeepsInv(w: World, k: Key, inp: FrameInput)
    requires Inv(w)
    ensures Inv(AfterKey(w, k, inp))
  {
    if w.state == EnteringName && k != Return && k != Backspace && k != Escape
       && IsPrintable(Unicode(k)) && |w.username| < MaxNameLength {
      AppendUpperKeepsNoLower(w.username, Unicode(k));
    }
  }

  lemma {:induction false} EventsKeepInv(w: World, events: seq<Event>, inp: FrameInput)
    requires Inv(w)
    ensures Inv(AfterEvents(w, events, inp))
    decreases |events|
  {
    if events != [] {
      EventsKeepInv(w, events[..|events| - 1], inp);
      match events[|events| - 1]
      case Quit =>
      case KeyDown(k) => KeyKeepsInv(AfterEvents(w, events[..|events| - 1], inp), k, inp);
    }
  }

  lemma PlayTickKeepsInv(w: World, flap: bool, inp: FrameInput)
    requires Inv(w)
    ensures Inv(AfterPlayTick(w, flap, inp))
  {
    var w2 := Motion(w, flap, inp);
    var w3 := Spawn(w2, inp);
    if inp.ticks - w2.lastPipe > PipeFrequency {
      var pair := CreatePipes(inp.draw);
      assert w3.pipes == w2.pipes + pair;
      forall i | 0 <= i < |w3.pipes| ensures OnField(w3.pipes[i]) {
        if i >= |w2.pipes| {
          assert w3.pipes[i] == pair[i - |w2.pipes|];
        } else {
          assert w3.pipes[i] in w2.pipes;
        }
      }
    } else {
      forall i | 0 <= i < |w3.pipes| ensures OnField(w3.pipes[i]) {
        assert w3.pipes[i] in w2.pipes;
      }
    }
  }

  lemma LogicKeepsInv(w: World, flap: bool, inp: FrameInput)
    requires Inv(w)
    ensures Inv(AfterLogic(w, flap, inp))
  {
    if w.state == Playing {
      PlayTickKeepsInv(w, flap, inp);
    }
  }

  /** Every frame keeps Inv. */
  lemma FrameKeepsInv(w: World, inp: FrameInput)
    requires Inv(w)
    ensures Inv(AfterFrame(w, inp))
  {
    if w.running {
      EventsKeepInv(w, inp.events, inp);
      var w2 := AfterCamera(AfterEvents(w, inp.events, inp), inp.camera);
      if !w2.crashed && w2.gestureFlap.Some? {
        LogicKeepsInv(w2, w2.gestureFlap.value, inp);
      }
    }
  }

  /**
   * The steps after the spawn check leave the group, the spawn clock and the
   * flap clock alone; the score moves only through ScorePass.
   */
  lemma AfterSpawnKeeps(w3: World, fell: bool, inp: FrameInput)
    ensures var r := Refresh(ScorePass(Judge(w3, fell, inp)), inp);
      && r.pipes == w3.pipes && r.lastPipe == w3.lastPipe && r.lastFlapTime == w3.lastFlapTime
      && ((r.score == w3.score && r.pipePassed == w3.pipePassed)
          || (r.score == w3.score + 1 && r.pipePassed && !w3.pipePassed && |r.pipes| > 0 && Right(r.pipes[0]) < BirdLeft))
  {
    var w4 := Judge(w3, fell, inp);
    assert SameGame(w3, w4);
  }

  /**
   * LAST_FLAP_TIME moves only to the current tick, and only when the
   * previous pinch-triggered action is more than FLAP_COOLDOWN ms old, or
   * more than 500 ms old for a start or restart; so two pinch flaps are more
   * than 200 ms apart. Key presses never touch it.
   */
  lemma FlapCooldownHolds(w: World, inp: FrameInput)
    ensures var r := AfterFrame(w, inp);
      r.lastFlapTime == w.lastFlapTime ||
      (r.lastFlapTime == inp.ticks && inp.ticks - w.lastFlapTime > FlapCooldown)
    ensures var r := AfterFrame(w, inp);
      var s := AfterEvents(w, inp.events, inp).state;
      r.lastFlapTime != w.lastFlapTime && s != Playing ==> inp.ticks - w.lastFlapTime > StartGate
  {
    if w.running {
      var w2 := AfterCamera(AfterEvents(w, inp.events, inp), inp.camera);
      if !w2.crashed && w2.gestureFlap.Some? {
        LogicFlapCooldown(w2, w2.gestureFlap.value, inp);
      }
    }
  }

  /** The gates of the three screens: 200 ms in PLAYING, 500 ms for a start or a restart. */
  lemma LogicFlapCooldown(w: World, flap: bool, inp: FrameInput)
    ensures var r := AfterLogic(w, flap, inp);
      r.lastFlapTime == w.lastFlapTime ||
      (r.lastFlapTime == inp.ticks && inp.ticks - w.lastFlapTime > (if w.state == Playing then FlapCooldown else StartGate))
  {
    if w.state == Playing {
      var w2 := Motion(w, flap, inp);
      AfterSpawnKeeps(Spawn(w2, inp), Fell(w, flap, inp), inp);
    }
  }

  /**
   * At most one point per spawned pair: a PLAYING frame adds at most one
   * point, only for a pipe at the head of the group that has passed the
   * bird, and marks the pair as scored; a scored pair gives no further point
   * until the next pair spawns.
   */
  lemma PlayTickScoresOncePerPair(w: World, flap: bool, inp: FrameInput)
    ensures var r := AfterPlayTick(w, flap, inp);
      r.score == w.score || (r.score == w.score + 1 && r.pipePassed && |r.pipes| > 0 && Right(r.pipes[0]) < BirdLeft)
    ensures var r := AfterPlayTick(w, flap, inp);
      w.pipePassed && inp.ticks - w.lastPipe <= PipeFrequency ==> r.score == w.score && r.pipePassed
  {
    var w2 := Motion(w, flap, inp);
    AfterSpawnKeeps(Spawn(w2, inp), Fell(w, flap, inp), inp);
  }

  /**
   * The spawn period: a PLAYING frame adds a pair exactly when more than
   * PIPE_FREQUENCY ms have passed since the last one (or since 500 ms after
   * the reset), and then restarts the period at the current tick.
   */
  lemma PlayTickSpawnPeriod(w: World, flap: bool, inp: FrameInput)
    ensures var r := AfterPlayTick(w, flap, inp);
      var kept := GroupUpdate(w.pipes);
      if inp.ticks - w.lastPipe > PipeFrequency then
        r.lastPipe == inp.ticks && r.pipes == kept + CreatePipes(inp.draw)
      else
        r.lastPipe == w.lastPipe && r.pipes == kept
  {
    var w2 := Motion(w, flap, inp);
    AfterSpawnKeeps(Spawn(w2, inp), Fell(w, flap, inp), inp);
  }

  lemma {:induction false} EventsKeepQuit(w: World, events: seq<Event>, inp: FrameInput)
    ensures AfterEvents(w, events, inp).running ==> w.running
    ensures (exists i :: 0 <= i < |events| && events[i] == Quit) ==> !AfterEvents(w, events, inp).running
    decreases |events|
  {
    if events != [] {
      var prefix := events[..|events| - 1];
      EventsKeepQuit(w, prefix, inp);
      if exists i :: 0 <= i < |events| && events[i] == Quit {
        var i :| 0 <= i < |events| && events[i] == Quit;
        if i < |events| - 1 {
          assert prefix[i] == Quit;
        }
      }
    }
  }

  /** A QUIT event anywhere in the queue ends the loop after this frame. */
  lemma QuitEndsTheLoop(w: World, inp: FrameInput)
    requires exists i :: 0 <= i < |inp.events| && inp.events[i] == Quit
    ensures !AfterFrame(w, inp).running
  {
    EventsKeepQuit(w, inp.events, inp);
  }

  lemma {:induction false} EventsSubmitNothing(w: World, events: seq<Event>, inp: FrameInput)
    ensures CountSubmits(AfterEvents(w, events, inp).outbox) == CountSubmits(w.outbox)
    decreases |events|
  {
    if events != [] {
      var prefix := events[..|events| - 1];
      EventsSubmitNothing(w, prefix, inp);
      var w1 := AfterEvents(w, prefix, inp);
      CountSubmitsSnoc(w1.outbox, Register(w1.username));
    }
  }

  lemma EndSessionSubmits(w: World, inp: FrameInput)
    ensures CountSubmits(EndSession(w, inp).outbox) == CountSubmits(w.outbox) + (if IsTruthy(w.playerId) then 1 else 0)
  {
    var subs := SubmitRequests(w.playerId, w.score, inp.wall - w.startTime);
    if IsTruthy(w.playerId) {
      CountSubmitsSnoc(w.outbox, subs[0]);
      assert w.outbox + subs == w.outbox + [subs[0]];
    } else {
      assert w.outbox + subs == w.outbox;
    }
    CountSubmitsSnoc(w.outbox + subs, Fetch(LeaderboardLimit));
  }

  lemma RefreshSubmitsNothing(w: World, inp: FrameInput)
    ensures var r := Refresh(w, inp);
      CountSubmits(r.outbox) == CountSubmits(w.outbox) && r.playerId == w.playerId
  {
    CountSubmitsSnoc(w.outbox, Fetch(LeaderboardLimit));
  }

  lemma PlayTickSubmitsAtMostOnce(w: World, flap: bool, inp: FrameInput)
    requires w.state == Playing
    ensures var r := AfterPlayTick(w, flap, inp);
      CountSubmits(r.outbox) == CountSubmits(w.outbox) + (if IsTruthy(w.playerId) && r.state == GameOver then 1 else 0)
    ensures AfterPlayTick(w, flap, inp).playerId == w.playerId
  {
    JudgeSubmitsAtMostOnce(Spawn(Motion(w, flap, inp), inp), Fell(w, flap, inp), inp);
  }

  /** The steps after the spawn check send one score exactly when they end the game with a truthy id. */
  lemma JudgeSubmitsAtMostOnce(w3: World, fell: bool, inp: FrameInput)
    requires w3.state == Playing
    ensures var r := Refresh(ScorePass(Judge(w3, fell, inp)), inp);
      && CountSubmits(r.outbox) == CountSubmits(w3.outbox) + (if IsTruthy(w3.playerId) && r.state == GameOver then 1 else 0)
      && r.playerId == w3.playerId
  {
    EndSessionSubmits(w3, inp);
    var w5 := ScorePass(Judge(w3, fell, inp));
    RefreshSubmitsNothing(w5, inp);
  }

  lemma LogicSubmitsAtMostOnce(w: World, flap: bool, inp: FrameInput)
    ensures var r := AfterLogic(w, flap, inp);
      CountSubmits(r.outbox) == CountSubmits(w.outbox) + (if w.state == Playing && IsTruthy(w.playerId) && r.state == GameOver then 1 else 0)
    ensures w.state == Playing ==> AfterLogic(w, flap, inp).playerId == w.playerId
  {
    match w.state
    case EnteringName =>
      CountSubmitsSnoc(w.outbox, Register(w.username));
    case Playing =>
      PlayTickSubmitsAtMostOnce(w, flap, inp);
    case GameOver =>
      RefreshSubmitsNothing(w, inp);
  }

  /**
   * Unlike fp.py, a frame submits at most one score: the collision and the
   * fall share one check, and it only runs in PLAYING. Nothing is submitted
   * for a falsy player id.
   */
  lemma AtMostOneSubmissionPerFrame(w: World, inp: FrameInput)
    ensures var r := AfterFrame(w, inp);
      CountSubmits(r.outbox) <= CountSubmits(w.outbox) + 1
    ensures var r := AfterFrame(w, inp);
      !IsTruthy(r.playerId) ==> CountSubmits(r.outbox) == CountSubmits(w.outbox)
  {
    if w.running {
      EventsSubmitNothing(w, inp.events, inp);
      var w2 := AfterCamera(AfterEvents(w, inp.events, inp), inp.camera);
      if !w2.crashed && w2.gestureFlap.Some? {
        var flap := w2.gestureFlap.value;
        LogicSubmitsAtMostOnce(w2, flap, inp);
      }
    }
  }

  /**
   * gesture_flap is first assigned by a successful camera read, and the
   * frame height by a read that finds a hand: a first frame whose camera
   * read fails or finds no hand stops the program with a NameError.
   */
  lemma FirstFrameWithoutHandCrashes(inp: FrameInput)
    requires !inp.camera.Hand?
    ensures AfterFrame(Initial, inp).crashed && !AfterFrame(Initial, inp).running
  {
  }

  // ---------------------------------------------------------------------
  // The loop on objects

  /** The module globals of game_multiplayer.py that the loop reads and writes. */
  class Game {
    var state: GameState
    var username: string
    var playerId: Option<int>
    var score: int
    var lastPipe: int
    var lastFlapTime: int
    var startTime: real
    var leaderboard: seq<Entry>
    var lastLeaderboardUpdate: real
    var bird: Bird
    /** pipe_group, in insertion order. */
    var pipes: seq<Pipe>
    var pipePassed: bool
    var gestureFlap: Option<bool>
    var handSeen: bool
    var outbox: seq<Request>
    var running: bool
    var crashed: bool

    /** A sprite is in the group at most once. */
    ghost predicate Valid()
      reads this
    {
      Distinct(pipes)
    }

    function Globals(): World
      reads this, bird, pipes
    {
      World(state, username, playerId, score, lastPipe, lastFlapTime, startTime, leaderboard,
            lastLeaderboardUpdate, bird.Value(), PipeValues(pipes), pipePassed, gestureFlap, handSeen,
            outbox, running, crashed)
    }

    constructor ()
      ensures Valid() && Globals() == Initial
    {
      state := EnteringName;
      username := "";
      playerId := None;
      score := 0;
      lastPipe := 0;
      lastFlapTime := 0;
      startTime := 0.0;
      leaderboard := [];
      lastLeaderboardUpdate := 0.0;
      bird := new Bird();
      pipes := [];
      pipePassed := false;
      gestureFlap := None;
      handSeen := false;
      outbox := [];
      running := true;
      crashed := false;
    }

    /** reset_game: a new bird and an empty group, then the counters. */
    method ResetGame(resetTicks: int, wall: real)
      modifies this
      ensures Valid() && fresh(bird)
      ensures Globals() == Reset(old(Globals()), resetTicks, wall)
    {
      bird := new Bird();
      pipes := [];
      ResetScore();
      RestartClocks(resetTicks, wall);
    }

    /** score 0 and PLAYING, with no pair scored yet. */
    method ResetScore()
      modifies this
      ensures bird == old(bird) && pipes == old(pipes)
      ensures Globals() == old(Globals()).(score := 0, state := Playing, pipePassed := false)
    {
      score, state, pipePassed := 0, Playing, false;
    }

    /** The spawn clock and the session clock of reset_game. */
    method RestartClocks(resetTicks: int, wall: real)
      modifies this
      ensures bird == old(bird) && pipes == old(pipes)
      ensures Globals() == old(Globals()).(lastPipe := resetTicks - PipeFrequency + StartGate, startTime := wall)
    {
      lastPipe, startTime := resetTicks - PipeFrequency + StartGate, wall;
    }

    /** The blocking register call sets the player id, then reset_game. */
    method StartGame(inp: FrameInput)
      modifies this
      ensures Valid() && fresh(bird)
      ensures Globals() == StartSession(old(Globals()), inp)
    {
      playerId := RegisterResult(inp.server.register);
      outbox := outbox + [Register(username)];
      ResetGame(inp.resetTicks, inp.wall);
    }

    /** GAME_OVER, a score submission, and the cache replaced by a blocking fetch. */
    method EndGame(inp: FrameInput)
      modifies this
      ensures bird == old(bird) && pipes == old(pipes)
      ensures Globals() == EndSession(old(Globals()), inp)
    {
      state := GameOver;
      outbox := outbox + SubmitRequests(playerId, score, inp.wall - startTime) + [Fetch(LeaderboardLimit)];
      leaderboard := FetchResult(inp.server.leaderboard);
    }

    /** A key on the name screen. */
    method NameKey(k: Key, inp: FrameInput)
      requires Valid() && state == EnteringName
      modifies this
      ensures Valid() && (bird == old(bird) || fresh(bird)) && (pipes == old(pipes) || pipes == [])
      ensures Globals() == AfterKey(old(Globals()), k, inp)
    {
      assert Unicode(Return)[0] == 13 as char;
      if k == Return && |username| > 0 {
        StartGame(inp);
      } else if k == Backspace {
        username := DropLast(username);
      } else if k == Escape {
        running := false;
      } else if IsPrintable(Unicode(k)) && |username| < MaxNameLength {
        username := username + Upper(Unicode(k));
      }
    }

    method HandleKey(k: Key, inp: FrameInput)
      requires Valid()
      modifies this, bird
      ensures Valid() && (bird == old(bird) || fresh(bird)) && (pipes == old(pipes) || pipes == [])
      ensures Globals() == AfterKey(old(Globals()), k, inp)
    {
      if state == EnteringName {
        NameKey(k, inp);
      } else if state == Playing {
        if k == Space {
          bird.Flap();
        }
      } else if k == Escape {
        state, username, playerId := EnteringName, "", None;
      }
    }

    method HandleEvent(e: Event, inp: FrameInput)
      requires Valid()
      modifies this, bird
      ensures Valid() && (bird == old(bird) || fresh(bird)) && (pipes == old(pipes) || pipes == [])
      ensures Globals() == AfterEvent(old(Globals()), e, inp)
    {
      match e {
        case Quit => running := false;
        case KeyDown(k) => HandleKey(k, inp);
      }
    }

    /** The event loop: every event is handled, QUIT included. */
    method HandleEvents(inp: FrameInput)
      requires Valid()
      modifies this, bird
      ensures Valid() && (bird == old(bird) || fresh(bird)) && (pipes == old(pipes) || pipes == [])
      ensures Globals() == AfterEvents(old(Globals()), inp.events, inp)
    {
      var events := inp.events;
      ghost var w0 := Globals();
      var i := 0;
      while i < |events|
        invariant 0 <= i <= |events|
        invariant Valid() && (bird == old(bird) || fresh(bird)) && (pipes == old(pipes) || pipes == [])
        invariant Globals() == AfterEvents(w0, events[..i], inp)
      {
        assert events[..i + 1][..i] == events[..i];
        HandleEvent(events[i], inp);
        assert AfterEvents(w0, events[..i + 1], inp) == AfterEvent(AfterEvents(w0, events[..i], inp), events[i], inp);
        i := i + 1;
      }
      assert events[..|events|] == events;
    }

    /** The uncaught NameError: the loop stops. */
    method Abort()
      modifies this
      ensures bird == old(bird) && pipes == old(pipes)
      ensures Globals() == Crash(old(Globals()))
    {
      running, crashed := false, true;
    }

    /** The camera step. */
    method ReadCamera(read: CameraRead)
      modifies this
      ensures bird == old(bird) && pipes == old(pipes)
      ensures Globals() == AfterCamera(old(Globals()), read)
    {
      match read {
        case ReadFailed =>
        case NoHand =>
          gestureFlap := Some(false);
          if !handSeen {
            Abort();
          }
        case Hand(tx, ty, ix, iy) =>
          gestureFlap, handSeen := Some(IsPinch(tx, ty, ix, iy)), true;
      }
    }

    /** The pinch flap, gated by FLAP_COOLDOWN. */
    method FlapStep(flap: bool, ticks: int)
      modifies this, bird
      ensures bird == old(bird) && pipes == old(pipes)
      ensures Globals() == FlapGate(old(Globals()), flap, ticks)
    {
      if flap && ticks - lastFlapTime > FlapCooldown {
        bird.Flap();
        lastFlapTime := ticks;
      }
    }

    /** The flap gate, Bird.update and pipe_group.update(); returns whether the bird fell. */
    method MotionStep(flap: bool, inp: FrameInput) returns (fell: bool)
      requires Valid()
      modifies this, bird, pipes
      ensures Valid() && bird == old(bird)
      ensures forall p :: p in pipes ==> p in old(pipes)
      ensures fell == Fell(old(Globals()), flap, inp)
      ensures Globals() == Motion(old(Globals()), flap, inp)
    {
      FlapStep(flap, inp.ticks);
      fell := MoveSprites();
    }

    /** Bird.update and pipe_group.update(). */
    method MoveSprites() returns (fell: bool)
      requires Valid()
      modifies this, bird, pipes
      ensures Valid() && bird == old(bird)
      ensures forall p :: p in pipes ==> p in old(pipes)
      ensures fell == !BirdUpdate(old(bird.Value())).alive
      ensures Globals() == old(Globals()).(bird := BirdUpdate(old(bird.Value())).bird,
                                           pipes := GroupUpdate(old(PipeValues(pipes))))
    {
      var alive := bird.Update();
      fell := !alive;
      var kept := UpdateGroup(pipes);
      pipes := kept;
    }

    method SpawnStep(inp: FrameInput)
      requires Valid()
      modifies this
      ensures Valid() && bird == old(bird)
      ensures forall p :: p in pipes ==> p in old(pipes) || fresh(p)
      ensures Globals() == Spawn(old(Globals()), inp)
    {
      if inp.ticks - lastPipe > PipeFrequency {
        var bottom, top := NewPipePair(inp.draw);
        pipes := pipes + [bottom, top];
        lastPipe, pipePassed := inp.ticks, false;
      }
    }

    method JudgeStep(fell: bool, inp: FrameInput)
      modifies this
      ensures bird == old(bird) && pipes == old(pipes)
      ensures Globals() == Judge(old(Globals()), fell, inp)
    {
      if AnyCollides(PipeValues(pipes), bird.Value()) || fell {
        EndGame(inp);
      }
    }

    method ScoreStep()
      modifies this
      ensures bird == old(bird) && pipes == old(pipes)
      ensures Globals() == ScorePass(old(Globals()))
    {
      if !pipePassed && |pipes| > 0 && pipes[0].x + PipeWidth < BirdLeft {
        score, pipePassed := score + 1, true;
      }
    }

    /** draw_leaderboard's refresh. */
    method RefreshStep(inp: FrameInput)
      modifies this
      ensures bird == old(bird) && pipes == old(pipes)
      ensures Globals() == Refresh(old(Globals()), inp)
    {
      if inp.wall - lastLeaderboardUpdate > LeaderboardRefresh {
        leaderboard := FetchResult(inp.server.leaderboard);
        outbox := outbox + [Fetch(LeaderboardLimit)];
        lastLeaderboardUpdate := inp.wall;
      }
    }

    /** The PLAYING branch, in the order the source runs it. */
    method PlayTick(flap: bool, inp: FrameInput)
      requires Valid()
      modifies this, bird, pipes
      ensures Valid()
      ensures Globals() == AfterPlayTick(old(Globals()), flap, inp)
    {
      var fell := MotionStep(flap, inp);
      SpawnStep(inp);
      JudgeStep(fell, inp);
      ScoreStep();
      RefreshStep(inp);
    }

    method Logic(flap: bool, inp: FrameInput)
      requires Valid()
      modifies this, bird, pipes
      ensures Valid()
      ensures Globals() == AfterLogic(old(Globals()), flap, inp)
    {
      if state == EnteringName {
        if flap && |username| > 0 && inp.ticks - lastFlapTime > StartGate {
          StartGame(inp);
          lastFlapTime := inp.ticks;
        }
      } else if state == Playing {
        PlayTick(flap, inp);
      } else {
        RefreshStep(inp);
        if flap && inp.ticks - lastFlapTime > StartGate {
          ResetGame(inp.resetTicks, inp.wall);
          lastFlapTime := inp.ticks;
        }
      }
    }

    /** One iteration of the main loop. */
    method Frame(inp: FrameInput)
      requires Valid()
      modifies this, bird, pipes
      ensures Valid()
      ensures Globals() == AfterFrame(old(Globals()), inp)
    {
      if !running {
        return;
      }
      HandleEvents(inp);
      ReadCamera(inp.camera);
      if crashed {
        return;
      }
      if gestureFlap.None? {
        Abort();
        return;
      }
      Logic(gestureFlap.value, inp);
    }
  }
}
