/**
 * The per-frame rules of the Flappy Bird game in script.js, stated as functions
 * over a value `Session` that gathers the game's globals (mode, score, best score,
 * the bird's y and velocity, and the pipe list). Canvas drawing, DOM updates and
 * storage are not part of this model; the canvas size is an `Arena` value and the
 * `Math.random()` draw is an argument.
 */
module Rules {

  // Constants of script.js (bird object, pipe constants, createPipe's minHeight,
  // and the spawn distance of updatePipes).
  const BirdX: real := 50.0
  const BirdWidth: real := 20.0
  const BirdHeight: real := 20.0
  const Gravity: real := 0.5
  const JumpPower: real := -8.0
  const PipeWidth: real := 50.0
  const PipeGap: real := 150.0
  const PipeSpeed: real := 2.0
  const MinHeight: real := 50.0
  const SpawnSpacing: real := 200.0

  datatype Mode = Start | Playing | GameOver

  function Max(x: int, y: int): int {
    if x >= y then x else y
  }

  /** The canvas size, read once from the page. */
  datatype Arena = Arena(width: nat, height: nat)

  datatype Pipe = Pipe(x: real, topHeight: real, bottomY: real, bottomHeight: real, passed: bool)

  /** All state the simulation reads and writes. */
  datatype Session = Session(
    mode: Mode,
    score: nat,
    bestScore: int,
    birdY: real,
    velocity: real,
    pipes: seq<Pipe>)

  /** The result of a pass over the pipes: it either runs to the end, or throws a
      TypeError part-way, leaving behind the state reached at that point. */
  datatype Outcome = Ran(state: Session) | Threw(state: Session)

  /** The state at page load: start screen, bird at mid-height, no pipes, and
      the stored best score. */
  function Initial(a: Arena, storedBest: int): Session {
    Session(Start, 0, storedBest, a.height as real / 2.0, 0.0, [])
  }

  /** resetGame: the session as at page load, keeping the mode and the best score. */
  function ResetGame(a: Arena, s: Session): (r: Session)
    ensures r == Initial(a, s.bestScore).(mode := s.mode)
  {
    s.(birdY := a.height as real / 2.0, velocity := 0.0, pipes := [], score := 0)
  }

  /** jump: the one input action. */
  function Jump(a: Arena, s: Session): (r: Session)
    ensures r.bestScore == s.bestScore
    ensures s.mode == Start ==>
      r.mode == Playing && r.score == 0 && r.pipes == [] &&
      r.birdY == a.height as real / 2.0 && r.velocity == 0.0
    ensures s.mode == Playing ==> r.velocity == JumpPower && r.(velocity := s.velocity) == s
    ensures s.mode == GameOver ==> r == Initial(a, s.bestScore)
  {
    match s.mode
    case Start => ResetGame(a, s.(mode := Playing))
    case Playing => s.(velocity := JumpPower)
    case GameOver => ResetGame(a, s.(mode := Start))
  }

  /** gameOver: freeze the game and keep the larger of the best and current scores. */
  function GameOverStep(s: Session): (r: Session)
    ensures r.mode == GameOver
    ensures r.bestScore >= s.bestScore && r.bestScore >= s.score
    ensures r.bestScore == s.bestScore || r.bestScore == s.score
    ensures r.(mode := s.mode, bestScore := s.bestScore) == s
  {
    s.(mode := GameOver, bestScore := Max(s.bestScore, s.score))
  }

  /** updateBird: one semi-implicit Euler step, then the arena bounds check. */
  function UpdateBird(a: Arena, s: Session): (r: Session)
    ensures s.mode != Playing ==> r == s
    ensures s.mode == Playing ==>
      r.velocity == s.velocity + Gravity && r.birdY == s.birdY + r.velocity &&
      r.pipes == s.pipes && r.score == s.score &&
      (r.mode == GameOver <==> r.birdY < 0.0 || r.birdY + BirdHeight > a.height as real) &&
      (r.mode == GameOver || r.mode == Playing) &&
      (r.mode == Playing ==> r.bestScore == s.bestScore) &&
      (r.mode == GameOver ==> r.bestScore == Max(s.bestScore, s.score))
  {
    if s.mode != Playing then s
    else
      var v := s.velocity + Gravity;
      var moved := s.(velocity := v, birdY := s.birdY + v);
      if moved.birdY < 0.0 || moved.birdY + BirdHeight > a.height as real then GameOverStep(moved)
      else moved
  }

  /** checkCollision: the bird is within the pipe's columns but not inside its gap. */
  function CheckCollision(birdY: real, p: Pipe): (hit: bool)
    ensures !hit <==>
      (BirdX + BirdWidth <= p.x || p.x + PipeWidth <= BirdX) ||
      (p.topHeight <= birdY && birdY + BirdHeight <= p.bottomY)
  {
    (BirdX < p.x + PipeWidth && BirdX + BirdWidth > p.x) &&
    (birdY < p.topHeight || birdY + BirdHeight > p.bottomY)
  }

  /** createPipe's maxHeight: the top segment must leave room for the gap and a
      bottom segment of MinHeight. */
  function MaxHeight(a: Arena): real {
    a.height as real - PipeGap - MinHeight
  }

  /** createPipe's topHeight, Math.random() * (maxHeight - minHeight) + minHeight,
      with `rand` standing for the value of Math.random(). */
  function TopHeight(a: Arena, rand: real): (t: real)
    requires 0.0 <= rand < 1.0
    ensures MaxHeight(a) > MinHeight ==> MinHeight <= t < MaxHeight(a)
    ensures MaxHeight(a) <= MinHeight ==> MaxHeight(a) <= t <= MinHeight
  {
    var d := MaxHeight(a) - MinHeight;
    var off := rand * d;
    ScaleBounds(rand, d, off);
    off + MinHeight
  }

  /** A fraction in [0, 1) of a span d lies in [0, d) when d is positive and in [d, 0] otherwise. */
  lemma ScaleBounds(rand: real, d: real, off: real)
    requires 0.0 <= rand < 1.0 && off == rand * d
    ensures d > 0.0 ==> 0.0 <= off < d
    ensures d <= 0.0 ==> d <= off <= 0.0
  {
    assert d - off == (1.0 - rand) * d;
    if d > 0.0 {
      assert 0.0 <= rand * d;
      assert 0.0 < (1.0 - rand) * d;
    } else if d < 0.0 {
      assert rand * d <= 0.0;
      assert (1.0 - rand) * d < 0.0;
    }
  }

  /** createPipe's new pipe. */
  function NewPipe(a: Arena, rand: real): (p: Pipe)
    requires 0.0 <= rand < 1.0
    ensures p.x == a.width as real && !p.passed
    ensures p.bottomY - p.topHeight == PipeGap && p.bottomHeight == a.height as real - p.bottomY
    ensures MaxHeight(a) > MinHeight ==>
      MinHeight <= p.topHeight < MaxHeight(a) && p.bottomHeight > MinHeight
    ensures MaxHeight(a) <= MinHeight ==> MaxHeight(a) <= p.topHeight <= MinHeight
  {
    var topHeight := TopHeight(a, rand);
    Pipe(a.width as real, topHeight, topHeight + PipeGap, a.height as real - (topHeight + PipeGap), false)
  }

  /** The spawn rule at the head of updatePipes. */
  predicate SpawnDue(a: Arena, ps: seq<Pipe>) {
    |ps| == 0 || ps[|ps| - 1].x < a.width as real - SpawnSpacing
  }

  /** The spawn step: create one pipe when the rule says so. */
  function Spawn(a: Arena, s: Session, rand: real): (r: Session)
    requires 0.0 <= rand < 1.0
    ensures |r.pipes| == |s.pipes| + (if SpawnDue(a, s.pipes) then 1 else 0)
    ensures r.pipes[..|s.pipes|] == s.pipes
    ensures SpawnDue(a, s.pipes) ==> r.pipes[|s.pipes|] == NewPipe(a, rand)
    ensures r.(pipes := s.pipes) == s
  {
    if SpawnDue(a, s.pipes) then s.(pipes := s.pipes + [NewPipe(a, rand)]) else s
  }

  /** One iteration of the reverse loop over the pipes, at index i: move, score,
      splice (if off-screen), then test pipes[i] for a collision. After a splice
      pipes[i] is the pipe that slid down into index i; when i was the last index
      there is none, and checkCollision throws on `undefined`. */
  function Visit(s: Session, i: nat): (r: Outcome)
    requires i < |s.pipes|
    ensures r.Threw? ==> i == |s.pipes| - 1
    ensures r.Ran? ==> i < |r.state.pipes|
    ensures |s.pipes| - 1 <= |r.state.pipes| <= |s.pipes|
    ensures r.state.birdY == s.birdY && r.state.velocity == s.velocity
  {
    var moved := s.pipes[i].(x := s.pipes[i].x - PipeSpeed);
    var scores := !moved.passed && moved.x + PipeWidth < BirdX;
    var flagged := if scores then moved.(passed := true) else moved;
    var ps := s.pipes[i := flagged];
    var ps' := if flagged.x + PipeWidth < 0.0 then ps[..i] + ps[i + 1..] else ps;
    var s' := s.(pipes := ps', score := if scores then s.score + 1 else s.score);
    if i >= |ps'| then Threw(s')
    else if CheckCollision(s.birdY, ps'[i]) then Ran(GameOverStep(s'))
    else Ran(s')
  }

  /** The iterations at i, i - 1, ..., 0 of the reverse loop, stopping at a throw. */
  function SweepFrom(s: Session, i: int): (r: Outcome)
    requires -1 <= i < |s.pipes|
    ensures r.Threw? ==> i == |s.pipes| - 1
    ensures r.state.birdY == s.birdY && r.state.velocity == s.velocity
    decreases i + 1
  {
    if i < 0 then Ran(s)
    else
      var step := Visit(s, i);
      if step.Threw? then step else SweepFrom(step.state, i - 1)
  }

  /** updatePipes: spawn, then the reverse loop over all pipes. */
  function UpdatePipes(a: Arena, s: Session, rand: real): (r: Outcome)
    requires 0.0 <= rand < 1.0
    ensures s.mode != Playing ==> r == Ran(s)
  {
    if s.mode != Playing then Ran(s)
    else
      var s' := Spawn(a, s, rand);
      SweepFrom(s', |s'.pipes| - 1)
  }

  /** The update half of gameLoop. */
  function Frame(a: Arena, s: Session, rand: real): (r: Outcome)
    requires 0.0 <= rand < 1.0
    ensures s.mode != Playing ==> r == Ran(s)
    ensures UpdateBird(a, s).mode != Playing ==> r == Ran(UpdateBird(a, s))
  {
    UpdatePipes(a, UpdateBird(a, s), rand)
  }
}
