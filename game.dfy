/**
 * The globals of script.js and the functions that assign them, as one object:
 * each method changes the fields in place as the JavaScript does, and its
 * postcondition ties the new state to the matching function of `Rules`.
 */
module Simulation {
  import opened Rules
  import opened Properties

  class Game {
    const arena: Arena
    var mode: Mode
    var score: nat
    var bestScore: int
    var birdY: real
    var velocity: real
    var pipes: seq<Pipe>
    /** Passed pipes that have scrolled off since the last reset. */
    ghost var retired: nat

    function State(): Session
      reads this
    {
      Session(mode, score, bestScore, birdY, velocity, pipes)
    }

    /** The pipes keep their shape and screen order, and the score counts each
        passed pipe once: those still on screen and those scrolled off. */
    ghost predicate Valid()
      reads this
    {
      Shaped(arena, pipes) && Spaced(pipes) && score == retired + CountPassed(pipes)
    }

    /** Page load: the canvas size and the stored best score come from outside. */
    constructor (width: nat, height: nat, storedBest: int)
      ensures Valid() && arena == Arena(width, height)
      ensures State() == Initial(arena, storedBest)
    {
      arena := Arena(width, height);
      mode := Start;
      score := 0;
      bestScore := storedBest;
      birdY := height as real / 2.0;
      velocity := 0.0;
      pipes := [];
      retired := 0;
    }

    method ResetGame()
      modifies this`birdY, this`velocity, this`pipes, this`score, this`retired
      ensures Valid() && retired == 0
      ensures State() == Rules.ResetGame(arena, old(State()))
    {
      birdY := arena.height as real / 2.0;
      velocity := 0.0;
      pipes := [];
      score := 0;
      retired := 0;
    }

    method Jump()
      requires Valid()
      modifies this
      ensures Valid()
      ensures State() == Rules.Jump(arena, old(State()))
      ensures retired == if old(mode) == Playing then old(retired) else 0
    {
      if mode == Start {
        mode := Playing;
        ResetGame();
      } else if mode == Playing {
        velocity := JumpPower;
      } else if mode == Mode.GameOver {
        mode := Start;
        ResetGame();
      }
    }

    method GameOver()
      modifies this`mode, this`bestScore
      ensures State() == GameOverStep(old(State()))
    {
      mode := Mode.GameOver;
      if score > bestScore {
        bestScore := score;
      }
    }

    method UpdateBird()
      requires Valid()
      modifies this`mode, this`bestScore, this`birdY, this`velocity
      ensures Valid()
      ensures State() == Rules.UpdateBird(arena, old(State()))
    {
      if mode != Playing {
        return;
      }
      velocity := velocity + Gravity;
      birdY := birdY + velocity;
      if birdY < 0.0 || birdY + BirdHeight > arena.height as real {
        GameOver();
      }
    }

    method CreatePipe(rand: real)
      requires 0.0 <= rand < 1.0
      modifies this`pipes
      ensures pipes == old(pipes) + [NewPipe(arena, rand)]
    {
      var maxHeight := arena.height as real - PipeGap - MinHeight;
      var topHeight := rand * (maxHeight - MinHeight) + MinHeight;
      assert topHeight == TopHeight(arena, rand);
      pipes := pipes + [Pipe(arena.width as real, topHeight, topHeight + PipeGap,
                             arena.height as real - (topHeight + PipeGap), false)];
    }

    /** updatePipes: spawn, then the reverse loop over the pipes. Returns true when
        the loop throws. */
    method UpdatePipes(rand: real) returns (threw: bool)
      requires Valid() && 0.0 <= rand < 1.0
      modifies this
      ensures Valid()
      ensures State() == Rules.UpdatePipes(arena, old(State()), rand).state
      ensures threw == Rules.UpdatePipes(arena, old(State()), rand).Threw?
      ensures retired == old(retired) + CountPassed(Removed(arena, old(State()), rand))
    {
      ghost var s0 := State();
      threw := false;
      if mode != Playing {
        return;
      }
      SpawnPipe(rand);
      ghost var s1 := State();
      ghost var out := Rules.UpdatePipes(arena, s0, rand);
      assert out == SweepFrom(s1, |s1.pipes| - 1);
      threw := MovePipes();
      assert out == if threw then Threw(State()) else Ran(State());
      UpdatePipesKeepsTally(arena, s0, rand, retired);
      retired := retired + CountPassed(Removed(arena, s0, rand));
    }

    /** The spawn rule at the head of updatePipes: a new pipe when there is none, or
        when the last one has moved more than SpawnSpacing from the right edge. */
    method SpawnPipe(rand: real)
      requires 0.0 <= rand < 1.0
      modifies this`pipes
      ensures State() == Spawn(arena, old(State()), rand)
    {
      if |pipes| == 0 || pipes[|pipes| - 1].x < arena.width as real - SpawnSpacing {
        CreatePipe(rand);
      }
    }

    /** The reverse loop of updatePipes, from the last index down to 0; it stops
        at the first iteration that throws. */
    method MovePipes() returns (threw: bool)
      modifies this`pipes, this`score, this`mode, this`bestScore
      ensures SweepFrom(old(State()), |old(pipes)| - 1) == if threw then Threw(State()) else Ran(State())
    {
      ghost var s1 := State();
      threw := false;
      var i := |pipes| - 1;
      while i >= 0
        invariant -1 <= i < |pipes| && !threw
        invariant SweepFrom(State(), i) == SweepFrom(s1, |s1.pipes| - 1)
        decreases i + 1
      {
        ghost var before := State();
        threw := VisitPipe(i);
        assert SweepFrom(before, i) == if threw then Threw(State()) else SweepFrom(State(), i - 1);
        if threw {
          break;
        }
        i := i - 1;
      }
    }

    /** One iteration of updatePipes' reverse loop, at index i. Returns true when
        it throws: after a splice at the last index, pipes[i] is undefined and
        checkCollision fails on it. */
    method VisitPipe(i: nat) returns (threw: bool)
      requires i < |pipes|
      modifies this`pipes, this`score, this`mode, this`bestScore
      ensures Visit(old(State()), i) == if threw then Threw(State()) else Ran(State())
      ensures !threw ==> i < |pipes|
    {
      pipes := pipes[i := pipes[i].(x := pipes[i].x - PipeSpeed)];
      if !pipes[i].passed && pipes[i].x + PipeWidth < BirdX {
        pipes := pipes[i := pipes[i].(passed := true)];
        score := score + 1;
      }
      if pipes[i].x + PipeWidth < 0.0 {
        pipes := pipes[..i] + pipes[i + 1..];
      }
      threw := i >= |pipes|;
      if !threw && CheckCollision(birdY, pipes[i]) {
        GameOver();
      }
    }

    /** The update half of gameLoop: updateBird, then updatePipes. */
    method Frame(rand: real) returns (threw: bool)
      requires Valid() && 0.0 <= rand < 1.0
      modifies this
      ensures Valid()
      ensures State() == Rules.Frame(arena, old(State()), rand).state
      ensures threw == Rules.Frame(arena, old(State()), rand).Threw?
      ensures retired == old(retired) + CountPassed(Removed(arena, Rules.UpdateBird(arena, old(State())), rand))
    {
      UpdateBird();
      threw := UpdatePipes(rand);
    }
  }
}
