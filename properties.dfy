/**
 * Reference definitions for what one pass of updatePipes does to the pipe list
 * (each pipe moved and flagged on its own, off-screen pipes dropped), and the
 * lemmas that tie the index-by-index loop of `Rules.SweepFrom`, splice quirk
 * included, to them.
 */
module Properties {
  import opened Rules

  /** A pipe after its own iteration of the loop. */
  function Advance(p: Pipe): (q: Pipe)
    ensures q.x == p.x - PipeSpeed
    ensures q.passed <==> p.passed || q.x + PipeWidth < BirdX
    ensures q.(x := p.x, passed := p.passed) == p
  {
    var m := p.(x := p.x - PipeSpeed);
    if !m.passed && m.x + PipeWidth < BirdX then m.(passed := true) else m
  }

  /** The pipe scores in this frame: not yet passed, and its moved right edge is left of the bird. */
  predicate Crosses(p: Pipe) {
    !p.passed && p.x - PipeSpeed + PipeWidth < BirdX
  }

  /** The pipe's right edge is left of the canvas. */
  predicate Gone(p: Pipe) {
    p.x + PipeWidth < 0.0
  }

  function Advanced(ps: seq<Pipe>): (r: seq<Pipe>)
    ensures |r| == |ps| && forall k :: 0 <= k < |ps| ==> r[k] == Advance(ps[k])
  {
    seq(|ps|, k requires 0 <= k < |ps| => Advance(ps[k]))
  }

  /** The moved pipes that stay on screen, in their original order. */
  function Survivors(ps: seq<Pipe>): (r: seq<Pipe>)
    ensures |r| <= |ps|
    ensures forall k :: 0 <= k < |r| ==> !Gone(r[k])
  {
    if ps == [] then []
    else (if Gone(Advance(ps[0])) then [] else [Advance(ps[0])]) + Survivors(ps[1..])
  }

  /** The moved pipes that leave the screen, in their original order. */
  function Dropped(ps: seq<Pipe>): (r: seq<Pipe>)
    ensures |r| + |Survivors(ps)| == |ps|
    ensures forall k :: 0 <= k < |r| ==> Gone(r[k])
  {
    if ps == [] then []
    else (if Gone(Advance(ps[0])) then [Advance(ps[0])] else []) + Dropped(ps[1..])
  }

  /** How many pipes score in this frame. */
  function NewlyPassed(ps: seq<Pipe>): nat {
    if ps == [] then 0 else (if Crosses(ps[0]) then 1 else 0) + NewlyPassed(ps[1..])
  }

  /** How many pipes carry the passed flag. */
  function CountPassed(ps: seq<Pipe>): nat {
    if ps == [] then 0 else (if ps[0].passed then 1 else 0) + CountPassed(ps[1..])
  }

  predicate AnyHit(birdY: real, ps: seq<Pipe>) {
    exists k :: 0 <= k < |ps| && CheckCollision(birdY, ps[k])
  }

  /** Every pipe keeps the shape createPipe gave it. */
  predicate PipeShaped(a: Arena, p: Pipe) {
    p.bottomY == p.topHeight + PipeGap &&
    p.bottomHeight == a.height as real - p.bottomY &&
    (MaxHeight(a) > MinHeight ==> MinHeight <= p.topHeight && MinHeight < p.bottomHeight)
  }

  predicate Shaped(a: Arena, ps: seq<Pipe>) {
    forall k :: 0 <= k < |ps| ==> PipeShaped(a, ps[k])
  }

  /** Pipes are in left-to-right order, consecutive ones more than SpawnSpacing apart. */
  predicate Spaced(ps: seq<Pipe>) {
    forall k :: 0 <= k < |ps| - 1 ==> ps[k].x + SpawnSpacing < ps[k + 1].x
  }

  /** The state after the loop has processed indices j.. of `orig` (from the right),
      starting from s0: the untouched prefix, then the survivors of the processed
      suffix; score raised by the pipes that crossed; the mode is GameOver exactly
      when a survivor hits the bird, and the best score lies between what gameOver
      gives at the first and at the last score. */
  ghost predicate SweptFrom(s0: Session, orig: seq<Pipe>, s: Session, j: nat)
    requires j <= |orig|
  {
    var done := Survivors(orig[j..]);
    var hit := AnyHit(s0.birdY, done);
    s.pipes == orig[..j] + done &&
    s.score == s0.score + NewlyPassed(orig[j..]) &&
    s.birdY == s0.birdY && s.velocity == s0.velocity &&
    s.mode == (if hit then GameOver else Playing) &&
    (hit ==> Max(s0.bestScore, s0.score) <= s.bestScore <= Max(s0.bestScore, s.score)) &&
    (!hit ==> s.bestScore == s0.bestScore)
  }

  lemma {:induction false} LastSurvives(ps: seq<Pipe>)
    requires |ps| > 0 && !Gone(Advance(ps[|ps| - 1]))
    ensures |Survivors(ps)| > 0
  {
    if |ps| > 1 {
      assert ps[1..][|ps[1..]| - 1] == ps[|ps| - 1];
      LastSurvives(ps[1..]);
    }
  }

  lemma AnyHitCons(birdY: real, h: Pipe, t: seq<Pipe>)
    ensures AnyHit(birdY, [h] + t) <==> CheckCollision(birdY, h) || AnyHit(birdY, t)
  {
    var ht := [h] + t;
    if AnyHit(birdY, t) {
      var k :| 0 <= k < |t| && CheckCollision(birdY, t[k]);
      assert ht[k + 1] == t[k];
    }
    if AnyHit(birdY, ht) {
      var k :| 0 <= k < |ht| && CheckCollision(birdY, ht[k]);
      if k > 0 { assert t[k - 1] == ht[k]; }
    }
    if CheckCollision(birdY, h) { assert ht[0] == h; }
  }

  /** One iteration at index i, restated with Advance and Crosses: the moved pipe
      replaces pipes[i], or (off screen) is spliced out. */
  lemma VisitShape(s: Session, i: nat)
    requires i < |s.pipes|
    ensures var adv := Advance(s.pipes[i]);
      var ps := if Gone(adv) then s.pipes[..i] + s.pipes[i + 1..] else s.pipes[i := adv];
      var s' := s.(pipes := ps, score := s.score + if Crosses(s.pipes[i]) then 1 else 0);
      Visit(s, i) == if i >= |ps| then Threw(s')
                     else if CheckCollision(s.birdY, ps[i]) then Ran(GameOverStep(s'))
                     else Ran(s')
  {
    var adv := Advance(s.pipes[i]);
    var ps := s.pipes[i := adv];
    assert ps[..i] + ps[i + 1..] == s.pipes[..i] + s.pipes[i + 1..];
  }

  /** The list after moving (and perhaps splicing) index i is the untouched prefix
      followed by the survivors from i on; index i is then past the end exactly when
      the pipe was spliced away and nothing to its right survived. */
  lemma SpliceStep(orig: seq<Pipe>, pipes: seq<Pipe>, i: nat)
    requires i < |orig| && pipes == orig[..i + 1] + Survivors(orig[i + 1..])
    ensures var adv := Advance(orig[i]);
      var ps := if Gone(adv) then pipes[..i] + pipes[i + 1..] else pipes[i := adv];
      ps == orig[..i] + Survivors(orig[i..]) &&
      (i >= |ps| <==> Gone(adv) && Survivors(orig[i + 1..]) == [])
  {
    var rest := Survivors(orig[i + 1..]);
    assert orig[i..][0] == orig[i] && orig[i..][1..] == orig[i + 1..];
    assert orig[..i + 1][..i] == orig[..i];
    assert pipes[..i] == orig[..i] && pipes[i + 1..] == rest;
  }

  /** The pipe tested at index i leads the survivors from i on, which add it (if it
      stayed) to the survivors right of i. */
  lemma HitStep(y: real, orig: seq<Pipe>, i: nat)
    requires i < |orig| && |Survivors(orig[i..])| > 0
    ensures var now := Survivors(orig[i..]);
      AnyHit(y, now) <==> CheckCollision(y, now[0]) || AnyHit(y, Survivors(orig[i + 1..]))
  {
    var rest := Survivors(orig[i + 1..]);
    assert orig[i..][0] == orig[i] && orig[i..][1..] == orig[i + 1..];
    var now := Survivors(orig[i..]);
    AnyHitCons(y, now[0], now[1..]);
    assert [now[0]] + now[1..] == now;
    if !Gone(Advance(orig[i])) {
      assert now[1..] == rest;
    } else {
      assert now == rest;
      if CheckCollision(y, now[0]) {
        assert AnyHit(y, rest);
      }
    }
  }

  /** The state one iteration leaves behind, when it does not throw, meets the
      invariant one index further left. */
  lemma ExtendSwept(s0: Session, orig: seq<Pipe>, s: Session, i: nat)
    requires s0.mode == Playing
    requires i < |orig| && SweptFrom(s0, orig, s, i + 1)
    requires |Survivors(orig[i..])| > 0
    ensures var now := Survivors(orig[i..]);
      var s' := s.(pipes := orig[..i] + now, score := s.score + if Crosses(orig[i]) then 1 else 0);
      SweptFrom(s0, orig, if CheckCollision(s.birdY, now[0]) then GameOverStep(s') else s', i)
  {
    assert orig[i..][0] == orig[i] && orig[i..][1..] == orig[i + 1..];
    assert NewlyPassed(orig[i..]) == (if Crosses(orig[i]) then 1 else 0) + NewlyPassed(orig[i + 1..]);
    HitStep(s0.birdY, orig, i);
  }

  /** One iteration on a list whose suffix right of i is processed, stated with the
      survivors from i on. */
  lemma VisitOnProcessed(orig: seq<Pipe>, s: Session, i: nat)
    requires i < |orig| && s.pipes == orig[..i + 1] + Survivors(orig[i + 1..])
    ensures var now := Survivors(orig[i..]);
      var s' := s.(pipes := orig[..i] + now, score := s.score + if Crosses(orig[i]) then 1 else 0);
      Visit(s, i) == if |now| == 0 then Threw(s')
                     else if CheckCollision(s.birdY, now[0]) then Ran(GameOverStep(s'))
                     else Ran(s')
  {
    assert s.pipes[i] == orig[i];
    VisitShape(s, i);
    SpliceStep(orig, s.pipes, i);
  }

  /** One iteration of the loop extends the processed suffix by one index. */
  lemma VisitStep(s0: Session, orig: seq<Pipe>, s: Session, i: nat)
    requires s0.mode == Playing
    requires i < |orig| && SweptFrom(s0, orig, s, i + 1)
    requires i < |orig| - 1 ==> !Gone(Advance(orig[|orig| - 1]))
    ensures Visit(s, i).Threw? <==> i == |orig| - 1 && Gone(Advance(orig[i]))
    ensures Visit(s, i).Ran? ==> SweptFrom(s0, orig, Visit(s, i).state, i)
  {
    VisitOnProcessed(orig, s, i);
    assert orig[i..][0] == orig[i] && orig[i..][1..] == orig[i + 1..];
    if i < |orig| - 1 {
      assert orig[i + 1..][|orig[i + 1..]| - 1] == orig[|orig| - 1];
      LastSurvives(orig[i + 1..]);
    } else {
      assert orig[i + 1..] == [];
    }
    if |Survivors(orig[i..])| > 0 {
      ExtendSwept(s0, orig, s, i);
    }
  }

  /** The loop run from index i down to 0 ends with all of `orig` processed, or
      throws exactly when the right-most pipe leaves the screen on the first iteration. */
  lemma {:induction false} SweepFromEffect(s0: Session, orig: seq<Pipe>, s: Session, i: int)
    requires s0.mode == Playing
    requires -1 <= i < |orig| && SweptFrom(s0, orig, s, i + 1)
    requires i < |orig| - 1 ==> !Gone(Advance(orig[|orig| - 1]))
    ensures SweepFrom(s, i).Threw? <==> 0 <= i == |orig| - 1 && Gone(Advance(orig[i]))
    ensures SweepFrom(s, i).Ran? ==> SweptFrom(s0, orig, SweepFrom(s, i).state, 0)
    decreases i + 1
  {
    if i >= 0 {
      VisitStep(s0, orig, s, i);
      var step := Visit(s, i);
      if step.Ran? {
        SweepFromEffect(s0, orig, step.state, i - 1);
      }
    }
  }

  /** updatePipes while playing: after the spawn step, either the pass runs to the
      end, leaving the survivors of the moved pipes in order, the score raised by
      the pipes that crossed the bird, and GameOver exactly when a survivor hits the
      bird; or, exactly when the right-most pipe leaves the screen, it throws after
      its first iteration, with that pipe removed and scored and the others untouched. */
  lemma UpdatePipesEffect(a: Arena, s: Session, rand: real)
    requires s.mode == Playing && 0.0 <= rand < 1.0
    ensures var ps := Spawn(a, s, rand).pipes;
      var r := UpdatePipes(a, s, rand);
      |ps| > 0 &&
      (r.Threw? <==> Gone(Advance(ps[|ps| - 1]))) &&
      (r.Ran? ==> SweptFrom(s, ps, r.state, 0)) &&
      (r.Threw? ==> r.state == s.(pipes := ps[..|ps| - 1], score := s.score + NewlyPassed(ps[|ps| - 1..])))
  {
    var s1 := Spawn(a, s, rand);
    var ps := s1.pipes;
    var n := |ps|;
    assert ps[..n] == ps && ps[n..] == [];
    assert !AnyHit(s.birdY, []);
    assert SweptFrom(s, ps, s1, n);
    SweepFromEffect(s, ps, s1, n - 1);
    var r := UpdatePipes(a, s, rand);
    if r.Threw? {
      assert ps[n - 1..] == [ps[n - 1]] && ps[n - 1..][1..] == [];
      assert r == Visit(s1, n - 1);
      assert (ps[n - 1 := Advance(ps[n - 1])])[..n - 1] == ps[..n - 1];
    }
  }

  /** On a canvas at least 152 wide the right-most pipe never leaves the screen in
      the frame it is visited first, so updatePipes never throws. */
  lemma WideArenaNeverThrows(a: Arena, s: Session, rand: real)
    requires a.width >= 152 && 0.0 <= rand < 1.0
    ensures UpdatePipes(a, s, rand).Ran?
  {
    if s.mode == Playing {
      UpdatePipesEffect(a, s, rand);
    }
  }

  /** On a narrower canvas it does: a lone pipe at x = -50 on a canvas 100 wide is not
      followed by a new one (-50 is not left of -100), moves to -52, is spliced away,
      and checkCollision then reads past the end of the list. */
  lemma NarrowArenaThrows()
    ensures var s := Session(Playing, 3, 5, 200.0, 0.0, [Pipe(-50.0, 100.0, 250.0, 150.0, true)]);
      UpdatePipes(Arena(100, 400), s, 0.5) == Threw(s.(pipes := []))
  {
    var s := Session(Playing, 3, 5, 200.0, 0.0, [Pipe(-50.0, 100.0, 250.0, 150.0, true)]);
    UpdatePipesEffect(Arena(100, 400), s, 0.5);
  }

  /** The first updatePipes of a game without pipes creates one at the right edge of
      the canvas and moves it by PipeSpeed in the same call; only on a canvas narrower
      than 2 does that already take it past the bird. */
  lemma FirstFrameSpawnsOne(a: Arena, s: Session, rand: real)
    requires s.mode == Playing && s.pipes == [] && 0.0 <= rand < 1.0
    ensures var r := UpdatePipes(a, s, rand);
      r.Ran? && r.state.pipes == [Advance(NewPipe(a, rand))] &&
      r.state.pipes[0].x == a.width as real - PipeSpeed &&
      r.state.score == s.score + (if a.width < 2 then 1 else 0)
  {
    UpdatePipesEffect(a, s, rand);
    var ps := Spawn(a, s, rand).pipes;
    assert ps == [NewPipe(a, rand)] && ps[1..] == [];
    assert ps[0..] == ps && ps[..0] == [];
  }

  /** A pipe whose left edge is just past the canvas's left edge (x = -1) is not
      removed: it moves to x = -3 and is scored, and stays on the list until its
      right edge is left of 0. The pipe is not yet passed, which is a boundary case
      for the rules rather than a state a game reaches: a pipe moving by 2 per frame
      would have scored when it first came left of the bird. */
  lemma PipeJustPastLeftEdge(rand: real)
    requires 0.0 <= rand < 1.0
    ensures var s := Session(Playing, 4, 9, 300.0, 0.0, [Pipe(-1.0, 100.0, 250.0, 350.0, false)]);
      var r := UpdatePipes(Arena(400, 600), s, rand);
      r.Ran? && |r.state.pipes| == 2 && r.state.pipes[0] == Pipe(-3.0, 100.0, 250.0, 350.0, true) &&
      r.state.score == 5 && r.state.mode == Playing
  {
    var a := Arena(400, 600);
    var s := Session(Playing, 4, 9, 300.0, 0.0, [Pipe(-1.0, 100.0, 250.0, 350.0, false)]);
    UpdatePipesEffect(a, s, rand);
    var ps := Spawn(a, s, rand).pipes;
    var q := NewPipe(a, rand);
    assert ps == [s.pipes[0], q];
    assert ps[1..] == [q] && ps[1..][1..] == [];
    assert ps[0..] == ps && ps[..0] == [];
    var surv := Survivors(ps);
    assert surv == [Advance(s.pipes[0]), Advance(q)];
    assert !CheckCollision(300.0, surv[0]) && !CheckCollision(300.0, surv[1]);
    assert !AnyHit(300.0, surv);
  }

  lemma {:induction false} CountPassedAppend(x: seq<Pipe>, y: seq<Pipe>)
    ensures CountPassed(x + y) == CountPassed(x) + CountPassed(y)
  {
    if x != [] {
      assert (x + y)[0] == x[0] && (x + y)[1..] == x[1..] + y;
      CountPassedAppend(x[1..], y);
    } else {
      assert x + y == y;
    }
  }

  /** Each pipe adds to the score at most once: the passed flags of the kept and the
      dropped pipes together are the old flags plus the pipes that scored now. */
  lemma {:induction false} ScoreTally(ps: seq<Pipe>)
    ensures CountPassed(Survivors(ps)) + CountPassed(Dropped(ps)) == CountPassed(ps) + NewlyPassed(ps)
  {
    if ps != [] {
      ScoreTally(ps[1..]);
      var h := if Gone(Advance(ps[0])) then [] else [Advance(ps[0])];
      var d := if Gone(Advance(ps[0])) then [Advance(ps[0])] else [];
      CountPassedAppend(h, Survivors(ps[1..]));
      CountPassedAppend(d, Dropped(ps[1..]));
    }
  }

  /** Moving and dropping pipes keeps the shape of every pipe. */
  lemma {:induction false} SurvivorsShaped(a: Arena, ps: seq<Pipe>)
    requires Shaped(a, ps)
    ensures Shaped(a, Survivors(ps))
  {
    if ps != [] {
      assert PipeShaped(a, ps[0]);
      SurvivorsShaped(a, ps[1..]);
    }
  }

  /** When a pipe stays on screen, so does every pipe to its right. */
  lemma {:induction false} AllSurvive(ps: seq<Pipe>)
    requires Spaced(ps) && |ps| > 0 && !Gone(Advance(ps[0]))
    ensures Survivors(ps) == Advanced(ps)
  {
    if |ps| > 1 {
      assert ps[0].x + SpawnSpacing < ps[1].x;
      assert ps[1..][0] == ps[1];
      AllSurvive(ps[1..]);
    }
    assert Advanced(ps) == [Advance(ps[0])] + Advanced(ps[1..]);
  }

  /** Spacing carries over to the pipes right of the first. */
  lemma SpacedTail(ps: seq<Pipe>)
    requires Spaced(ps) && ps != []
    ensures Spaced(ps[1..])
  {
    var t := ps[1..];
    forall k | 0 <= k < |t| - 1 ensures t[k].x + SpawnSpacing < t[k + 1].x {
      assert t[k] == ps[k + 1] && t[k + 1] == ps[k + 2];
    }
  }

  /** A first pipe that leaves the screen extends the dropped prefix of the rest by one. */
  lemma GoneHeadSuffix(ps: seq<Pipe>)
    requires ps != [] && Gone(Advance(ps[0]))
    requires var t := ps[1..];
      Survivors(t) == Advanced(t[|t| - |Survivors(t)|..]) &&
      forall k :: 0 <= k < |t| - |Survivors(t)| ==> Gone(Advance(t[k]))
    ensures Survivors(ps) == Advanced(ps[|ps| - |Survivors(ps)|..])
    ensures forall k :: 0 <= k < |ps| - |Survivors(ps)| ==> Gone(Advance(ps[k]))
  {
    var t := ps[1..];
    var m := |t| - |Survivors(t)|;
    assert Survivors(ps) == Survivors(t);
    assert ps[m + 1..] == t[m..];
    assert |ps| - |Survivors(ps)| == m + 1;
    forall k | 0 <= k < |ps| - |Survivors(ps)| ensures Gone(Advance(ps[k])) {
      if k > 0 {
        assert t[k - 1] == ps[k];
      }
    }
  }

  /** For pipes in screen order, the dropped pipes are a prefix: the survivors are
      the moved pipes from some index on, in their order. */
  lemma {:induction false} SurvivorsSuffix(ps: seq<Pipe>)
    requires Spaced(ps)
    ensures Survivors(ps) == Advanced(ps[|ps| - |Survivors(ps)|..])
    ensures forall k :: 0 <= k < |ps| - |Survivors(ps)| ==> Gone(Advance(ps[k]))
  {
    if ps != [] {
      if Gone(Advance(ps[0])) {
        SpacedTail(ps);
        SurvivorsSuffix(ps[1..]);
        GoneHeadSuffix(ps);
      } else {
        AllSurvive(ps);
      }
    }
  }

  /** The survivors are still in screen order and spaced. */
  lemma SurvivorsSpaced(ps: seq<Pipe>)
    requires Spaced(ps)
    ensures Spaced(Survivors(ps))
  {
    SurvivorsSuffix(ps);
    var tail := ps[|ps| - |Survivors(ps)|..];
    var adv := Advanced(tail);
    forall k | 0 <= k < |adv| - 1 ensures adv[k].x + SpawnSpacing < adv[k + 1].x {
      assert tail[k] == ps[|ps| - |Survivors(ps)| + k];
      assert tail[k + 1] == ps[|ps| - |Survivors(ps)| + k + 1];
    }
  }

  /** Calling gameOver twice in a row has the effect of calling it once. */
  lemma GameOverIdempotent(s: Session)
    ensures GameOverStep(GameOverStep(s)) == GameOverStep(s)
  {
  }

  /** The moved pipes that a call of updatePipes removes from the list: all dropped
      pipes when the pass runs to the end, the right-most one when it throws. */
  function Removed(a: Arena, s: Session, rand: real): seq<Pipe>
    requires 0.0 <= rand < 1.0
  {
    if s.mode != Playing then []
    else
      var ps := Spawn(a, s, rand).pipes;
      if UpdatePipes(a, s, rand).Threw? then Dropped(ps[|ps| - 1..]) else Dropped(ps)
  }

  lemma SpawnKeepsWellFormed(a: Arena, s: Session, rand: real)
    requires 0.0 <= rand < 1.0 && Shaped(a, s.pipes) && Spaced(s.pipes)
    ensures var ps := Spawn(a, s, rand).pipes;
      Shaped(a, ps) && Spaced(ps) && CountPassed(ps) == CountPassed(s.pipes)
  {
    if SpawnDue(a, s.pipes) {
      var p := NewPipe(a, rand);
      var ps := s.pipes + [p];
      assert Spawn(a, s, rand).pipes == ps;
      assert PipeShaped(a, p);
      forall k | 0 <= k < |ps| ensures PipeShaped(a, ps[k]) {
        if k < |s.pipes| { assert ps[k] == s.pipes[k]; }
      }
      forall k | 0 <= k < |ps| - 1 ensures ps[k].x + SpawnSpacing < ps[k + 1].x {
        assert ps[k] == s.pipes[k];
        if k + 1 < |s.pipes| { assert ps[k + 1] == s.pipes[k + 1]; }
      }
      CountPassedAppend(s.pipes, [p]);
      assert CountPassed([p]) == 0;
    }
  }

  /** The score grows by exactly the passed flags that the call added: those now on
      the kept pipes, and those of the pipes it removed. */
  lemma UpdatePipesTally(a: Arena, s: Session, rand: real)
    requires 0.0 <= rand < 1.0 && Shaped(a, s.pipes) && Spaced(s.pipes)
    ensures var r := UpdatePipes(a, s, rand).state;
      r.score + CountPassed(s.pipes) == s.score + CountPassed(r.pipes) + CountPassed(Removed(a, s, rand))
  {
    if s.mode == Playing {
      UpdatePipesEffect(a, s, rand);
      SpawnKeepsWellFormed(a, s, rand);
      var ps := Spawn(a, s, rand).pipes;
      var out := UpdatePipes(a, s, rand);
      if out.Threw? {
        ThrewTally(s, ps, out.state);
      } else {
        RanTally(s, ps, out.state);
      }
    }
  }

  /** The tally for a pass that throws: only the right-most pipe was visited. */
  lemma ThrewTally(s: Session, ps: seq<Pipe>, r: Session)
    requires |ps| > 0 && Gone(Advance(ps[|ps| - 1]))
    requires r == s.(pipes := ps[..|ps| - 1], score := s.score + NewlyPassed(ps[|ps| - 1..]))
    ensures r.score + CountPassed(ps) == s.score + CountPassed(r.pipes) + CountPassed(Dropped(ps[|ps| - 1..]))
  {
    var n := |ps|;
    var last := ps[n - 1..];
    ScoreTally(last);
    assert last[0] == ps[n - 1] && last[1..] == [];
    assert Survivors(last) == [];
    assert ps[..n - 1] + last == ps;
    CountPassedAppend(ps[..n - 1], last);
  }

  /** The tally for a pass that runs to the end. */
  lemma RanTally(s: Session, ps: seq<Pipe>, r: Session)
    requires SweptFrom(s, ps, r, 0)
    ensures r.score + CountPassed(ps) == s.score + CountPassed(r.pipes) + CountPassed(Dropped(ps))
  {
    ScoreTally(ps);
    assert ps[0..] == ps && ps[..0] == [];
    assert r.pipes == Survivors(ps) && r.score == s.score + NewlyPassed(ps);
  }

  /** updatePipes keeps every pipe's shape and the screen order. */
  lemma UpdatePipesKeepsWellFormed(a: Arena, s: Session, rand: real)
    requires 0.0 <= rand < 1.0 && Shaped(a, s.pipes) && Spaced(s.pipes)
    ensures var ps := UpdatePipes(a, s, rand).state.pipes; Shaped(a, ps) && Spaced(ps)
  {
    if s.mode == Playing {
      UpdatePipesEffect(a, s, rand);
      SpawnKeepsWellFormed(a, s, rand);
      var ps := Spawn(a, s, rand).pipes;
      if UpdatePipes(a, s, rand).Ran? {
        assert ps[0..] == ps && ps[..0] == [];
        SurvivorsShaped(a, ps);
        SurvivorsSpaced(ps);
      }
    }
  }

  /** updatePipes never lowers the best score. */
  lemma UpdatePipesKeepsBest(a: Arena, s: Session, rand: real)
    requires 0.0 <= rand < 1.0
    ensures UpdatePipes(a, s, rand).state.bestScore >= s.bestScore
  {
    if s.mode == Playing {
      UpdatePipesEffect(a, s, rand);
    }
  }

  /** updatePipes keeps shape and order, and a score that counts each passed pipe
      once, whether it is still on screen or was removed by this call or before. */
  lemma UpdatePipesKeepsTally(a: Arena, s: Session, rand: real, retired: nat)
    requires 0.0 <= rand < 1.0 && Shaped(a, s.pipes) && Spaced(s.pipes)
    requires s.score == retired + CountPassed(s.pipes)
    ensures var r := UpdatePipes(a, s, rand).state;
      Shaped(a, r.pipes) && Spaced(r.pipes) &&
      r.score == retired + CountPassed(Removed(a, s, rand)) + CountPassed(r.pipes)
  {
    UpdatePipesKeepsWellFormed(a, s, rand);
    UpdatePipesTally(a, s, rand);
  }

  /** What holds of the session at every moment: pipes keep their shape and screen
      order, and the score covers every passed flag still on screen. */
  ghost predicate WellFormed(a: Arena, s: Session) {
    Shaped(a, s.pipes) && Spaced(s.pipes) && CountPassed(s.pipes) <= s.score
  }

  /** The page-load state meets that invariant, is left as it is by resetGame, and
      the first jump from it starts a game from the same reset state. */
  lemma PageLoadWellFormed(a: Arena, storedBest: int)
    ensures WellFormed(a, Initial(a, storedBest))
    ensures ResetGame(a, Initial(a, storedBest)) == Initial(a, storedBest)
    ensures Jump(a, Initial(a, storedBest)) == Initial(a, storedBest).(mode := Playing)
  {
  }

  /** One frame keeps WellFormed and never lowers the best score. */
  lemma FrameKeepsWellFormed(a: Arena, s: Session, rand: real)
    requires 0.0 <= rand < 1.0 && WellFormed(a, s)
    ensures WellFormed(a, Frame(a, s, rand).state)
    ensures Frame(a, s, rand).state.bestScore >= s.bestScore
  {
    var b := UpdateBird(a, s);
    assert b.pipes == s.pipes && b.score == s.score && b.bestScore >= s.bestScore;
    UpdatePipesKeepsWellFormed(a, b, rand);
    UpdatePipesTally(a, b, rand);
    UpdatePipesKeepsBest(a, b, rand);
  }
}
