/**
 * The host side of script.js as a stream of events: each key press or click
 * calls jump, and each animation frame runs the update half of gameLoop. When a
 * frame throws, the rest of gameLoop is skipped, requestAnimationFrame is never
 * called again, and so no further frame runs; input still reaches jump.
 */
module Driver {
  import opened Rules
  import opened Properties

  /** A value of Math.random(). */
  type Fraction = r: real | 0.0 <= r < 1.0

  datatype Event = Activate | Tick(rand: Fraction)

  /** The session after a sequence of events; `halted` records that a frame threw. */
  function Run(a: Arena, s: Session, halted: bool, evs: seq<Event>): (r: Session)
    ensures halted && (forall k :: 0 <= k < |evs| ==> evs[k].Tick?) ==> r == s
    decreases |evs|
  {
    if evs == [] then s
    else match evs[0]
      case Activate => Run(a, Jump(a, s), halted, evs[1..])
      case Tick(rand) =>
        if halted then Run(a, s, halted, evs[1..])
        else
          var o := Frame(a, s, rand);
          Run(a, o.state, o.Threw?, evs[1..])
  }

  /** The best score never decreases, across any number of games. */
  lemma {:induction false} RunBestNeverDecreases(a: Arena, s: Session, halted: bool, evs: seq<Event>)
    ensures Run(a, s, halted, evs).bestScore >= s.bestScore
    decreases |evs|
  {
    if evs != [] {
      match evs[0]
      case Activate =>
        RunBestNeverDecreases(a, Jump(a, s), halted, evs[1..]);
      case Tick(rand) =>
        if halted {
          RunBestNeverDecreases(a, s, halted, evs[1..]);
        } else {
          var o := Frame(a, s, rand);
          UpdatePipesKeepsBest(a, UpdateBird(a, s), rand);
          RunBestNeverDecreases(a, o.state, o.Threw?, evs[1..]);
        }
    }
  }

  /** Whatever the events, every pipe keeps a gap of exactly PipeGap, ends at the
      canvas bottom, keeps segments of at least MinHeight on a canvas taller than
      250, and the pipes stay in screen order. */
  lemma {:induction false} RunKeepsWellFormed(a: Arena, s: Session, halted: bool, evs: seq<Event>)
    requires WellFormed(a, s)
    ensures WellFormed(a, Run(a, s, halted, evs))
    decreases |evs|
  {
    if evs != [] {
      match evs[0]
      case Activate =>
        RunKeepsWellFormed(a, Jump(a, s), halted, evs[1..]);
      case Tick(rand) =>
        if halted {
          RunKeepsWellFormed(a, s, halted, evs[1..]);
        } else {
          var o := Frame(a, s, rand);
          FrameKeepsWellFormed(a, s, rand);
          RunKeepsWellFormed(a, o.state, o.Threw?, evs[1..]);
        }
    }
  }

  /** From page load, the pipes keep their shape and order forever. */
  lemma FromPageLoad(a: Arena, storedBest: int, evs: seq<Event>)
    ensures var r := Run(a, Initial(a, storedBest), false, evs);
      WellFormed(a, r) && r.bestScore >= storedBest
  {
    PageLoadWellFormed(a, storedBest);
    RunKeepsWellFormed(a, Initial(a, storedBest), false, evs);
    RunBestNeverDecreases(a, Initial(a, storedBest), false, evs);
  }
}
