# Flappy Bird simulation core, in Dafny

This project models the per-frame simulation of the browser game in `script.js`.

- **Mode machine.** The game moves between the start screen, playing and game over. The one input action (`jump`) drives every transition.
- **Bird step.** One gravity step, then a check that the bird is still inside the canvas.
- **Pipe list.** `updatePipes` first applies the spawn rule, then runs a reverse `for` loop. Each iteration moves a pipe, scores it once through its `passed` flag, splices it out when it is off screen, and runs the collision test.
- **Collision test and game over.** Game over keeps the larger of the best score and the current score.

The files:

- `rules.dfy` (module `Rules`): the state as a value (`Session`), with one function per JavaScript function. The per-call facts are in their `ensures` clauses. `Initial` is the state at page load (script.js:10-31); `Properties.PageLoadWellFormed` and `Game.constructor` state what it is.
- `properties.dfy` (module `Properties`): independent reference definitions of what one pass over the pipes does.
  - `Advance`: one pipe moved and flagged.
  - `Survivors` and `Dropped`: the moved pipes that stay on screen and those that leave it.
  - `NewlyPassed`: the pipes that score in this frame.
  - The lemmas tie the index-by-index loop, splice quirk included, to these definitions. They also prove what the game keeps true frame after frame.
- `game.dfy` (module `Simulation`): class `Game` holds the globals as fields. Its methods assign them in place as the JavaScript does, including the `while` loop with in-loop splicing. Each method's postcondition equates the new state with the matching `Rules` function of the old state. `Valid()` is established by the constructor and `ResetGame`, and kept by `Jump`, `UpdateBird`, `UpdatePipes` and `Frame`. The steps inside `updatePipes` (`CreatePipe`, `SpawnPipe`, `VisitPipe`, `MovePipes`) are specified by `Rules` alone, without `Valid()`; `CreatePipe` called twice in a row would break the spacing that `Valid()` demands. A ghost counter `retired` counts the passed pipes that have scrolled off.
- `driver.dfy` (module `Driver`): the host as a sequence of events. Each key press or click calls `jump`; each animation frame runs `updateBird` then `updatePipes`.

Numbers are exact `real`s. Bird y and velocity are always multiples of 0.5, and pipe x starts at the canvas width and drops by 2 each frame. The canvas width and height are not in the source, so they are constructor parameters. The value of `Math.random()` is a parameter `rand` with `0 <= rand < 1`.

Behaviour of the code that the model keeps as written:

- **The splice quirk.** After `pipes.splice(i, 1)` (script.js:104), line 108 still tests `pipes[i]`. That is the next pipe to the right, which was already moved and tested in its own iteration. If `i` was the last index, `pipes[i]` is `undefined`, and `checkCollision` throws a TypeError.
  - The model returns `Threw(state)`, with the state reached at the throw.
  - `UpdatePipesEffect` proves that this happens exactly when the right-most pipe leaves the screen in the frame's first iteration.
  - `WideArenaNeverThrows` proves that it never happens on a canvas at least 152 wide. `NarrowArenaThrows` shows it happening on a canvas 100 wide.
  - After a throw the rest of `gameLoop` is skipped, including `requestAnimationFrame`, so no further frame runs. `Driver.Run` models this.
- **The loop keeps going after a collision.** On an arbitrary pipe list, `gameOver` can therefore run several times in one frame, and a pipe that scores later in the same pass can raise `score` after the first `gameOver` call. The pipe lists a game produces do not reach either case: pipes are more than 200 apart, so only the left-most pipe can overlap the bird, and it is visited last.
- **A pipe is removed only when its right edge is left of 0** (`x + 50 < 0`). A pipe whose left edge has just crossed the left edge of the canvas (x = -1) stays on the list. It is scored in that frame (`PipeJustPastLeftEdge`).
- **The loop runs right to left, not in spawn order.** Because each pipe's update depends only on that pipe, the kept pipes come out as if processed in any order. Removal takes a prefix of the list (`SurvivorsSuffix`).

## Model

| member | source | states |
|---|---|---|
| `Rules.ResetGame` | script.js:34-40 | the session returns to its page-load values: bird at half the canvas height, velocity 0, no pipes, score 0; mode and best score are kept |
| `Rules.Jump` | script.js:42-55 | from Start: Playing with the reset session; from Playing: velocity set to -8 (overwritten, not added) and nothing else changed; from GameOver: exactly the page-load state (Start, reset), not Playing; the best score never changes |
| `Rules.GameOverStep` | script.js:126-133 | mode becomes GameOver; the best score becomes the larger of the best and current scores; nothing else changes |
| `Rules.UpdateBird` | script.js:57-67 | no change unless Playing; otherwise velocity' = velocity + 0.5 and y' = y + velocity', and the mode becomes GameOver exactly when y' < 0 or y' + 20 > canvas height (the best score then taken as by gameOver), else stays Playing |
| `Rules.CheckCollision` | script.js:114-124 | no hit exactly when the bird's columns miss the pipe's (70 <= x or x + 50 <= 50; touching edges do not collide) or the bird lies in the closed gap (topHeight <= y and y + 20 <= bottomY) |
| `Rules.TopHeight` | script.js:70-72 | on a canvas taller than 250 the drawn top height lies in [50, height - 200); otherwise it lies in the reversed range [height - 200, 50] |
| `Rules.NewPipe` | script.js:69-81 | new pipe at x = canvas width, not passed, gap exactly 150, bottom height = canvas height - bottomY; on a canvas taller than 250 top height at least 50 and bottom height more than 50 |
| `Rules.Spawn` | script.js:86-89 | exactly one pipe, the new pipe, is appended when the list is empty or the last pipe's x < width - 200; none otherwise; the existing pipes are unchanged |
| `Rules.Visit` | script.js:93-110 | one iteration at index i can throw only at the last index; when it does not throw, index i is still on the list; it removes at most one pipe and never touches the bird |
| `Rules.SweepFrom` | script.js:92-111 | the reverse loop from index i can throw only when i is the last index, i.e. in its first iteration, and it leaves the bird's y and velocity alone |
| `Rules.UpdatePipes` | script.js:83-84 | no change unless Playing |
| `Rules.Frame` | script.js:202-203 | no change unless Playing; if updateBird ends the game, updatePipes does nothing that frame |
| `Properties.Advance` | script.js:93-100 | a pipe moves left by 2; its passed flag is set exactly when it was set already or its moved right edge is left of the bird (never cleared); nothing else changes |
| `Properties.Survivors` | script.js:102-105 | the kept pipes are on screen and at most as many as before |
| `Properties.Dropped` | script.js:102-105 | the removed pipes are off screen, and kept plus removed pipes number as many as before |
| `Properties.VisitStep` | script.js:92-111 | one iteration at index i extends the processed suffix by one index (prefix untouched, survivors of the suffix in order, score, mode, best score); it throws exactly at the first index when that pipe leaves the screen |
| `Properties.SweepFromEffect` | script.js:92-111 | the reverse loop from any index with the invariant ends with every pipe processed, or throws exactly in the first iteration, when the right-most pipe leaves the screen |
| `Properties.UpdatePipesEffect` | script.js:83-112 | after the spawn: either the pass ends with the list equal to the moved on-screen pipes in order, score raised by exactly the pipes newly crossing the bird, mode GameOver exactly when a kept pipe hits the bird, and the best score between max(best, old score) and max(best, new score) (unchanged without a hit); or, exactly when the right-most pipe leaves the screen, it throws with that pipe removed and scored and all else untouched |
| `Properties.WideArenaNeverThrows` | script.js:87-108 | on a canvas at least 152 wide updatePipes never throws |
| `Properties.NarrowArenaThrows` | script.js:103-108 | on a canvas 100 wide, a lone pipe at x = -50 (the last position a pipe moving by 2 from x = 100 reaches before removal) is spliced away, and the collision test then reads past the end |
| `Properties.FirstFrameSpawnsOne` | script.js:87-93 | the first updatePipes of a game (Playing, no pipes) creates one pipe at the right edge and moves it by 2 in the same call |
| `Properties.PipeJustPastLeftEdge` | script.js:96-105 | an unpassed pipe at x = -1 is moved to -3 and scored, and is not removed (a boundary case of the rules; in a game the pipe would have scored earlier) |
| `Properties.ScoreTally` | script.js:96-105 | passed flags on kept plus removed pipes = old flags + pipes that score now, so each pipe adds to the score at most once |
| `Properties.UpdatePipesTally` | script.js:83-112 | the score rises by exactly the passed flags the call added, counting those on pipes it removed |
| `Properties.SurvivorsShaped` | script.js:93-105 | moving and removing pipes keeps each pipe's gap, bottom height and minimum heights |
| `Properties.AllSurvive` | script.js:92-105 | for pipes in screen order, once one pipe stays on screen every pipe to its right does too |
| `Properties.SurvivorsSuffix` | script.js:92-105 | for pipes in screen order the removed pipes form a prefix, and the kept pipes are the moved pipes from some index on, in order |
| `Properties.SurvivorsSpaced` | script.js:92-105 | the kept pipes stay in left-to-right order, more than 200 apart |
| `Properties.SpawnKeepsWellFormed` | script.js:69-89 | the spawn step keeps the shape of every pipe and the spacing of more than 200, and adds no passed flag |
| `Properties.UpdatePipesKeepsTally` | script.js:83-112 | updatePipes keeps shape and order, and a score equal to the passed pipes removed earlier plus those it removes plus those still on screen |
| `Properties.UpdatePipesKeepsWellFormed` | script.js:83-112 | updatePipes keeps every pipe's shape and the screen order, whether it ends or throws |
| `Properties.UpdatePipesKeepsBest` | script.js:126-133 | a call to updatePipes never lowers the best score, whether it ends or throws |
| `Properties.GameOverIdempotent` | script.js:126-133 | calling gameOver twice in a row has the effect of calling it once |
| `Properties.PageLoadWellFormed` | script.js:10-55 | the page-load state meets the invariants, resetGame leaves it as it is, and the first jump from it starts playing from that same state |
| `Properties.FrameKeepsWellFormed` | script.js:202-203 | one frame keeps those invariants, with the score covering every passed flag on screen, and never lowers the best score |
| `Driver.RunBestNeverDecreases` | script.js:126-133 | from any state, over any sequence of inputs and frames, across any number of games, the best score never decreases |
| `Driver.Run` | script.js:194-219 | the host loop: each input calls jump, each animation frame runs the update half of gameLoop; once a frame has thrown, later frames change nothing, because requestAnimationFrame (line 208) is never reached. `RunBestNeverDecreases` and `RunKeepsWellFormed` state what every run keeps |
| `Driver.RunKeepsWellFormed` | script.js:194-219 | over any sequence of inputs and frames every pipe keeps a gap of exactly 150 and its shape, and the pipes stay in screen order |
| `Driver.FromPageLoad` | script.js:10-31 | from page load, whatever happens, the invariants hold and the best score is at least the stored one |
| `Simulation.Game.constructor` | script.js:10-31 | page load: start screen, bird at mid-height, velocity 0, no pipes, score 0, the stored best score |
| `Simulation.Game.ResetGame` | script.js:34-40 | assigns the bird, the pipes and the score as Rules.ResetGame says, and zeroes the retired counter |
| `Simulation.Game.Jump` | script.js:42-55 | the new state is Rules.Jump of the old; Valid is kept; the retired counter is unchanged while playing and zeroed by the reset otherwise |
| `Simulation.Game.GameOver` | script.js:126-138 | only mode and best score change, as Rules.GameOverStep says |
| `Simulation.Game.UpdateBird` | script.js:57-67 | the new state is Rules.UpdateBird of the old; Valid is kept |
| `Simulation.Game.CreatePipe` | script.js:69-81 | appends exactly Rules.NewPipe to the pipe list |
| `Simulation.Game.SpawnPipe` | script.js:86-89 | the spawn rule in place, equal to Rules.Spawn |
| `Simulation.Game.VisitPipe` | script.js:93-110 | one loop iteration in place (move, score, splice, collision test on pipes[i]), equal to Rules.Visit, reporting the throw |
| `Simulation.Game.MovePipes` | script.js:92-111 | the reverse while loop with in-place splicing, equal to Rules.SweepFrom from the last index |
| `Simulation.Game.UpdatePipes` | script.js:83-112 | the new state and the throw are those of Rules.UpdatePipes; Valid is kept (shape, order, score = retired + passed flags on screen) |
| `Simulation.Game.Frame` | script.js:202-203 | updateBird then updatePipes, equal to Rules.Frame; Valid is kept; the retired counter grows by the passed flags of the pipes this frame removes |

## Left out

- Drawing (`drawBird`, `drawPipes`, `drawBackground`, `ctx.clearRect`, script.js:140-199, 205-206): canvas side effects with no game logic. `bird.color` goes with them.
- DOM updates: the `textContent` assignments (script.js:39, 99, 135-136, 222) and the overlay `classList` changes (script.js:45, 51-52, 137) only mirror the state in the page.
- `localStorage` (script.js:13, 132): the stored best score is a constructor parameter. The write is not modelled. The stored value is a string compared by coercion; the model treats it as an integer.
- `Math.random()` (script.js:72): it is nondeterministic, so its value is the parameter `rand`, with `0 <= rand < 1`.
- `requestAnimationFrame` and the key and click listeners (script.js:208, 212-219): these are host scheduling. `Driver.Run` takes them as a sequence of events, and `Game.Jump` and `Game.Frame` are called directly.
- IEEE floating point: the model uses exact reals. Bird y, velocity and pipe x stay multiples of 0.5, which doubles hold exactly for a canvas of integer size. The random top height, `bottomY = topHeight + 150` and `bottomHeight` (script.js:72, 77-78) are rounded by doubles. So the exact gap of 150 (`PipeShaped`, `NewPipe`) and the collision edge at `bottomY` that depends on it are real-number idealisations; doubles can miss them by one unit in the last place.
- Pipe records are values in a sequence rather than shared objects. No reference to a pipe escapes the array, so this loses no aliasing.
- Properties.UpdatePipesEffect: bounds the best score after a frame with a collision between max(best, score before) and max(best, score after) rather than naming the exact value. On an arbitrary pipe list the exact value is the one at the last `gameOver` call of the pass, and `Rules.Visit` computes it. For the pipe lists a game produces it is max(best, score after), but the model does not prove that; it would need an invariant on the pipes' positions.
