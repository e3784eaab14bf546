# Transitions: a verified model of the transition engine

This project models the transition engine of the RPG Maker MV plugin
"Transitions". The plugin replaces the engine's plain fades with four
tick-driven effects:

- **Transition_Base**: a black or white fade.
- **Transition_Melt**: a DOOM-style melt of 500 vertical slices.
- **Transition_Iris**: a six-blade mechanical iris.
- **Transition_Cut**: the old frame is split along a random line and the halves slide apart.

It also models the glue that configures and drives them:

- the four configurable slots saved in `$gameSystem`;
- the `SetTransition` plugin command;
- the pattern test that decides which class a slot names, falling back to Transition_Base;
- the scene, screen and spriteset hooks that create, start and update transitions.

Modules, one per file:

- `Canvas` (canvas.dfy): frame sizes, points, masks and the `Sprite` a transition draws on. Pixels are not modelled. A sprite keeps the list of drawing commands issued since its bitmap was last cleared or filled whole.
- `Base` (base.dfy): `BaseTransition`. Its `Update` is proved against the pure `Tick` on a `Fader`, and lemmas about iterated ticks give the countdown and opacity bounds.
- `Travel` (travel.dfy): the `distance` accumulator and stop rule that Iris and Cut share, with the lemmas that bound when they stop.
- `Melt` (melt.dfy): `MeltTransition`. The offsets are an `array<int>` updated in place. `Update` is proved against `Melt.Tick`.
- `Iris` (iris.dfy): blade rims as angle indices mod 6, and `IrisTransition`.
- `Cut` (cut.dfy):
  - the seam end points;
  - the corner walk that builds the two polygon point lists, as a pure `Walk` and as the imperative `SplitCorners`;
  - the vertical case;
  - `CutTransition`.
- `Plugin` (plugin.dfy):
  - the slot map and plugin command;
  - the pattern test and `Resolve`;
  - the `GameSystem`, `GameScreen`, `Scene` and `Spriteset` classes;
  - the `Scene_Battle.update` gate;
  - dispatch over the four transition classes (`Playing`).

Every transition class has four parts:

- a `Valid` invariant. It implies `active ==> remaining ticks >= 1` or `active ==> duration >= 1`, so no update divides by zero.
- a `StartedWith` predicate, which says what `start` leaves;
- a two-state `Ticked` predicate, which says what one `update` does in terms of the pure tick function;
- lemmas about n iterated ticks.

Randomness and trigonometry are parameters:

- Melt's draws `first` in [0, 100) and `steps` in [0, 50).
- Cut's `|cos(angle)| < 0.001` flag, `tan(angle)` and its two jitter draws in [0, 1).
- Plugin bundles all of these in `Dice`.

The comparison `distance <= sqrt(w*w + h*h)` is stated without the root, as `d <= 0 || d*d <= w*w + h*h`. For every real d this is the same test.

Where the code contradicts the plugin's own comments, the model follows the code:

- **Iris blades overlap.** The comment at src/Iris.js:4 says the iris "divides the old scene in six blades". Each blade's rim is the three angle indices i, i+1, i+2 (mod 6), so each blade is a 120-degree wedge. Every 60-degree sector lies in exactly two blades (`Iris.EachSectorTwice`), so the blades overlap instead of dividing the scene.
- **Melt outlasts its stated duration.** The comment at src/Melt.js:30 says "the actual duration is twice the passed value". The melt stops only when every slice has passed the sprite's bottom. It is still running after all 2 * d ticks of its countdown (`Melt.OutlastsCountdown`). If the snapshot is shorter than the duration, the per-tick step is 0 and it never stops (`Melt.NeverStopsWhenStepZero`).
- **Cut runs longer than stated.** The comment at src/Cut.js:38 says "the actual duration is twice the passed value", so D = 2 * d updates. Cut stops only when the distance passes the diagonal. It still runs after each of its first D updates (`Travel.ActiveThroughDuration`) and has stopped by update 2 * D (`Travel.StoppedByTwiceDuration`). On an 816 x 624 screen with d = 30, D = 60 but the halves move 13.6 per update and pass the diagonal (about 1027.2) on update 76.
- **Iris runs longer than stated.** The comment at src/Iris.js:37 says "the actual duration is five times the passed value", so D = 5 * d updates. The same two lemmas bound the run between D and 2 * D updates. On the same screen with d = 30, D = 150, the blades move 5.44 per update and pass the diagonal on update 189.
- **Screen fade directions are swapped.** The comment at src/Base.js:19 says the engine passes -1 for fade-outs and +1 for fade-ins. `Game_Screen.startFadeOut` (src/Plugin.js:250-256) nevertheless asks for +1, and `startFadeIn` for -1.

Notes on the code:

- Transition_Base compares `white` with 1 and 0 using `===`; any other value starts no fade.
- Cut's update increments the distance before drawing; Iris draws before incrementing.
- Cut's update clears the screen on the update that stops it.
- `fadeOutForTransfer` and `startEncounterEffect` create the transition before capturing the screen, so the new transition works from the previous capture (`Plugin.Scene.FadeOutForTransfer`, `Plugin.Scene.StartEncounterEffect`).
- Melt, Iris and Cut play only on a fade-in (+1). A fade-out (-1) plays only as Transition_Base in black or white (`Plugin.FadeOutPlaysOnlyAsBase`). So a melt, iris or cut chosen for the "transfer" or "battle" slot does nothing on the fade-out side.

## Model

| member | source | states |
|---|---|---|
| Base.BaseTransition.constructor | src/Base.js:21-27 | a new fade is stopped and keeps its sprite, colour and direction exactly as given |
| Base.BaseTransition.Start | src/Base.js:33-47 | duration and remaining ticks become d; the fade plays iff white is 1 (sprite filled white) or 0 (filled black); any other colour leaves it stopped with nothing painted; the invariant active ⇒ remaining ≥ 1 holds afterwards |
| Base.BaseTransition.Update | src/Base.js:52-64 | keeps the invariant, so the divisions by the remaining ticks never divide by zero; the new running flag, remaining ticks and opacity are exactly one `Tick` of the old ones: nothing when stopped, else one opacity step, one tick less, running iff ticks remain; duration and canvas unchanged |
| Base.Faded | src/Base.js:54-58 | definition: one opacity step, 1/remaining of the way to 0 on a fade-in and to 255 otherwise |
| Base.Tick | src/Base.js:52-64 | one update keeps a running fade's remaining ticks at least 1 |
| Base.CountdownExact | src/Base.js:61-62 | started with d ≥ 1 ticks, the fade still runs after every n < d updates and stops on exactly the d-th; the ticks left are d - n, then 0 |
| Base.FadedBounds | src/Base.js:54-58 | one opacity step keeps it in [0, 255], moves it only towards 0 (fade-in) or 255 (fade-out), and lands exactly on the target when one tick is left |
| Base.OpacityOverCountdown | src/Base.js:52-64 | over a whole countdown from an opacity in [0, 255], the opacity stays in [0, 255]; it never rises during a fade-in and never falls during a fade-out; from the d-th update on it is exactly 0 (fade-in) or 255 (fade-out) |
| Travel.Tick | src/Iris.js:88-92 | definition: one update of a running Iris or Cut adds max(w, h) / duration to the distance, keeps running iff the new distance is within the diagonal, and counts one tick; a stopped one is unchanged |
| Travel.RunningSoFar | src/Iris.js:88-90 | a transition running after n updates ran after n - 1, and its distance is within the diagonal |
| Travel.DistanceWhileActive | src/Iris.js:88 | while running, n updates have moved the pieces exactly n * max(w, h) / duration |
| Travel.ReachWithinDiagonal | src/Iris.js:90 | any distance up to max(w, h) passes the stop test |
| Travel.TwiceReachBeyondDiagonal | src/Iris.js:90 | any distance of at least 2 * max(w, h) fails the stop test |
| Travel.StepsCover | src/Iris.js:88 | k ≤ duration steps cover at most max(w, h); k ≥ 2 * duration steps cover at least 2 * max(w, h) |
| Travel.ActiveThroughDuration | src/Iris.js:88-90 | on a picture of positive size, the transition still runs after each of its first `duration` updates |
| Travel.StoppedByTwiceDuration | src/Iris.js:88-90 | on a picture of positive size, the transition has stopped by its 2 * duration-th update |
| Travel.RemainingIrrelevant | src/Iris.js:88-92 | the ticks left never decide anything: runs that differ only in them agree on the running flag and distance forever |
| Melt.MeltTransition.constructor | src/Melt.js:22-27 | a new melt is stopped, keeps its sprite, colour and direction, and holds the captured frame |
| Melt.MeltTransition.Start | src/Melt.js:33-49 | only a fade-in (+1) changes anything; it then builds a fresh array of exactly 500 offsets following the clamped random walk of the draws, sets duration and remaining ticks to 2 * d and runs; any other sign leaves the melt unchanged |
| Melt.Profile | src/Melt.js:36-43 | definition: slice 0 starts `first` pixels up; each further slice moves by its draw minus 25 from its left neighbour, clamped to at most 0 |
| Melt.ProfileBounds | src/Melt.js:36-43 | from draws in range, there are 500 offsets; slice 0 starts in [-99, 0]; every offset is ≤ 0; each one is at most 25 above and 24 below its left neighbour |
| Melt.Tick | src/Melt.js:57-70 | definition: one update of a running melt moves every slice by the same step, runs iff some slice is at or above the bottom, and counts one tick; a stopped melt is unchanged |
| Melt.SliceFrame | src/Melt.js:64-68 | definition: slice i is the snapshot's column at x = i * ceil(width / 500), drawn at the same x and at height max(0, offset) |
| Melt.MeltTransition.Update | src/Melt.js:51-72 | the offsets array is updated in place as exactly one `Melt.Tick`: every slice moves by floor(snapshot height / duration), the melt runs iff some slice is at or above the sprite's bottom, and one tick is counted; the canvas is cleared and then holds slice i taken at x = i * ceil(width / 500) and drawn at height max(0, offset); nothing changes when stopped |
| Melt.HeightsWhileActive | src/Melt.js:57-62 | while the melt runs, n updates have moved every slice by exactly n * step, and it runs because some slice is still at or above the bottom |
| Melt.StopsWhenStepPositive | src/Melt.js:59-62 | with a step ≥ 1, the melt has stopped after any n ≥ 1 updates with lowest offset + n * step beyond the bottom |
| Melt.StopsWithin | src/Melt.js:59-62 | with a step ≥ 1, bottom - lowest offset + 1 updates always stop the melt |
| Melt.NeverStopsWhenStepZero | src/Melt.js:59-62 | with step 0, a melt with some slice at or above the bottom never stops and its offsets never change |
| Melt.OutlastsCountdown | src/Melt.js:59-70 | from any start profile on a sprite at least as tall as the snapshot, the melt still runs after all d ticks of its countdown, when the ticks left reach 0 |
| Melt.FallWithinSnapshot | src/Melt.js:60 | n ≤ duration steps of floor(height / duration) fall between 0 and the snapshot height |
| Iris.RimShape | src/Iris.js:53-59 | blade i's rim is the angle indices i, (i + 1) mod 6, (i + 2) mod 6: three neighbouring indices, all below 6 |
| Iris.SectorInBlade | src/Iris.js:54-57 | sector k lies in blade i iff i is k or k - 1 (mod 6) |
| Iris.EachSectorTwice | src/Iris.js:54-57 | every sector lies in exactly two blades, so the six masks overlap rather than partition the frame |
| Iris.BladeOutline | src/Iris.js:54-57 | the rim start's inner loop traces is exactly `Rim(i)` |
| Iris.Assembled | src/Iris.js:63 | definition: start's drawing, the six masked blades at (0, 0) in blade order |
| Iris.Spread | src/Iris.js:84-86 | definition: an update's drawing, blade i pushed along angle index i by the distance |
| Iris.IrisTransition.constructor | src/Iris.js:22-34 | a new iris is stopped and holds exactly six unmasked copies of the captured frame |
| Iris.IrisTransition.Start | src/Iris.js:40-73 | only a fade-in (+1) changes anything; it then masks copy i to blade i's wedge, draws the six copies in order, sets the distance to 0 and duration and remaining ticks to 5 * d, and runs; copies keep their frame; any other sign leaves everything unchanged |
| Iris.IrisTransition.Update | src/Iris.js:75-94 | one update is exactly one `Travel.Tick` on the copies' size: the distance grows by max(w, h) / duration and the iris runs iff it is within the diagonal; the canvas holds blade i pushed along angle index i by the distance from before the step; nothing changes when stopped |
| Cut.Jittered | src/Cut.js:45-46 | the cut point's coordinates lie within 25 of the screen's middle |
| Cut.StartBoundary | src/Cut.js:51-66 | definition: for a vertical cut a = (floor(dx), floor(h)) and b = (floor(dx), 0); otherwise the line's floored y at x = 0 and at x = w |
| Cut.UpdateBoundary | src/Cut.js:174-187 | the seam update recomputes is always the seam start drew |
| Cut.Before | src/Cut.js:102-109 | definition: the seam ends pushed to both lists before corner p |
| Cut.After | src/Cut.js:119-126 | definition: the seam ends pushed to both lists after corner p |
| Cut.Insertions | src/Cut.js:102-126 | a seam end on corner p's vertical edge is inserted before p when it lies further down (`a`) or further up (`b`) than p, after p in the opposite case, and not at all when level; only seam ends are inserted, at most two on either side |
| Cut.InsertionsEach | src/Cut.js:101-127 | no corner is ever inserted as a seam end |
| Cut.VisitCounts | src/Cut.js:101-127 | visiting a corner adds the seam ends around it to both lists and the corner to exactly one |
| Cut.VisitBalanced | src/Cut.js:102-126 | visiting a corner keeps every seam end as frequent in one list as in the other |
| Cut.VisitOrdered | src/Cut.js:101-127 | visiting corner k after corners below k keeps both lists in visiting order with corners below k + 1, when the seam ends pushed are no corners |
| Cut.WalkCorners | src/Cut.js:101-127 | after n corners, corner k is in ptsA iff it was visited and the side test holds for it, and in ptsB iff visited and the test fails |
| Cut.Walk | src/Cut.js:101-127 | after any number of corners, both lists hold each seam end equally often, because the seam ends are always pushed to both |
| Cut.WalkOrdered | src/Cut.js:101-127 | after n corners, both lists keep visiting order and name only visited corners |
| Cut.Split | src/Cut.js:96-127 | definition: the walk over the four corners (0,0), (w,0), (w,h), (0,h) in that order |
| Cut.EachCornerOnce | src/Cut.js:101-117 | each frame corner (0,0), (w,0), (w,h), (0,h) is in exactly one list, at most once: ptsA when its side test holds, ptsB otherwise; both lists are in visiting order |
| Cut.SameSeamEnds | src/Cut.js:102-126 | ptsA and ptsB contain `a` equally often and `b` equally often |
| Cut.AboveAround | src/Cut.js:100-112 | the side test holds iff the corner lies further down than the line at its x |
| Cut.SidesNonEmpty | src/Cut.js:112-117 | with the cut point inside the frame, each side gets a corner, so neither list is empty |
| Cut.AcrossTheFrame | src/Cut.js:96-127 | a line entering through the left edge and leaving through the right gives ptsA = a, b, b, (w,h), (0,h), a and ptsB = a, (0,0), (w,0), b, b, a |
| Cut.OutlinePaths | src/Cut.js:96-149 | both traced outlines are closed paths of frame corners and seam ends, and each corner lies on the path of the side its test gives it |
| Cut.Masks | src/Cut.js:72-149 | definition: the vertical case's two rectangles, otherwise the traced paths of `Split` |
| Cut.VerticalHalves | src/Cut.js:51-93 | in the vertical case a = (floor(dx), h) and b = (floor(dx), 0); copy 0 is masked to the polygon (0,0), b, a, (0,h) and copy 1 to (w,0), b, a, (w,h) |
| Cut.VisitCorner | src/Cut.js:101-127 | one corner's five pushes produce exactly one `Visit` |
| Cut.SplitCorners | src/Cut.js:96-127 | the forEach over the four corners builds exactly `Split`, the lists the lemmas above describe |
| Cut.Traced | src/Cut.js:129-149 | the filled path of a list is closed; every point on it is a frame corner or a seam end when the list names only existing corners; every corner the list names lies on it |
| Cut.TracePath | src/Cut.js:129-149 | the moveTo / lineTo loop traces exactly `Traced` |
| Cut.Slid | src/Cut.js:193-202 | definition: an update's drawing, copy 0 along the angle and copy 1 the opposite way by the distance, then the seam |
| Cut.CutTransition.constructor | src/Cut.js:22-35 | a new cut is stopped and holds exactly two unmasked copies of the captured frame |
| Cut.CutTransition.Start | src/Cut.js:41-167 | only a fade-in (+1) changes anything; it then fixes the line from the draws, masks the two copies per `Masks` (the walk, or the vertical rectangles) keeping their frames, leaves the cleared canvas holding both copies and the seam, sets the distance to 0 and duration and remaining ticks to 2 * d, and runs (all of it `StartedWith`); any other sign leaves everything unchanged |
| Cut.CutTransition.Update | src/Cut.js:169-211 | one update is exactly one `Travel.Tick` on the screen's size; the canvas holds copy 0 shifted along the angle and copy 1 the opposite way by the new distance plus the seam, or is empty on the update that stops; nothing changes when stopped |
| Plugin.DefaultsRegistered | src/Plugin.js:50-54 | a fresh Game_System maps all four slots, and only them, to "my.Transition_Base" |
| Plugin.Assigned | src/Plugin.js:34-39 | SetTransition stores the registered class of args[1] in slot args[0] when the slot is one of the four and the name is non-empty and registered; every other slot keeps its class, and other commands change nothing |
| Plugin.AssignedKeepsRegistered | src/Plugin.js:32-41 | no plugin command can make a slot name an unregistered class |
| Plugin.AssignedIdempotent | src/Plugin.js:32-41 | repeating a plugin command changes nothing more |
| Plugin.GameSystem.constructor | src/Plugin.js:47-56 | the slots start as the defaults and the snapshot as a frame of the screen's size |
| Plugin.GameSystem.PluginCommand | src/Plugin.js:32-41 | the nested tests update the slots exactly as `Assigned`, keeping every slot registered |
| Plugin.MatchFrom | src/Plugin.js:86 | the search from index i succeeds iff "my.Transition_" followed by a word character occurs at some index ≥ i |
| Plugin.Resolve | src/Plugin.js:92-97 | a name the pattern rejects resolves to Transition_Base; any other class is chosen only for a matching name that is exactly its class name; a matching name that is no class resolves to nothing (the `eval` fails) |
| Plugin.ClassNameResolves | src/Plugin.js:92-97 | every class name passes the pattern at index 0 and resolves to its own class |
| Plugin.MatchesAnywhere | src/Plugin.js:86 | the pattern is unanchored: any text before a class name still matches |
| Plugin.PrefixAloneFails | src/Plugin.js:86 | "my.Transition_" alone does not match and falls back to Transition_Base |
| Plugin.RegisteredResolves | src/Plugin.js:92-97 | a registered class name always resolves to that class |
| Plugin.GameScreen.StartFadeOut | src/Plugin.js:250-256 | asks for direction +1 with the given duration, sets `starting`, and captures the screen |
| Plugin.GameScreen.StartFadeIn | src/Plugin.js:262-268 | asks for direction -1 with the given duration, sets `starting`, and captures the screen |
| Plugin.GameScreen.ClearFade | src/Plugin.js:287-292 | brightness 255, direction 0, duration 0, nothing requested |
| Plugin.Make | src/Plugin.js:93 | `new` gives a fresh, stopped transition of the chosen class on the given sprite, colour and direction, holding the current capture unless it is Transition_Base |
| Plugin.StartPlaying | src/Plugin.js:99 | `start(d)` leaves each class in its `StartedWith` state: Transition_Base's countdown and fill, Melt's offsets, Iris's masks and blades, Cut's line, masks and seam; the transition runs iff `Starts` holds for its class, colour and direction; it keeps its capture and stays valid |
| Plugin.Launch | src/Plugin.js:92-99 | the class created is the one `Resolve` gives for the slot's name, on the given sprite, colour and direction, started for d ticks as above; it runs iff `Starts` holds for that class, colour and direction |
| Plugin.FadeOutPlaysOnlyAsBase | src/Plugin.js:153 | a fade-out (-1) runs only as Transition_Base in black or white |
| Plugin.UpdatePlaying | src/Plugin.js:75 | `update()` performs exactly one update of whichever class plays |
| Plugin.OrThirty | src/Plugin.js:99 | `duration \|\| 30`: 0 becomes 30, any other value is kept, and the result of a non-negative duration is at least 1 |
| Plugin.BattleGate | src/Plugin.js:206-217 | the first call with a transition playing runs the battle and sets `init`; later calls while it plays only update it; with none playing the battle runs |
| Plugin.BattleRunsOnce | src/Plugin.js:206-217 | over any number of calls while a transition plays, the battle runs exactly once if `init` was unset and never otherwise |
| Plugin.Scene.Play | src/Plugin.js:87-97 | the fade sprite is created on first use and kept after; the new transition is the slot's resolved class on it, started for d ticks; the scene is busy iff `Starts` holds |
| Plugin.Scene.StartFadeIn | src/Plugin.js:85-100 | the "base" slot's class fading in (+1) in the given colour for `duration \|\| 30` ticks; busy iff `Starts` holds |
| Plugin.Scene.StartFadeOut | src/Plugin.js:108-111 | no fade starts; the screen is only captured |
| Plugin.Scene.BattleStartFadeIn | src/Plugin.js:224-239 | the "battle" slot's class fading in (+1) in the given colour for `duration \|\| 30` ticks; busy iff `Starts` holds |
| Plugin.Scene.FadeInForTransfer | src/Plugin.js:121-137 | the "transfer" slot's class fading in (+1) in the player's fade colour at the fade speed; busy iff `Starts` holds |
| Plugin.Scene.FadeOutForTransfer | src/Plugin.js:143-161 | the "transfer" slot's class fading out (-1) in the player's fade colour, working from the capture taken before this call; the screen is captured afterwards; busy iff `Starts` holds |
| Plugin.Scene.StartEncounterEffect | src/Plugin.js:172-191 | the "battle" slot's class in black (0), fading out (-1), for 30 ticks, working from the previous capture; the screen is captured afterwards; busy iff `Starts` holds, so only as Transition_Base |
| Plugin.Scene.UpdateFade | src/Plugin.js:73-77 | one update while the transition plays, nothing otherwise |
| Plugin.Scene.BattleSceneUpdate | src/Plugin.js:206-217 | the branch taken and the new `init` are those of `BattleGate`; only the middle branch updates the transition directly |
| Plugin.Spriteset.constructor | src/Plugin.js:297-302 | a fade sprite of the screen's size and no transition |
| Plugin.Spriteset.TakeRequest | src/Plugin.js:314-325 | a pending request creates the "fade" slot's class in black (0) in the requested direction, started for the requested duration, running iff `Starts` holds; the request is always consumed; without one the transition is untouched |
| Plugin.Spriteset.Advance | src/Plugin.js:326-328 | one update while the transition plays, nothing otherwise |
| Plugin.Spriteset.Restart | src/Plugin.js:314-328 | with a request pending, the new transition of the "fade" slot's class, black, in the requested direction, is created and the request consumed; one that does not play is left exactly as started for the requested duration (`Launched`) |
| Plugin.Spriteset.UpdateScreenSprites | src/Plugin.js:309-329 | leaves no request pending; a new transition is created only on request; an existing one is updated at most once, and only if it plays |

`Scene_Base.isBusy` (src/Plugin.js:66-68) is the predicate `Plugin.Scene.Busy`, which the contracts of `UpdateFade` and `BattleSceneUpdate` use.

## Left out

- Pixel work is not modelled: `fillAll`, `blt`, `clear`, the `destination-in` compositing, path filling and stroking. A sprite's canvas is the list of drawing commands since the last clear or whole-bitmap fill, and masks are the polygon or wedge they would fill.
- `Math.random` is replaced by parameters in the ranges the code draws from (`Melt.DrawsInRange`, the jitter draws of `Cut.CutTransition.Start`).
- Trigonometry and IEEE floating point are not modelled. Cut takes `|cos(angle)| < 0.001` and `tan(angle)` as inputs. Iris and Cut offsets are recorded as an angle index or direction with a distance. Coordinates are exact reals, so `floor` and the side test are exact.
- `eval("new " + name + ...)` is modelled by `Plugin.Resolve`, a lookup of the four class names. A name that passes the pattern test but is no class makes `eval` throw; `Resolve` returns `None` for it. The slots can only ever hold registered names (`Plugin.AssignedKeepsRegistered`), so `Plugin.Launch` requires one.
- Slots loaded from a save file are not modelled: `GameSystem.Valid` assumes every slot holds a registered class. Property names inherited by a plain JavaScript object (such as "toString") are not treated as registered.
- Base.BaseTransition.Start, Melt.MeltTransition.Start, Iris.IrisTransition.Start, Cut.CutTransition.Start: a playing transition requires a duration of at least 1. What the code does otherwise is not modelled:
  - With a duration of 0, the code divides by zero, and JavaScript yields an infinite or NaN opacity or distance.
  - With a negative duration, the per-update step is negative. Iris and Cut (src/Iris.js:88-90, src/Cut.js:191) move the distance backwards, so it never passes the diagonal and they never stop. Melt's step floor(h / (2 * d)) is at most -1 (src/Melt.js:60), so every slice rises and the melt never stops. Transition_Base (src/Base.js:54-62) moves the opacity the wrong way for one update and then stops.
- Plugin.GameScreen.StartFadeOut, Plugin.GameScreen.StartFadeIn, Plugin.Scene.FadeInForTransfer, Plugin.Scene.FadeOutForTransfer, Plugin.Launch: require a duration or fade speed of at least 1 for the same reason. The engine's event commands and fade speed always pass one.
- Plugin.Scene.StartFadeIn, Plugin.Scene.BattleStartFadeIn: require a duration of at least 0. A negative duration is passed straight to `start` (src/Plugin.js:99, src/Plugin.js:238) with the effects above; `duration || 30` turns only 0 into 30.
- The sprite's opacity clamp to [0, 255] is not modelled. `Base.OpacityOverCountdown` shows that the fade never leaves that range.
- Host glue is not modelled: `SceneManager.snap` (the capture is a parameter), sprite creation and `addChild`, the flash sprite's colour, `hideCharacters`, `snapForBattleBackground`, `$gamePlayer.fadeType()` and `fadeSpeed()` (both parameters). The normal `Scene_Battle` update is the host's and is only reported as `BattleUpdate` or `FirstBattleUpdate`. That host update ends in `Scene_Base.update`, which calls the replaced `updateFade` (src/Plugin.js:73-77). So in the engine the first branch also advances a playing transition once; `Plugin.Scene.BattleSceneUpdate` does not model that indirect call. `updateEncounterEffect`, `updateFadeOut` and `updateFadeIn` are replaced by empty functions and have nothing to model.
- Cut.Traced: an empty point list gives an empty path, where `start` would throw on `ptsA[0]`. `Cut.SidesNonEmpty` shows that neither list is empty when the cut point lies inside the frame.
- Cut.Position: a corner index the walk never produces falls back to the origin.
- Plugin.Spriteset.Restart, Plugin.Spriteset.UpdateScreenSprites: when a request is taken and the new transition plays, they state its class, colour and direction but not its state after the update in the same call (src/Plugin.js:326-328). `TakeRequest` (started per `StartedWith`) and `Advance` (one update) state the two halves. `Restart` states the full state only for a transition that does not play.
- Melt's `active |= ...` turns the flag into a number in JavaScript. The model keeps a boolean with the same truth value.
