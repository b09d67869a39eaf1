# Monster: an interactive book — a verified model of its core

"Monster" is a small raylib program that plays a fixed courtroom vignette. It shows a title
screen and a note screen, each left with ENTER. Then comes a tile-composited courtroom with a
randomly placed jury and audience, a fade in and out, and three pages of typewriter text. It
ends on a credits screen with a clickable source link. This project models the parts with real logic:

- `wrappers.dfy` (`Wrappers`): `Option` and `Result`. A `Failure` stands for a panic.
- `enums.dfy` (`Enums`, src/enums.rs): the tile, prop and actor enumerations, and
  `rand_person`. That function maps a drawn number and a colour flag to an appearance, with the
  monochrome palette swap given as a table (`MonochromeSwap`).
- `drawing.rs` → `drawing.dfy` (`Drawing`): each draw function returns the draw command it
  would issue, or the reason it panics:
  - the wall, carpet and prop atlas tables, each with its inverse lookup;
  - the 48×48 grid cells;
  - `draw_person`: the canvas guard, the per-appearance sprite table, the texture key, the
    `NoType` panic and the texture-map lookup;
  - `draw_text`: the centring and the link hit test (cursor and URL opening).
- `scene.dfy` (`Scene`, src/main.rs outside the loop's timing):
  - the texture keys loaded at start-up;
  - the wall border with its door gap, and the carpet selection, each drawn by nested loops;
  - the `for` loops that sample 12 jurors and 100 audience members;
  - the hand-placed actors and the credits link.
- `presentation.dfy` (`Presentation`, the `main` loop of src/main.rs):
  - `Machine` is a class whose fields are the loop's variables `game_state`, `loop_counter`,
    `sat_counter` and `x`. Its `Step` method runs one frame and is proved equal to the pure
    transition `Next`.
  - Lemmas give the state after any number of courtroom frames in closed form (`Played`,
    `SatAfter`, `CursorAfter`), proved by induction over runs of `Next`.
  - The release and debug runs from start to end follow from them.

The courtroom text is the `Script` value `Dialogue`. `Next` takes the script as a parameter,
and `Machine` holds `Dialogue` as a constant. Proofs about the timeline therefore never unfold
the long literals, and `DialogueLengths` gives their lengths (362, 300 and 268 characters).

## Model

| member | source | states |
|---|---|---|
| `Enums.RandPerson` | src/enums.rs:110-150 | For n in 1..15: a coloured draw gives `Person<n>`. A monochrome draw gives the swapped human exactly for 4→2, 5→3, 9→6, 10→8, 11→7, 13→12 and 15→14. Every other n in 1..15 gives `Person<n>` whatever the colour flag. A monochrome draw is never a coloured-only human. The result is a human iff n is in 1..15, otherwise `Fox`. It is never a placeholder. |
| `Enums.ColouredCoversHumans` | src/enums.rs:111-147 | A coloured draw can produce each of the fifteen humans. |
| `Enums.MonochromeImage` | src/enums.rs:115-146 | The humans a monochrome draw can produce are exactly the humans outside {4, 5, 9, 10, 11, 13, 15}. |
| `Drawing.WallSource` | src/drawing.rs:18-34 | Every wall tile reads a 16×16 atlas cell at multiples of 16. Reading the atlas back at that cell gives the same tile. |
| `Drawing.CarpetSource` | src/drawing.rs:53-69 | The same for every carpet tile. |
| `Drawing.PropSource` | src/drawing.rs:88-95 | The same for every prop. |
| `Drawing.AtlasTablesInjective` | src/drawing.rs:18-95 | Distinct tiles of one atlas never share a source region. |
| `Drawing.DrawWall` | src/drawing.rs:11-44 | A wall draw is one blit from the wall atlas. Its source is the tile's 16×16 cell and its destination is exactly (48x, 48y, 48, 48). |
| `Drawing.DrawCarpet` | src/drawing.rs:46-79 | The same for the carpet atlas. |
| `Drawing.DrawProp` | src/drawing.rs:81-105 | The same for the prop atlas. |
| `Drawing.CellsDisjoint` | src/drawing.rs:39 | The 48×48 cells of distinct grid positions never overlap. |
| `Drawing.SpriteOf` | src/drawing.rs:154-303 | The table fails exactly on the four `NoType` placeholders, with the placeholder panic. Otherwise: the texture key is `TextureKey(p)` and the source row is 0. Humans are drawn at twice their source size from column 0. Chick and DuckBoy go 12×17 → 24×34, Gnome and Fox 16×16 → 48×48, CatKid 15×17 → 48×48. |
| `Drawing.TextureKeyNormalises` | src/drawing.rs:172-301 | The key is a family placeholder exactly for the Gnome, CatKid, Chick and DuckBoy families. `Fox` and every human key to themselves. Normalising twice changes nothing. |
| `Drawing.FamilyFramesDistinct` | src/drawing.rs:155-222 | Two distinct frames of one family read distinct atlas columns. |
| `Drawing.FamilyFrameOffsets` | src/drawing.rs:157-214 | The columns are among 0, 16, 32, 48, 64, 80 for Gnome, 0 and 16 for CatKid, and 0 and 13 for Chick and DuckBoy. |
| `Drawing.DrawPerson` | src/drawing.rs:143-317 | The result is "nothing drawn" iff x < 0, y < 0, x > 624 or y > 624, so an appearance at 0 or 624 is still drawn or panics. On the canvas, a placeholder is the `NoType` panic, even when its texture is loaded. A missing key is the texture panic. Otherwise there is one blit from the texture under `TextureKey(p)`, at (x, y), with the source and size from the sprite table. |
| `Drawing.Half` | src/drawing.rs:117-118 | Rust's `/ 2` on i32 rounds toward zero. Twice the result is within one of n, on the same side of 0. |
| `Drawing.DrawText` | src/drawing.rs:107-136 | The label is drawn at (x − measure/2, y − size/2). Without a link there is no hitbox, no cursor change and nothing opened. With a link the hitbox is (origin, 2·(measure/2), 2·(size/2)). The cursor becomes the pointing hand iff the mouse is inside it, and is reset to default iff the mouse is outside. The URL opens iff the mouse is inside and the left button was pressed. |
| `Drawing.HitboxCentred` | src/drawing.rs:117-126 | For non-negative metrics, a link's hitbox is centred on the requested point. It is at most one pixel narrower and shorter than the measured text. |
| `Scene.TexturesCoverDrawable` | src/main.rs:61-205 | Every appearance the sprite table accepts finds its texture key among the 20 keys loaded at start-up. The loaded keys are exactly the placeholders, `Fox` and the humans. |
| `Scene.BorderIsEdgeLessDoor` | src/main.rs:284-302 | The room's wall cells are exactly the edge of the 13×13 grid, less the door gap (5..7, 12). |
| `Scene.DrawWalls` | src/main.rs:284-302 | The 45 wall draws each put, into the cell they cover, that cell's border wall. Every border cell gets its wall. |
| `Scene.CarpetFor` | src/main.rs:305-320 | The corners (1,1), (1,11), (11,1) and (11,11) get their corner tiles. (5,11), (6,11) and (7,11) get BottomLeftCornerWall, NoWalls and BottomRightCornerWall. The other cells of x = 1 or x = 11 get LeftWall or RightWall, and the other cells of y = 1 or y = 11 get TopWall or BottomWall. Every cell of 2..10 × 2..10 gets NoWalls. |
| `Scene.DrawCarpets` | src/main.rs:304-327 | 124 draws. Draw (x−1)·11 + (y−1) puts `CarpetFor(x, y)` into cell (x, y) for the whole 11×11 rug. The last three are the aisle tiles through the door gap. |
| `Scene.GenRange` | src/main.rs:219-234 | A `gen_range(lo..=hi)` value lies in [lo, hi]. |
| `Scene.GenRangeCovers` | src/main.rs:219-234 | Every value of [lo, hi] is the result of some raw draw. |
| `Scene.SampleCrowd` | src/main.rs:218-234 | The sampling loop pushes exactly `count` actors. Actor i is built from raw draws 3i, 3i+1 and 3i+2, in the order x, y, appearance. |
| `Scene.SampledActorBounds` | src/main.rs:219-234 | A sampled actor lies in its area and is a human. A monochrome one is never coloured-only. |
| `Scene.HumanInCanvasDrawn` | src/main.rs:375-381 | A human anywhere in [0, 624]² is drawn: no guard skip, no panic. |
| `Scene.SampleJury` | src/main.rs:218-225 | 12 jurors with x in [48, 156] and y in [48, 96], none coloured-only, every one drawn. |
| `Scene.SampleAudience` | src/main.rs:227-234 | 100 audience members with x in [48, 550] and y in [260, 540], every one drawn. |
| `Scene.ScriptedActorsDrawn` | src/main.rs:358-399 | The judge, the defense lawyer, Steve, King and Petrocelli are all drawn. |
| `Scene.CreditsLinkClick` | src/main.rs:510-517 | A left click at the centre of the credits link sets the pointing hand and opens the repository URL. This holds for any text width of at least 2. |
| `Presentation.DialogueLengths` | src/main.rs:419-486 | The three pages have 362, 300 and 268 characters. |
| `Presentation.SaturatingSub` | src/main.rs:403 | `saturating_sub` on a byte is max(0, v − d) and stays in [0, 255]. |
| `Presentation.SaturatingAdd` | src/main.rs:406 | `saturating_add` on a byte is min(255, v + d) and stays in [0, 255]. |
| `Presentation.Reveal` | src/main.rs:427-430 | The revealed text is a prefix of the page of length min(x, page length). It is never an error. |
| `Presentation.RevealMonotone` | src/main.rs:427-430 | A larger cursor reveals an extension of the text. |
| `Presentation.RevealAll` | src/main.rs:427-430 | Past the end of the page, the whole page is shown. |
| `Presentation.PageAt` | src/main.rs:409-492 | A page panel is drawn exactly in the windows (150, 1550), (1600, 2800) and (2900, 4200). |
| `Presentation.FadeStep` | src/main.rs:401-407 | Below frame 100 the fade byte drops by 4 and saturates at 0. Above frame 4300 it rises by 4 and saturates at 255. In between it is unchanged. It always stays in [0, 255]. |
| `Presentation.CursorStep` | src/main.rs:409-492 | Inside a panel window the cursor rises by exactly 1 on frames divisible by 3 and is otherwise unchanged. It is set to 0 at frames 1599 and 2801. At every other frame it is left alone. |
| `Presentation.Next` | src/main.rs:254-528 | One frame of the loop: <ul><li>States 0 and 1 advance by one iff ENTER was pressed, and nothing else changes.</li><li>State 2 advances the counter, fade byte and cursor as above. Once the counter passes 4400 it becomes 0 and the state becomes 3. The frame shows the overlay at the pre-step alpha and the page revealed up to the new cursor.</li><li>State 3 becomes `u16::MAX` in release and panics in debug.</li><li>`u16::MAX` never changes.</li></ul>Undefined behaviour happens exactly for a release state outside {0, 1, 2, 3, `u16::MAX`}, and a panic exactly for a debug state outside {0, 1, 2, `u16::MAX`}. Reachable states stay reachable and never reach undefined behaviour. |
| `Presentation.Machine.constructor` | src/main.rs:207-216 | Debug starts in state 2 and release in state 0, with counter 0, fade byte 255 and cursor 0. |
| `Presentation.Machine.Step` | src/main.rs:242-530 | Updating the four fields in place gives exactly the variables and frame of `Next`, and keeps the state reachable. |
| `Presentation.PlayStep` | src/main.rs:401-498 | From the closed-form state after k < 4400 courtroom frames, one frame gives the closed form after k + 1, whatever the input. |
| `Presentation.PlayEnds` | src/main.rs:494-498 | Frame 4400 ends the play: state 3, counter 0, fade byte back at 255. |
| `Presentation.PlayFrom` | src/main.rs:494-498 | During the play, any inputs for any number of frames lead from the closed-form state after k frames to the one after k + that number. The counter counts frames, and ENTER is ignored. |
| `Presentation.CreditsAreFinal` | src/main.rs:506-519 | Once on the credits screen, no input ever changes the state again. |
| `Presentation.ReleaseRun` | src/main.rs:254-504 | Release: ENTER, ENTER, then 4401 frames of any input, reach state 3 with counter 0. The next frame reaches the credits, and the state stays there. |
| `Presentation.DebugRun` | src/main.rs:207-524 | Debug starts in the courtroom. After 4401 frames it is in state 3 with counter 0, and the next frame panics. |
| `Presentation.PanelAt` | src/main.rs:409-492 | At frame k of the play, the panel shows the first `Ticks` characters of the open page, where `Ticks` counts the multiples of 3 since the page opened. Outside the windows it shows nothing. |
| `Presentation.PagesComplete` | src/main.rs:409-492 | Each page is fully shown from frame 1236, 2499 or 3702 until its panel closes. While a panel stays open, each frame's text extends the previous frame's. |
| `Presentation.OverlayAndPanelExclusive` | src/main.rs:401-418 | No frame of the play draws both the fade overlay and the dialogue panel. |

## Notes on the code

- The fade rectangle is drawn before the dialogue panel (src/main.rs:401-418). `OverlayAndPanelExclusive` shows that the two are never drawn in the same frame, so the order is never visible.
- The cursor `x` is reset only at frames 1599 and 2801 (src/main.rs:437-438). It is 0 when page 1 opens because it starts at 0.
- The text length at frame f of a page is the number of multiples of 3 in the frames since the page opened (`Ticks`).
- A debug build has no arm for state 3, so the frame after the play reaches `unreachable!()` and panics (src/main.rs:494-524, `DebugRun`).
- Twenty actor textures are inserted into the map (src/main.rs:61-205). `HashMap::with_capacity(19)` only sizes it.
- The `_ => Fox` arm of `rand_person` (src/enums.rs:148) is not reached from `gen_range(1..=15)`. `RandPerson` keeps it for numbers outside 1..15.

## Left out

- Window set-up, `begin_drawing`, `clear_background`, the FPS overlay, the right-click trace log and timing logs are host services and logging.
- `draw_text_rec` word wrapping, `draw_rectangle` and `draw_rectangle_rounded` are foreign rendering calls. A frame records only the overlay alpha and the text given to the panel.
- Step returns only the state-dependent part of each frame. The fixed draws are not emitted by it: the texts of the title, note and credits screens, the credits image, the stand (src/main.rs:328-357), the jury floor (src/main.rs:367-372) and the tables (src/main.rs:383-388). Only the wall and carpet layers and the actors are modelled as draws.
- Texture loading (src/main.rs:37-205, src/load_image.rs) is asset I/O and GPU upload. Only the set of loaded keys is modelled, not its failures.
- Leaving the program on ESC (`window_should_close`) is a host input.
- `measure_text` is a parameter of `DrawText`. `open_url` is recorded as the URL opened.
- Scene.GenRange: the generator itself is not modelled. A draw is an arbitrary raw number reduced into the range, and every in-range value is reachable (`GenRangeCovers`). The raw draws are a parameter, and the jury's and audience's draws are passed separately.
- Positions and the mouse position are modelled on integers. The source's f32 positions are always whole numbers, and f32 rounding is not modelled.
- Drawing.DrawWall, Drawing.DrawCarpet and Drawing.DrawProp: `x * 48` is unbounded. The i32 overflow for |x| above 44739242 is not modelled, and every call passes 0..12.
- Presentation.Next: `loop_counter` is an unbounded integer rather than i32. Its reachable values are proved to be 0..4400, so it never overflows.
- Presentation.Reveal: `str::get(0..x)` also fails off a character boundary. The three pages are ASCII, so every index is a boundary. This is not proved in the model.
- Drawing.DrawText: the hit test assumes raylib 3's `CheckCollisionPointRec`, the version that still has `draw_text_rec`, which includes all four edges. raylib's own code is not part of this model.
- Presentation.Machine.Step: takes no mouse input, so the cursor change and `open_url` of the credits link (src/main.rs:510-517) are not in its outcome. A credits frame records only `CreditsScreen`. The link's effects are modelled by `DrawText` and `CreditsLinkClick`.
- `unreachable_unchecked` is the `Undefined` outcome, and it is proved unreachable.
- `DoorTypes` is unused, and `draw_horizontal_line` is a single fixed line.
