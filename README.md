# RustSnake in Dafny

A model of the RustSnake repository: a grid Snake game on a 25 x 14 board of 64-pixel
tiles, written twice. The current revision (`rust_snake/`) draws through `winopengl`, the
repository's own small OpenGL wrapper. The older revision (`src/`) draws through miniquad.
The model covers:

- **Both game simulations.** The snake's heading and pending turn, the tick that moves the
  head one tile and shifts the body, growth, self-collision, the difficulty ladder, bonus
  refills, the game-over test and key routing.
- **The `winopengl` graphics context.** Its `GlCache` remembers the bound vertex buffer, index
  buffer, 12 texture slots and 16 attribute slots, and skips a driver call when the cached
  value already matches. The context also holds shader and pipeline tables, binding
  reconciliation, the uniform upload walk, render passes, draws, buffer uploads and textures.
- **The textured quad** each sprite draws in both revisions. This includes the
  rotation tables, the `rotate`/`draw` call sequences and sprite construction.
- **The Windows scan-code translation** and the `core_std` growable vector.

How the outside world is represented:

- **OpenGL driver:** a trace (`GraphicsContext.trace`, a `seq<GlCall>`), and every
  operation states the exact calls it appends.
- **miniquad:** modelled the same way, as a record of requests (`Miniquad.Context.requests`).
- **Driver answers:** ids handed out, uniform and attribute locations, and whether a shader
  compiled and linked. These are parameters.
- **Clock:** an explicit `now` in milliseconds.
- **Random choice:** a bonus tile is any tile of the board.
- **Panics:** an `Outcome`/`Result` with a reason. The state after a panic is left
  unspecified beyond what the contracts say.
- **Sprite geometry:** positions are exact quotients `Ratio(±w, 1600)` and
  `Ratio(±h, 896)`. Texture coordinates are the integers 0 and 1.

Points where the code does something a reader might not expect, modelled as the code does it:

- **Uniform fit check.** `apply_uniforms_from_bytes` (winopengl/src/graphics.rs:416-419)
  guards each upload with an assertion whose message is "Uniforms struct does not match
  shader uniforms layout". The test itself compares an offset counted in floats with a size
  counted in bytes, and never counts the uniform's own length, so some structs too short
  for the shader's uniforms pass it. The test as written is modelled next to the test the
  message describes; see Findings.
- **Bonus check after a game over.** In the current revision `real_game_update`
  (rust_snake/src/game.rs:102-119) runs the bonus check in the same tick, straight after a
  game over has reset the game, against the reset state: a new bonus on the centre tile is
  eaten at once (`CurrentGame.Game.RealGameUpdate`).
- **Older texture size.** The older `init_bindings` (src/graphical_object.rs:72) always
  creates a 64 x 64 texture, whatever the sprite's `width` and `height`. The current
  revision takes the texture's size from its data (`OlderSprite.InitBindings`,
  `CurrentSprite.InitBindings`).
- **Older game field names.** The older `src/game.rs` reads `snake.curr_x`, `snake.dest_x`
  and so on. `src/game/snake.rs` has no such fields, only `curr.x`, `dest.x` and so on, so
  the model reads those. It also calls `snake.grow(ctx)` where `grow` takes no context,
  so the model calls `Grow()` with no arguments.

## Model

| member | source | states |
|---|---|---|
| CurrentSnake.Opposite | rust_snake/src/game/snake.rs:79-111 | the reverse of a heading is neither the heading nor perpendicular to it, so `try_add` can never queue it |
| CurrentSnake.Step | rust_snake/src/game/snake.rs:139-156 | a horizontal heading moves x by exactly one and keeps y; a vertical one moves y by exactly one and keeps x |
| CurrentSnake.StepThenOpposite | rust_snake/src/game/snake.rs:139-156 | a step followed by a step in the opposite heading returns to the starting tile |
| CurrentSnake.Shifted | rust_snake/src/game/snake.rs:157-165 | the shift keeps the length, puts the old head first and moves every entry one place back, dropping the old tail |
| CurrentSnake.ShiftedAfterGrow | rust_snake/src/game/snake.rs:114-165 | the sentinel appended by `grow` is overwritten by the next shift: shifting `body + [(-1,-1)]` gives `[head] + body` |
| CurrentSnake.ShiftedKeepsRealPositions | rust_snake/src/game/snake.rs:157-165 | if neither the head nor the body holds the sentinel, the shifted body does not either |
| CurrentSnake.GetRotationFollowsHeading | rust_snake/src/game/snake.rs:181-188 | turning the heading a quarter clockwise turns the head sprite a quarter clockwise; Up is unrotated; distinct headings get distinct rotations |
| CurrentSnake.GetRotation | rust_snake/src/game/snake.rs:181-188 | only heading up is drawn unrotated, and the horizontal headings are exactly the quarter turns |
| CurrentSnake.TurnClockwise | rust_snake/src/game/snake.rs:181-188 | the reference quarter turn the rotation table is checked against: a heading's clockwise neighbour is perpendicular to it |
| CurrentSnake.Snake.constructor | rust_snake/src/game/snake.rs:33-47 | empty body, heading and pending heading Right, head at (12, 7), clock started at `now` |
| CurrentSnake.Snake.Reset | rust_snake/src/game/snake.rs:49-55 | empty body, `dir == next_dir == Right`, head at (1600/128, 896/128) = (12, 7), clock untouched; keeps the no-reversal invariant |
| CurrentSnake.Snake.Start | rust_snake/src/game/snake.rs:58-60 | the move clock restarts at `now` and nothing else changes |
| CurrentSnake.Snake.CheckReach | rust_snake/src/game/snake.rs:62-77 | returns true iff more than `move_duration` ms have passed; then the pending heading is committed, the head steps, the body shifts and the clock restarts; otherwise no state changes |
| CurrentSnake.Snake.TryAdd | rust_snake/src/game/snake.rs:79-111 | `next_dir` becomes `d` exactly when `d` is perpendicular to `dir`, otherwise it is unchanged, so a later accepted request overwrites an earlier one; the pending heading is never the reverse of `dir` |
| CurrentSnake.Snake.Grow | rust_snake/src/game/snake.rs:114-121 | appends exactly one `(-1,-1)` entry; the existing entries and the head are unchanged |
| CurrentSnake.Snake.ComputeTarget | rust_snake/src/game/snake.rs:133-166 | `dir := next_dir`; the head moves one tile along it; the body is shifted in place by the loop, as `Shifted` says |
| CurrentSnake.Snake.EatHimself | rust_snake/src/game/snake.rs:168-178 | true iff some body entry equals the head |
| CurrentGame.GetDifficulty | rust_snake/src/game.rs:165-200 | the fixed table: level kept, 400/300/200/100 ms, bonus count 4/3/2/1, with positive reward and trigger |
| CurrentGame.NextLevel | rust_snake/src/game.rs:134-141 | one step up the ladder, Insane staying Insane |
| CurrentGame.LevelUpLadder | rust_snake/src/game.rs:134-200 | below Insane, each level-up lowers the bonus count by one, shortens the move, raises the reward and raises the next trigger |
| CurrentGame.FirstMatch | rust_snake/src/game.rs:104-119 | the index the bonus loop stops at: the first entry equal to the head, or the length exactly when there is none |
| CurrentGame.GameOverBoundary | rust_snake/src/game.rs:123-127 | column 25 (`x == width`) still passes the test; columns -1 and 26 end the game |
| CurrentGame.IsGameOver | rust_snake/src/game.rs:123-127 | the game-over test: x or y below 0 or above the board size (25, 14), or the head on a body entry |
| CurrentGame.ArrowDir | rust_snake/src/game.rs:241-245 | the heading an arrow key names; the horizontal arrows are exactly the ones giving horizontal headings |
| CurrentGame.Game.constructor | rust_snake/src/game.rs:55-71 | a fresh snake on a 25 x 14 board, then `init` |
| CurrentGame.Game.Init | rust_snake/src/game.rs:73-80 | snake reset, score 0, idle, Easy, bonus list refilled from empty to 4 in-board entries |
| CurrentGame.Game.SpawnBonus | rust_snake/src/game.rs:82-90 | appends until the list holds `bonus_count`; existing entries keep their values and order; every new entry lies in `[0,25) x [0,14)` |
| CurrentGame.Game.RealGameUpdate | rust_snake/src/game.rs:92-121 | nothing changes before the clock fires; afterwards `Ticked`: the clock restarts at `now`; on a game over the whole `init` state, with only a bonus on the centre tile eaten at once (score 1, one grown segment); otherwise the head stepped along the pending heading, the body shifted and grew by one exactly when the head is on a bonus, the first such bonus removed and the list refilled, the old reward added and the level raised iff the new score passes the old threshold |
| CurrentGame.Game.CheckGameOver | rust_snake/src/game.rs:123-132 | resets to a fresh idle game exactly when the head is outside `[0,25] x [0,14]` (upper bounds inclusive) or on the body; otherwise changes nothing |
| CurrentGame.Game.CollectBonus | rust_snake/src/game.rs:104-120 | with no bonus under the head nothing changes; otherwise the first match is removed, the score rises by the old reward, the level is rechecked, the snake grows by one sentinel and the list is refilled to the new count |
| CurrentGame.Game.EatBonus | rust_snake/src/game.rs:110-118 | the bonus found under the head: the score rises by the old level's reward, the clock restarts, the entry is removed, the level rises iff the new score passes the old threshold, the snake grows by one and the list is refilled to the new target |
| CurrentGame.Game.RemoveBonus | rust_snake/src/game.rs:114 | `remove(i)`: entry i is dropped, the others keep their order, and all stay in the board |
| CurrentGame.Game.GetNewDifficulty | rust_snake/src/game.rs:134-147 | moves exactly one step up iff `score > next_level_trigger`, Insane mapping to itself; otherwise unchanged |
| CurrentGame.Game.KeyDownEvent | rust_snake/src/game.rs:222-250 | Escape orders quit; while idle only an arrow starts the run and the turn is not queued; while running an arrow goes to `try_add` and P pauses |
| CurrentGame.Game.Update | rust_snake/src/game.rs:252-258 | idle changes nothing; running changes nothing until the clock fires and then leaves the `Ticked` state of `real_game_update` |
| OlderSnakeBody.New | src/game/snake_body.rs:11-17 | the segment stands on `(x, y)` and its target is the `(-1,-1)` sentinel, so it is pending |
| OlderSnake.Step | src/game/snake.rs:183-205 | one tile along a concrete heading, the other coordinate kept |
| OlderSnake.GetRotation | src/game/snake.rs:243-251 | the head is drawn unrotated exactly for `UP` and for the `NONE` arm |
| OlderSnake.GetRotationDistinct | src/game/snake.rs:243-251 | the four headings get four distinct rotations, each a quarter turn clockwise from the one before in the order UP, RIGHT, DOWN, LEFT |
| OlderSnake.BodyStep | src/game/snake.rs:207-225 | each segment moves to its target, or onto the old head tile if pending; the first segment then targets the new head tile and every later one the tile its predecessor now stands on |
| OlderSnake.BodyStepLeavesNothingPending | src/game/snake.rs:207-225 | with real head tiles, no segment is pending after a tick |
| OlderSnake.Snake.constructor | src/game/snake.rs:35-52 | empty body, no pending turn, heading RIGHT, on (12, 7) moving to (13, 7), clock at `now` |
| OlderSnake.Snake.Reset | src/game/snake.rs:54-64 | empty body, `next_dir == NONE`, heading RIGHT, `curr == (12, 7)`, `dest == (13, 7)` |
| OlderSnake.Snake.Start | src/game/snake.rs:67-69 | the clock restarts at `now` |
| OlderSnake.Snake.CheckReach | src/game/snake.rs:71-105 | true iff more than 250 ms have passed; then the head reaches its target, picks the next one and the body steps; otherwise nothing in the integer state changes |
| OlderSnake.Snake.TryAdd | src/game/snake.rs:107-145 | only from `NONE`, and only a perpendicular heading is taken; once set, the slot ignores later requests |
| OlderSnake.Snake.Grow | src/game/snake.rs:148-162 | appends one pending segment on the last segment's tile, or on the head's tile when the body is empty |
| OlderSnake.Snake.ComputeTarget | src/game/snake.rs:175-227 | `curr := dest`; the heading becomes the pending turn if set; the new target is one tile along it; the body steps as `BodyStep` says |
| OlderSnake.Snake.FollowHead | src/game/snake.rs:207-225 | the body loop: every segment takes its target (a pending one the old head tile) and then targets its predecessor's new tile, the first one the head's, which is `BodyStep` |
| OlderSnake.Snake.EatHimself | src/game/snake.rs:229-240 | true iff some non-pending segment stands on the head's tile |
| OlderGame.GameOverBoundary | src/game.rs:83-86 | a target at column 25 or row 14 passes; -1 and 26 end the game |
| OlderGame.IsGameOver | src/game.rs:83-86 | the game-over test: the head's target off the closed board, or a settled segment on the head's tile |
| OlderGame.ArrowDir | src/game.rs:145-151 | the turn a key asks for: `NONE` exactly for the keys that are not arrows |
| OlderGame.Game.constructor | src/game.rs:30-45 | a fresh snake on a 25 x 14 board, then `init` |
| OlderGame.Game.Init | src/game.rs:47-52 | snake reset, score 0, idle, the bonus on a board tile |
| OlderGame.Game.SpawnBonus | src/game.rs:54-60 | the bonus moves to a tile in `[0,25) x [0,14)` |
| OlderGame.Game.RealGameUpdate | src/game.rs:62-81 | nothing before 250 ms; afterwards `Ticked`: the clock restarts at `now`; on a game over the whole `init` state, the snake grown once on (12, 7) only when the new bonus landed there; otherwise the head reached its target and heads one tile further, the body is `BodyStep` plus one pending segment on `GrowthTile` exactly when the head reached the bonus, and the bonus moves to a new in-board tile exactly then |
| OlderGame.Game.CheckGameOver | src/game.rs:83-91 | resets exactly when the head's target is off `[0,25] x [0,14]` or a non-pending segment is on the head; otherwise no change |
| OlderGame.Game.KeyUpEvent | src/game.rs:135-154 | while idle any key starts the run and the clock; while running arrows go to `try_add` and Escape orders quit |
| OlderGame.Game.Update | src/game.rs:156-162 | idle changes nothing; running changes nothing until 250 ms have passed and then leaves the `Ticked` state of `real_game_update` |
| Keycodes.TranslateKeycode | winopengl/src/native/windows/keycodes.rs:3-14 | total over every code: `Unknown` exactly for the codes other than the six known ones |
| Keycodes.TranslateInvertsScanCode | winopengl/src/native/windows/keycodes.rs:3-14 | round trip both ways: each known key comes from exactly one scan code, and translating that code gives the key back |
| Keycodes.RecognisedCodesAreDistinctKeys | winopengl/src/native/windows/keycodes.rs:5-12 | distinct known codes give distinct keys |
| CoreVec.Vec.constructor | core_std/src/vec.rs:15-22 | an empty vector with a one-slot buffer |
| CoreVec.Vec.Push | core_std/src/vec.rs:24-47 | the contents become the old contents followed by `value`; the first push reuses the initial slot, later pushes reallocate |
| CoreVec.Vec.Get | core_std/src/vec.rs:49-54 | `Some` iff `idx < len`, and then the entry at `idx` |
| CoreVec.Vec.GetMut | core_std/src/vec.rs:56-62 | present iff `get` is, designating the slot that holds that entry |
| CoreVec.Vec.Index | core_std/src/vec.rs:92-98 | panics iff `idx >= len`, otherwise agrees with `get` |
| GlCache.BufferBindCalls | winopengl/src/graphics.rs:171-190 | a bind call is made iff the cached buffer differs, and it binds the requested buffer |
| GlCache.TextureBindCalls | winopengl/src/graphics.rs:212-220 | the unit is always selected first; the texture is bound iff the slot holds a different one |
| GlCache.UnbindCalls | winopengl/src/graphics.rs:238-245 | the calls of `clear_texture_bindings`, slot by slot in order: for a slot holding a texture, its unit is selected and texture 0 bound; an empty slot costs nothing (its properties are the four lemmas below) |
| GlCache.UnbindCallsOnlyBoundSlots | winopengl/src/graphics.rs:238-245 | clearing binds only texture 0 and selects only units whose slot holds a texture |
| GlCache.UnbindCallsCoverBoundSlots | winopengl/src/graphics.rs:238-245 | every slot holding a texture gets its unit selected |
| GlCache.UnbindCallsSelectBoundSlots | winopengl/src/graphics.rs:238-245 | a unit is selected iff its slot holds a texture; no call at all iff every slot is empty |
| GlCache.UnbindCallsStartWithSelect | winopengl/src/graphics.rs:238-245 | a non-empty clearing sequence starts with a unit selection |
| GlCache.GlCache.constructor | winopengl/src/graphics.rs:292-301 | nothing bound or stored, no pipeline, 12 empty texture slots, 16 empty attribute slots |
| GlCache.GlCache.BindBuffer | winopengl/src/graphics.rs:171-190 | the target's cache holds `buffer`; the other target is untouched; a call is made iff the cache differed |
| GlCache.GlCache.StoreBufferBinding | winopengl/src/graphics.rs:192-198 | the target's stored slot takes the bound buffer; the other target's stored slot is untouched |
| GlCache.GlCache.RestoreBufferBinding | winopengl/src/graphics.rs:200-210 | a non-zero stored buffer is rebound through the cache and then forgotten; a stored 0 does nothing |
| GlCache.GlCache.BindTexture | winopengl/src/graphics.rs:212-220 | only `slot` changes, to `texture`; the calls are those of `TextureBindCalls` |
| GlCache.GlCache.StoreTextureBinding | winopengl/src/graphics.rs:222-224 | the stored texture takes the slot's texture |
| GlCache.GlCache.RestoreTextureBinding | winopengl/src/graphics.rs:226-228 | the slot is bound back to the stored texture, which stays stored |
| GlCache.GlCache.ClearBufferBindings | winopengl/src/graphics.rs:230-236 | both buffers end at 0, with a call only for a target that had one bound |
| GlCache.GlCache.ClearTextureBindings | winopengl/src/graphics.rs:238-245 | every slot ends at 0; the calls are those `UnbindCalls` gives for the old slots |
| Graphics.ScanUniforms | winopengl/src/graphics.rs:545-555 | one uniform per descriptor, with its location, its array count and an 8-byte element size |
| Graphics.ScanOffsets | winopengl/src/graphics.rs:545-555 | uniform k starts 8 bytes per array element declared before it |
| Graphics.FitsAsWritten | winopengl/src/graphics.rs:416-419 | the per-uniform assertion as written: `size - 2` must not underflow (`size >= 2`, a debug-build panic otherwise) and the float offset must be at most `size - 2` |
| Graphics.AcceptedAsWritten | winopengl/src/graphics.rs:414-431 | the whole loop passes as written: every uniform's float offset, 2 floats per earlier array element, satisfies `FitsAsWritten` |
| Graphics.AsWrittenAcceptsShortStruct | winopengl/src/graphics.rs:416-431 | the check as written accepts two one-element `vec2` uniforms with an 8-byte struct, which the intended check refuses |
| Graphics.UniformCalls | winopengl/src/graphics.rs:417-428 | the uploads of `apply_uniforms_from_bytes`, in declaration order: one `glUniform2fv` per uniform with a location, reading its array count of `vec2`s from the float offset that sums the earlier uniforms' counts; a uniform without a location is skipped but still advances the offset |
| Graphics.UniformsFitIffStructHoldsAll | winopengl/src/graphics.rs:416-431 | the intended check accepts exactly when `8 * (sum of array counts) <= size` |
| Graphics.WalkMatchesScan | winopengl/src/graphics.rs:414-431 | the float offsets walked by the upload are the loader's byte offsets divided by 4 |
| Graphics.ImageCalls | winopengl/src/graphics.rs:340-351 | the image pass of `apply_bindings`, image by image: an image with a location is bound on its own slot through the cache (unit selected, texture bound only if the slot held another) and its sampler set to that slot; an image without one costs nothing |
| Graphics.ImageCallsInSync | winopengl/src/graphics.rs:340-351 | when every slot already holds its image, the image pass only selects units and sets samplers |
| Graphics.SlotCalls | winopengl/src/graphics.rs:365-399 | a slot whose cached attribute is already the wanted one costs no call |
| Graphics.SlotCallsTouchOnlyChanged | winopengl/src/graphics.rs:365-399 | a slot's calls enable it iff it gets an attribute it did not hold, disable it iff the pipeline leaves it empty but it held one, and touch no other slot |
| Graphics.AttributePass | winopengl/src/graphics.rs:358-400 | the attribute pass of `apply_bindings` over slots 0..n-1 in order, as `SlotCalls` gives each slot, with the cached vertex buffer threaded from slot to slot |
| Graphics.AttributePassEnablesChangedSlots | winopengl/src/graphics.rs:360-400 | over the whole pass, slot i is enabled or disabled exactly under the conditions of `SlotCallsTouchOnlyChanged`, and slots past the pass are untouched |
| Graphics.AttributePassTouchesSlot | winopengl/src/graphics.rs:360-400 | the same for one slot, by induction on the slots handled: a slot is enabled (disabled) by the first n slots' calls iff it is below n and changes to an attribute (to none) |
| Graphics.AttributePassInSync | winopengl/src/graphics.rs:360-400 | a pass over slots that already hold what the pipeline wants makes no call and keeps the cached vertex buffer |
| Graphics.ReapplyOnlySelects | winopengl/src/graphics.rs:336-401 | for a cache already in step with the bindings, all of `apply_bindings`' calls are unit selections or sampler assignments |
| Graphics.LayoutOf | winopengl/src/graphics.rs:654-693 | the layout has the two allocated slots |
| Graphics.LayoutOfEmptySlot | winopengl/src/graphics.rs:665-690 | a slot no attribute was found at stays empty |
| Graphics.LayoutOfLastWins | winopengl/src/graphics.rs:656-693 | a slot holds the last attribute found at it, at offset 8 bytes per attribute before it, with the computed stride |
| Graphics.ShaderImages | winopengl/src/graphics.rs:541-543 | one image per declared name, carrying the location the driver reported |
| Graphics.UploadCalls | winopengl/src/graphics.rs:750-756 | a buffer is generated first and its data and sub-data are uploaded; with the new buffer already cached, no bind or restore call is made |
| Graphics.GraphicsContext.constructor | winopengl/src/graphics.rs:274-305 | empty tables, instancing on, one vertex array created and bound, the cache as `GlCache::new` leaves it |
| Graphics.GraphicsContext.ApplyPipeline | winopengl/src/graphics.rs:313-334 | records the pipeline as current and issues use-program, scissor on, depth off, counter-clockwise front faces |
| Graphics.BindingsCalls | winopengl/src/graphics.rs:336-401 | all calls of an accepted `apply_bindings`: the image pass, then the index buffer bind (elided when cached), then the attribute pass over all 16 slots |
| Graphics.GraphicsContext.ApplyBindings | winopengl/src/graphics.rs:336-401 | panics iff there is no pipeline, an image has no texture, an image with a location lies past slot 11, or an attribute names a missing vertex buffer; otherwise issues exactly `BindingsCalls` and leaves the cache holding the images, the index buffer and each slot's expected attribute |
| Graphics.GraphicsContext.ApplyImagesAndIndex | winopengl/src/graphics.rs:340-356 | the image pass then the index buffer bind, with the resulting slot contents |
| Graphics.GraphicsContext.ApplyImages | winopengl/src/graphics.rs:340-351 | panics iff some declared image has no texture or an image with a location lies past slot 11; otherwise each image with a location is bound to its slot through the cache and its sampler set |
| Graphics.GraphicsContext.ApplyImage | winopengl/src/graphics.rs:341-350 | image n after images 0..n-1: panics when it has no texture, or a location past slot 11; otherwise the pass covers one more image |
| Graphics.GraphicsContext.BindImage | winopengl/src/graphics.rs:345-348 | a located image n: its texture bound on slot n through the cache and its sampler set to n, so the pass's calls and slot contents cover one more image |
| Graphics.GraphicsContext.ApplyAttributes | winopengl/src/graphics.rs:358-400 | panics iff an attribute names a missing vertex buffer; otherwise every slot ends at its expected attribute with the calls of `AttributePass` |
| Graphics.GraphicsContext.ApplySlot | winopengl/src/graphics.rs:361-399 | one slot reconciled: rebound, enabled or disabled only when it changes |
| Graphics.GraphicsContext.ApplySlotInPass | winopengl/src/graphics.rs:360-400 | slot i after slots 0..i-1: afterwards slots 0..i hold their expected attributes with the calls of `AttributePass` over i+1 slots, or the layout is refused |
| Graphics.GraphicsContext.ApplyUniformsFromBytes | winopengl/src/graphics.rs:410-432 | panics without a pipeline or when the 8-byte-per-element struct does not hold the uniforms; otherwise one upload per uniform with a location, in order, at its float offset |
| Graphics.GraphicsContext.ApplyUniform | winopengl/src/graphics.rs:417-428 | uniform k at its float offset: panics iff it does not fit in the struct, otherwise the uploads cover one more uniform |
| Graphics.GraphicsContext.Clear | winopengl/src/graphics.rs:434-451 | clear colour, clear depth, then one clear of both buffers |
| Graphics.GraphicsContext.BeginDefaultPass | winopengl/src/graphics.rs:454-456 | the same as `begin_pass` |
| Graphics.GraphicsContext.BeginPass | winopengl/src/graphics.rs:459-466 | default framebuffer, viewport and scissor over the window, then a clear |
| Graphics.GraphicsContext.EndRenderPass | winopengl/src/graphics.rs:468-474 | default framebuffer rebound, both buffer targets unbound through the cache |
| Graphics.GraphicsContext.CommitFrame | winopengl/src/graphics.rs:476-479 | both buffers and every texture slot end at 0, with calls only for what was bound |
| Graphics.GraphicsContext.Draw | winopengl/src/graphics.rs:481-502 | panics iff no pipeline is bound; without instancing a draw of other than one instance is skipped; otherwise one instanced draw of 16-bit indices at byte offset `2 * base` |
| Graphics.GraphicsContext.NewShader | winopengl/src/graphics.rs:120-129 | a failed load changes nothing; otherwise the shader, with its images and scanned uniforms, is pushed and its handle is its index |
| Graphics.GraphicsContext.PipelineWithParams | winopengl/src/graphics.rs:624-702 | accepted iff every attribute is on buffer 0, the stride stays within 255, no attribute name holds a NUL byte (the `CString::new` unwrap at 664) and every location found is in the two slots; then the layout `LayoutOf` gives is pushed and its index returned |
| Graphics.GraphicsContext.BufferImmutable | winopengl/src/graphics.rs:740-762 | the new buffer is bound only for its upload and the previous binding is restored through the cache; the calls are `UploadCalls` |
| Graphics.ReapplyBindings | winopengl/src/graphics.rs:336-401 | on a cache in step with the bindings, `apply_bindings` succeeds and every call it makes is a unit selection or sampler assignment |
| GlTexture.CheckedPixelBytes | winopengl/src/graphics/texture.rs:35 | `3 * width * height` on `u32` with overflow checks: a value only when no product overflows, and then the exact product |
| GlTexture.SizeAcceptedIffExact | winopengl/src/graphics/texture.rs:35 | for a texture at least one pixel high, accepted iff the data is exactly 3 bytes per pixel and under 2^32 bytes; at height 0, only empty data and only when `3 * width` fits |
| GlTexture.SetupCalls | winopengl/src/graphics/texture.rs:43-62 | seven parameter calls in order, starting with the row alignment and uploading an RGB image of the given size third |
| GlTexture.NewTexture | winopengl/src/graphics/texture.rs:29-71 | panics iff the size check fails, touching nothing; otherwise slot 0 is saved, the new texture is bound there for its set-up and slot 0 is restored, so every slot ends as it was |
| GlTexture.UploadTexture | winopengl/src/graphics/texture.rs:36-64 | the driver side of the upload: slot 0 ends holding what it held, which is also what is stored, and the calls are generate, bind, set-up, bind back |
| Quad.MakeQuad | rust_snake/src/graphical_object.rs:110-149 | vertex i pairs corner i of the quad with texture coordinate i, so the positions are the quad's corners and the texture coordinates are exactly the given ones |
| CurrentSprite.RotUvs | rust_snake/src/graphical_object.rs:110-149 | the current revision's texture-coordinate table: four coordinates per rotation, for the corners bottom-left, bottom-right, top-right, top-left |
| CurrentSprite.GetRotVertex | rust_snake/src/graphical_object.rs:110-149 | for every rotation, the same four corners `(-w/1600,-h/896)`, `(w/1600,-h/896)`, `(w/1600,h/896)`, `(-w/1600,h/896)` in that order, and texture coordinates that use each unit-square corner once |
| CurrentSprite.RotUvsPermuteUnitSquare | rust_snake/src/graphical_object.rs:110-149 | every row of the rotation table lists the four unit-square corners, each once |
| CurrentSprite.RotationsAgainstUnitSquare | rust_snake/src/graphical_object.rs:110-149 | the 90, 180 and 270 degree entries are the unit square shifted by 3, 0 and 1 places |
| CurrentSprite.UnrotatedIsMirrored | rust_snake/src/graphical_object.rs:110-119 | the unrotated entry is the unit square mirrored top to bottom, and no shift of the square gives it |
| CurrentSprite.QuadIndicesCoverQuad | rust_snake/src/graphical_object.rs:79-80 | six indices, two triangles, every index below 4 and every corner used |
| CurrentSprite.Meta | rust_snake/src/graphical_object.rs:170-177 | exactly one image `tex` and one uniform `offset` of one element |
| CurrentSprite.MetaMatchesSprite | rust_snake/src/graphical_object.rs:170-177 | a shader built from `meta` declares as many images as `init_bindings` binds, and its uniform block is exactly the 8-byte struct `draw` sends |
| CurrentSprite.FragmentShader | rust_snake/src/graphical_object.rs:91-97 | the body fragment shader iff `body`, the plain one iff not |
| CurrentSprite.SpriteAttributesAccepted | rust_snake/src/graphical_object.rs:101-107 | `pos` and `uv` on buffer 0 are accepted iff each reported location is -1 or one of the two slots; their stride is one vertex |
| CurrentSprite.InitBindings | rust_snake/src/graphical_object.rs:73-89 | one vertex buffer, the index buffer and exactly one image of the given size; panics iff the texture size check fails; the calls are the vertex upload, the index upload and, when the size is accepted, the texture's creation, in that order; the buffers end bound as `Buffer::immutable` leaves them and every texture slot as it was |
| CurrentSprite.UploadQuad | rust_snake/src/graphical_object.rs:76-80 | the vertex buffer and the index buffer get the given ids; the calls are exactly the vertex upload then the index upload; each cached binding stays as it was, or becomes the new buffer when nothing was bound; both saved bindings end cleared |
| CurrentSprite.InitPipeline | rust_snake/src/graphical_object.rs:91-108 | a shader from `meta` and the fragment shader chosen by `body`, then a pipeline with `pos` and `uv`; a failed load panics through `unwrap`; the only call is the loader's `UseProgram` on a successful load; a refused pipeline leaves the pipeline table alone |
| CurrentSprite.GraphicalObject.constructor | rust_snake/src/graphical_object.rs:61-69 | size, bindings and pipeline as given, with the unrotated quad |
| CurrentSprite.GraphicalObject.Rotate | rust_snake/src/graphical_object.rs:33-38 | `vertex_buffers` becomes the one new buffer holding the rotated quad; the index buffer and images are unchanged; the calls are exactly one vertex upload, and the cached index buffer is untouched |
| CurrentSprite.GraphicalObject.Draw | rust_snake/src/graphical_object.rs:40-50 | `apply_pipeline`, `apply_bindings`, `apply_uniforms` of 8 bytes and `draw(0, 6, 1)`, in that order; panics iff the bindings or uniforms do not suit the pipeline |
| CurrentSprite.DrawQuad | rust_snake/src/graphical_object.rs:43-49 | with a pipeline bound: panics iff the 8-byte struct does not hold the bound shader's uniforms; otherwise the uniform calls, then one draw of the six indices |
| CurrentSprite.ApplySprite | rust_snake/src/graphical_object.rs:41-42 | the pipeline's calls, then exactly the bindings' calls |
| CurrentSprite.NewGraphicalObject | rust_snake/src/graphical_object.rs:52-70 | built iff the texture size, the shader load and the attribute locations are all accepted, with its bindings and the new pipeline's layout; the calls are the two uploads, then the texture creation and the loader's `UseProgram` as far as each is reached; the shader table grows by the sprite's shader iff the bindings and the load succeed, the pipeline table by its pipeline iff it is built; texture slots unchanged and both buffers bound as after the uploads |
| CurrentSprite.FinishGraphicalObject | rust_snake/src/graphical_object.rs:60-69 | the `init_pipeline` half of construction: a panic from `init_bindings` passed on with no call and both tables unchanged; otherwise the sprite built iff the load and the pipeline succeed, with the given size and bindings, the unrotated quad and the new pipeline; the calls and tables as for `InitPipeline` |
| Miniquad.Context.BufferImmutable | src/graphical_object.rs:30 | records one buffer creation of the given kind and size and returns that buffer |
| Miniquad.Context.TextureFromRgba8 | src/graphical_object.rs:72 | records one texture creation of the given size and returns that texture |
| Miniquad.Context.ShaderNew | src/graphical_object.rs:82 | passes the shader outcome on, recording a shader only when it was built |
| Miniquad.Context.PipelineNew | src/graphical_object.rs:84-91 | records one pipeline creation with the given attributes and shader |
| Miniquad.Context.ApplyPipelineOf | src/graphical_object.rs:35 | records the pipeline application |
| Miniquad.Context.ApplyBindingsOf | src/graphical_object.rs:36 | records the bindings application |
| Miniquad.Context.ApplyUniformsOf | src/graphical_object.rs:37-42 | records a uniform upload of the struct's size |
| Miniquad.Context.DrawElements | src/graphical_object.rs:43 | records the draw |
| OlderSprite.RotUvs | src/graphical_object.rs:94-133 | the older revision's texture-coordinate table: four coordinates per rotation, in the same corner order |
| OlderSprite.GetRotVertex | src/graphical_object.rs:94-133 | for every rotation, the same four corners in the same order, and texture coordinates that use each unit-square corner once |
| OlderSprite.RotUvsPermuteUnitSquare | src/graphical_object.rs:94-133 | every row of this revision's rotation table lists the four unit-square corners, each once |
| OlderSprite.RotationsAgainstUnrotated | src/graphical_object.rs:94-133 | unrotated is the unit square; 90 degrees is it shifted by one place, 270 by three places, and 180 is it reversed |
| OlderSprite.InitBindings | src/graphical_object.rs:65-79 | the unrotated quad, the six indices and a 64 x 64 texture, whatever `width` and `height` are, created in that order |
| OlderSprite.InitPipeline | src/graphical_object.rs:81-92 | a shader, then a pipeline with `pos` and `uv`; fails through `unwrap` iff the shader fails, recording nothing |
| OlderSprite.GraphicalObject.constructor | src/graphical_object.rs:46-61 | size, offsets `w/1600` and `h/896`, bindings, pipeline and the uploaded quad as given |
| OlderSprite.GraphicalObject.Rotate | src/graphical_object.rs:27-32 | `vertex_buffers` becomes the one new buffer holding the rotated quad; the index buffer and texture are unchanged |
| OlderSprite.GraphicalObject.Draw | src/graphical_object.rs:34-44 | pipeline, bindings, the 8-byte uniform and `draw(0, 6, 1)`, in that order |
| OlderSprite.NewGraphicalObject | src/graphical_object.rs:46-61 | built iff the shader builds; size, offsets, bindings with a 64 x 64 texture, pipeline and the unrotated quad; the requests are the two buffers and the texture, then the shader and the pipeline when the shader builds |
| SpriteRevisions.CurrentIsOlderTurnedHalfway | src/graphical_object.rs:94-133 | the current revision's coordinates for a rotation are the older ones for the rotation half a turn further, and the two revisions' quads differ for every rotation |

## Left out

- Rendering, windowing and input plumbing are not part of this model: `windows.rs`, `gl.rs`, `module.rs`, `native.rs`, `lib.rs`, `conf.rs`, `event.rs`, the clipboard and both `main.rs` files. Key codes enter the games already translated.
- The frame-level `draw` of both games, of the snakes, of the bonus and of the backgrounds is not modelled. These only chain the sprite calls modelled above. The older game's background pipeline and bindings are also not modelled.
- `start_shader_time` and the body shader's `time` uniform are left out, because they are a wall-clock value sent as a float.
- Float arithmetic is left out: the `offset` uniform's value, the older snake's `real` interpolation between ticks, and `x_offset`/`y_offset` arithmetic (kept only as exact quotients). Buffer and texture contents are recorded by size only; the uploaded quad is kept as a ghost field.
- Shader compilation and linking (`load_shader`, `load_shader_internal`'s driver calls) are not modelled. A failed load is a `Failed` result with the reason collapsed; the `ShaderError` variants and their messages are not distinguished.
- `get_uniform_location` and `glGetAttribLocation` are not modelled; their answers are parameters.
- Message boxes, `eprintln!`, `println!` and the window title (`show_score`, `update_title`) are not modelled, because they are side output only.
- `rust_snake/src/texture.rs` (BMP decoding) and `src/SUBPROJECT EXPORT IMAGE` are not part of this model; texture data enters as bytes.
- `bonus.rs` and `background.rs` of both revisions are not part of this model (drawing only).
- `Vec`'s `Debug`, `Drop`, `memcpy` and `IndexMut` are not modelled. The `malloc`/`realloc` calls are modelled as array allocation that cannot fail.
- miniquad's own code is not part of this model: its calls are recorded, not simulated, so its internal checks and panics are not captured.
- Integer widths (`i16` positions, `i32` score, `u32` ids) are unbounded here, because no modelled operation comes near their limits.
- Arithmetic overflow follows a build with overflow checks on (Rust's debug profile): `Texture::new`'s `u32` size product (`GlTexture.CheckedPixelBytes`) and the `usize` subtraction `size - 2` of the as-written uniform check panic when they overflow. A release build wraps instead, and that wrapping is not modelled.
- A panic's partial effects are not fully captured: a panic part-way through `apply_bindings` leaves whatever the cache and trace hold unspecified.
- `Graphics.GraphicsContext.ApplyUniformsFromBytes` and `Graphics.GraphicsContext.ApplyUniform`: they use the intended fit check (in `ApplyUniform`, once per uniform) and do not reproduce the as-written check that lets short structs through (see Findings).
- `CurrentSnake.Snake.CheckReach` and `OlderSnake.Snake.CheckReach`: they require `now >= last_move_start`. The source's `duration_since(..).unwrap()` panics on a clock that went backwards, and that panic is not modelled. The source also reads the clock twice, where the model uses one `now`.
- `OlderSnake.Snake.CheckReach`: between ticks it leaves the integer state unchanged. The `real` float positions it updates are not modelled.

## Findings

| source | as written | input that shows it | evidently intended | confidence | as-written member | corrected member |
|---|---|---|---|---|---|---|
| winopengl/src/graphics.rs:416-431 | each uniform is checked with `offset <= size - FLOAT2_SIZE / 4`, comparing an offset counted in floats (4 bytes) with a size in bytes, and never counting the uniform's own length | a shader with two one-element `vec2` uniforms and an 8-byte struct: the offsets 0 and 2 both pass, so the second upload reads 8 bytes past the struct | every uniform's floats lie inside the struct, i.e. `8 * (sum of array counts) <= size` | not executed | Graphics.AsWrittenAcceptsShortStruct | Graphics.UniformsFitIffStructHoldsAll |
