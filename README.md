# A verified model of the portfolio site's interactive logic

The site is a personal portfolio written as an Angular single-page
application. Apart from its pages, it carries a handful of small pieces of
interactive logic, and this project models those pieces and proves what
they do:

- **the mini-game** (`Arcade`): a space-invaders clone on an 800 x 600
  canvas. It has a ship that moves by 5 units, an enemy formation of
  `4 + floor(level / 2)` rows of 8 that marches and drops, bullets, explosion
  particles, score, lives and levels. The game arms the secret-code detector
  when it starts or resumes, and disarms it when it pauses, stops or is
  lost. `resumeGame` runs one frame before it re-arms the detector, so a
  resume whose first frame costs the last life leaves a lost game with the
  detector armed (`ResumeSpec` states `r.codeActive` in every case).
- **the secret-code detector** (`SecretCode`): it keeps a window of the last
  ten keys pressed while the game is active. The easter egg fires when the
  window is the Konami code.
- **the terminal** (`Terminal`): a small command interpreter. It has a
  command table, `help`, `echo`, `cat`, `clear` and the fixed pages. It also
  lets the player complete a command with TAB and step through the command
  history with the arrow keys.
- **the skills map** (`SkillsMap`): the category list, the filter, the
  grouping, the count and rounded average level, and the tooltip. It also
  models pressing on a skill node, dragging it and dropping it.
- **the theme service** (`Theme`): four palettes written as six CSS
  variables, the stored preference, the hour-of-day default and the
  four-theme cycle.
- **the root component** (`App`): the typewriter line, the cycling ASCII
  banner, the dark/light switch and the easter-egg flags.
- **the glitch text** (`GlitchText`): a left-to-right reveal behind random
  characters.
- **the social links card** (`SocialLinks`): the presence status colour,
  the activity list and its Spotify entry, and the contact form's modal and
  send guard.

`Strings` holds the JavaScript string operations these rely on: `trim`,
`split`, `join`, `toLowerCase`, `startsWith` and `padEnd`. `Wrappers`
holds `Option`.

State the source changes step by step is modelled as a class whose methods
change its fields. The methods of the game (`Arcade.MiniGame`) and of the
terminal (`Terminal.TerminalComponent`) are proved equal to a pure function
of the old state. For the game the pure side is `FrameSpec` and its phases
over the `World` snapshot; for the terminal it is `Execute`, `Complete` and
`Navigate` over `Session`. The methods of the smaller components state the
new value of each field they change, often through a pure function such as
`Selected`, `Apply`, `TypeStep`, `Push` or `Frame`, and name the fields
that keep their value. The properties of the source are then lemmas about
those functions. External inputs become parameters:

- the clock (`now`, `hour`, `date`);
- `Math.random` (the enemy-fire `roll`, the `shooter` index and the glitch
  picks);
- the pointer position and the container size;
- the presence payload.

Each timer or animation-frame callback is one method call.

## Model

| member | source | states |
|---|---|---|
| SecretCode.KonamiCodeFacts | src/app/services/SecretCode.service.ts:8-19 | The code has ten keys, and its last key `a` occurs nowhere earlier in it. |
| SecretCode.Matches | src/app/services/SecretCode.service.ts:56-64 | The length check plus the element-wise `every` holds exactly when the window equals the code. |
| SecretCode.Push | src/app/services/SecretCode.service.ts:40-45 | After push-then-shift the window never exceeds ten keys. It grows by one until it is full and ends with the new key. |
| SecretCode.PushKeepsOlderKeys | src/app/services/SecretCode.service.ts:40-45 | Every key before the new one is the corresponding key from the end of the old window. |
| SecretCode.LastN | src/app/services/SecretCode.service.ts:40-45 | The window of the last `n` keys holds `n` keys, or every key when fewer were pressed. |
| SecretCode.PushKeepsLastKeys | src/app/services/SecretCode.service.ts:40-45 | Pushing a key onto the last ten keys gives the last ten keys of the longer history, so the window is always the last ten keys pressed. |
| SecretCode.KeyStep | src/app/services/SecretCode.service.ts:34-53 | While disarmed a key changes nothing. While armed it fires exactly when the pushed window equals the code; firing clears the window, otherwise the pushed window stays. |
| SecretCode.PartialCodeNeverMatches | src/app/services/SecretCode.service.ts:40-52 | Whatever came before, a proper prefix of the code typed last never leaves the window equal to the code. This holds when the code's last key is unique. |
| SecretCode.WholeCodeMatches | src/app/services/SecretCode.service.ts:40-52 | Once the whole code has been typed, the window is the code, whatever was typed before. |
| SecretCode.KonamiFiresOnlyOnLastKey | src/app/services/SecretCode.service.ts:40-52 | While typing the Konami code, the window matches exactly at its tenth key. |
| SecretCode.Detector.constructor | src/app/services/SecretCode.service.ts:20-31 | The detector starts disarmed with an empty window. |
| SecretCode.Detector.HandleKey | src/app/services/SecretCode.service.ts:34-53 | The listener is one `KeyStep`. It fires exactly when the last ten keys since the last clear are the code, and it never changes the armed flag. |
| SecretCode.Detector.CheckSequence | src/app/services/SecretCode.service.ts:56-64 | True exactly when the window equals the Konami code. |
| SecretCode.Detector.SetGameActive | src/app/services/SecretCode.service.ts:180-185 | Sets the armed flag. Disarming also clears the window; arming keeps it. |
| SecretCode.Detector.IsGameActive | src/app/services/SecretCode.service.ts:187-189 | Returns the armed flag. |
| Arcade.Collides | src/app/components/mini-game/mini-game.component.ts:395-402 | `checkCollision`: the two boxes overlap strictly on both axes. Its edge cases are the next two lemmas. |
| Arcade.TouchingIsNoCollision | src/app/components/mini-game/mini-game.component.ts:395-402 | The strict comparisons mean that rectangles which only share an edge do not collide. |
| Arcade.OverlapByOneCollides | src/app/components/mini-game/mini-game.component.ts:395-402 | Rectangles that overlap by one unit on both axes collide, in either order. |
| Arcade.PlayerBox | src/app/components/mini-game/mini-game.component.ts:41 | Definition of the ship's box: 50 x 30 at `(x, 500)`, the rectangle enemy bullets are tested against. `EnemyBulletHit` states what a hit on it does. |
| Arcade.Held | src/app/components/mini-game/mini-game.component.ts:211-215 | Definition of `this.keys[k]` as a truth value: a key counts as held only when it is in the map and `true`, so a key never pressed counts as released. `KeyUpSpec` and `PlayerPhase` state what it means for a key event and for the ship. |
| Arcade.Rows | src/app/components/mini-game/mini-game.component.ts:163 | Definition of the row count `4 + floor(level / 2)`. `FormationLayout` states the formation's size, and `FrameLevelUpExactly` states when the next level's formation appears. |
| Arcade.RowColor | src/app/components/mini-game/mini-game.component.ts:177 | Definition of the row colour: pink for row 0, orange for row 1, green below. `FormationLayout` states it for every formation enemy. |
| Arcade.EnemySpeed | src/app/components/mini-game/mini-game.component.ts:176 | Definition of the level's enemy speed `0.5 + 0.1 * level`. `FormationLayout` states it for every formation enemy. |
| Arcade.FormationEnemy | src/app/components/mini-game/mini-game.component.ts:169-178 | Definition of the enemy in a grid cell. `FormationLayout` states its box, speed and colour, and `GridCellsApart` states that cells never overlap. |
| Arcade.Formation | src/app/components/mini-game/mini-game.component.ts:162-181 | `createEnemies` appends `8 * rows` enemies. |
| Arcade.FormationLayout | src/app/components/mini-game/mini-game.component.ts:169-180 | Every enemy is a 40 x 30 box at `(100 + 60 col, 50 + 60 row)`. Its speed is `0.5 + 0.1 level`, and its colour is chosen by its row. |
| Arcade.GridCellsApart | src/app/components/mini-game/mini-game.component.ts:165-175 | Boxes in different grid cells 60 apart never overlap. |
| Arcade.FormationDisjoint | src/app/components/mini-game/mini-game.component.ts:162-181 | No two enemies of a fresh formation overlap, and each starts strictly inside the playfield. |
| Arcade.Disarm | src/app/services/SecretCode.service.ts:180-185 | `setGameActive(false)`: the detector is disarmed and its window emptied, and nothing else in the state changes. |
| Arcade.Lose | src/app/components/mini-game/mini-game.component.ts:235-237 | A loss sets `gameOver`, stops the game and disarms the detector, and nothing else in the state changes. The bullet pass loses the same way (lines 299-301). |
| Arcade.PlayerPhase | src/app/components/mini-game/mini-game.component.ts:210-220 | `updatePlayer` changes only the ship's position. With neither arrow held it changes nothing, and it keeps the ship on its track. |
| Arcade.MovePlayer | src/app/components/mini-game/mini-game.component.ts:210-220 | With no arrow held the ship stays put. It never moves by more than one 5-unit step, and the left arrow alone moves it 5 left from any positive position. |
| Arcade.MovePlayerStaysOnTrack | src/app/components/mini-game/mini-game.component.ts:210-220 | `updatePlayer` keeps the ship on multiples of 5 within `[0, 750]` and moves it by at most 5. |
| Arcade.Advance | src/app/components/mini-game/mini-game.component.ts:226-227 | The march keeps the number of enemies. |
| Arcade.Lower | src/app/components/mini-game/mini-game.component.ts:244-246 | The drop keeps the number of enemies. `EnemyPhaseMovesFormation` states that each enemy moves down by 20 when any touched an edge. |
| Arcade.AtEdge | src/app/components/mini-game/mini-game.component.ts:229 | Definition of the edge test: at or left of 0, or at or right of `800 - width`. `AnyAtEdgeMeans` states what the loop makes of it. |
| Arcade.AnyAtEdge | src/app/components/mini-game/mini-game.component.ts:226-232 | Definition of the loop's `shouldDrop` after its first `n` iterations. `AnyAtEdgeMeans` states that it holds exactly when some enemy is at an edge. |
| Arcade.Reached | src/app/components/mini-game/mini-game.component.ts:234 | Definition of the reach test: the enemy's bottom is at or below the ship's top, 500. `AnyReachedMeans` and `EnemyPhaseLoss` state what the loop makes of it. |
| Arcade.AnyReached | src/app/components/mini-game/mini-game.component.ts:233-238 | Definition of the loss flag after the loop's first `n` iterations. `AnyReachedMeans` states that it holds exactly when some enemy has reached the ship. |
| Arcade.AnyAtEdgeMeans | src/app/components/mini-game/mini-game.component.ts:226-232 | The loop's `shouldDrop` is set exactly when some moved enemy touches a side edge. |
| Arcade.AnyReachedMeans | src/app/components/mini-game/mini-game.component.ts:233-238 | The loop ends the game exactly when some enemy's bottom is at or below the ship's top. |
| Arcade.EnemyPhase | src/app/components/mini-game/mini-game.component.ts:222-255 | `updateEnemies` keeps the number of enemies and adds at most one bullet. It leaves the ship, score, lives and level alone. |
| Arcade.EnemyShot | src/app/components/mini-game/mini-game.component.ts:385-393 | An enemy bullet falls. It starts at the enemy's bottom edge, centred under it. |
| Arcade.Marched | src/app/components/mini-game/mini-game.component.ts:222-248 | The march and drop change only the enemies and the direction, and keep the count. |
| Arcade.EnemyFire | src/app/components/mini-game/mini-game.component.ts:249-254 | The random shot changes only the bullet list. |
| Arcade.EnemyPhaseKeeps | src/app/components/mini-game/mini-game.component.ts:222-255 | `updateEnemies` leaves the ship, score, lives and level alone. |
| Arcade.EnemyPhaseMovesFormation | src/app/components/mini-game/mini-game.component.ts:222-248 | Every enemy moves by `direction * speed`. If any then touches an edge, the direction flips once and every enemy drops exactly 20; otherwise no height changes. |
| Arcade.EnemyPhaseLoss | src/app/components/mini-game/mini-game.component.ts:233-238 | An enemy at the ship's height makes the game over and not running, and disarms and clears the detector. Otherwise those flags are untouched. |
| Arcade.EnemyPhaseFire | src/app/components/mini-game/mini-game.component.ts:249-254 | One enemy bullet is added exactly when the roll is below `0.01 * level` and enemies remain; otherwise the bullets are unchanged. |
| Arcade.RemoveAt | src/app/components/mini-game/mini-game.component.ts:264 | `splice(i, 1)` shortens the list by one and keeps the prefix. |
| Arcade.RemoveAtShifts | src/app/components/mini-game/mini-game.component.ts:264 | `splice(i, 1)` shifts the later elements down and removes exactly one occurrence of the element at `i`. |
| Arcade.Explosion | src/app/components/mini-game/mini-game.component.ts:404-415 | Fifteen particles at full opacity in the given colour. |
| Arcade.LastHit | src/app/components/mini-game/mini-game.component.ts:270-285 | The downward search finds the highest-index enemy the bullet overlaps, or -1 when there is none. |
| Arcade.Fly | src/app/components/mini-game/mini-game.component.ts:260 | Definition of one frame's flight: the bullet moves by its speed. `SweepKeepsBulletsInBounds` states where the flown bullets end up. |
| Arcade.OffScreen | src/app/components/mini-game/mini-game.component.ts:263-266 | Definition of the removal test: above 0 or below 600. `SweepKeepsBulletsInBounds` states that no bullet left after a pass is off screen. |
| Arcade.BulletAt | src/app/components/mini-game/mini-game.component.ts:258-304 | One loop iteration leaves the bullets below index `i` untouched. |
| Arcade.ShotAtEnemies | src/app/components/mini-game/mini-game.component.ts:269-286 | A player bullet never costs a life. It either changes nothing, or removes one enemy and one bullet, scores `10 * level` and adds 15 particles. |
| Arcade.ShotAtPlayer | src/app/components/mini-game/mini-game.component.ts:289-303 | An enemy bullet never touches the enemies or the score. It either changes nothing, or removes itself, costs one life and adds 15 particles. |
| Arcade.Sweep | src/app/components/mini-game/mini-game.component.ts:257-305 | The whole reverse loop never adds bullets or enemies and never adds lives, and a lost battle stays lost. |
| Arcade.PlayerBulletHit | src/app/components/mini-game/mini-game.component.ts:269-286 | A rising bullet that overlaps an enemy removes exactly that bullet and the highest-index such enemy. It adds 15 particles in that enemy's colour and `10 * level` points. |
| Arcade.EnemyBulletHit | src/app/components/mini-game/mini-game.component.ts:289-303 | A falling bullet that hits the ship is removed, costs one life and adds 15 red particles. The battle is lost when no life is left. |
| Arcade.BulletAtScore | src/app/components/mini-game/mini-game.component.ts:258-304 | One iteration destroys at most one enemy, worth `10 * level`. |
| Arcade.BulletAtLives | src/app/components/mini-game/mini-game.component.ts:258-304 | One iteration costs at most one life, never together with a kill. Each kill or hit adds 15 particles. |
| Arcade.SweepScore | src/app/components/mini-game/mini-game.component.ts:257-305 | A whole bullet pass adds no enemy and scores exactly `10 * level` per enemy destroyed (`ScoredPerKill`), so the score never decreases. |
| Arcade.SweepLives | src/app/components/mini-game/mini-game.component.ts:257-305 | A bullet pass adds 15 particles per kill and per life lost. The pass is lost exactly when a hit took the lives to 0 or below. |
| Arcade.BulletPhase | src/app/components/mini-game/mini-game.component.ts:257-305 | `updateBullets` changes only the lists, score, lives and game flags. |
| Arcade.BulletPhaseOutcome | src/app/components/mini-game/mini-game.component.ts:257-305 | On the whole state the score grows by `10 * level` per kill. The game ends and the detector is disarmed exactly when a hit takes the last life; otherwise those flags are untouched. |
| Arcade.SweepKeepsBulletsInBounds | src/app/components/mini-game/mini-game.component.ts:258-266 | After a bullet pass every remaining bullet is inside the canvas's vertical bounds. |
| Arcade.Decay | src/app/components/mini-game/mini-game.component.ts:307-318 | The particle pass never adds particles, and every particle that survives has opacity of at least 0.01. |
| Arcade.DecayStep | src/app/components/mini-game/mini-game.component.ts:308-316 | The reverse splice loop treats each particle independently of the others. |
| Arcade.DecaySurvivors | src/app/components/mini-game/mini-game.component.ts:307-318 | Each particle still visible after fading by 0.95 survives, faded once. Every survivor is such a faded particle. |
| Arcade.ParticlePhase | src/app/components/mini-game/mini-game.component.ts:307-318 | `updateParticles` changes only the particle list, and never lengthens it. `DecaySurvivors` states which particles survive. |
| Arcade.LevelUp | src/app/components/mini-game/mini-game.component.ts:203-207 | The win check changes only the level and the enemies. |
| Arcade.FrameSpec | src/app/components/mini-game/mini-game.component.ts:183-208 | A stopped game is left unchanged. A running frame ends with a non-empty formation, with the level kept or raised by one. |
| Arcade.FrameProgress | src/app/components/mini-game/mini-game.component.ts:183-208 | Across a frame the ship stays on its track and the score never decreases. The level stays or rises by one to the next formation, a running frame never leaves the formation empty, and a stopped game does not move. |
| Arcade.FrameLevelUpExactly | src/app/components/mini-game/mini-game.component.ts:203-207 | The level rises exactly when the bullet pass destroyed the last enemy, and then the new formation has `8 * (4 + floor((level + 1) / 2))` enemies. |
| Arcade.PlayerShot | src/app/components/mini-game/mini-game.component.ts:374-380 | The ship's bullet rises. It starts at the ship's top, centred on it. |
| Arcade.ShootSpec | src/app/components/mini-game/mini-game.component.ts:371-383 | `shoot` changes the state exactly when the game runs and at least 300 ms have passed since the last shot. It then appends the ship's bullet and records the time. |
| Arcade.FireCooldownScenario | src/app/components/mini-game/mini-game.component.ts:372 | The 300 ms cooldown: two presses 100 ms apart fire once, and 350 ms apart fire twice. |
| Arcade.ShotsAreFriendly | src/app/components/mini-game/mini-game.component.ts:374-380 | Every bullet `shoot` adds rises, so the collision loop treats it as the player's. |
| Arcade.KeyDownSpec | src/app/components/mini-game/mini-game.component.ts:60-79 | A stopped game ignores keys. While running, the key is marked held and no other key changes. Only space can add a bullet or move `lastShot`, and it adds what `shoot` adds. Nothing but the keys, the bullets and `lastShot` ever changes. |
| Arcade.KeyUpSpec | src/app/components/mini-game/mini-game.component.ts:81-86 | A stopped game ignores keys. While running, the key is marked released and no other key changes. Nothing but the keys changes: no bullet, no `lastShot`. |
| Arcade.StartSpec | src/app/components/mini-game/mini-game.component.ts:100-115 | A fresh running session: score 0, 3 lives, level 1, a 32-enemy formation, and no bullets or particles. The detector is armed with its window kept, and the ship stays where it was. |
| Arcade.PauseSpec | src/app/components/mini-game/mini-game.component.ts:125-148 | Not running, with the detector disarmed and cleared. The game itself (score, lives, level, objects, ship, `gameOver`) is kept for resuming. |
| Arcade.ResumeSpec | src/app/components/mini-game/mini-game.component.ts:134-139 | After resuming, the detector is armed, the formation is non-empty and the level is kept or raised by one. |
| Arcade.ResetSpec | src/app/components/mini-game/mini-game.component.ts:150-160 | After `resetGame`: score 0, 3 lives, level 1, empty lists, the ship at 375, stopped, not over, and the detector disarmed. |
| Arcade.ToggleSpec | src/app/components/mini-game/mini-game.component.ts:117-123 | A running game pauses, a stopped game that is not over resumes (`ResumeSpec`: one frame, then the detector armed), and a stopped game that is over stays as it is. |
| Arcade.ResetForgetsSession | src/app/components/mini-game/mini-game.component.ts:150-160 | Two sessions that differ in score, lives, level, objects or flags reset to the same state. |
| Arcade.MiniGame.constructor | src/app/components/mini-game/mini-game.component.ts:30-49 | The initial fields: score 0, 3 lives, level 1, stopped, the ship at 375, no objects, direction 1. |
| Arcade.MiniGame.OnKeyDown | src/app/components/mini-game/mini-game.component.ts:60-79 | While running, the key is marked held and space fires; the new state is `KeyDownSpec`. |
| Arcade.MiniGame.OnKeyUp | src/app/components/mini-game/mini-game.component.ts:81-86 | While running, the key is marked released; the new state is `KeyUpSpec`. |
| Arcade.MiniGame.Shoot | src/app/components/mini-game/mini-game.component.ts:371-383 | The new state is `ShootSpec` at the given time: a bullet is added only while running and at least 300 ms after the last shot. |
| Arcade.MiniGame.StartGame | src/app/components/mini-game/mini-game.component.ts:100-115 | A fresh session with the detector armed and a level-1 formation, followed at once by one frame. |
| Arcade.MiniGame.Clear | src/app/components/mini-game/mini-game.component.ts:102-108 | The session fields `startGame` and `resetGame` both reset: not over, score 0, 3 lives, level 1, no enemies, bullets or particles. Every other field keeps its value. |
| Arcade.MiniGame.ToggleGame | src/app/components/mini-game/mini-game.component.ts:117-123 | The new state is `ToggleSpec`. |
| Arcade.MiniGame.PauseGame | src/app/components/mini-game/mini-game.component.ts:125-132 | Not running and the detector disarmed; nothing else changes. |
| Arcade.MiniGame.ResumeGame | src/app/components/mini-game/mini-game.component.ts:134-139 | Running, one frame, and only then the detector is re-armed. |
| Arcade.MiniGame.StopGame | src/app/components/mini-game/mini-game.component.ts:141-148 | The same as pausing. |
| Arcade.MiniGame.ResetGame | src/app/components/mini-game/mini-game.component.ts:150-160 | The new state is `ResetSpec`. |
| Arcade.MiniGame.CreateEnemies | src/app/components/mini-game/mini-game.component.ts:162-181 | Appends the level's formation and changes nothing else. |
| Arcade.MiniGame.Frame | src/app/components/mini-game/mini-game.component.ts:183-208 | One `gameLoop` pass; the new state is `FrameSpec`. |
| Arcade.MiniGame.NextLevel | src/app/components/mini-game/mini-game.component.ts:203-207 | The new state is `LevelUp`. |
| Arcade.MiniGame.UpdatePlayer | src/app/components/mini-game/mini-game.component.ts:210-220 | The new state is the player phase, and the enemies are untouched. |
| Arcade.MiniGame.UpdateEnemies | src/app/components/mini-game/mini-game.component.ts:222-255 | The new state is `EnemyPhase` for the given roll and shooter. |
| Arcade.MiniGame.MarchEnemies | src/app/components/mini-game/mini-game.component.ts:222-248 | The march and the drop, and a loss when an enemy reached the ship. |
| Arcade.MiniGame.EnemyShoot | src/app/components/mini-game/mini-game.component.ts:385-393 | Appends the enemy's bullet. |
| Arcade.MiniGame.UpdateBullets | src/app/components/mini-game/mini-game.component.ts:257-305 | The new state is `BulletPhase`. |
| Arcade.MiniGame.UpdateParticles | src/app/components/mini-game/mini-game.component.ts:307-318 | The new state is the particle phase; the ship, level and direction are untouched. |
| Arcade.RunBattle | src/app/components/mini-game/mini-game.component.ts:258-304 | The reverse loop computes `Sweep` over all bullets. The detector is disarmed exactly when the battle was lost, and is otherwise unchanged. |
| Arcade.BulletStep | src/app/components/mini-game/mini-game.component.ts:259-303 | One iteration equals `BulletAt`, and the detector is disarmed exactly on a loss. |
| Arcade.HitEnemies | src/app/components/mini-game/mini-game.component.ts:269-286 | The enemy search and its effects equal `ShotAtEnemies`. |
| Arcade.HitPlayer | src/app/components/mini-game/mini-game.component.ts:289-303 | The ship check equals `ShotAtPlayer`, and a hit that takes the last life disarms the detector. |
| Arcade.AppendFormation | src/app/components/mini-game/mini-game.component.ts:169-180 | The two nested loops append exactly `Formation(level)`. |
| Arcade.AdvanceAll | src/app/components/mini-game/mini-game.component.ts:226-239 | The march loop computes the moved enemies, `shouldDrop` and the loss, and disarms the detector exactly on the loss. |
| Arcade.LowerAll | src/app/components/mini-game/mini-game.component.ts:244-246 | The drop loop lowers every enemy by 20. |
| Arcade.AddExplosion | src/app/components/mini-game/mini-game.component.ts:404-415 | The loop appends exactly `Explosion(color)`. |
| Arcade.FindLastHit | src/app/components/mini-game/mini-game.component.ts:270-285 | The downward loop with `break` returns `LastHit`. |
| Strings.IsSpace | src/app/components/terminal/terminal.component.ts:159 | Definition of the characters `trim` removes: the ECMAScript white space and line terminators, the no-break and byte-order-mark characters included. `TrimShape` and `TrimEmptyIffBlank` state what `trim` does with them. |
| Strings.TrimStart | src/app/components/terminal/terminal.component.ts:159 | The result is the suffix after a blank prefix and does not start with white space. |
| Strings.TrimEnd | src/app/components/terminal/terminal.component.ts:159 | The result is the prefix before a blank suffix and does not end with white space. |
| Strings.Trim | src/app/components/terminal/terminal.component.ts:159 | `trim` never lengthens a string. Its result is empty, or starts and ends with a character that is not white space. |
| Strings.TrimEmptyIffBlank | src/app/components/terminal/terminal.component.ts:159-160 | `trim()` is empty exactly when the input is all white space, which is the guard `if (!command) return`. |
| Strings.TrimShape | src/app/components/terminal/terminal.component.ts:159 | The trimmed string is a factor of the input, and is empty or starts and ends with a non-space. |
| Strings.Split | src/app/components/terminal/terminal.component.ts:173 | `split(' ')` has at least one piece, and no piece contains the separator. |
| Strings.Join | src/app/components/terminal/terminal.component.ts:79 | `join` begins with the first piece and has room for a separator between each pair of pieces. |
| Strings.StartsWith | src/app/components/terminal/terminal.component.ts:206 | `startsWith`: the string begins with the prefix. `MatchingComplete` and `AutocompleteCases` state its use. |
| Strings.JoinSplit | src/app/components/terminal/terminal.component.ts:79 | `join` undoes `split` for the same separator. |
| Strings.SplitAfterWord | src/app/components/terminal/terminal.component.ts:336 | A word, the separator and a rest split into the word, then the pieces of the rest. |
| Strings.SplitWithoutSeparator | src/app/components/terminal/terminal.component.ts:173 | A string without the separator splits into itself alone. |
| Strings.ToLower | src/app/components/terminal/terminal.component.ts:174 | Lower-casing keeps the length and folds each capital letter. |
| Strings.LowerChar | src/app/components/terminal/terminal.component.ts:174 | A capital letter A-Z becomes a lower-case letter, and every other character is kept. |
| Strings.ToLowerFixesLowerCase | src/app/components/terminal/terminal.component.ts:174 | A string without capitals is its own lower case. |
| Strings.PadEnd | src/app/components/terminal/terminal.component.ts:236 | `padEnd` keeps the string and pads it with spaces up to the width. |
| Terminal.Names | src/app/components/terminal/terminal.component.ts:203 | Definition of `Object.keys` on the table: the entries' names in table order. `MatchingComplete` states that completion offers exactly the names that start with the input. |
| Terminal.SiteTableFacts | src/app/components/terminal/terminal.component.ts:35-125 | Every command name fits the 12-character help column, and neither `constructor` nor `__proto__` is a command. |
| Terminal.FindAbsent | src/app/components/terminal/terminal.component.ts:176 | A name longer than every command's is not found. |
| Terminal.ReplyLines | src/app/components/terminal/terminal.component.ts:178-184 | A string result appends one line; an array result appends one line per element. |
| Terminal.Find | src/app/components/terminal/terminal.component.ts:176 | The lookup returns an entry with that name, or `None` exactly when no entry has it. |
| Terminal.LookupAsWritten | src/app/components/terminal/terminal.component.ts:176 | The plain-object lookup finds the own entry when there is one, and an inherited property exactly when there is no own entry and the name is an `Object.prototype` member. |
| Terminal.Echo | src/app/components/terminal/terminal.component.ts:79 | `echo`'s action on the raw input: `split(' ').slice(1).join(' ')`. What it prints is stated by the next two lemmas. |
| Terminal.EchoPrintsMessage | src/app/components/terminal/terminal.component.ts:79 | `echo <message>` prints the message as typed, spaces included. |
| Terminal.EchoAlone | src/app/components/terminal/terminal.component.ts:79 | `echo` alone prints an empty line. |
| Terminal.CatFile | src/app/components/terminal/terminal.component.ts:335-354 | A multi-line reply is one of the three pages: about, contact or skills. Everything else is a one-line message. |
| Terminal.CatFileErrors | src/app/components/terminal/terminal.component.ts:335-354 | With no argument `cat` prints `cat: missing file operand`. An unknown first argument `<file>` prints `cat: <file>: No such file or directory`, whatever follows it. |
| Terminal.CatArguments | src/app/components/terminal/terminal.component.ts:336-341 | After the command word, the first argument is the file name. |
| Terminal.CatAboutIsAbout | src/app/components/terminal/terminal.component.ts:343-344 | `cat about.txt` prints the same lines as `about`. |
| Terminal.HelpEntry | src/app/components/terminal/terminal.component.ts:236 | With a name of at most 12 characters, a help line has 17 characters plus the description. A longer name lengthens the line by its extra characters. |
| Terminal.Action | src/app/components/terminal/terminal.component.ts:35-125 | The reply of each table entry's action. Its use by the interpreter is stated by `ExecuteLogs`. |
| Terminal.HelpText | src/app/components/terminal/terminal.component.ts:233-243 | Help has two header lines, one line per command and two trailer lines. |
| Terminal.HelpColumns | src/app/components/terminal/terminal.component.ts:236 | Each help line shows the name from column 2, the dash at column 14 and the description from column 17. |
| Terminal.Logged | src/app/components/terminal/terminal.component.ts:162-170 | Logging a command changes only the log, the history and the history cursor. |
| Terminal.Prompt | src/app/components/terminal/terminal.component.ts:164 | Definition of the echoed line `<directory>$ <command>`. `ExecuteLogs` states that every non-blank command leaves it as the first new log line. |
| Terminal.NotFound | src/app/components/terminal/terminal.component.ts:186-189 | Definition of the unknown-command message. `ExecuteUnknown` states that an unknown command gets it as its one error line, naming the command as typed. |
| Terminal.Head | src/app/components/terminal/terminal.component.ts:173 | Definition of the command word: the first space-separated piece of the trimmed line, in its original case. `Execute` looks it up lower-cased, and `ExecuteUnknown` reports it as typed. |
| Terminal.Dispatch | src/app/components/terminal/terminal.component.ts:172-194 | The reply part clears the input and the suggestions, changes the log and nothing else. |
| Terminal.Execute | src/app/components/terminal/terminal.component.ts:158-196 | `executeCommand` with only the table's own names as commands. The state changes exactly when the input is not blank, and the history gains at most the trimmed command. |
| Terminal.ExecuteRecords | src/app/components/terminal/terminal.component.ts:158-196 | Blank input changes nothing. Otherwise the trimmed command is added to the history, the cursor moves past its end, and the input and suggestions are cleared. |
| Terminal.ExecuteLogs | src/app/components/terminal/terminal.component.ts:162-190 | Apart from `clear`, the log keeps the old lines, then the prompt line with the trimmed command, then the reply. A command found under its lower-cased first word adds exactly the lines of its entry's action on the raw input. `clear` leaves one empty line. |
| Terminal.DispatchOutput | src/app/components/terminal/terminal.component.ts:176-190 | `clear` leaves its one empty reply line; any other reply only extends the log. |
| Terminal.ExecuteUnknown | src/app/components/terminal/terminal.component.ts:185-190 | An unknown command gets the prompt line and one error line naming the command as typed, in its original case. |
| Terminal.ExecuteAsWritten | src/app/components/terminal/terminal.component.ts:158-196 | `executeCommand` as written. It throws only for an inherited first word, and then the input line is kept and the history has grown by one. |
| Terminal.AsWrittenAgreesOffPrototype | src/app/components/terminal/terminal.component.ts:158-196 | For every command whose first word is not an inherited property name, the code as written behaves as `Execute`. |
| Terminal.InheritedThrows | src/app/components/terminal/terminal.component.ts:176-177 | An inherited first word that is not a command throws after the prompt line and the history entry were added. |
| Terminal.ConstructorThrows | src/app/components/terminal/terminal.component.ts:176-177 | Typing `constructor` throws as written and leaves the input in place. The corrected lookup answers "Command not found". |
| Terminal.Matching | src/app/components/terminal/terminal.component.ts:205-207 | The filter keeps only names that are in the table and start with the input. |
| Terminal.MatchingComplete | src/app/components/terminal/terminal.component.ts:205-207 | Every name that starts with the input is kept. |
| Terminal.Complete | src/app/components/terminal/terminal.component.ts:198-215 | Completion changes only the input and the suggestions. The input is either kept or becomes a command name. |
| Terminal.AutocompleteCases | src/app/components/terminal/terminal.component.ts:198-215 | Empty input lists every name. A single match replaces the input with the only name that starts with it; several matches are listed; no match changes nothing. |
| Terminal.Navigate | src/app/components/terminal/terminal.component.ts:217-231 | Navigation changes only the input and the cursor. The input is kept, emptied or replaced by a history entry. |
| Terminal.NavigateHistoryBounds | src/app/components/terminal/terminal.component.ts:217-231 | With no history nothing changes. Otherwise the cursor moves by the direction, clamped to `[0, length]`, and the input shows that entry, or nothing at the end. |
| Terminal.TerminalComponent.constructor | src/app/components/terminal/terminal.component.ts:28-33 | Empty input, log and history, the cursor at -1, and the site's table and pages. |
| Terminal.TerminalComponent.ExecuteCommand | src/app/components/terminal/terminal.component.ts:158-196 | The new state is `Execute`: the intended lookup over the table's own names. For `constructor` and `__proto__` the code as written throws instead; that is `ExecuteAsWritten` (see "## Findings"). |
| Terminal.TerminalComponent.LogCommand | src/app/components/terminal/terminal.component.ts:162-170 | The new state is `Logged`. |
| Terminal.TerminalComponent.Respond | src/app/components/terminal/terminal.component.ts:172-194 | The new state is `Dispatch`. |
| Terminal.TerminalComponent.RunAction | src/app/components/terminal/terminal.component.ts:176-177 | Returns the entry's reply. Only `clear` changes the state, by emptying the log. |
| Terminal.TerminalComponent.ShowHelp | src/app/components/terminal/terminal.component.ts:233-243 | The pushed lines are `HelpText` of the table. |
| Terminal.TerminalComponent.ClearTerminal | src/app/components/terminal/terminal.component.ts:330-333 | Empties the log and returns the empty string. |
| Terminal.TerminalComponent.Autocomplete | src/app/components/terminal/terminal.component.ts:198-215 | The new state is `Complete`. |
| Terminal.TerminalComponent.NavigateHistory | src/app/components/terminal/terminal.component.ts:217-231 | The new state is `Navigate`. |
| SkillsMap.Skill.constructor | src/app/components/skills-map/skills-map.component.ts:34-156 | A node carries its row's name, level and category and has no position yet. |
| SkillsMap.MakeSkills | src/app/components/skills-map/skills-map.component.ts:34-156 | One fresh node per table row, in order. |
| SkillsMap.CategoryOf | src/app/components/skills-map/skills-map.component.ts:187 | Definition of `skills.map(s => s.category)`. `CategoriesInOrder` states that the list built from it is `All`, then each category once, in order of first appearance. |
| SkillsMap.Distinct | src/app/components/skills-map/skills-map.component.ts:187-188 | `Array.from(new Set(...))` keeps the same values, each once. |
| SkillsMap.DistinctInOrder | src/app/components/skills-map/skills-map.component.ts:187-188 | The distinct values come in the order of their first occurrence. |
| SkillsMap.Categories | src/app/components/skills-map/skills-map.component.ts:187-188 | `All` comes first, followed by each category some skill has, each exactly once. |
| SkillsMap.CategoriesInOrder | src/app/components/skills-map/skills-map.component.ts:187-188 | The categories follow the order in which the skill table first uses them. |
| SkillsMap.OfCategory | src/app/components/skills-map/skills-map.component.ts:340 | The filter keeps exactly the skills of the category, in their order. |
| SkillsMap.OfCategoryAppend | src/app/components/skills-map/skills-map.component.ts:340 | Filtering a list extended by one skill is the old filter plus that skill when it matches. |
| SkillsMap.Selected | src/app/components/skills-map/skills-map.component.ts:335-342 | `All` selects every skill; another category selects its filter, a subsequence of the skills. |
| SkillsMap.Grouped | src/app/components/skills-map/skills-map.component.ts:226-235 | Every group is non-empty and ends with a skill of its own category. `GroupedIsFilter` states that the groups partition the skills. |
| SkillsMap.GroupedAt | src/app/components/skills-map/skills-map.component.ts:226-235 | A category has a group exactly when some skill has it, and the group is that category's filter. |
| SkillsMap.OfCategoryNonEmpty | src/app/components/skills-map/skills-map.component.ts:226-235 | A category's filter is non-empty exactly when some skill has it. |
| SkillsMap.GroupedIsFilter | src/app/components/skills-map/skills-map.component.ts:226-235 | The groups partition the skills: their keys are the used categories, and each group is that category's skills in table order. |
| SkillsMap.GroupByCategory | src/app/components/skills-map/skills-map.component.ts:226-235 | The reduce computes `Grouped`. |
| SkillsMap.RoundDiv | src/app/components/skills-map/skills-map.component.ts:182 | `Math.round(a / n)` is the integer nearest to `a / n`, with halves rounded up. |
| SkillsMap.Average | src/app/components/skills-map/skills-map.component.ts:176-183 | The average is 0 for no skills, and otherwise the rounded mean of the levels. |
| SkillsMap.SumLevels | src/app/components/skills-map/skills-map.component.ts:178-181 | Definition of the `reduce` sum of the levels. `SumBetween` bounds it and `AverageBetween` bounds the rounded mean. |
| SkillsMap.SumBetween | src/app/components/skills-map/skills-map.component.ts:178-181 | The sum of levels lies between `n * lo` and `n * hi`. |
| SkillsMap.RoundedAtMost | src/app/components/skills-map/skills-map.component.ts:182 | A rounded mean does not exceed an upper bound of the levels. |
| SkillsMap.RoundedAtLeast | src/app/components/skills-map/skills-map.component.ts:182 | A rounded mean is not below a lower bound of the levels. |
| SkillsMap.MinLevel | src/app/components/skills-map/skills-map.component.ts:176-183 | It is the lowest level of the list. |
| SkillsMap.MaxLevel | src/app/components/skills-map/skills-map.component.ts:176-183 | It is the highest level of the list. |
| SkillsMap.AverageBetween | src/app/components/skills-map/skills-map.component.ts:176-183 | The average of a non-empty list lies between its lowest and highest level. |
| SkillsMap.Truthy | src/app/components/skills-map/skills-map.component.ts:370 | Definition of JavaScript truthiness of a coordinate: defined and not zero. `HitTest` states that only such skills are hit. |
| SkillsMap.Hits | src/app/components/skills-map/skills-map.component.ts:369-376 | Definition of the press test: placed, and the point within 60 across and 25 up or down of the centre. `HitTest` and `HitTestAtCentre` state what the search finds. |
| SkillsMap.HitTest | src/app/components/skills-map/skills-map.component.ts:369-376 | `find` returns the first placed skill within 60 horizontally and 25 vertically of the point, or `None` when no skill is. |
| SkillsMap.HitTestAtCentre | src/app/components/skills-map/skills-map.component.ts:369-376 | A press on a placed skill's centre grabs that skill or an earlier one. |
| SkillsMap.Clamp | src/app/components/skills-map/skills-map.component.ts:405-406 | `max(lo, min(hi, v))` is at least `lo`, at most `hi` when `lo <= hi`, and is `v` inside the range. |
| SkillsMap.SkillsMapComponent.constructor | src/app/components/skills-map/skills-map.component.ts:158-169 | The initial fields: one node per row of the skills table, with its name, level and category and no coordinates; no filtered skills, the categories `All`, nothing hovered or dragged. |
| SkillsMap.SkillsMapComponent.TotalSkills | src/app/components/skills-map/skills-map.component.ts:172-174 | The count is every skill under `All`, and otherwise the number of skills of the selected category. |
| SkillsMap.SkillsMapComponent.AverageLevel | src/app/components/skills-map/skills-map.component.ts:176-183 | The average is 0 for no filtered skills, and otherwise their rounded mean, between their lowest and highest level. |
| SkillsMap.SkillsMapComponent.Init | src/app/components/skills-map/skills-map.component.ts:185-195 | Sets the categories list and selects `All` with every skill. The hover, drag, tooltip and drag offset stay as they were. |
| SkillsMap.SkillsMapComponent.PlaceSkill | src/app/components/skills-map/skills-map.component.ts:220-221 | The layout gives the skill its coordinates. |
| SkillsMap.SkillsMapComponent.FilterByCategory | src/app/components/skills-map/skills-map.component.ts:335-342 | Selects the category, after which the filtered list is `Selected`. The categories, hover, drag, tooltip and drag offset stay as they were. |
| SkillsMap.SkillsMapComponent.OnSkillHover | src/app/components/skills-map/skills-map.component.ts:344-352 | Ignored while dragging. Otherwise the skill is hovered, and a placed skill moves the tooltip to `(x + 20, y - 50)`. The filter, categories, drag and drag offset never change. |
| SkillsMap.SkillsMapComponent.OnSkillLeave | src/app/components/skills-map/skills-map.component.ts:354-358 | Ignored while dragging; otherwise nothing is hovered. The filter, categories, drag and drag offset never change. |
| SkillsMap.SkillsMapComponent.MouseDown | src/app/components/skills-map/skills-map.component.ts:363-387 | With no skill hit nothing changes. Otherwise the first skill hit is dragged with the grab offset, and the tooltip, categories and filter stay as they were. |
| SkillsMap.SkillsMapComponent.MouseMove | src/app/components/skills-map/skills-map.component.ts:389-413 | While dragging, the skill follows the pointer minus the offset, clamped 50 inside the container. |
| SkillsMap.SkillsMapComponent.EndDrag | src/app/components/skills-map/skills-map.component.ts:415-433 | Mouseup and mouseleave stop the drag and drop the dragged skill. The hover, tooltip and categories stay as they were. |
| Theme.PaletteOf | src/app/services/Theme.service.ts:31-70 | Every theme other than light, cyberpunk and matrix gets the dark palette. |
| Theme.PalettesDiffer | src/app/services/Theme.service.ts:31-70 | The four named themes have four different palettes. |
| Theme.Apply | src/app/services/Theme.service.ts:31-70 | `applyTheme` sets exactly the six variables, each to the palette's value for the theme: primary, secondary, dark and light backgrounds, primary and secondary text. Every other style property is kept. |
| Theme.ApplyDefaultsToDark | src/app/services/Theme.service.ts:62-69 | An unknown theme is styled exactly as dark. |
| Theme.ApplyOverrides | src/app/services/Theme.service.ts:31-70 | Applying a theme over an earlier one gives the same style as applying it alone. |
| Theme.IndexOf | src/app/services/Theme.service.ts:78 | `indexOf` returns the first position, or -1 exactly when the value is absent. |
| Theme.Next | src/app/services/Theme.service.ts:76-81 | The next theme is one of the four, and an unknown theme goes to dark. |
| Theme.NextCycles | src/app/services/Theme.service.ts:77-80 | The cycle runs dark, light, cyberpunk, matrix and back to dark. |
| Theme.FourTogglesReturn | src/app/services/Theme.service.ts:76-81 | Four toggles return to a named theme, and an unknown theme reaches the cycle at dark. |
| Theme.HourTheme | src/app/services/Theme.service.ts:20-21 | Definition: light exactly from 6 to 17 o'clock, dark otherwise. `HourRulesAgree` states that the root component's rule gives the same theme. |
| Theme.ThemeService.constructor | src/app/services/Theme.service.ts:13-23 | A non-empty stored preference wins; otherwise the hour decides. The choice is stored and applied. |
| Theme.ThemeService.SetTheme | src/app/services/Theme.service.ts:25-29 | The subject, the storage and the style all take the theme. |
| Theme.ThemeService.GetTheme | src/app/services/Theme.service.ts:72-74 | Returns the current theme. |
| Theme.ThemeService.ToggleTheme | src/app/services/Theme.service.ts:76-81 | Sets `Next` of the current theme. |
| App.Prefix | src/app/app.ts:136 | `substring(0, n)` clamps `n` to the string and returns that prefix. |
| App.TypeStep | src/app/app.ts:132-155 | One step keeps a valid typewriter state and moves the cursor by one. It asks for 2000 ms exactly when the line is complete, 50 while deleting and 150 while typing. After the last character is deleted, the next line starts. |
| App.Run | src/app/app.ts:132-157 | Any number of steps keeps a valid state. |
| App.TypesUp | src/app/app.ts:135-143 | Typing a line shows one more character per step, until the full line is shown and deleting begins. |
| App.DeletesDown | src/app/app.ts:144-152 | Deleting removes one character per step, and then the next line starts. |
| App.LineRound | src/app/app.ts:132-157 | A line takes twice its length in steps, then the next line begins, wrapping round. |
| App.SiteLines | src/app/app.ts:55-82 | The site's five lines are non-empty, and there are three banners. |
| App.DarkAtHour | src/app/app.ts:122-123 | Definition: dark exactly outside 6 to 17 o'clock. `HourRulesAgree` states that it agrees with the theme service's rule. |
| App.HourRulesAgree | src/app/app.ts:122-124 | The root component's hour rule and the theme service's agree on every hour. |
| App.AppComponent.constructor | src/app/app.ts:26-36 | The initial fields: dark, no matrix mode, no easter egg, the typewriter at its start. |
| App.AppComponent.InitializeTheme | src/app/app.ts:121-124 | The hour picks dark or light, and the theme service takes it: current, stored and applied. The typewriter, the banner, its index and the easter-egg flags stay as they were. |
| App.AppComponent.Type | src/app/app.ts:132-155 | One run of the closure; the state and the delay are `TypeStep`. |
| App.AppComponent.AsciiTick | src/app/app.ts:162-165 | Shows the current banner and moves to the next of the three. |
| App.AppComponent.ToggleTheme | src/app/app.ts:168-171 | Flips dark and light, and the theme service follows: current, stored and applied. The typewriter, the banner, its index and the easter-egg flags stay as they were. |
| App.AppComponent.OnSecretCode | src/app/app.ts:95-97 | The easter egg shows and matrix mode turns on. The typewriter, the banner, its index and the theme stay as they were. |
| App.AppComponent.EndMatrixMode | src/app/app.ts:98 | The five-second timeout turns matrix mode off. The easter egg, the typewriter, the banner, its index and the theme stay as they were. |
| GlitchText.Revealed | src/app/components/glitch-text/glitch-text.component.ts:47 | Definition of the reveal test on whole numbers: position `index` shows once `3 * index < ticks`. `RevealedMeans` relates it to the source's fractional iteration. |
| GlitchText.RevealedMeans | src/app/components/glitch-text/glitch-text.component.ts:40-62 | With the iteration taken as exactly `ticks / 3`, the source's `index < iteration` is `Revealed`. |
| GlitchText.Frame | src/app/components/glitch-text/glitch-text.component.ts:44-54 | A frame has the text's length, shows the text at revealed positions and a scramble character elsewhere. |
| GlitchText.RevealedCount | src/app/components/glitch-text/glitch-text.component.ts:47 | Position `k` is revealed exactly when `k` is below the ceiling of the iteration. |
| GlitchText.RevealGrows | src/app/components/glitch-text/glitch-text.component.ts:44-62 | The revealed prefix shows the text and never shrinks on later ticks. |
| GlitchText.FinalFrame | src/app/components/glitch-text/glitch-text.component.ts:56-60 | Once the iteration reaches the length, the frame is the text itself, whatever the random picks. |
| GlitchText.GlitchTextComponent.constructor | src/app/components/glitch-text/glitch-text.component.ts:17-21 | The inputs, and an empty display. |
| GlitchText.GlitchTextComponent.Init | src/app/components/glitch-text/glitch-text.component.ts:25-31 | Either starts the scramble of the text, or shows the text as it is. |
| GlitchText.GlitchTextComponent.Tick | src/app/components/glitch-text/glitch-text.component.ts:43-63 | Shows the frame for the tick and advances the iteration by a third. The interval stops exactly when the iteration had reached the length, and the text is then shown whole. |
| SocialLinks.StatusColor | src/app/components/social-links/social-links.component.ts:143-167 | Definition of the colour for each status: online, idle, dnd and streaming have their own, every other status and a missing one are grey. `StatusColorsDistinguish` states that different known statuses get different colours. |
| SocialLinks.StatusColorsDistinguish | src/app/components/social-links/social-links.component.ts:143-167 | An active status's colour is shared by no other status. |
| SocialLinks.Status | src/app/components/social-links/social-links.component.ts:143 | Definition of the optional chain `data.d?.discord_status`: missing when the payload has no `d`, otherwise `d.discord_status`. `StatusColorsDistinguish` states what the colour shows of it. |
| SocialLinks.Activities | src/app/components/social-links/social-links.component.ts:89 | Definition of `data.d?.activities || []`: the list when the payload has one, and empty otherwise. `OnPresence` stores it, and `NgOnInit` searches it for Spotify. |
| SocialLinks.FindIndex | src/app/components/social-links/social-links.component.ts:75-77 | `findIndex` gives the first activity with the name, or -1 exactly when none has it. |
| SocialLinks.SocialLinksComponent.constructor | src/app/components/social-links/social-links.component.ts:26-66 | The initial fields: no activities, online green, the form closed and empty. |
| SocialLinks.SocialLinksComponent.OnPresence | src/app/components/social-links/social-links.component.ts:86-168 | Sets the activities and the status colour of the payload. |
| SocialLinks.SocialLinksComponent.NgOnInit | src/app/components/social-links/social-links.component.ts:73-78 | Stores the index of the first Spotify activity in the list as it stands, or -1. On a freshly constructed component, which is when the site runs it, the list is empty and the index is -1. |
| SocialLinks.SocialLinksComponent.CloseModal | src/app/components/social-links/social-links.component.ts:176-180 | Only a click on the backdrop itself closes the modal. |
| SocialLinks.Complete | src/app/components/social-links/social-links.component.ts:185-191 | The send guard: all three fields are non-empty. `SendMessage` and `Sent` state its use. |
| SocialLinks.SocialLinksComponent.SendMessage | src/app/components/social-links/social-links.component.ts:182-193 | An incomplete form changes nothing; a complete one starts sending. |
| SocialLinks.SocialLinksComponent.Sent | src/app/components/social-links/social-links.component.ts:196-205 | Sending ends, the success note shows and the form is emptied. |
| SocialLinks.SocialLinksComponent.SuccessShown | src/app/components/social-links/social-links.component.ts:208-211 | The success note and the modal close. |

## Left out

- Drawing is not modelled: canvas paint, DOM styles, cursors, the body's `matrix-mode` class, the achievement pop-up and the sound. The model keeps the state they read.
- The three.js scene, the cursor service and the presence service's WebSocket are not part of this model.
- The timestamp subscriptions are not part of this model either.
- Timers and `requestAnimationFrame` are left out. Each callback is a method, called in whatever order the caller chooses. No ordering is proved across them, for instance that `Sent` precedes `SuccessShown`.
- The mouse-move animation frame, including cancelling it through `rafId`, is not modelled. `MouseMove` is the frame body.
- The loading bar in `initializeApp` is left out, because it is driven by `Math.random`.
- The terminal's welcome banner and its scroll-to-bottom are left out, because both are timed DOM effects.
- `date` is a parameter: `new Date().toString()` is the clock.
- Console logging is left out.
- Arcade.Particle: particles keep only their opacity and colour, because their motion is trigonometric on random angles.
- Arcade: coordinates are exact reals. JavaScript doubles round; the model does not.
- SkillsMap.SkillsMapComponent.PlaceSkill: it takes the coordinates as given. The circular layout in `positionSkills` uses `cos`, `sin` and `Math.random`.
- The skills' `connections`, their descriptions and the connection drawing are left out, because they only feed the canvas.
- SkillsMap.GroupByCategory: it uses a map. The source's plain-object `groups[category]` would throw for a category named like an `Object.prototype` member, such as `constructor`. None of the site's categories is one.
- Strings.ToLower: folds only the ASCII capitals A-Z. JavaScript's `toLowerCase` also folds other scripts.
- App.TypeStep: Dafny strings count Unicode characters, while JavaScript counts UTF-16 units. The cookie emoji in the fourth line is one step here and two in the browser, where one step shows half a surrogate pair.
- Terminal.TerminalComponent.ExecuteCommand: follows the intended lookup. As written, a first word of `constructor` or `__proto__` throws after the prompt line and the history entry and keeps the input line. That outcome is `Terminal.ExecuteAsWritten`, exhibited by `Terminal.ConstructorThrows`.
- SocialLinks.SocialLinksComponent.OnPresence: like the source, it never recomputes `spotifyActivityIndex`. `ngOnInit` awaits `getLanyardData()`, which returns nothing to wait for, so `NgOnInit` runs before any presence message and the index stays -1. The template that reads the index is not part of this model, so the model cannot tell whether the page depends on it.
- GlitchText.Frame: `split('')` works on UTF-16 units in the source; here it works on characters.
- GlitchText.GlitchTextComponent: the iteration `+= 1/3` is kept exactly as a tick count. The source's floating-point thirds are not modelled.
- Theme.ThemeService: the subject's observers and `localStorage` become fields: `current` and `stored`.
- Theme.ThemeService.constructor: takes the stored value and the hour as parameters, in place of storage and the clock.

## Findings

| source | as written | input that shows it | evidently intended | confidence | as-written member | corrected member |
|---|---|---|---|---|---|---|
| src/app/components/terminal/terminal.component.ts:176-177 | `this.commands[lowerCmd]` looks the name up on a plain object, so names inherited from `Object.prototype` count as commands. `.action()` then throws, after the prompt line and the history entry were added and before the input is cleared. | the command `constructor`, and likewise `__proto__`; these are the only all-lower-case `Object.prototype` members, and the lookup name is always lower-cased | only the table's own names are commands; everything else answers "Command not found" | not executed | Terminal.ConstructorThrows | Terminal.ExecuteUnknown |
