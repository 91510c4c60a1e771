# Running bird ("走れこうかとん") — a Dafny model of the sprite core

The game is a small pygame demo: an 800 x 600 window with a 200-pixel ground
band at the bottom and one player sprite, the bird. Each frame the main loop
reads the key vector, calls the bird's `update` (move up or down by 10 pixels
per held key, undo the whole move if it leaves the playfield, turn towards the
move, count hyper mode down) and then `tick_move` (gravity: 3 pixels down, no
bounds check).

This project models that core:

- `bounds.dfy`, module `Bounds`: the screen constants, the integer rectangle
  that stands for a pygame `Rect`, and `check_bound` as the function
  `CheckBound`, with a lemma saying each verdict means "every covered pixel
  column (row) lies on the screen (above the ground band)".
- `bird.dfy`, module `BirdSprite`: the sprite's state as a value
  (`BirdState`), one function per operation (`AfterUpdate`, `AfterTickMove`,
  `AfterChangeState`, `AfterFrame`, and runs of them), and the class `Bird`
  whose methods update the fields in place, with the two loops over the key
  table that `update` has. Each method is proved to leave the fields equal to
  its function applied to the old fields.
- `bird_properties.dfy`, module `BirdProperties`: what `update` and
  `tick_move` promise, proved over those functions. This covers all-or-nothing
  movement, the fixed column and size, facing, the image-table keys, the hyper
  countdown and its exact expiry, and the ground not stopping gravity.
- `game.dfy`, module `Game`: the main loop over a finite sequence of key
  vectors. It starts the sprite at (200, 375) and counts frames in `tmr`.

The sprite's width and height come from an image file, so they are positive
parameters. The key vector is reduced to the two keys the sprite reads
(`KeyState(up, down)`). The mode string is the enum `Mode`, and the
orientation-image table is represented by its set of eight keys `ImageKeys`.
The source's `dire` is a pair of ints, and so is `Dir`.

`base.py` has empty section headings for obstacles, score and distance,
flying, invincibility, obstacle destruction and terrain generation
(base.py:117-135), and a commented-out key hook in the main loop
(base.py:153-154); none of these holds code, so none is modelled. Only the key
moves are bounds-checked: gravity is not, and it can carry the sprite into and
through the ground band (`TickMoveFalls`, `IdleFramesFall`,
`SunkSpriteFallsForever`).

## Model

| member | source | states |
|---|---|---|
| `Bounds.CheckBound` | base.py:13-24 | the horizontal verdict is false exactly when left < 0 or right > 800; the vertical verdict is false exactly when top < 0 or bottom > 600 - 200 |
| `Bounds.CheckBoundIsContainment` | base.py:19-24 | for a rectangle of positive size, the horizontal verdict holds iff every covered column is on screen, and the vertical verdict holds iff every covered row is above the ground band |
| `BirdSprite.Bird.constructor` | base.py:37-62 | the rect has the image's size and is centred at the given point (left = cx - w/2, top = cy - h/2); the bird faces (+1, 0), is in normal mode with hyper life -1 |
| `BirdSprite.Bird.ChangeState` | base.py:72-77 | sets the mode and hyper life and nothing else |
| `BirdSprite.Bird.TickMove` | base.py:78-82 | moves the rect 3 pixels down and changes nothing else |
| `BirdSprite.Bird.Update` | base.py:87-111 | the loop over the key table moves the rect, and the second loop undoes every move when the result is out of bounds; the new fields equal `AfterUpdate` of the old ones |
| `BirdSprite.Bird.GetDirection` | base.py:113-114 | returns the facing direction, which is always a key of the image table |
| `BirdSprite.Bird.Frame` | base.py:161-162 | one frame is `update` followed by `tick_move` |
| `Game.RunGame` | base.py:139-166 | starts the bird at (200, HEIGHT-225) and runs one frame per key vector; the final state is the frame function iterated from the start, and `tmr` equals the number of frames |
| `BirdProperties.NetDeltaIsDownMinusUp` | base.py:93-98 | the summed key deltas `sum_mv` are (0, down - up) |
| `BirdProperties.UpdateMovesAllOrNothing` | base.py:93-102 | after `update` the rect is moved by 10*(down - up) if that move lands in bounds; otherwise it is exactly the old rect, never clamped, even when the old rect was already out of bounds |
| `BirdProperties.UpdateKeepsColumnAndSize` | base.py:93-102 | `update` never changes left, width or height, and moves top by -10, 0 or +10 |
| `BirdProperties.UpdateBalancedKeysKeepPlace` | base.py:93-105 | with both keys or neither held, position and facing are unchanged |
| `BirdProperties.UpdateFacing` | base.py:103-105 | with exactly one key held the facing becomes (0, -1) or (0, +1), even when the move was undone; otherwise it is unchanged |
| `BirdProperties.UpdateKeepsImageKey` | base.py:103-105 | a facing that is a key of `imgs` stays one across `update`, so the lookup `imgs[dire]` cannot fail |
| `BirdProperties.UpdateKeepsInBounds` | base.py:99-102 | a rect inside the playfield is still inside after `update` |
| `BirdProperties.UpdateSettlesMode` | base.py:106-110 | after `update`, a negative life means normal mode with life -1, and hyper mode means life >= 0; normal mode stays normal and its life is not decremented (a negative one is reset to -1) |
| `BirdProperties.HyperCountdown` | base.py:106-110 | hyper mode with life n stays hyper for up to n updates, losing one life per update, whatever keys are held |
| `BirdProperties.HyperExpiry` | base.py:72-110 | after `change_state("hyper", n)` with n >= 0, the bird is hyper with life 0 after n updates and normal with life -1 after n + 1 |
| `BirdProperties.NormalIsAbsorbing` | base.py:106-110 | without `change_state`, normal mode is never left |
| `BirdProperties.TickMoveFalls` | base.py:78-82 | gravity increases top by exactly 3 (moves the sprite 3 pixels down the screen) and changes nothing else; a rect whose bottom is within 3 pixels of the ground line leaves the playfield |
| `BirdProperties.FramesTrackUpdates` | base.py:161-162 | over any run of frames, facing, mode and life evolve exactly as under `update` alone |
| `BirdProperties.FramesKeepImageKey` | base.py:150-166 | along any run of frames the facing stays a key of `imgs` |
| `BirdProperties.IdleFramesFall` | base.py:150-166 | with no key (or both keys) held, k frames move the rect exactly 3k pixels down, through the ground band |
| `BirdProperties.SunkSpriteFallsForever` | base.py:150-166 | once the bottom is more than 10 pixels below the ground line, every key move is undone and k frames move the rect exactly 3k pixels down |

## Left out

- Images: loading, `rotozoom`, `flip`, the `laplacian` filter applied in hyper mode, `change_img` and every `blit`. These are pygame calls on pixel data. Only the key of the chosen image is modelled, as the facing direction and the mode.
- The constructor's image-file number `num`. The image's size appears as the constructor's `width` and `height` parameters.
- The event loop, `QUIT` handling, `clock.tick` pacing, `pg.init`, `pg.display` and process exit. These are platform input/output. The endless `while True` loop is modelled over the finite sequence of key vectors read before the window is closed.
- Mode strings other than "normal" and "hyper". `change_state` accepts any string and `update` treats every string except "hyper" like "normal". The model has only the two values the program uses.
- The empty sections of `base.py` (obstacles, score and distance, flying, invincibility, obstacle destruction, terrain generation; base.py:117-135) and the commented-out key hook (base.py:153-154). They contain no code to model. Jumping, collectibles and projectiles appear nowhere in `base.py`.
- Integer width: the rectangle's `left`, `top`, `width` and `height` live in a pygame `Rect`, which stores them as fixed-width C ints. The model uses unbounded integers and so assumes the coordinates stay inside that range; what pygame does once a coordinate passes it is not modelled. Only gravity can push a coordinate that far: `top` grows by 3 every frame with no bound (base.py:82, base.py:162), so it passes the 32-bit limit after about 7.2 * 10^8 frames.
- IdleFramesFall: "k frames move the rect exactly 3k pixels down" holds for every k only under the unbounded-integer assumption above; in pygame it holds while `top` stays inside the C int range.
- SunkSpriteFallsForever: likewise holds for every k only under the unbounded-integer assumption; in pygame it holds while `top` stays inside the C int range.
