/** The player sprite (`Bird`): a value model of its state with one function
    per operation, and the class whose methods update that state in place and
    are proved to follow those functions. */
module BirdSprite {
  import opened Bounds

  /** A facing direction / displacement vector (x, y). */
  type Dir = (int, int)

  /** The sprite's mode (`state`, "normal" or "hyper"). */
  datatype Mode = Normal | Hyper

  /** The two keys the sprite reads from the key vector. */
  datatype Key = Up | Down

  /** The pressed state of the keys the sprite reads, one frame's worth. */
  datatype KeyState = KeyState(up: bool, down: bool) {
    predicate Pressed(k: Key) {
      match k
      case Up => up
      case Down => down
    }
  }

  /** `Bird.delta`: key and unit displacement, in the table's iteration order. */
  const Delta: seq<(Key, Dir)> := [(Up, (0, -1)), (Down, (0, 1))]

  /** The keys of the sprite's orientation-image table `imgs`. */
  const ImageKeys: set<Dir> := {(1, 0), (1, -1), (0, -1), (-1, -1), (-1, 0), (-1, 1), (0, 1), (1, 1)}

  /** Pixels moved per pressed key (`speed`). */
  const Speed: int := 10

  /** Pixels moved down by one gravity step (`tick_move`). */
  const Gravity: int := 3

  /** Sum of the displacements of the pressed keys among the entries of `table`. */
  function SumDeltas(keys: KeyState, table: seq<(Key, Dir)>): Dir
  {
    if table == [] then (0, 0)
    else
      var prev := SumDeltas(keys, table[..|table| - 1]);
      var (k, mv) := table[|table| - 1];
      if keys.Pressed(k) then (prev.0 + mv.0, prev.1 + mv.1) else prev
  }

  /** The net key displacement of a frame (`sum_mv`). */
  function NetDelta(keys: KeyState): Dir
  {
    SumDeltas(keys, Delta)
  }

  /** `r` displaced by `speed` times `d`. */
  function Shift(r: Rect, speed: int, d: Dir): Rect
  {
    r.Move(speed * d.0, speed * d.1)
  }

  /** Everything about the sprite that its methods read or write. */
  datatype BirdState = BirdState(rect: Rect, dire: Dir, state: Mode, hyperLife: int)

  /** The state `__init__` sets up for an image of the given size centred at `center`. */
  function Initial(width: int, height: int, center: (int, int)): BirdState
  {
    BirdState(Rect(center.0 - width / 2, center.1 - height / 2, width, height), (1, 0), Normal, -1)
  }

  /** The state after `change_state(state, life)`. */
  function AfterChangeState(s: BirdState, state: Mode, life: int): BirdState
  {
    s.(state := state, hyperLife := life)
  }

  /** The state after `tick_move()`. */
  function AfterTickMove(s: BirdState): BirdState
  {
    s.(rect := s.rect.Move(0, Gravity))
  }

  /** The state after `update(keys)`: the frame's net move is kept when it lands
      in bounds and undone otherwise; a nonzero net move becomes the facing
      direction; hyper mode counts down and falls back to normal below zero. */
  function AfterUpdate(s: BirdState, keys: KeyState): BirdState
  {
    var net := NetDelta(keys);
    var moved := Shift(s.rect, Speed, net);
    var life := if s.state == Hyper then s.hyperLife - 1 else s.hyperLife;
    BirdState(
      if InBounds(moved) then moved else s.rect,
      if net != (0, 0) then net else s.dire,
      if life < 0 then Normal else s.state,
      if life < 0 then -1 else life)
  }

  /** One frame of the main loop: `update(keys)` followed by `tick_move()`. */
  function AfterFrame(s: BirdState, keys: KeyState): BirdState
  {
    AfterTickMove(AfterUpdate(s, keys))
  }

  /** The state after one `update` per element of `inputs`, in order. */
  function AfterUpdates(s: BirdState, inputs: seq<KeyState>): BirdState
  {
    if inputs == [] then s
    else AfterUpdate(AfterUpdates(s, inputs[..|inputs| - 1]), inputs[|inputs| - 1])
  }

  /** The state after one frame per element of `inputs`, in order. */
  function AfterFrames(s: BirdState, inputs: seq<KeyState>): BirdState
  {
    if inputs == [] then s
    else AfterFrame(AfterFrames(s, inputs[..|inputs| - 1]), inputs[|inputs| - 1])
  }

  /** The player sprite. */
  class Bird {
    var rect: Rect
    var dire: Dir
    const speed: int := Speed
    var state: Mode
    var hyperLife: int

    /** The sprite's state as a value. */
    function Model(): BirdState
      reads this
    {
      BirdState(rect, dire, state, hyperLife)
    }

    /** The image has a positive size and the facing direction is a key of `imgs`. */
    ghost predicate Valid()
      reads this
    {
      rect.width > 0 && rect.height > 0 && dire in ImageKeys
    }

    /** `__init__`: an image of `width` x `height` pixels centred at `center`,
        facing right, in normal mode. */
    constructor (width: int, height: int, center: (int, int))
      requires width > 0 && height > 0
      ensures Valid() && Model() == Initial(width, height, center)
    {
      rect := Rect(center.0 - width / 2, center.1 - height / 2, width, height);
      dire := (1, 0);
      state := Normal;
      hyperLife := -1;
    }

    /** `change_state`: set the mode and the remaining hyper life. */
    method ChangeState(state: Mode, life: int)
      requires Valid()
      modifies this
      ensures Valid()
      ensures Model() == AfterChangeState(old(Model()), state, life)
    {
      this.state := state;
      hyperLife := life;
    }

    /** `tick_move`: gravity, three pixels down, with no bounds check. */
    method TickMove()
      requires Valid()
      modifies this
      ensures Valid()
      ensures Model() == AfterTickMove(old(Model()))
    {
      rect := rect.Move(0, Gravity);
    }

    /** `update`: move by every pressed key, undo all of it if the result is out
        of bounds, turn towards a nonzero net move, and count hyper mode down. */
    method Update(keys: KeyState)
      requires Valid()
      modifies this
      ensures Valid()
      ensures Model() == AfterUpdate(old(Model()), keys)
    {
      var sumMv: Dir := (0, 0);
      for i := 0 to |Delta|
        invariant sumMv == SumDeltas(keys, Delta[..i])
        invariant rect == Shift(old(rect), speed, sumMv)
        invariant dire == old(dire) && state == old(state) && hyperLife == old(hyperLife)
      {
        var (k, mv) := Delta[i];
        if keys.Pressed(k) {
          rect := rect.Move(speed * mv.0, speed * mv.1);
          sumMv := (sumMv.0 + mv.0, sumMv.1 + mv.1);
        }
        assert Delta[..i + 1][..i] == Delta[..i];
      }
      assert Delta[..|Delta|] == Delta;
      if CheckBound(rect) != (true, true) {
        ghost var moved := rect;
        for i := 0 to |Delta|
          invariant rect == Shift(moved, -speed, SumDeltas(keys, Delta[..i]))
          invariant dire == old(dire) && state == old(state) && hyperLife == old(hyperLife)
        {
          var (k, mv) := Delta[i];
          if keys.Pressed(k) {
            rect := rect.Move(-speed * mv.0, -speed * mv.1);
          }
          assert Delta[..i + 1][..i] == Delta[..i];
        }
        assert Delta[..|Delta|] == Delta;
      }
      if !(sumMv.0 == 0 && sumMv.1 == 0) {
        // the lookup `imgs[dire]` cannot fail: only up and down moves exist
        assert sumMv in ImageKeys;
        dire := sumMv;
      }
      if state == Hyper {
        hyperLife := hyperLife - 1;
      }
      if hyperLife < 0 {
        ChangeState(Normal, -1);
      }
    }

    /** `get_direction`: the facing direction, always a key of `imgs`. */
    method GetDirection() returns (d: Dir)
      requires Valid()
      ensures d == dire && d in ImageKeys
    {
      d := dire;
    }

    /** One frame of the main loop: `update(keys)` then `tick_move()`. */
    method Frame(keys: KeyState)
      requires Valid()
      modifies this
      ensures Valid()
      ensures Model() == AfterFrame(old(Model()), keys)
    {
      Update(keys);
      TickMove();
    }
  }
}
