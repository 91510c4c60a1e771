/** What the sprite's operations promise, stated over the value model of
    module BirdSprite and proved for all states and key inputs. */
module BirdProperties {
  import opened Bounds
  import opened BirdSprite

  /** 1 when the key is held, 0 otherwise. */
  function Held(b: bool): int { if b then 1 else 0 }

  /** The vertical pixel move the held keys ask for: up is -10, down is +10. */
  function KeyMove(keys: KeyState): int { Speed * (Held(keys.down) - Held(keys.up)) }

  /** The table of key displacements adds up to "down minus up" vertically and
      nothing horizontally. */
  lemma {:induction false} NetDeltaIsDownMinusUp(keys: KeyState)
    ensures NetDelta(keys) == (0, Held(keys.down) - Held(keys.up))
  {
    assert Delta[..1] == [(Up, (0, -1))];
    assert Delta[..1][..0] == [];
    assert SumDeltas(keys, Delta[..1]) == (0, -Held(keys.up));
    assert Delta[..|Delta| - 1] == Delta[..1];
  }

  /** Movement is all or nothing: `update` leaves the rectangle moved by the
      held keys when that lands inside the playfield, and exactly where it was
      otherwise (never clamped to the edge), even when it was already outside. */
  lemma UpdateMovesAllOrNothing(s: BirdState, keys: KeyState)
    ensures var moved := s.rect.Move(0, KeyMove(keys));
            AfterUpdate(s, keys).rect == if InBounds(moved) then moved else s.rect
  {
    NetDeltaIsDownMinusUp(keys);
  }

  /** `update` never changes the column, width or height of the rectangle, and
      moves it vertically by -10, 0 or +10 pixels. */
  lemma UpdateKeepsColumnAndSize(s: BirdState, keys: KeyState)
    ensures var r := AfterUpdate(s, keys).rect;
            r.left == s.rect.left && r.width == s.rect.width && r.height == s.rect.height &&
            r.top - s.rect.top in {-Speed, 0, Speed}
  {
    UpdateMovesAllOrNothing(s, keys);
  }

  /** Holding both keys (or neither) leaves position and facing unchanged. */
  lemma UpdateBalancedKeysKeepPlace(s: BirdState, keys: KeyState)
    requires keys.up == keys.down
    ensures AfterUpdate(s, keys).rect == s.rect
    ensures AfterUpdate(s, keys).dire == s.dire
  {
    NetDeltaIsDownMinusUp(keys);
  }

  /** Facing: with exactly one key held the sprite turns up or down, whether or
      not the move was undone; otherwise it keeps its facing. */
  lemma UpdateFacing(s: BirdState, keys: KeyState)
    ensures keys.up != keys.down ==>
              AfterUpdate(s, keys).dire == (0, if keys.down then 1 else -1)
    ensures keys.up == keys.down ==> AfterUpdate(s, keys).dire == s.dire
  {
    NetDeltaIsDownMinusUp(keys);
  }

  /** The facing direction stays a key of the orientation-image table. */
  lemma UpdateKeepsImageKey(s: BirdState, keys: KeyState)
    requires s.dire in ImageKeys
    ensures AfterUpdate(s, keys).dire in ImageKeys
  {
    NetDeltaIsDownMinusUp(keys);
  }

  /** A rectangle inside the playfield stays inside it across `update`. */
  lemma UpdateKeepsInBounds(s: BirdState, keys: KeyState)
    requires InBounds(s.rect)
    ensures InBounds(AfterUpdate(s, keys).rect)
  {
  }

  /** After any `update` the mode is settled: a negative life means normal mode
      with life -1, hyper mode means a life of at least 0; normal mode never
      counts down and is never left. */
  lemma UpdateSettlesMode(s: BirdState, keys: KeyState)
    ensures var t := AfterUpdate(s, keys);
            (t.hyperLife < 0 ==> t.state == Normal && t.hyperLife == -1) &&
            (t.state == Hyper ==> t.hyperLife >= 0)
    ensures s.state == Normal ==>
              AfterUpdate(s, keys).state == Normal &&
              AfterUpdate(s, keys).hyperLife == if s.hyperLife < 0 then -1 else s.hyperLife
  {
  }

  /** Hyper mode with `n` life left is still hyper after up to `n` updates, with
      one life fewer per update, whatever keys are held. */
  lemma {:induction false} HyperCountdown(s: BirdState, inputs: seq<KeyState>)
    requires s.state == Hyper && |inputs| <= s.hyperLife
    ensures AfterUpdates(s, inputs).state == Hyper
    ensures AfterUpdates(s, inputs).hyperLife == s.hyperLife - |inputs|
  {
    if inputs != [] {
      HyperCountdown(s, inputs[..|inputs| - 1]);
    }
  }

  /** After `change_state(Hyper, n)` with n >= 0 the sprite is still hyper, with
      life 0, after n updates, and is back to normal, with life -1, on update
      n + 1. */
  lemma HyperExpiry(s: BirdState, n: int, inputs: seq<KeyState>)
    requires n >= 0 && |inputs| == n + 1
    ensures var h := AfterChangeState(s, Hyper, n);
            AfterUpdates(h, inputs[..n]).state == Hyper &&
            AfterUpdates(h, inputs[..n]).hyperLife == 0 &&
            AfterUpdates(h, inputs).state == Normal &&
            AfterUpdates(h, inputs).hyperLife == -1
  {
    var h := AfterChangeState(s, Hyper, n);
    HyperCountdown(h, inputs[..n]);
    assert inputs[..|inputs| - 1] == inputs[..n];
  }

  /** Without `change_state`, normal mode lasts forever. */
  lemma {:induction false} NormalIsAbsorbing(s: BirdState, inputs: seq<KeyState>)
    requires s.state == Normal
    ensures AfterUpdates(s, inputs).state == Normal
  {
    if inputs != [] {
      NormalIsAbsorbing(s, inputs[..|inputs| - 1]);
    }
  }

  /** Gravity moves the rectangle exactly three pixels down and touches nothing
      else; it can take a rectangle resting near the ground into the ground band. */
  lemma TickMoveFalls(s: BirdState)
    ensures var t := AfterTickMove(s);
            t.rect.top == s.rect.top + Gravity && t.rect.left == s.rect.left &&
            t.rect.width == s.rect.width && t.rect.height == s.rect.height &&
            t.dire == s.dire && t.state == s.state && t.hyperLife == s.hyperLife
    ensures s.rect.Bottom() > Height - GroundBand - Gravity ==> !InBounds(AfterTickMove(s).rect)
  {
  }

  /** A frame of the main loop changes the mode and facing exactly as `update`
      does: `tick_move` touches only the rectangle. */
  lemma {:induction false} FramesTrackUpdates(s: BirdState, inputs: seq<KeyState>)
    ensures AfterFrames(s, inputs).dire == AfterUpdates(s, inputs).dire
    ensures AfterFrames(s, inputs).state == AfterUpdates(s, inputs).state
    ensures AfterFrames(s, inputs).hyperLife == AfterUpdates(s, inputs).hyperLife
  {
    if inputs != [] {
      FramesTrackUpdates(s, inputs[..|inputs| - 1]);
    }
  }

  /** Along any run of frames from a state facing an image key, the facing
      stays an image key, so the `imgs` lookup never fails. */
  lemma {:induction false} FramesKeepImageKey(s: BirdState, inputs: seq<KeyState>)
    requires s.dire in ImageKeys
    ensures AfterFrames(s, inputs).dire in ImageKeys
  {
    if inputs != [] {
      var prev := AfterFrames(s, inputs[..|inputs| - 1]);
      FramesKeepImageKey(s, inputs[..|inputs| - 1]);
      UpdateKeepsImageKey(prev, inputs[|inputs| - 1]);
    }
  }

  /** With no key (or both keys) held, every frame lets the sprite fall three
      pixels: gravity is never stopped by the ground. */
  lemma {:induction false} IdleFramesFall(s: BirdState, inputs: seq<KeyState>)
    requires forall i :: 0 <= i < |inputs| ==> inputs[i].up == inputs[i].down
    ensures AfterFrames(s, inputs).rect == s.rect.Move(0, Gravity * |inputs|)
  {
    if inputs != [] {
      var prev := AfterFrames(s, inputs[..|inputs| - 1]);
      IdleFramesFall(s, inputs[..|inputs| - 1]);
      UpdateBalancedKeysKeepPlace(prev, inputs[|inputs| - 1]);
    }
  }

  /** Once the rectangle's bottom is more than one key move below the ground
      line, no key can bring it back: every move is undone and every frame it
      falls three more pixels. */
  lemma {:induction false} SunkSpriteFallsForever(s: BirdState, inputs: seq<KeyState>)
    requires s.rect.Bottom() > Height - GroundBand + Speed
    ensures AfterFrames(s, inputs).rect == s.rect.Move(0, Gravity * |inputs|)
  {
    if inputs != [] {
      var prev := AfterFrames(s, inputs[..|inputs| - 1]);
      SunkSpriteFallsForever(s, inputs[..|inputs| - 1]);
      UpdateMovesAllOrNothing(prev, inputs[|inputs| - 1]);
    }
  }
}
