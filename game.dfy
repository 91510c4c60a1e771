/** The main loop of the game, reduced to what it does to the sprite: one
    `update` and one gravity step per frame, with a frame counter. */
module Game {
  import opened Bounds
  import opened BirdSprite

  /** Where `main` centres the sprite: x 200, 225 pixels above the bottom. */
  const Start: (int, int) := (200, Height - 225)

  /** `main`: create the sprite from an image of `width` x `height` pixels and
      run one frame per element of `inputs` (the key vectors read before the
      window is closed). The sprite ends in the state the frame function
      reaches from the start state, and `tmr` counts the frames. */
  method RunGame(width: int, height: int, inputs: seq<KeyState>) returns (bird: Bird, tmr: nat)
    requires width > 0 && height > 0
    ensures fresh(bird) && bird.Valid()
    ensures bird.Model() == AfterFrames(Initial(width, height, Start), inputs)
    ensures tmr == |inputs|
  {
    bird := new Bird(width, height, Start);
    tmr := 0;
    while tmr < |inputs|
      invariant tmr <= |inputs|
      invariant bird.Valid()
      invariant bird.Model() == AfterFrames(Initial(width, height, Start), inputs[..tmr])
    {
      bird.Update(inputs[tmr]);
      bird.TickMove();
      assert inputs[..tmr + 1][..tmr] == inputs[..tmr];
      tmr := tmr + 1;
    }
    assert inputs[..tmr] == inputs;
  }
}
