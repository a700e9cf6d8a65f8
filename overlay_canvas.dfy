/** The fallback overlay: a canvas the size of the viewport that, on every
    animation frame, is covered with fresh noise and, while a flash is drawn,
    gets a lightning bolt and the creature picture on top. Frames, the flash
    reset timer, viewport resizes, the picture finishing its decode and the
    component's cleanup are the events; each is one method. */
module OverlayCanvas {
  import opened Common
  import opened StaticNoise
  import opened LightningBolt
  import opened CreatureImage
  import opened Flash

  /** One drawing call that leaves a mark on the canvas besides the noise fill,
      with the `globalAlpha` in force when it runs. */
  datatype DrawEvent =
    | StrokeBolt(alpha: real, bolt: Bolt)
    | BlitCreature(alpha: real, rect: Rect)

  /** The context's `globalAlpha` outside every `save`/`restore` pair: every
      frame restores what it changes, so a load handler draws at this alpha. */
  const DefaultAlpha: real := 1.0

  /** A canvas bitmap right after its size is set: every pixel transparent black. */
  function Blank(n: nat): (pixels: seq<bv32>)
    ensures |pixels| == n
    ensures forall i :: 0 <= i < n ==> pixels[i] == 0
  {
    seq(n, _ => 0)
  }

  class Renderer {
    /** The process-wide picture slot, shared with every other canvas. */
    const cache: ImageCache

    /** `canvas.width`, `canvas.height` and the bitmap, one word per pixel. */
    var width: nat
    var height: nat
    var pixels: seq<bv32>
    /** The CSS `opacity` of the canvas element, the `overlayAlpha` prop. */
    var opacity: real
    /** Every bolt stroke and picture draw so far, oldest first. */
    var draws: seq<DrawEvent>

    /** `lightningRef.current` and the effect's local `fade`. */
    var lightningActive: bool
    var fade: real
    /** The pending reset `setTimeout`, by its delay in milliseconds. */
    var resetTimer: Option<real>

    /** The effect's `running` flag, whether an animation frame is requested,
        and whether the window `resize` listener is registered. */
    var running: bool
    var frameRequested: bool
    var listening: bool

    ghost function State(): FlashState
      reads this
    {
      FlashState(lightningActive, fade)
    }

    /** `fade` stays in [0, 1]; a reset is pending exactly while a flash is
        active (only that timer ends a flash, and a flash only starts when none
        is active); the bitmap matches the canvas size; the frame loop and the
        resize listener are registered exactly while the effect runs. */
    ghost predicate Valid()
      reads this
    {
      FadeInRange(State())
      && (lightningActive <==> resetTimer.Some?)
      && (resetTimer.Some? ==> 60.0 <= resetTimer.value < 160.0)
      && |pixels| == width * height
      && frameRequested == running && listening == running
    }

    /** Mounting the component: with a canvas, `resize()` sizes it to the
        viewport (clearing it), the resize listener is added and the first frame
        is requested; without one the effect returns at once. */
    constructor Mount(hasCanvas: bool, viewportWidth: nat, viewportHeight: nat, opacity: real, cache: ImageCache)
      ensures Valid() && this.cache == cache && this.opacity == opacity
      ensures draws == [] && State() == Idle && resetTimer == None
      ensures running == hasCanvas
      ensures hasCanvas ==> width == viewportWidth && height == viewportHeight
      ensures hasCanvas ==> pixels == Blank(viewportWidth * viewportHeight)
    {
      this.cache := cache;
      this.opacity := opacity;
      draws := [];
      lightningActive := false;
      fade := 0.0;
      resetTimer := None;
      if hasCanvas {
        width, height := viewportWidth, viewportHeight;
        pixels := Blank(viewportWidth * viewportHeight);
      } else {
        width, height, pixels := 0, 0, [];
      }
      running := hasCanvas;
      frameRequested := hasCanvas;
      listening := hasCanvas;
    }

    /** One call of `animate`. A stopped canvas draws nothing and requests no
        further frame. A running one replaces every pixel with fresh noise
        (nothing of the previous frame survives); if a flash is drawn it strokes
        a bolt at the bolt's own alpha 0.95 and draws the creature at the current
        `fade` (or, before the picture is decoded, leaves that draw to the load
        handler), then decays `fade`; finally it rolls for a new flash, which
        sets `fade` to 1 and starts a reset timer of 60 to 160 ms. */
    method Frame(noise: seq<Roll>, boltRolls: BoltRolls, triggerRoll: Roll, resetRoll: Roll)
      requires Valid()
      requires |noise| == width * height && Supplied(boltRolls)
      modifies this, cache, cache.img
      ensures Valid()
      ensures width == old(width) && height == old(height) && opacity == old(opacity)
      ensures running == old(running)
      ensures !running ==> pixels == old(pixels) && draws == old(draws) && State() == old(State())
      ensures !running ==> resetTimer == old(resetTimer) && !frameRequested
      ensures old(cache.img) != null ==> cache.img == old(cache.img)
      ensures old(cache.img != null && cache.img.complete) ==> cache.img.complete
      ensures old(cache.img) == null && cache.img != null ==> fresh(cache.img)
      ensures !(running && Drawn(old(State()))) ==>
        cache.img == old(cache.img) && (old(cache.img) != null ==> unchanged(old(cache.img)))
      ensures running ==> pixels == NoiseFrame(noise)
      ensures running ==> State() == Tick(old(State()), triggerRoll)
      ensures running ==>
        resetTimer == if Triggers(old(State()), triggerRoll) then Some(ResetDelay(resetRoll)) else old(resetTimer)
      ensures !(running && Drawn(old(State()))) ==> draws == old(draws)
      ensures running && Drawn(old(State())) ==>
        |old(draws)| < |draws| && draws[..|old(draws)|] == old(draws)
        && draws[|old(draws)|].StrokeBolt? && draws[|old(draws)|].alpha == BoltAlpha
        && IsBolt(width, height, boltRolls, draws[|old(draws)|].bolt)
        && cache.img != null
        && (old(cache.img != null && cache.img.complete) ==>
              draws == old(draws) + [draws[|old(draws)|], BlitCreature(old(fade), CreatureRect(width, height))])
        && (!old(cache.img != null && cache.img.complete) ==>
              |draws| == |old(draws)| + 1 && !cache.img.complete
              && cache.img.onload == Some(CreatureRect(width, height)))
    {
      if !running {
        return;
      }
      var buffer := DrawStatic(width, height, noise);
      pixels := buffer[..];
      if lightningActive || fade > 0.0 {
        DrawFlash(boltRolls);
      }
      if !lightningActive && triggerRoll < TriggerChance {
        lightningActive := true;
        fade := 1.0;
        resetTimer := Some(ResetDelay(resetRoll));
      }
      // The next frame is requested again: frameRequested stays true.
    }

    /** The drawing branch of `animate`: the bolt at its own alpha, the creature
        at `fade` once the picture is decoded (until then the draw is left to
        the load handler, replacing any earlier one), then `fade` decays. */
    method DrawFlash(boltRolls: BoltRolls)
      requires Valid() && Supplied(boltRolls)
      modifies this`draws, this`fade, cache, cache.img
      ensures Valid()
      ensures fade == Decay(old(fade))
      ensures |old(draws)| < |draws| && draws[..|old(draws)|] == old(draws)
      ensures draws[|old(draws)|].StrokeBolt? && draws[|old(draws)|].alpha == BoltAlpha
      ensures IsBolt(width, height, boltRolls, draws[|old(draws)|].bolt)
      ensures cache.img != null
      ensures old(cache.img) != null ==> cache.img == old(cache.img)
      ensures old(cache.img != null && cache.img.complete) ==> unchanged(cache.img)
      ensures old(cache.img) == null ==> fresh(cache.img)
      ensures old(cache.img != null && cache.img.complete) ==>
        draws == old(draws) + [draws[|old(draws)|], BlitCreature(old(fade), CreatureRect(width, height))]
      ensures !old(cache.img != null && cache.img.complete) ==>
        |draws| == |old(draws)| + 1 && !cache.img.complete && cache.img.onload == Some(CreatureRect(width, height))
    {
      var bolt := DrawLightning(width, height, boltRolls);
      draws := draws + [StrokeBolt(BoltAlpha, bolt)];
      var img := cache.Get();
      var rect := CreatureRect(width, height);
      if img.complete {
        draws := draws + [BlitCreature(fade, rect)];
      } else {
        img.onload := Some(rect);
      }
      fade := Decay(fade);
    }

    /** The reset timer firing, whether or not the canvas still runs: the flash
        is no longer active and `fade` is left as it is. */
    method ResetTimerFires()
      requires Valid()
      modifies this`lightningActive, this`resetTimer
      ensures Valid()
      ensures State() == ResetFires(old(State())) && resetTimer == None
    {
      if resetTimer.Some? {
        lightningActive := false;
        resetTimer := None;
      }
    }

    /** A window `resize` event: while the listener is registered the canvas
        takes the viewport's size, which also clears its bitmap. */
    method Resize(viewportWidth: nat, viewportHeight: nat)
      requires Valid()
      modifies this`width, this`height, this`pixels
      ensures Valid()
      ensures listening ==> width == viewportWidth && height == viewportHeight
      ensures listening ==> pixels == Blank(viewportWidth * viewportHeight)
      ensures !listening ==> width == old(width) && height == old(height) && pixels == old(pixels)
    {
      if listening {
        width, height := viewportWidth, viewportHeight;
        pixels := Blank(viewportWidth * viewportHeight);
      }
    }

    /** The effect's cleanup: `running = false`, the requested frame cancelled
        and the resize listener removed. A pending reset timer is left to fire. */
    method Stop()
      requires Valid()
      modifies this`running, this`frameRequested, this`listening
      ensures Valid()
      ensures !running && !frameRequested && !listening
    {
      running := false;
      frameRequested := false;
      listening := false;
    }

    /** The picture finishing its decode: it becomes complete and the load
        handler, if a frame installed one, draws it into the rectangle of the
        last frame that asked, at the context's default alpha. */
    method CreatureLoaded()
      requires Valid()
      modifies this`draws, cache.img
      ensures Valid()
      ensures old(cache.img) != null ==> cache.img.complete
      ensures old(cache.img) != null && !old(cache.img.complete) && old(cache.img.onload).Some? ==>
        draws == old(draws) + [BlitCreature(DefaultAlpha, old(cache.img.onload).value)]
      ensures !(old(cache.img) != null && !old(cache.img.complete) && old(cache.img.onload).Some?) ==>
        draws == old(draws)
    {
      var img := cache.img;
      if img != null && !img.complete {
        img.complete := true;
        if img.onload.Some? {
          draws := draws + [BlitCreature(DefaultAlpha, img.onload.value)];
        }
      }
    }

    /** A new `overlayAlpha` prop: only the element's opacity changes; nothing is
        redrawn and the effect is not restarted. */
    method SetOpacity(alpha: real)
      requires Valid()
      modifies this`opacity
      ensures Valid() && opacity == alpha
    {
      opacity := alpha;
    }
  }

  /** A canvas mounted with an empty picture slot: a frame that starts a flash,
      a frame that draws it (building the picture and leaving the creature to
      the load handler), then the picture finishing its decode. The bolt is
      stroked at 0.95 and the creature is drawn at the default alpha into the
      centred rectangle. */
  method FlashThenPictureLoads(viewportWidth: nat, viewportHeight: nat, noise: seq<Roll>, boltRolls: BoltRolls, resetRoll: Roll)
      returns (r: Renderer)
    requires |noise| == viewportWidth * viewportHeight && Supplied(boltRolls)
    ensures |r.draws| == 2 && r.draws[0].StrokeBolt? && r.draws[0].alpha == BoltAlpha
    ensures r.draws[1] == BlitCreature(DefaultAlpha, CreatureRect(viewportWidth, viewportHeight))
  {
    var cache := new ImageCache();
    r := new Renderer.Mount(true, viewportWidth, viewportHeight, 1.0, cache);
    r.Frame(noise, boltRolls, 0.0, resetRoll);
    assert r.State() == FlashState(true, 1.0);
    r.Frame(noise, boltRolls, 0.5, resetRoll);
    r.CreatureLoaded();
  }

  /** After cleanup, frames delivered anyway draw nothing, and the canvas asks
      for no more of them. */
  method StoppedCanvasDrawsNothing(r: Renderer, noise: seq<Roll>, boltRolls: BoltRolls, roll: Roll)
    requires r.Valid() && Supplied(boltRolls)
    requires |noise| == r.width * r.height
    modifies r, r.cache, r.cache.img
    ensures r.draws == old(r.draws) && r.pixels == old(r.pixels)
    ensures !r.running && !r.frameRequested && !r.listening
  {
    r.Stop();
    r.Frame(noise, boltRolls, roll, roll);
    r.Frame(noise, boltRolls, roll, roll);
  }
}
