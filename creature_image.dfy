/** The creature picture composited during a flash: where it goes on the
    canvas, and the image object that is built once and shared by every
    canvas (`getCreatureImg`). */
module CreatureImage {
  import opened Common

  /** The picture's intrinsic size; only its aspect ratio matters here. */
  const ImageWidth: real := 120.0
  const ImageHeight: real := 140.0
  const Aspect: real := ImageWidth / ImageHeight

  /** The share of the canvas's smaller side the picture is scaled to. */
  const ScaleFactor: real := 0.66

  /** A destination rectangle for `drawImage`: top-left corner and size. */
  datatype Rect = Rect(x: real, y: real, w: real, h: real)

  /** The rectangle the creature is drawn into on a `width` by `height` canvas:
      its 120:140 shape kept, centred, and inside the canvas. On a landscape or
      square canvas its height is 66% of the canvas height; on a portrait one its
      width is 66% of the canvas width. */
  function CreatureRect(width: nat, height: nat): (r: Rect)
    ensures r.w * ImageHeight == r.h * ImageWidth
    ensures 2.0 * r.x + r.w == width as real && 2.0 * r.y + r.h == height as real
    ensures 0.0 <= r.x && 0.0 <= r.y && 0.0 <= r.w && 0.0 <= r.h
    ensures width >= height ==> r.h == ScaleFactor * height as real
    ensures width < height ==> r.w == ScaleFactor * width as real
  {
    var W, H := width as real, height as real;
    var scale := ScaleFactor * Min(W, H);
    var w := if width < height then scale else scale * Aspect;
    var h := if width < height then scale / Aspect else scale;
    Rect((W - w) / 2.0, (H - h) / 2.0, w, h)
  }

  /** On a 1000 by 1000 canvas the picture is 660 high and 660 * 120 / 140 wide. */
  lemma SquareCanvasRect()
    ensures CreatureRect(1000, 1000) == Rect(1520.0 / 7.0, 170.0, 3960.0 / 7.0, 660.0)
  {
  }

  /** The image element. `complete` says whether the picture has been decoded;
      `onload` holds the rectangle of the draw its load handler will perform,
      if a handler has been installed. */
  class Image {
    var complete: bool
    var onload: Option<Rect>

    /** `new Image()` with its source set: not yet decoded, no handler. */
    constructor ()
      ensures !complete && onload == None
    {
      complete := false;
      onload := None;
    }
  }

  /** The module-level `creatureImg` slot. */
  class ImageCache {
    var img: Image?

    /** The slot as the module is loaded: empty. */
    constructor ()
      ensures img == null
    {
      img := null;
    }

    /** `getCreatureImg`: the cached image if there is one, otherwise a new
        undecoded image that is stored for every later call. */
    method Get() returns (image: Image)
      modifies this
      ensures img == image
      ensures old(img) != null ==> image == old(img)
      ensures old(img) == null ==> fresh(image) && !image.complete && image.onload == None
    {
      if img != null {
        return img;
      }
      image := new Image();
      img := image;
    }
  }

  /** However the slot starts, a second lookup returns the very object the
      first one returned, and an image already cached is never replaced: the
      picture is built at most once. */
  method RepeatedLookupsShareOneImage(cache: ImageCache) returns (first: Image, second: Image)
    modifies cache
    ensures first == second && cache.img == first
    ensures old(cache.img) != null ==> first == old(cache.img)
  {
    first := cache.Get();
    second := cache.Get();
  }
}
