/** The image service: a URI-keyed cache of decoded images in front of fetching and decoding, and the
    geometry of thumbnails and of downscaling an image to fit a box. */
module ImageService {
  import opened Wrappers
  import opened EditorTypes
  import opened Numbers
  import ExportService

  // ---------------------------------------------------------------------------------------------
  // The image cache

  /** What fetching and decoding `uri` yields: an image, a decoder that returns null, or a throw (from
      the fetch, the body read or the decoder). */
  datatype FetchOutcome =
    | Decoded(image: Image)
    | DecodeFailed
    | Threw

  /** `loadImage(uri)` on the cache `cache`, with `outcome` the result of fetching and decoding should
      the cache miss: the image returned (None for null) and the new cache. */
  function Load(cache: map<string, Image>, uri: string, outcome: FetchOutcome): (Option<Image>, map<string, Image>) {
    if uri in cache then (Some(cache[uri]), cache)
    else match outcome
      case Decoded(image) => (Some(image), cache[uri := image])
      case DecodeFailed => (None, cache)
      case Threw => (None, cache)
  }

  /** A hit returns the cached image whatever fetching would have given, and keeps the cache. A miss
      that decodes returns the image and caches it under its URI, one entry more; a miss that fails
      returns null and keeps the cache. */
  lemma LoadCases(cache: map<string, Image>, uri: string, outcome: FetchOutcome)
    ensures uri in cache ==> Load(cache, uri, outcome) == (Some(cache[uri]), cache)
    ensures uri !in cache && outcome.Decoded? ==>
      var (r, next) := Load(cache, uri, outcome);
      r == Some(outcome.image) && next == cache[uri := outcome.image] && |next| == |cache| + 1
    ensures uri !in cache && !outcome.Decoded? ==> Load(cache, uri, outcome) == (None, cache)
    ensures forall other | other != uri && other in cache ::
      (other in Load(cache, uri, outcome).1 && Load(cache, uri, outcome).1[other] == cache[other])
  {
    if uri !in cache && outcome.Decoded? {
      assert cache[uri := outcome.image].Keys == cache.Keys + {uri};
    }
  }

  /** Once a load has returned an image, loading the same URI again returns that image from the cache,
      without fetching, and leaves the cache as it is. */
  lemma LoadTwice(cache: map<string, Image>, uri: string, first: FetchOutcome, second: FetchOutcome)
    requires Load(cache, uri, first).0.Some?
    ensures var (r, next) := Load(cache, uri, first);
      Load(next, uri, second) == (r, next)
  {
  }

  /** `imageCache`, the class's one static map. */
  class ImageCache {
    var entries: map<string, Image>

    constructor()
      ensures entries == map[]
    {
      entries := map[];
    }

    /** `loadImage(uri)` */
    method LoadImage(uri: string, outcome: FetchOutcome) returns (r: Option<Image>)
      modifies this
      ensures (r, entries) == Load(old(entries), uri, outcome)
    {
      if uri in entries {
        return Some(entries[uri]);
      }
      match outcome
      case Decoded(image) =>
        entries := entries[uri := image];
        return Some(image);
      case DecodeFailed =>
        return None;
      case Threw =>
        return None;
    }

    /** `clearCache()` */
    method ClearCache()
      modifies this
      ensures entries == map[]
    {
      entries := map[];
    }

    /** `getCacheSize()` */
    method GetCacheSize() returns (n: nat)
      ensures n == |entries|
    {
      n := |entries|;
    }
  }

  /** After `clearCache` every URI misses: the next load returns exactly what
      fetching gives and caches at most that one image. */
  lemma ClearedCacheMisses(uri: string, outcome: FetchOutcome)
    ensures Load(map[], uri, outcome).0 == (if outcome.Decoded? then Some(outcome.image) else None)
    ensures |Load(map[], uri, outcome).1| == (if outcome.Decoded? then 1 else 0)
  {
    LoadCases(map[], uri, outcome);
  }

  // ---------------------------------------------------------------------------------------------
  // Thumbnail and resize geometry

  /** A snapshot of a `width × height` surface onto which the whole image was drawn once, from the
      source rectangle `src` to the destination rectangle `dst`, with a default paint. */
  datatype Snapshot = Snapshot(width: real, height: real, src: ExportService.Rect, dst: ExportService.Rect)

  /** A decoded image has no empty side. */
  predicate HasArea(image: Image) {
    image.width > 0 && image.height > 0
  }

  /** `createThumbnail(image, size)`; `surfaceMade` says whether `Surface.Make(size, size)` gave a
      surface (None stands for null). */
  function Thumbnail(image: Image, size: real, surfaceMade: bool): Option<Snapshot>
    requires HasArea(image)
  {
    if !surfaceMade then None
    else
      var w := image.width as real;
      var h := image.height as real;
      var scale := Min(size / w, size / h);
      var scaledWidth := w * scale;
      var scaledHeight := h * scale;
      var x := (size - scaledWidth) / 2.0;
      var y := (size - scaledHeight) / 2.0;
      Some(Snapshot(size, size, ExportService.Rect(0.0, 0.0, w, h), ExportService.Rect(x, y, scaledWidth, scaledHeight)))
  }

  /** For a positive size the whole image is drawn into the `size × size` surface with its aspect
      ratio kept, touching two opposite edges, and centred. */
  lemma ThumbnailFits(image: Image, size: real)
    requires HasArea(image) && size > 0.0
    ensures Thumbnail(image, size, true).Some?
    ensures var t := Thumbnail(image, size, true).value;
      var w := image.width as real;
      var h := image.height as real;
      t.width == size && t.height == size
      && t.src == ExportService.Rect(0.0, 0.0, w, h)
      && 0.0 < t.dst.width <= size && 0.0 < t.dst.height <= size
      && (t.dst.width == size || t.dst.height == size)
      && t.dst.width * h == t.dst.height * w
      && 0.0 <= t.dst.x && 0.0 <= t.dst.y
      && t.dst.x + t.dst.width / 2.0 == size / 2.0 && t.dst.y + t.dst.height / 2.0 == size / 2.0
  {
    var w := image.width as real;
    var h := image.height as real;
    var t := Thumbnail(image, size, true).value;
    if size / w <= size / h {
      assert t.dst.width == w * (size / w) == size;
      assert t.dst.height == h * (size / w);
      assert h * (size / w) <= h * (size / h) == size;
    } else {
      assert t.dst.height == h * (size / h) == size;
      assert t.dst.width == w * (size / h);
      assert w * (size / h) <= w * (size / w) == size;
    }
  }

  /** `Math.round`: the nearest integer, halves rounding up. */
  function Round(x: real): (r: int)
    ensures x - 0.5 < r as real <= x + 0.5
  {
    (x + 0.5).Floor
  }

  /** `Math.round(length * scale)`: one side of a scaled image, in whole pixels. */
  function ScaledSide(length: nat, scale: real): int {
    Round(length as real * scale)
  }

  /** What `resizeImage` returns: the image itself, or a snapshot of it redrawn smaller. */
  datatype Resized = Original(image: Image) | Redrawn(snapshot: Snapshot)

  /** The scale that fits the image into `maxWidth × maxHeight`. */
  function FitScale(image: Image, maxWidth: real, maxHeight: real): real
    requires HasArea(image)
  {
    Min(maxWidth / image.width as real, maxHeight / image.height as real)
  }

  /** `resizeImage(image, maxWidth, maxHeight)`; `surfaceMade` says whether `Surface.Make` gave a
      surface of the new size. */
  function ResizeImage(image: Image, maxWidth: real, maxHeight: real, surfaceMade: bool): Option<Resized>
    requires HasArea(image)
  {
    var w := image.width as real;
    var h := image.height as real;
    var scale := FitScale(image, maxWidth, maxHeight);
    var newWidth := ScaledSide(image.width, scale);
    var newHeight := ScaledSide(image.height, scale);
    if scale >= 1.0 then Some(Original(image))
    else if !surfaceMade then None
    else Some(Redrawn(Snapshot(newWidth as real, newHeight as real, ExportService.Rect(0.0, 0.0, w, h),
                               ExportService.Rect(0.0, 0.0, newWidth as real, newHeight as real))))
  }

  /** One side of a downscale: a positive length scaled by less than one and by at most `max / len`
      rounds to at most the length and at most `max + 0.5`. */
  lemma ShrinkSide(len: nat, max: real, scale: real)
    requires len > 0 && scale <= max / len as real && scale < 1.0
    ensures ScaledSide(len, scale) <= len
    ensures ScaledSide(len, scale) as real <= max + 0.5
  {
    var a := len as real;
    assert a * (max / a) == max;
    assert a * scale <= max;
    assert a * scale < a;
  }

  /** The image comes back unchanged exactly when it already fits the box; otherwise the result is
      present exactly when a surface was made. */
  lemma ResizeOnlyWhenNeeded(image: Image, maxWidth: real, maxHeight: real, surfaceMade: bool)
    requires HasArea(image)
    ensures var r := ResizeImage(image, maxWidth, maxHeight, surfaceMade);
      (r == Some(Original(image))) <==> (image.width as real <= maxWidth && image.height as real <= maxHeight)
    ensures var r := ResizeImage(image, maxWidth, maxHeight, surfaceMade);
      !(image.width as real <= maxWidth && image.height as real <= maxHeight) ==> (surfaceMade <==> r.Some?)
  {
    var w := image.width as real;
    var h := image.height as real;
    assert maxWidth / w >= 1.0 <==> w <= maxWidth;
    assert maxHeight / h >= 1.0 <==> h <= maxHeight;
  }

  /** A redrawn image is drawn whole onto a surface of its size times the fit scale, each side rounded
      to whole pixels; neither side is larger than the original's, and up to rounding both fit the
      box. */
  lemma ResizeNeverUpscales(image: Image, maxWidth: real, maxHeight: real, surfaceMade: bool)
    requires HasArea(image)
    ensures var r := ResizeImage(image, maxWidth, maxHeight, surfaceMade);
      var w := image.width as real;
      var h := image.height as real;
      var scale := FitScale(image, maxWidth, maxHeight);
      r.Some? && r.value.Redrawn? ==>
        var s := r.value.snapshot;
        s.src == ExportService.Rect(0.0, 0.0, w, h)
        && s.dst == ExportService.Rect(0.0, 0.0, s.width, s.height)
        && s.width == ScaledSide(image.width, scale) as real && s.height == ScaledSide(image.height, scale) as real
        && s.width <= w && s.height <= h
        && s.width <= maxWidth + 0.5 && s.height <= maxHeight + 0.5
  {
    var w := image.width as real;
    var h := image.height as real;
    var scale := FitScale(image, maxWidth, maxHeight);
    if scale < 1.0 {
      ShrinkSide(image.width, maxWidth, scale);
      ShrinkSide(image.height, maxHeight, scale);
    }
  }
}
