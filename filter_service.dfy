/** The colour-filter registry, its shader kernels over real-valued colours, and the get-or-compile
    cache of runtime effects. */
module FilterService {
  import opened Wrappers
  import opened Seqs
  import T = EditorTypes

  /** The keys of `FILTER_SHADERS`, in declaration order. */
  datatype Shader = Vintage | Bw | Vibrant | Cool | Warm | Dramatic {
    function Name(): string {
      match this
      case Vintage => "vintage"
      case Bw => "bw"
      case Vibrant => "vibrant"
      case Cool => "cool"
      case Warm => "warm"
      case Dramatic => "dramatic"
    }
  }

  const REGISTRY: seq<Shader> := [Vintage, Bw, Vibrant, Cool, Warm, Dramatic]

  function ShaderName(sh: Shader): string {
    sh.Name()
  }

  /** `getAvailableFilters()`: `Object.keys(FILTER_SHADERS)`. */
  function GetAvailableFilters(): (r: seq<string>)
    ensures |r| == |REGISTRY| && forall i | 0 <= i < |REGISTRY| :: r[i] == REGISTRY[i].Name()
  {
    Map(REGISTRY, ShaderName)
  }

  lemma AvailableFiltersList()
    ensures GetAvailableFilters() == ["vintage", "bw", "vibrant", "cool", "warm", "dramatic"]
    ensures "none" !in GetAvailableFilters()
  {
    var r := GetAvailableFilters();
    assert r[0] == "vintage" && r[1] == "bw" && r[2] == "vibrant";
    assert r[3] == "cool" && r[4] == "warm" && r[5] == "dramatic";
  }

  /** `FILTER_SHADERS[name]`: the shader registered under a name, if any. */
  function ShaderSource(name: string): (r: Option<Shader>)
    ensures r.Some? <==> name in GetAvailableFilters()
    ensures r.Some? ==> r.value.Name() == name
  {
    AvailableFiltersList();
    if name == "vintage" then Some(Vintage)
    else if name == "bw" then Some(Bw)
    else if name == "vibrant" then Some(Vibrant)
    else if name == "cool" then Some(Cool)
    else if name == "warm" then Some(Warm)
    else if name == "dramatic" then Some(Dramatic)
    else None
  }

  datatype Rgb = Rgb(r: real, g: real, b: real)

  datatype Rgba = Rgba(rgb: Rgb, a: real)

  /** GLSL `mix(x, y, t) = x·(1 − t) + y·t` */
  function Mix(x: real, y: real, t: real): real {
    x * (1.0 - t) + y * t
  }

  function MixRgb(x: Rgb, y: Rgb, t: real): Rgb {
    Rgb(Mix(x.r, y.r, t), Mix(x.g, y.g, t), Mix(x.b, y.b, t))
  }

  function Splat(v: real): Rgb {
    Rgb(v, v, v)
  }

  /** `dot(c, vec3(0.299, 0.587, 0.114))` */
  function Luma(c: Rgb): real {
    c.r * 0.299 + c.g * 0.587 + c.b * 0.114
  }

  /** `(c − 0.5)·k + 0.5` per channel. */
  function Contrast(c: Rgb, k: real): Rgb {
    Rgb((c.r - 0.5) * k + 0.5, (c.g - 0.5) * k + 0.5, (c.b - 0.5) * k + 0.5)
  }

  function Tint(c: Rgb, kr: real, kg: real, kb: real): Rgb {
    Rgb(c.r * kr, c.g * kg, c.b * kb)
  }

  function Sepia(c: Rgb): Rgb {
    Rgb(c.r * 0.393 + c.g * 0.769 + c.b * 0.189,
        c.r * 0.349 + c.g * 0.686 + c.b * 0.168,
        c.r * 0.272 + c.g * 0.534 + c.b * 0.131)
  }

  /** The fully applied effect of each shader on a colour. */
  function Effect(sh: Shader, c: Rgb): Rgb {
    match sh
    case Vintage =>
      var warm := Tint(Contrast(c, 1.15), 1.1, 1.05, 0.9);
      var muted := MixRgb(Splat(Luma(warm)), warm, 0.7);
      MixRgb(muted, Sepia(muted), 0.3)
    case Bw => Splat(Luma(c))
    case Vibrant => Contrast(MixRgb(Splat(Luma(c)), c, 1.5), 1.2)
    case Cool => Tint(c, 0.9, 0.95, 1.1)
    case Warm => Tint(c, 1.1, 1.05, 0.9)
    case Dramatic =>
      var d := Contrast(c, 1.8);
      MixRgb(Splat(Luma(d)), d, 0.8)
  }

  /** A shader's `main`: `vec4(mix(color.rgb, effect, intensity), color.a)`. */
  function Kernel(sh: Shader, color: Rgba, intensity: real): (r: Rgba)
    ensures r.a == color.a
    ensures intensity == 0.0 ==> r.rgb == color.rgb
    ensures intensity == 1.0 ==> r.rgb == Effect(sh, color.rgb)
  {
    Rgba(MixRgb(color.rgb, Effect(sh, color.rgb), intensity), color.a)
  }

  /** For an intensity in [0, 1] each output channel lies between the original and the full effect. */
  lemma KernelBetween(sh: Shader, color: Rgba, intensity: real)
    requires 0.0 <= intensity <= 1.0
    ensures var o, e, r := color.rgb, Effect(sh, color.rgb), Kernel(sh, color, intensity).rgb;
      Between(r.r, o.r, e.r) && Between(r.g, o.g, e.g) && Between(r.b, o.b, e.b)
  {
    var o, e := color.rgb, Effect(sh, color.rgb);
    MixBetween(o.r, e.r, intensity);
    MixBetween(o.g, e.g, intensity);
    MixBetween(o.b, e.b, intensity);
  }

  predicate Between(v: real, x: real, y: real) {
    (x <= v <= y) || (y <= v <= x)
  }

  lemma MixBetween(x: real, y: real, t: real)
    requires 0.0 <= t <= 1.0
    ensures Between(Mix(x, y, t), x, y)
  {
    assert Mix(x, y, t) == x + (y - x) * t;
    if x <= y {
      MulNonneg(y - x, t);
      MulNonneg(y - x, 1.0 - t);
    } else {
      MulNonneg(x - y, t);
      MulNonneg(x - y, 1.0 - t);
    }
  }

  lemma MulNonneg(a: real, b: real)
    requires 0.0 <= a && 0.0 <= b
    ensures 0.0 <= a * b
  {
  }

  /** Black-and-white at full intensity gives equal channels: the luma. */
  lemma BwIsGray(color: Rgba)
    ensures var r := Kernel(Bw, color, 1.0).rgb; r.r == r.g == r.b == Luma(color.rgb)
  {
  }

  /** A gray input stays gray under the black-and-white shader at any intensity. */
  lemma BwFixesGray(v: real, a: real, intensity: real)
    ensures Kernel(Bw, Rgba(Splat(v), a), intensity) == Rgba(Splat(v), a)
  {
    assert Luma(Splat(v)) == v;
  }

  /** A compiled runtime effect (`Skia.RuntimeEffect.Make`), opaque except for its source shader. */
  datatype RuntimeEffect = RuntimeEffect(shader: Shader, handle: nat)

  /** What `Skia.RuntimeEffect.Make` does on a given call. */
  datatype CompileOutcome = Compiled(handle: nat) | CompiledNull | CompileThrows

  /** The result of `getFilterEffect` and the cache after it. */
  datatype Lookup = Lookup(effect: Option<RuntimeEffect>, cache: map<string, RuntimeEffect>)

  /** Every cached entry was compiled from the shader registered under its key. */
  predicate CacheWf(cache: map<string, RuntimeEffect>) {
    forall k | k in cache :: ShaderSource(k) == Some(cache[k].shader)
  }

  /** `getFilterEffect(name)`. */
  function EffectLookup(cache: map<string, RuntimeEffect>, name: string, outcome: CompileOutcome): (r: Lookup)
    ensures name in cache ==> r == Lookup(Some(cache[name]), cache)
    ensures name !in cache && ShaderSource(name).None? ==> r == Lookup(None, cache)
    ensures name !in cache && !outcome.Compiled? ==> r == Lookup(None, cache)
    ensures r.effect.Some? ==> name in r.cache && r.cache[name] == r.effect.value
    ensures r.cache.Keys >= cache.Keys && forall k | k in cache :: r.cache[k] == cache[k]
    ensures r.cache.Keys <= cache.Keys + {name}
    ensures CacheWf(cache) ==> CacheWf(r.cache) && (r.effect.Some? ==> Some(r.effect.value.shader) == ShaderSource(name))
  {
    if name in cache then Lookup(Some(cache[name]), cache)
    else match ShaderSource(name)
      case None => Lookup(None, cache)
      case Some(sh) =>
        match outcome
        case Compiled(h) => Lookup(Some(RuntimeEffect(sh, h)), cache[name := RuntimeEffect(sh, h)])
        case CompiledNull => Lookup(None, cache)
        case CompileThrows => Lookup(None, cache)
  }

  /** Once compiled, an effect is served from the cache whatever a further compile would do. */
  lemma SecondLookupHits(cache: map<string, RuntimeEffect>, name: string, first: CompileOutcome, second: CompileOutcome)
    ensures var l1 := EffectLookup(cache, name, first);
      l1.effect.Some? ==> EffectLookup(l1.cache, name, second) == l1
  {
  }

  /** After `clearCache`, a registered filter is compiled again on the next lookup. */
  lemma LookupAfterClear(name: string, h: nat)
    requires name in GetAvailableFilters()
    ensures EffectLookup(map[], name, Compiled(h)).effect == Some(RuntimeEffect(ShaderSource(name).value, h))
  {
  }

  /** The snapshot `applyFilter` returns: a `width × height` rect drawn with the effect's shader over the
      image; each pixel is `Kernel(effect.shader, pixel, intensity)`. */
  datatype Filtered = Filtered(source: T.Image, effect: RuntimeEffect, intensity: real, width: nat, height: nat)

  /** `applyFilter(image, name, intensity = 1.0)`, given the effect lookup and whether the surface was
      made. */
  function ApplyFilterResult(l: Lookup, image: T.Image, intensity: Option<real>, surfaceMade: bool): (r: Option<Filtered>)
    ensures r.Some? <==> l.effect.Some? && surfaceMade
    ensures r.Some? ==> r.value == Filtered(image, l.effect.value, intensity.GetOr(1.0), image.width, image.height)
  {
    if l.effect.None? then None
    else if !surfaceMade then None
    else Some(Filtered(image, l.effect.value, intensity.GetOr(1.0), image.width, image.height))
  }

  /** An unregistered filter name never yields an image. */
  lemma UnknownFilterYieldsNothing(cache: map<string, RuntimeEffect>, name: string, outcome: CompileOutcome,
                                   image: T.Image, intensity: Option<real>, surfaceMade: bool)
    requires CacheWf(cache) && name !in GetAvailableFilters()
    ensures ApplyFilterResult(EffectLookup(cache, name, outcome), image, intensity, surfaceMade).None?
  {
  }

  /** `FilterService`'s static state: the shader cache. */
  class Service {
    var shaderCache: map<string, RuntimeEffect>

    constructor()
      ensures shaderCache == map[]
    {
      shaderCache := map[];
    }

    method GetFilterEffect(name: string, outcome: CompileOutcome) returns (effect: Option<RuntimeEffect>)
      modifies this
      ensures Lookup(effect, shaderCache) == EffectLookup(old(shaderCache), name, outcome)
    {
      if name in shaderCache {
        return Some(shaderCache[name]);
      }
      var source := ShaderSource(name);
      if source.None? {
        return None;
      }
      match outcome {
        case Compiled(h) =>
          var e := RuntimeEffect(source.value, h);
          shaderCache := shaderCache[name := e];
          return Some(e);
        case CompiledNull =>
          return None;
        case CompileThrows =>
          return None;
      }
    }

    method ApplyFilter(image: T.Image, name: string, intensity: Option<real>, outcome: CompileOutcome, surfaceMade: bool)
      returns (r: Option<Filtered>)
      modifies this
      ensures var l := EffectLookup(old(shaderCache), name, outcome);
        shaderCache == l.cache && r == ApplyFilterResult(l, image, intensity, surfaceMade)
    {
      var effect := GetFilterEffect(name, outcome);
      if effect.None? {
        return None;
      }
      if !surfaceMade {
        return None;
      }
      r := Some(Filtered(image, effect.value, intensity.GetOr(1.0), image.width, image.height));
    }

    method ClearCache()
      modifies this
      ensures shaderCache == map[]
    {
      shaderCache := map[];
    }
  }
}
