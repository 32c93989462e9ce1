/** `hsvToRgb` (JS/main.js): the six-sector HSV to RGB conversion whose result
    tints the model's materials. */
module Color {
  import opened Wrappers

  datatype Rgb = Rgb(r: real, g: real, b: real)

  const Red := Rgb(1.0, 0.0, 0.0)
  const Yellow := Rgb(1.0, 1.0, 0.0)
  const Green := Rgb(0.0, 1.0, 0.0)
  const Cyan := Rgb(0.0, 1.0, 1.0)
  const Blue := Rgb(0.0, 0.0, 1.0)
  const Magenta := Rgb(1.0, 0.0, 1.0)

  predicate InUnit(x: real)
  {
    0.0 <= x <= 1.0
  }

  /** `Math.max(0, Math.min(1, x))` */
  function Clamp(x: real): (r: real)
    ensures InUnit(r)
    ensures InUnit(x) ==> r == x
    ensures x < 0.0 ==> r == 0.0
    ensures x > 1.0 ==> r == 1.0
  {
    if x < 0.0 then 0.0 else if x > 1.0 then 1.0 else x
  }

  /** `i % 6` as JavaScript computes it: the remainder takes the sign of the
      dividend (truncating division), unlike Dafny's Euclidean `%`. */
  function JsRem6(i: int): (r: int)
    ensures i >= 0 ==> r == i % 6
    ensures i < 0 ==> -6 < r <= 0 && (r == 0 <==> i % 6 == 0)
  {
    if i >= 0 then i % 6 else -((-i) % 6)
  }

  /** The `switch` of `hsvToRgb`: which of v, p, q, t feeds each channel in
      the given sector; no colour when no `case` matches. */
  function SectorPick(sector: int, v: real, p: real, q: real, t: real): (c: Option<Rgb>)
    ensures c.Some? <==> 0 <= sector < 6
    ensures c.Some? ==> c.value.r in {v, p, q, t} && c.value.g in {v, p, q, t} && c.value.b in {v, p, q, t}
  {
    if sector == 0 then Some(Rgb(v, t, p))
    else if sector == 1 then Some(Rgb(q, v, p))
    else if sector == 2 then Some(Rgb(p, v, t))
    else if sector == 3 then Some(Rgb(p, q, v))
    else if sector == 4 then Some(Rgb(t, p, v))
    else if sector == 5 then Some(Rgb(v, p, q))
    else None
  }

  /** `hsvToRgb(h, s, v)`. `None` stands for the record whose three channels
      are NaN: when `i % 6` matches no `case` (a negative sector index that
      is not a multiple of 6), `r`, `g` and `b` stay undefined and the clamp
      turns each of them into NaN. */
  function HsvToRgb(h: real, s: real, v: real): (c: Option<Rgb>)
    ensures c.Some? ==> InUnit(c.value.r) && InUnit(c.value.g) && InUnit(c.value.b)
    ensures c.None? <==> h < 0.0 && (h * 6.0).Floor % 6 != 0
  {
    var i := (h * 6.0).Floor;
    FromSector(JsRem6(i), h * 6.0 - i as real, s, v)
  }

  /** The body of `hsvToRgb` once `i % 6` and `f = h * 6 - i` are known:
      the `p`, `q`, `t` terms, the `switch`, the clamp. */
  function FromSector(sector: int, f: real, s: real, v: real): (c: Option<Rgb>)
    ensures c.Some? <==> 0 <= sector < 6
  {
    var p := v * (1.0 - s);
    var q := v * (1.0 - f * s);
    var t := v * (1.0 - (1.0 - f) * s);
    match SectorPick(sector, v, p, q, t)
    case None => None
    case Some(c) => Some(ClampRgb(c))
  }

  function ClampRgb(c: Rgb): (r: Rgb)
    ensures InUnit(r.r) && InUnit(r.g) && InUnit(r.b)
  {
    Rgb(Clamp(c.r), Clamp(c.g), Clamp(c.b))
  }

  /** Zero saturation gives the grey (v, v, v) for every non-negative hue. */
  lemma Achromatic(h: real, v: real)
    requires h >= 0.0
    requires InUnit(v)
    ensures HsvToRgb(h, 0.0, v) == Some(Rgb(v, v, v))
  {
  }

  /** The pure hue of sector k, k = 0..5, in the order of the `switch`. */
  function SectorColor(k: int): (c: Rgb)
    requires 0 <= k < 6
    ensures c.r + c.g + c.b == if k % 2 == 0 then 1.0 else 2.0
  {
    [Red, Yellow, Green, Cyan, Blue, Magenta][k]
  }

  /** At full saturation and value, the hues 0, 1/6, ..., 5/6 give red,
      yellow, green, cyan, blue and magenta. */
  lemma PrimaryHues(k: int)
    requires 0 <= k < 6
    ensures HsvToRgb(k as real / 6.0, 1.0, 1.0) == Some(SectorColor(k))
  {
    assert (k as real / 6.0) * 6.0 == k as real;
  }

  /** The top of the hue slider (h = 1) gives the same colour as its bottom. */
  lemma HueOneIsHueZero(s: real, v: real)
    ensures HsvToRgb(1.0, s, v) == HsvToRgb(0.0, s, v)
  {
  }

  /** Hue is periodic with period 1 on the non-negative hues. */
  lemma HuePeriodic(h: real, s: real, v: real)
    requires h >= 0.0
    ensures HsvToRgb(h + 1.0, s, v) == HsvToRgb(h, s, v)
  {
    var i := (h * 6.0).Floor;
    var f := h * 6.0 - i as real;
    assert (h + 1.0) * 6.0 == h * 6.0 + 6.0;
    assert ((h + 1.0) * 6.0).Floor == i + 6;
    assert (h + 1.0) * 6.0 - (i + 6) as real == f;
    assert JsRem6(i + 6) == JsRem6(i);
  }

  function Max3(a: real, b: real, c: real): real
  {
    if a >= b && a >= c then a else if b >= c then b else c
  }

  function Min3(a: real, b: real, c: real): real
  {
    if a <= b && a <= c then a else if b <= c then b else c
  }

  /** For inputs in the slider range, the largest channel is `v` and the
      smallest is `v * (1 - s)`: the defining property of HSV. */
  lemma ValueAndChroma(h: real, s: real, v: real)
    requires h >= 0.0 && InUnit(s) && InUnit(v)
    ensures HsvToRgb(h, s, v).Some?
    ensures var c := HsvToRgb(h, s, v).value;
      Max3(c.r, c.g, c.b) == v && Min3(c.r, c.g, c.b) == v * (1.0 - s)
  {
    var i := (h * 6.0).Floor;
    var f := h * 6.0 - i as real;
    assert 0.0 <= f < 1.0;
    SectorValueAndChroma(JsRem6(i), f, s, v);
  }

  lemma SectorValueAndChroma(sector: int, f: real, s: real, v: real)
    requires 0 <= sector < 6 && 0.0 <= f <= 1.0 && InUnit(s) && InUnit(v)
    ensures FromSector(sector, f, s, v).Some?
    ensures var c := FromSector(sector, f, s, v).value;
      Max3(c.r, c.g, c.b) == v && Min3(c.r, c.g, c.b) == v * (1.0 - s)
  {
    var p := v * (1.0 - s);
    var q := v * (1.0 - f * s);
    var t := v * (1.0 - (1.0 - f) * s);
    FactorBounds(f, s, v);
    FactorBounds(1.0 - f, s, v);
    assert 0.0 <= p <= q <= v && p <= t <= v;
    SectorExtremes(sector, v, p, q, t);
    var c := SectorPick(sector, v, p, q, t).value;
    assert FromSector(sector, f, s, v) == Some(c);
  }

  /** Whatever the sector, the picked channels take their extremes at v and
      p when p <= q, t <= v, and the clamp leaves them alone inside [0, 1]. */
  lemma SectorExtremes(sector: int, v: real, p: real, q: real, t: real)
    requires 0 <= sector < 6
    requires 0.0 <= p <= q <= v <= 1.0 && p <= t <= v
    ensures var c := SectorPick(sector, v, p, q, t).value;
      ClampRgb(c) == c &&
      Max3(c.r, c.g, c.b) == v && Min3(c.r, c.g, c.b) == p
  {
  }

  /** 0 <= v(1 - s) <= v(1 - a s) <= v for a, s, v in [0, 1]. */
  lemma FactorBounds(a: real, s: real, v: real)
    requires InUnit(a) && InUnit(s) && InUnit(v)
    ensures 0.0 <= v * (1.0 - s) <= v * (1.0 - a * s) <= v
  {
    var prod := a * s;
    assert 0.0 <= prod <= s by {
      assert prod <= 1.0 * s;
    }
    assert v * (1.0 - s) == v - v * s;
    assert v * (1.0 - prod) == v - v * prod;
    assert v * prod <= v * s;
    assert 0.0 <= v * prod;
    assert v * s <= v * 1.0;
  }
}
