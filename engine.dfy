/**
 * The brightness mapping engine: a pure, total mapping between the "virtual"
 * brightness a user addresses (0..255) and the "actual" brightness sent to the
 * physical light (0..255), parameterised by an optional pair of bounds
 * (LLV, the lowest visible level, and HLD, the level above which a change is
 * no longer visible).
 *
 * Virtual 0 is always true off and virtual 255 always true maximum; the 254
 * interior virtual steps 1..254 are spread linearly over the usable actual
 * band [lo, hi].
 */
module Engine {
  import opened Wrappers
  import opened Rounding

  /**
   * A dynamically typed input as the engine sees it once `float()` has had its
   * say: an integer, or something that is not a number at all (`None`, a
   * non-numeric string, ...).
   */
  datatype Raw = Int(value: int) | NonNumeric

  /** A usable actual band; NormalizeBounds guarantees 0 <= lo < hi <= 255. */
  datatype Span = Span(lo: int, hi: int)

  function Min(a: int, b: int): (r: int) { if a <= b then a else b }
  function Max(a: int, b: int): (r: int) { if a >= b then a else b }

  /** `_clamp_0_255`: coerce any input to an integer in 0..255. */
  function Clamp0To255(x: Raw): (r: int)
    ensures 0 <= r <= 255
    ensures x.Int? && 0 <= x.value <= 255 ==> r == x.value
    ensures x.Int? && x.value < 0 ==> r == 0
    ensures x.Int? && x.value > 255 ==> r == 255
    ensures x.NonNumeric? ==> r == 0
  {
    match x
    case Int(n) => Max(0, Min(255, n))
    case NonNumeric => 0
  }

  lemma ClampMonotone(x: int, y: int)
    requires x <= y
    ensures Clamp0To255(Int(x)) <= Clamp0To255(Int(y))
  {
  }

  /**
   * `_normalize_bounds`: a missing LLV means 0, a missing HLD means 255, both
   * are clamped, and an empty or inverted band falls back to the full span.
   */
  function NormalizeBounds(llv: Option<Raw>, hld: Option<Raw>): (b: Span)
    ensures 0 <= b.lo < b.hi <= 255
    ensures llv.None? ==> b.lo == 0
    ensures hld.None? ==> b.hi == 255
    ensures var lo := if llv.None? then 0 else Clamp0To255(llv.value);
            var hi := if hld.None? then 255 else Clamp0To255(hld.value);
            b == if hi <= lo then Span(0, 255) else Span(lo, hi)
  {
    var lo := if llv.None? then 0 else Clamp0To255(llv.value);
    var hi := if hld.None? then 255 else Clamp0To255(hld.value);
    if hi <= lo then Span(0, 255) else Span(lo, hi)
  }

  /**
   * Offset within a band of width s of the interior virtual step x
   * (x = v - 1, so 0..253): x * s / 253 rounded half to even.
   */
  function Interpolate(x: int, s: int): (t: int)
    requires 0 <= x <= 253 && s >= 0
    ensures 0 <= t <= s
    ensures x == 0 ==> t == 0
    ensures x == 253 ==> t == s
  {
    InterpolateRange(x, s);
    RoundHalfEven(x * s, 253)
  }

  lemma InterpolateRange(x: int, s: int)
    requires 0 <= x <= 253 && s >= 0
    ensures var t := RoundHalfEven(x * s, 253);
            0 <= t <= s && (x == 0 ==> t == 0) && (x == 253 ==> t == s)
  {
    var p := x * s;
    MulMonotone(0, x, s);
    MulMonotone(x, 253, s);
    if x == 0 {
      RoundMultiple(0, 253);
    } else if x == 253 {
      assert p == s * 253;
      RoundMultiple(s, 253);
    }
  }

  /**
   * Interior virtual step (0..253, i.e. v - 1) of the offset t within a band
   * of width s: 253 * t / s rounded half to even.
   */
  function Deinterpolate(t: int, s: int): (x: int)
    requires 0 < s <= 255 && 0 <= t <= s
    ensures 0 <= x <= 253
    ensures x == 0 <==> t == 0
    ensures x == 253 <==> t == s
  {
    DeinterpolateRange(t, s);
    RoundHalfEven(253 * t, s)
  }

  lemma DeinterpolateRange(t: int, s: int)
    requires 0 < s <= 255 && 0 <= t <= s
    ensures var r := RoundHalfEven(253 * t, s);
            0 <= r <= 253 && (r == 0 <==> t == 0) && (r == 253 <==> t == s)
  {
    var r := RoundHalfEven(253 * t, s);
    if t == 0 {
      RoundMultiple(0, s);
    } else if t == s {
      assert 253 * t == 253 * s;
      RoundMultiple(253, s);
    } else {
      // 1 <= t <= s - 1 keeps 506 * t more than s away from 0 and from 506 * s
      var p := r * s;
      assert s * (2 * r - 1) == 2 * p - s && s * (2 * r + 1) == 2 * p + s;
      assert 2 * p - s <= 506 * t <= 2 * p + s;
      assert 506 <= 506 * t <= 506 * s - 506;
      MulMonotone(r, 0, s);
      MulMonotone(253, r, s);
    }
  }

  lemma MulMonotone(a: int, b: int, s: int)
    requires s >= 0
    ensures a <= b ==> a * s <= b * s
  {
  }

  /** Interpolate's rounding, with the product x * s as the only non-linear term. */
  lemma InterpolateSpec(x: int, s: int)
    requires 0 <= x <= 253 && s >= 0
    ensures 506 * Interpolate(x, s) - 253 <= 2 * (x * s) <= 506 * Interpolate(x, s) + 253
  {
  }

  /** Deinterpolate's rounding, with the product x * s as the only non-linear term. */
  lemma DeinterpolateSpec(t: int, s: int)
    requires 0 < s <= 255 && 0 <= t <= s
    ensures var x := Deinterpolate(t, s);
            2 * (x * s) - s <= 506 * t <= 2 * (x * s) + s
  {
    var x := Deinterpolate(t, s);
    assert s * (2 * x - 1) == 2 * (x * s) - s && s * (2 * x + 1) == 2 * (x * s) + s;
  }

  /** A band NormalizeBounds can return. */
  predicate ValidSpan(b: Span) {
    0 <= b.lo < b.hi <= 255
  }

  /** Where an interior virtual value c (1..254) lands in the band b. */
  function ScaleIn(c: int, b: Span): (a: int)
    requires 1 <= c <= 254 && ValidSpan(b)
    ensures b.lo <= a <= b.hi
    ensures c == 1 ==> a == b.lo
    ensures c == 254 ==> a == b.hi
  {
    b.lo + Interpolate(c - 1, b.hi - b.lo)
  }

  /**
   * The interior virtual value (1..254) of an interior actual value c, once
   * c is pulled into the band b: exactly the readings at or below the band
   * read as 1, and exactly those at or above it as 254.
   */
  function ScaleOut(c: int, b: Span): (v: int)
    requires 1 <= c <= 254 && ValidSpan(b)
    ensures 1 <= v <= 254
    ensures v == 1 <==> c <= b.lo
    ensures v == 254 <==> c >= b.hi
  {
    1 + Deinterpolate(Max(b.lo, Min(b.hi, c)) - b.lo, b.hi - b.lo)
  }

  /** `virtual_to_actual`, with the profile argument (which it ignores) left off. */
  function VirtualToActual(v: Raw, llv: Option<Raw>, hld: Option<Raw>): (a: int)
    ensures 0 <= a <= 255
    ensures Clamp0To255(v) == 0 ==> a == 0
    ensures Clamp0To255(v) == 255 ==> a == 255
    ensures 1 <= Clamp0To255(v) <= 254 ==> a == ScaleIn(Clamp0To255(v), NormalizeBounds(llv, hld))
    ensures Clamp0To255(v) == 1 ==> a == NormalizeBounds(llv, hld).lo
    ensures Clamp0To255(v) == 254 ==> a == NormalizeBounds(llv, hld).hi
  {
    var c := Clamp0To255(v);
    if c == 0 then 0
    else if c == 255 then 255
    else Clamp0To255(Int(ScaleIn(c, NormalizeBounds(llv, hld))))
  }

  /** `actual_to_virtual`: the approximate, lossy inverse of VirtualToActual. */
  function ActualToVirtual(a: Raw, llv: Option<Raw>, hld: Option<Raw>): (v: int)
    ensures 0 <= v <= 255
    ensures v == 0 <==> Clamp0To255(a) == 0
    ensures v == 255 <==> Clamp0To255(a) == 255
    ensures 1 <= Clamp0To255(a) <= 254 ==> v == ScaleOut(Clamp0To255(a), NormalizeBounds(llv, hld))
  {
    var c := Clamp0To255(a);
    if c == 0 then 0
    else if c >= 255 then 255
    else
      var b := NormalizeBounds(llv, hld);
      var span := b.hi - b.lo;
      if span <= 0 then c  // degenerate band: identity (NormalizeBounds rules it out)
      else Clamp0To255(Int(ScaleOut(c, b)))
  }
}
