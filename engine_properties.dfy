/**
 * Properties of the mapping engine that relate several calls: monotonicity,
 * the lossy clamp of out-of-band readings, and how close the two directions
 * come to being inverse to each other.
 */
module EngineProperties {
  import opened Wrappers
  import opened Rounding
  import opened Engine

  lemma InterpolateMonotone(x1: int, x2: int, s: int)
    requires 0 <= x1 <= x2 <= 253 && s >= 0
    ensures Interpolate(x1, s) <= Interpolate(x2, s)
  {
    MulMonotone(x1, x2, s);
    RoundMonotone(x1 * s, x2 * s, 253);
  }

  lemma DeinterpolateMonotone(t1: int, t2: int, s: int)
    requires 0 < s <= 255 && 0 <= t1 <= t2 <= s
    ensures Deinterpolate(t1, s) <= Deinterpolate(t2, s)
  {
    RoundMonotone(253 * t1, 253 * t2, s);
  }

  /** Scaling an offset up to a virtual step and back lands within one of it. */
  lemma InterpolateDeinterpolateNear(t: int, s: int)
    requires 0 < s <= 255 && 0 <= t <= s
    ensures -1 <= Interpolate(Deinterpolate(t, s), s) - t <= 1
  {
    var y := Deinterpolate(t, s);
    DeinterpolateSpec(t, s);
    InterpolateSpec(y, s);
    NearBound(t, s, y * s, Interpolate(y, s));
  }

  lemma NearBound(t: int, s: int, p: int, u: int)
    requires 0 < s <= 255
    requires 2 * p - s <= 506 * t <= 2 * p + s
    requires 506 * u - 253 <= 2 * p <= 506 * u + 253
    ensures -1 <= u - t <= 1
  {
  }

  /** Interpolate . Deinterpolate . Interpolate == Interpolate. */
  lemma InterpolateRoundTrip(x: int, s: int)
    requires 0 <= x <= 253 && 0 < s <= 255
    ensures Interpolate(Deinterpolate(Interpolate(x, s), s), s) == Interpolate(x, s)
  {
    var t := Interpolate(x, s);
    if s < 253 {
      NarrowSpanRoundTrip(t, s);
    } else if s == 253 {
      ExactSpanRoundTrip(t);
    } else {
      // t came from x, and on a wide band Deinterpolate recovers x exactly
      InterpolateSpec(x, s);
      RoundUniqueScaled(253 * t, s, x, x * s);
    }
  }

  /** Deinterpolate . Interpolate . Deinterpolate == Deinterpolate. */
  lemma DeinterpolateRoundTrip(t: int, s: int)
    requires 0 < s <= 255 && 0 <= t <= s
    ensures Deinterpolate(Interpolate(Deinterpolate(t, s), s), s) == Deinterpolate(t, s)
  {
    if s < 253 {
      NarrowSpanRoundTrip(t, s);
    } else if s == 253 {
      ExactSpanRoundTrip(t);
    } else {
      WideSpanRoundTrip(t, s);
    }
  }

  /** On a band of exactly 253 steps both scalings are the identity. */
  lemma ExactSpanRoundTrip(t: int)
    requires 0 <= t <= 253
    ensures Deinterpolate(t, 253) == t && Interpolate(t, 253) == t
  {
    assert 253 * t == t * 253;
    RoundMultiple(t, 253);
  }

  /** On a band narrower than 253 steps, Interpolate undoes Deinterpolate exactly. */
  lemma NarrowSpanRoundTrip(t: int, s: int)
    requires 0 < s < 253 && 0 <= t <= s
    ensures Interpolate(Deinterpolate(t, s), s) == t
  {
    var y := Deinterpolate(t, s);
    DeinterpolateSpec(t, s);
    RoundUniqueScaled(y * s, 253, t, 253 * t);
  }

  /** On a band wider than 253 steps, Deinterpolate undoes Interpolate exactly. */
  lemma WideSpanRoundTrip(t: int, s: int)
    requires 253 < s <= 255 && 0 <= t <= s
    ensures Deinterpolate(Interpolate(Deinterpolate(t, s), s), s) == Deinterpolate(t, s)
  {
    var y := Deinterpolate(t, s);
    var u := Interpolate(y, s);
    DeinterpolateSpec(t, s);
    InterpolateSpec(y, s);
    RoundUniqueScaled(253 * u, s, y, y * s);
  }

  lemma ScaleInMonotone(c1: int, c2: int, b: Span)
    requires 1 <= c1 <= c2 <= 254 && ValidSpan(b)
    ensures ScaleIn(c1, b) <= ScaleIn(c2, b)
  {
    InterpolateMonotone(c1 - 1, c2 - 1, b.hi - b.lo);
  }

  lemma ScaleOutMonotone(c1: int, c2: int, b: Span)
    requires 1 <= c1 <= c2 <= 254 && ValidSpan(b)
    ensures ScaleOut(c1, b) <= ScaleOut(c2, b)
  {
    DeinterpolateMonotone(Max(b.lo, Min(b.hi, c1)) - b.lo, Max(b.lo, Min(b.hi, c2)) - b.lo, b.hi - b.lo);
  }

  lemma VirtualToActualMonotone(v1: int, v2: int, llv: Option<Raw>, hld: Option<Raw>)
    requires v1 <= v2
    ensures VirtualToActual(Int(v1), llv, hld) <= VirtualToActual(Int(v2), llv, hld)
  {
    var c1, c2 := Clamp0To255(Int(v1)), Clamp0To255(Int(v2));
    if 1 <= c1 && c2 <= 254 {
      ScaleInMonotone(c1, c2, NormalizeBounds(llv, hld));
    }
  }

  lemma ActualToVirtualMonotone(a1: int, a2: int, llv: Option<Raw>, hld: Option<Raw>)
    requires a1 <= a2
    ensures ActualToVirtual(Int(a1), llv, hld) <= ActualToVirtual(Int(a2), llv, hld)
  {
    var c1, c2 := Clamp0To255(Int(a1)), Clamp0To255(Int(a2));
    if 1 <= c1 && c2 <= 254 {
      ScaleOutMonotone(c1, c2, NormalizeBounds(llv, hld));
    }
  }

  /** An interior reading below the band reads as the band's low end: virtual 1. */
  lemma ActualBelowBand(a: int, llv: Option<Raw>, hld: Option<Raw>)
    requires 1 <= a < NormalizeBounds(llv, hld).lo
    ensures ActualToVirtual(Int(a), llv, hld) == ActualToVirtual(Int(NormalizeBounds(llv, hld).lo), llv, hld) == 1
  {
  }

  /** An interior reading above the band reads as the band's high end: virtual 254. */
  lemma ActualAboveBand(a: int, llv: Option<Raw>, hld: Option<Raw>)
    requires NormalizeBounds(llv, hld).hi < a <= 254
    ensures ActualToVirtual(Int(a), llv, hld) == ActualToVirtual(Int(NormalizeBounds(llv, hld).hi), llv, hld) == 254
  {
  }

  /** Within the band, scaling out and back in recovers a value within one step. */
  lemma ScaleNear(c: int, b: Span)
    requires 1 <= c <= 254 && ValidSpan(b) && b.lo <= c <= b.hi
    ensures -1 <= ScaleIn(ScaleOut(c, b), b) - c <= 1
  {
    var s := b.hi - b.lo;
    var y := Deinterpolate(c - b.lo, s);
    ScaleOutInBand(c, b);
    ScaleInStep(y, b);
    InterpolateDeinterpolateNear(c - b.lo, s);
  }

  /** ScaleOut of an in-band value needs no clamping. */
  lemma ScaleOutInBand(c: int, b: Span)
    requires 1 <= c <= 254 && ValidSpan(b) && b.lo <= c <= b.hi
    ensures ScaleOut(c, b) == 1 + Deinterpolate(c - b.lo, b.hi - b.lo)
  {
    assert Max(b.lo, Min(b.hi, c)) == c;
  }

  /** ScaleIn of the virtual value one past the interior step x. */
  lemma ScaleInStep(x: int, b: Span)
    requires 0 <= x <= 253 && ValidSpan(b)
    ensures ScaleIn(1 + x, b) == b.lo + Interpolate(x, b.hi - b.lo)
  {
  }

  /** Mapping an in-band actual value to virtual and back recovers it within one step. */
  lemma ApproximateInverse(a: int, llv: Option<Raw>, hld: Option<Raw>)
    requires NormalizeBounds(llv, hld).lo <= a <= NormalizeBounds(llv, hld).hi
    ensures -1 <= VirtualToActual(Int(ActualToVirtual(Int(a), llv, hld)), llv, hld) - a <= 1
  {
    if 1 <= a <= 254 {
      ScaleNear(a, NormalizeBounds(llv, hld));
    }
  }

  /** ScaleOut . ScaleIn . ScaleOut == ScaleOut, and the middle value stays interior. */
  lemma ScaleBackward(c: int, b: Span)
    requires 1 <= c <= 254 && ValidSpan(b)
    ensures var w := ScaleOut(c, b);
            var e := ScaleIn(w, b);
            1 <= e <= 254 && ScaleOut(e, b) == w
  {
    var s := b.hi - b.lo;
    var t := Max(b.lo, Min(b.hi, c)) - b.lo;
    var y := Deinterpolate(t, s);
    var u := Interpolate(y, s);
    assert ScaleOut(c, b) == 1 + y;
    ScaleInStep(y, b);
    InteriorImage(t, s);
    ScaleOutAt(u, b);
  }

  /** ScaleOut of the actual value at offset u into the band. */
  lemma ScaleOutAt(u: int, b: Span)
    requires ValidSpan(b) && 0 <= u <= b.hi - b.lo && 1 <= b.lo + u <= 254
    ensures ScaleOut(b.lo + u, b) == 1 + Deinterpolate(u, b.hi - b.lo)
  {
    assert Max(b.lo, Min(b.hi, b.lo + u)) - b.lo == u;
  }

  /** ScaleIn . ScaleOut . ScaleIn == ScaleIn, for an interior landing point. */
  lemma ScaleForward(c: int, b: Span)
    requires 1 <= c <= 254 && ValidSpan(b)
    requires 1 <= ScaleIn(c, b) <= 254
    ensures ScaleIn(ScaleOut(ScaleIn(c, b), b), b) == ScaleIn(c, b)
  {
    var s := b.hi - b.lo;
    var t := Interpolate(c - 1, s);
    assert ScaleIn(c, b) == b.lo + t;
    ScaleOutAt(t, b);
    ScaleInStep(Deinterpolate(t, s), b);
    InterpolateRoundTrip(c - 1, s);
  }

  /** Re-reading a commanded actual value and commanding it again changes nothing. */
  lemma ForwardIdempotent(v: int, llv: Option<Raw>, hld: Option<Raw>)
    ensures var a := VirtualToActual(Int(v), llv, hld);
            VirtualToActual(Int(ActualToVirtual(Int(a), llv, hld)), llv, hld) == a
  {
    var c := Clamp0To255(Int(v));
    if 1 <= c <= 254 {
      var b := NormalizeBounds(llv, hld);
      if 1 <= ScaleIn(c, b) <= 254 {
        ScaleForward(c, b);
      }
    }
  }

  /** Commanding a mirrored virtual value and mirroring the result changes nothing. */
  lemma BackwardIdempotent(a: int, llv: Option<Raw>, hld: Option<Raw>)
    ensures var w := ActualToVirtual(Int(a), llv, hld);
            ActualToVirtual(Int(VirtualToActual(Int(w), llv, hld)), llv, hld) == w
  {
    var c := Clamp0To255(Int(a));
    if 1 <= c <= 254 {
      ScaleBackward(c, NormalizeBounds(llv, hld));
    }
  }

  /**
   * The offset an offset comes back as: it maps to the same virtual step, and
   * it is an end of the band only if the original was.
   */
  lemma InteriorImage(t: int, s: int)
    requires 0 < s <= 255 && 0 <= t <= s
    ensures var u := Interpolate(Deinterpolate(t, s), s);
            && Deinterpolate(u, s) == Deinterpolate(t, s)
            && (u == 0 ==> t == 0) && (u == s ==> t == s)
  {
    DeinterpolateRoundTrip(t, s);
  }

  /** Worked values: with LLV 17 and HLD 238 the interior ends land on the band ends, */
  lemma ExampleBandEnds()
    ensures VirtualToActual(Int(1), Some(Int(17)), Some(Int(238))) == 17
    ensures VirtualToActual(Int(254), Some(Int(17)), Some(Int(238))) == 238
  {
    assert NormalizeBounds(Some(Int(17)), Some(Int(238))) == Span(17, 238);
  }

  /** ... the midpoint 128 lands on 128, */
  lemma ExampleMidpoint()
    ensures VirtualToActual(Int(128), Some(Int(17)), Some(Int(238))) == 128
  {
    var b := Span(17, 238);
    assert NormalizeBounds(Some(Int(17)), Some(Int(238))) == b;
    // 127 * 221 / 253 is 110.93..., which rounds to 111
    RoundUnique(127 * 221, 253, 111);
    assert ScaleIn(128, b) == 128;
  }

  /** ... and with LLV 20 a reading of 5 is below the band and reads as 1. */
  lemma ExampleBelowBand()
    ensures ActualToVirtual(Int(5), Some(Int(20)), Some(Int(230))) == 1
  {
    assert NormalizeBounds(Some(Int(20)), Some(Int(230))) == Span(20, 230);
  }
}
