/**
 * Properties of the proxy light's state machine: the range invariant under any
 * sequence of events, the precedence of the turn_on arguments, the minimum-on
 * floor, and the behaviour of the mapping the entity uses (the engine without
 * bounds).
 */
module LightProperties {
  import opened Wrappers
  import opened Rounding
  import opened Engine
  import opened EngineProperties
  import opened PyText
  import opened Light

  /** The virtual level stays in 0..255 under any events in any order. */
  lemma {:induction false} RunKeepsRange(s: LightState, events: seq<Event>)
    requires 0 <= s.level <= 255
    ensures 0 <= Run(s, events).level <= 255
    decreases |events|
  {
    if events != [] {
      RunKeepsRange(Step(s, events[0]), events[1..]);
    }
  }

  /** An event that carries no new state is ignored. */
  lemma EmptyEventIgnored(s: LightState)
    ensures Step(s, TargetChanged(None)) == s
  {
  }

  /** turn_off always ends off at level 0 and sends only the transition. */
  lemma TurnOffResult(target: string, s: LightState, transition: Option<Transition>)
    ensures Step(s, TurnOffCommand(transition)) == LightState(false, 0)
    ensures Outbound(target, s, TurnOffCommand(transition))
            == Some(ServiceCall(Domain, LightTurnOff, target, None, transition))
  {
  }

  /**
   * Turning on from off with no arguments keeps level 0 but sends brightness 1.
   */
  lemma TurnOnFromOffWithoutArguments(target: string, transition: Option<Transition>)
    ensures var e := TurnOnCommand(TurnOnArgs(None, None, None, transition));
            && Step(LightState(false, 0), e) == LightState(true, 0)
            && Outbound(target, LightState(false, 0), e)
               == Some(ServiceCall(Domain, LightTurnOn, target, Some(1), transition))
  {
  }

  /** A step is applied on top of an absolute brightness given in the same call. */
  lemma AbsoluteThenStep(current: int, b: int, k: int, pct: Option<int>, transition: Option<Transition>)
    ensures TurnOnLevel(current, TurnOnArgs(Some(Int(b)), Some(k), pct, transition))
            == Clamp(Int(Clamp(Int(b)) + k))
  {
  }

  /** A lone absolute brightness sets the level to its clamp, whatever the current level. */
  lemma AbsoluteAlone(current: int, b: int, transition: Option<Transition>)
    ensures TurnOnLevel(current, TurnOnArgs(Some(Int(b)), None, None, transition)) == Clamp(Int(b))
  {
  }

  /**
   * Without brightness_step, a percent step is added to the base level: the
   * clamped absolute brightness when one is given, the current level otherwise.
   */
  lemma PercentOnBase(current: int, b: Option<Raw>, p: int, transition: Option<Transition>)
    ensures TurnOnLevel(current, TurnOnArgs(b, None, Some(p), transition))
            == Clamp(Int((if b.Some? then Clamp(b.value) else current) + StepFromPercent(p)))
  {
  }

  /**
   * brightness_step is added to the base level: the clamped absolute
   * brightness when one is given, the current level otherwise.
   */
  lemma StepOnBase(current: int, b: Option<Raw>, k: int, pct: Option<int>, transition: Option<Transition>)
    ensures TurnOnLevel(current, TurnOnArgs(b, Some(k), pct, transition))
            == Clamp(Int((if b.Some? then Clamp(b.value) else current) + k))
  {
  }

  /** Without a step, the level is the clamped absolute brightness, or else the current level. */
  lemma NoStepKeepsBase(current: int, b: Option<Raw>, transition: Option<Transition>)
    ensures TurnOnLevel(current, TurnOnArgs(b, None, None, transition))
            == (if b.Some? then Clamp(b.value) else current)
  {
  }

  /** brightness_step wins over brightness_step_pct. */
  lemma StepOverridesPercent(current: int, args: TurnOnArgs)
    requires args.brightnessStep.Some?
    ensures TurnOnLevel(current, args) == TurnOnLevel(current, args.(brightnessStepPct := None))
  {
  }

  /** The percent step truncates, it does not round. */
  lemma PercentStepExamples()
    ensures StepFromPercent(50) == 127 && StepFromPercent(-50) == -127
    ensures StepFromPercent(100) == 255 && StepFromPercent(-100) == -255
    ensures TurnOnLevel(0, TurnOnArgs(None, None, Some(50), None)) == 127
    ensures TurnOnLevel(100, TurnOnArgs(None, Some(10), Some(50), None)) == 110
  {
  }

  /**
   * Without bounds the engine yields actual 0 exactly for virtual levels up to 1,
   * so the minimum-on floor replaces the engine's result exactly for those.
   */
  lemma {:induction false} FloorAppliesExactly(v: int)
    ensures VirtualToActual(Int(v), None, None) == 0 <==> v <= 1
    ensures v <= 1 ==> OutboundBrightness(v) == 1
    ensures v >= 2 ==> OutboundBrightness(v) == VirtualToActual(Int(v), None, None)
  {
    if 2 <= v <= 254 {
      InterpolateMonotone(1, v - 1, 255);
      assert Interpolate(1, 255) >= 1 by {
        var r := RoundHalfEven(1 * 255, 253);
        assert 253 * (2 * r + 1) >= 510;
      }
    }
  }

  /**
   * Without bounds both directions stay within one step of the identity
   * (which is what the source's "identity transform for now" comments describe).
   */
  lemma {:induction false} DefaultMappingNearIdentity(x: int)
    requires 0 <= x <= 255
    ensures -1 <= VirtualToActual(Int(x), None, None) - x <= 1
    ensures -1 <= ActualToVirtual(Int(x), None, None) - x <= 1
  {
    if 1 <= x <= 254 {
      DefaultScaleInNear(x);
      DefaultScaleOutNear(x);
    }
  }

  lemma DefaultScaleInNear(x: int)
    requires 1 <= x <= 254
    ensures -1 <= ScaleIn(x, Span(0, 255)) - x <= 1
  {
    InterpolateSpec(x - 1, 255);
    assert (x - 1) * 255 == 255 * x - 255;
  }

  lemma DefaultScaleOutNear(x: int)
    requires 1 <= x <= 254
    ensures -1 <= ScaleOut(x, Span(0, 255)) - x <= 1
  {
    assert Max(0, Min(255, x)) - 0 == x;
    DeinterpolateSpec(x, 255);
    var q := Deinterpolate(x, 255);
    assert q * 255 == 255 * q;
  }

  /** But neither direction is the identity: virtual 1 goes out as 0 and actual 1 reads as 2. */
  lemma DefaultMappingEnds()
    ensures VirtualToActual(Int(1), None, None) == 0
    ensures ActualToVirtual(Int(1), None, None) == 2
  {
    assert Max(0, Min(255, 1)) - 0 == 1;
    RoundUnique(253, 255, 1);
  }

  /**
   * If the target echoes the brightness a turn_on sent, the mirrored level maps
   * back to that same brightness: the optimistic update and its correction do
   * not drift.
   */
  lemma EchoIsStable(s: LightState, args: TurnOnArgs)
    requires 0 <= s.level <= 255
    ensures var a := OutboundBrightness(Step(s, TurnOnCommand(args)).level);
            var echoed := Mirror(TargetState(Some("on"), Some(Int(a))));
            echoed.isOn && OutboundBrightness(echoed.level) == a
  {
    var v := Step(s, TurnOnCommand(args)).level;
    var a := OutboundBrightness(v);
    MirrorOnReport(a);
    if VirtualToActual(Int(v), None, None) == 0 {
      EchoOfFloor();
    } else {
      ForwardIdempotent(v, None, None);
    }
  }

  /** An "on" report with a brightness mirrors as on at that brightness's virtual level. */
  lemma MirrorOnReport(a: int)
    ensures Mirror(TargetState(Some("on"), Some(Int(a)))) == LightState(true, ActualToVirtual(Int(a), None, None))
  {
    assert Lower("on") == "on";
  }

  /** The floor value 1 reads back as virtual 2, which goes out as 1 again. */
  lemma EchoOfFloor()
    ensures OutboundBrightness(ActualToVirtual(Int(1), None, None)) == 1
  {
    DefaultMappingEnds();
    assert Interpolate(1, 255) == 1 by {
      RoundUnique(255, 253, 1);
    }
  }

  /** The mirrored on/off flag accepts exactly the four spellings of "on". */
  lemma MirroredOnIff(st: TargetState)
    ensures Mirror(st).isOn <==>
            st.state == Some("on") || st.state == Some("On") || st.state == Some("oN") || st.state == Some("ON")
  {
    if st.state.Some? {
      LowerIsOn(st.state.value);
    }
  }

  /**
   * An "off" report that still carries a brightness keeps the mirrored level
   * rather than resetting it to 0.
   */
  lemma MirrorOffKeepsLevel()
    ensures Mirror(TargetState(Some("off"), Some(Int(128)))) == LightState(false, 128)
  {
    assert Lower("off") == "off";
    RoundUnique(253 * 128, 255, 127);
  }
}
