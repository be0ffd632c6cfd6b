/**
 * The proxy light entity. It holds an on/off flag and a brightness in the
 * virtual domain, translates every command for the physical ("target") light
 * through the mapping engine, and mirrors every state change the target
 * reports back into the virtual domain.
 *
 * Home Assistant's service calls become recorded ServiceCall values; the
 * host's state lookup and state-change notifications become the arguments of
 * the methods that react to them. The entity calls the engine without bounds,
 * so the engine always works on the full band 0..255.
 */
module Light {
  import opened Wrappers
  import opened Engine
  import opened PyText

  /** The `transition` argument, passed through untouched. */
  type Transition = real

  datatype Service = LightTurnOn | LightTurnOff

  /** One call of a `light` service on the host: what the proxy sends to its target. */
  datatype ServiceCall = ServiceCall(
    domain: string,
    service: Service,
    entityId: string,
    brightness: Option<int>,
    transition: Option<Transition>)

  /**
   * The keyword arguments of a turn_on command. A present `brightness` of
   * `None` or of a non-numeric value is `Some(NonNumeric)`.
   */
  datatype TurnOnArgs = TurnOnArgs(
    brightness: Option<Raw>,
    brightnessStep: Option<int>,
    brightnessStepPct: Option<int>,
    transition: Option<Transition>)

  /**
   * What the host reports about the target: its state string (possibly
   * `None`) and its `brightness` attribute (`None` when missing).
   */
  datatype TargetState = TargetState(state: Option<string>, brightness: Option<Raw>)

  /** The entity's own state: `_attr_is_on` and `_virtual_brightness`. */
  datatype LightState = LightState(isOn: bool, level: int)

  /** The things that change the entity's state. */
  datatype Event =
    | TurnOnCommand(args: TurnOnArgs)
    | TurnOffCommand(transition: Option<Transition>)
    | TargetChanged(newState: Option<TargetState>)

  const Domain: string := "light"

  /**
   * `_clamp`: an integer in 0..255; `None` and non-numeric input give 0.
   * (It truncates float input where the engine's clamp rounds it; on the
   * integer payloads modelled here the two agree.)
   */
  function Clamp(n: Raw): (r: int)
    ensures 0 <= r <= 255
    ensures n.NonNumeric? || n == Int(0) ==> r == 0
    ensures n.Int? && 0 <= n.value <= 255 ==> r == n.value
    ensures n.Int? && n.value < 0 ==> r == 0
    ensures n.Int? && n.value > 255 ==> r == 255
  {
    match n
    case Int(k) => if k < 0 then 0 else if k > 255 then 255 else k
    case NonNumeric => 0
  }

  /**
   * The step of a `brightness_step_pct` argument: 255 * pct / 100 truncated
   * toward zero, as `int()` does.
   */
  function StepFromPercent(pct: int): (step: int)
    ensures 0 <= pct ==> 0 <= 100 * step <= 255 * pct < 100 * (step + 1)
    ensures pct < 0 ==> 100 * (step - 1) < 255 * pct <= 100 * step <= 0
  {
    if pct >= 0 then 255 * pct / 100 else -((-255 * pct) / 100)
  }

  /**
   * The virtual level a turn_on command leaves: an absolute brightness replaces
   * the current level, then a step (or, failing that, a percent step) is added
   * on top, each result clamped.
   */
  function TurnOnLevel(current: int, args: TurnOnArgs): (v: int)
    ensures 0 <= current <= 255 ==> 0 <= v <= 255
    ensures args.brightness.Some? || args.brightnessStep.Some? || args.brightnessStepPct.Some? ==> 0 <= v <= 255
  {
    var base := if args.brightness.Some? then Clamp(args.brightness.value) else current;
    if args.brightnessStep.Some? then Clamp(Int(base + args.brightnessStep.value))
    else if args.brightnessStepPct.Some? then Clamp(Int(base + StepFromPercent(args.brightnessStepPct.value)))
    else base
  }

  /**
   * The brightness sent for virtual level v: the engine's actual value, except
   * that an actual 0 is raised to 1 so that an "on" command never switches the
   * target off.
   */
  function OutboundBrightness(v: int): (a: int)
    ensures 1 <= a <= 255
    ensures VirtualToActual(Int(v), None, None) != 0 ==> a == VirtualToActual(Int(v), None, None)
    ensures VirtualToActual(Int(v), None, None) == 0 ==> a == 1
  {
    var a := VirtualToActual(Int(v), None, None);
    if a == 0 then 1 else a
  }

  /** `_apply_target_state`: the state mirrored from a target report. */
  function Mirror(st: TargetState): (r: LightState)
    ensures r.isOn <==> st.state.Some? && Lower(st.state.value) == "on"
    ensures 0 <= r.level <= 255
    ensures st.brightness.None? ==> r.level == (if r.isOn then 255 else 0)
    ensures st.brightness.Some? ==> r.level == ActualToVirtual(st.brightness.value, None, None)
  {
    var on := Lower(if st.state.None? then "" else st.state.value) == "on";
    if st.brightness.None? then LightState(on, if on then 255 else 0)
    else LightState(on, ActualToVirtual(st.brightness.value, None, None))
  }

  /** How one event changes the entity's state. */
  function Step(s: LightState, e: Event): (r: LightState)
    ensures 0 <= s.level <= 255 ==> 0 <= r.level <= 255
  {
    match e
    case TurnOnCommand(args) => LightState(true, TurnOnLevel(s.level, args))
    case TurnOffCommand(_) => LightState(false, 0)
    case TargetChanged(newState) => if newState.None? then s else Mirror(newState.value)
  }

  /** The service call an event makes the entity send to its target, if any. */
  function Outbound(target: string, s: LightState, e: Event): (r: Option<ServiceCall>)
    ensures r.None? <==> e.TargetChanged?
    ensures r.Some? ==> r.value.domain == Domain && r.value.entityId == target
    // turn_on sends, with the transition, the brightness of the level Step leaves
    ensures e.TurnOnCommand? ==>
              && r.Some? && r.value.service == LightTurnOn
              && r.value.brightness == Some(OutboundBrightness(Step(s, e).level))
              && r.value.transition == e.args.transition
    // turn_off sends no brightness, only the transition
    ensures e.TurnOffCommand? ==>
              r.Some? && r.value.service == LightTurnOff && r.value.brightness.None? && r.value.transition == e.transition
  {
    match e
    case TurnOnCommand(args) =>
      Some(ServiceCall(Domain, LightTurnOn, target,
                       Some(OutboundBrightness(TurnOnLevel(s.level, args))), args.transition))
    case TurnOffCommand(transition) =>
      Some(ServiceCall(Domain, LightTurnOff, target, None, transition))
    case TargetChanged(_) => None
  }

  /** The state after a sequence of events, applied in arrival order. */
  function Run(s: LightState, events: seq<Event>): (r: LightState)
    decreases |events|
  {
    if events == [] then s else Run(Step(s, events[0]), events[1..])
  }

  class NormalizeProxyLight {
    const name: string
    const targetEntityId: string
    var isOn: bool
    var virtualBrightness: int
    /** Whether the entity holds a subscription to the target's state changes. */
    var subscribed: bool

    ghost predicate Valid()
      reads this
    {
      0 <= virtualBrightness <= 255
    }

    function State(): (r: LightState)
      reads this
    {
      LightState(isOn, virtualBrightness)
    }

    constructor (name: string, targetEntityId: string)
      ensures Valid()
      ensures this.name == name && this.targetEntityId == targetEntityId
      ensures !isOn && virtualBrightness == 0 && !subscribed
    {
      this.name := name;
      this.targetEntityId := targetEntityId;
      isOn := false;
      virtualBrightness := 0;
      subscribed := false;
    }

    /** The reported brightness: the virtual level while on, `None` while off. */
    function Brightness(): (b: Option<int>)
      reads this
      requires Valid()
      ensures b.Some? <==> isOn
      ensures b.Some? ==> b.value == virtualBrightness && 0 <= b.value <= 255
    {
      if isOn then Some(virtualBrightness) else None
    }

    /**
     * `async_added_to_hass`: prime the state from the target's current state,
     * when the host has one, then subscribe to the target's changes.
     */
    method AddedToHass(current: Option<TargetState>)
      requires Valid()
      modifies this`isOn, this`virtualBrightness, this`subscribed
      ensures Valid() && subscribed
      ensures State() == Step(old(State()), TargetChanged(current))
    {
      if current.Some? {
        ApplyTargetState(current.value);
      }
      subscribed := true;
    }

    /** `async_will_remove_from_hass`: release the subscription. */
    method WillRemoveFromHass()
      modifies this`subscribed
      ensures !subscribed
    {
      if subscribed {
        subscribed := false;
      }
    }

    /** `async_turn_on`. */
    method TurnOn(args: TurnOnArgs) returns (call: ServiceCall)
      requires Valid()
      modifies this`isOn, this`virtualBrightness
      ensures Valid()
      ensures State() == Step(old(State()), TurnOnCommand(args))
      ensures Some(call) == Outbound(targetEntityId, old(State()), TurnOnCommand(args))
    {
      var v := virtualBrightness;
      if args.brightness.Some? {
        v := Clamp(args.brightness.value);
      }
      if args.brightnessStep.Some? {
        v := Clamp(Int(v + args.brightnessStep.value));
      } else if args.brightnessStepPct.Some? {
        var step := StepFromPercent(args.brightnessStepPct.value);
        v := Clamp(Int(v + step));
      }
      assert v == TurnOnLevel(virtualBrightness, args);
      var a := VirtualToActual(Int(v), None, None);
      if a == 0 {
        a := 1;
      }
      call := ServiceCall(Domain, LightTurnOn, targetEntityId, Some(a), args.transition);
      virtualBrightness := v;
      isOn := true;
    }

    /** `async_turn_off`. */
    method TurnOff(transition: Option<Transition>) returns (call: ServiceCall)
      requires Valid()
      modifies this`isOn, this`virtualBrightness
      ensures Valid()
      ensures State() == Step(old(State()), TurnOffCommand(transition))
      ensures Some(call) == Outbound(targetEntityId, old(State()), TurnOffCommand(transition))
    {
      call := ServiceCall(Domain, LightTurnOff, targetEntityId, None, transition);
      isOn := false;
      virtualBrightness := 0;
    }

    /** `_handle_target_event`: an event without a new state changes nothing. */
    method HandleTargetEvent(newState: Option<TargetState>)
      requires Valid()
      modifies this`isOn, this`virtualBrightness
      ensures Valid()
      ensures State() == Step(old(State()), TargetChanged(newState))
    {
      if newState.Some? {
        ApplyTargetState(newState.value);
      }
    }

    /** `_apply_target_state`. */
    method ApplyTargetState(st: TargetState)
      modifies this`isOn, this`virtualBrightness
      ensures Valid()
      ensures State() == Mirror(st)
    {
      var on := Lower(if st.state.None? then "" else st.state.value) == "on";
      isOn := on;
      if st.brightness.None? {
        virtualBrightness := if on then 255 else 0;
        return;
      }
      var v := ActualToVirtual(st.brightness.value, None, None);
      virtualBrightness := v;
    }
  }
}
