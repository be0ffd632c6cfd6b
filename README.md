# normalize_lights in Dafny

A model of the core of the `normalize_lights` Home Assistant integration. The
integration puts a proxy light in front of a physical ("target") light and
translates brightness between two domains:

- the *virtual* brightness 0..255 that the user addresses;
- the *actual* brightness 0..255 that is sent to the target.

Virtual 0 is always off and virtual 255 is always full brightness. The 254
interior virtual steps are spread linearly over a usable actual band
`[LLV, HLD]`.

The model has three parts, one per core file.

- **Mapping engine** (`engine.dfy`, properties in `engine_properties.dfy`).
  - Pure functions for `_clamp_0_255`, `_normalize_bounds`, `virtual_to_actual`
    and `actual_to_virtual`.
  - Python's `round` is modelled on exact rationals, with ties going to the
    even neighbour (`rounding.dfy`).
  - The interior scaling is factored into `ScaleIn` (virtual → actual) and
    `ScaleOut` (actual → virtual) over a band.
  - Proved: range and fixed-end facts, monotonicity in both directions, the
    lossy clamp of out-of-band readings, and the near-inverse property.
  - Also proved: both round trips settle after one pass.
    `VirtualToActual ∘ ActualToVirtual ∘ VirtualToActual == VirtualToActual`,
    and the same the other way round.
- **Proxy light** (`light.dfy`, properties in `light_properties.dfy`).
  - `NormalizeProxyLight` is a class. Its fields are the on/off flag, the
    virtual brightness and the subscription flag.
  - Each handler is a method over those fields. `AddedToHass`, `TurnOn`,
    `TurnOff` and `HandleTargetEvent` are specified against the pure state
    machine `Step` / `Outbound`. `ApplyTargetState` is specified against
    `Mirror`, and `WillRemoveFromHass` ensures only that the subscription
    is gone.
  - A service call to the target is returned as a `ServiceCall` value.
  - The entity calls the engine without bounds, so it always maps over the
    full band 0..255.
- **Config flow** (`config_flow.dfy`, properties in `config_flow_properties.dfy`).
  - `_parse_level` with its nested `clamp255`.
  - The user step: the method `StepUser` fills an `errors` map step by step.
    It is proved equal to the pure outcome `UserStepOutcome`.
  - The linear search `_target_already_proxied`, as a method with a loop invariant.
  - Python's `str.strip()` and `str.lower()` are in `pytext.dfy`.

Dynamic Python values appear as `Raw = Int(n) | NonNumeric`. `NonNumeric`
stands for `None`, a non-numeric string, or anything else that `float()` /
`int()` rejects. Level strings reach the config flow already split into two
parts: whether the stripped text ends in `%`, and what `float()` makes of the
rest.

Behaviour of the code worth knowing:

- The percent step of `turn_on` truncates toward zero: 50 % gives 127.
- The entity passes no bounds to the engine.
- An "off" report that carries a brightness mirrors `actual_to_virtual` of it.
- turn_on always sends a brightness.

The "identity transform for now" comments in `light.py` are not literally
true. Without bounds, virtual 1 goes out as 0 (then raised to 1), and actual 1
reads back as virtual 2 (`LightProperties.DefaultMappingEnds`). Both
directions stay within one step of the identity
(`LightProperties.DefaultMappingNearIdentity`).

## Model

| member | source | states |
|---|---|---|
| Rounding.RoundHalfEven | custom_components/normalize_lights/engine.py:53 | `round(n / d)`: within one half of n / d, and on a tie the even neighbour |
| Rounding.RoundUnique | custom_components/normalize_lights/engine.py:32 | an integer strictly within one half of n / d is the rounded value |
| Rounding.RoundMonotone | custom_components/normalize_lights/engine.py:53 | rounding preserves order |
| Engine.Clamp0To255 | custom_components/normalize_lights/engine.py:3-8 | result in 0..255; identity on in-range integers; below 0 gives 0, above 255 gives 255; non-numeric input gives 0 |
| Engine.ClampMonotone | custom_components/normalize_lights/engine.py:3-8 | the clamp is monotone |
| Engine.NormalizeBounds | custom_components/normalize_lights/engine.py:11-16 | always `0 <= lo < hi <= 255`; missing LLV is 0, missing HLD is 255; both clamped; `hld <= llv` falls back to (0, 255) |
| Engine.Interpolate | custom_components/normalize_lights/engine.py:32 | the rounded offset of an interior virtual step lies in the band; the first step gives offset 0, the last gives the full span |
| Engine.Deinterpolate | custom_components/normalize_lights/engine.py:53 | the rounded step of an in-band offset lies in 0..253; it is 0 exactly at offset 0 and 253 exactly at the full span |
| Engine.ScaleIn | custom_components/normalize_lights/engine.py:31-32 | an interior virtual value lands in [lo, hi]; 1 gives lo and 254 gives hi |
| Engine.ScaleOut | custom_components/normalize_lights/engine.py:48-53 | an interior actual value reads as 1..254; it reads as 1 exactly when at or below lo, and as 254 exactly when at or above hi |
| Engine.VirtualToActual | custom_components/normalize_lights/engine.py:19-33 | result in 0..255; clamped 0 gives 0 and 255 gives 255 whatever the bounds; an interior value is ScaleIn over the normalised band, so it lies in [lo, hi] with 1 at lo and 254 at hi |
| Engine.ActualToVirtual | custom_components/normalize_lights/engine.py:36-54 | result in 0..255; 0 exactly for a clamped 0; 255 exactly for a clamped 255; an interior value is ScaleOut over the normalised band, so never 0; the identity branch for an empty span is unreachable |
| EngineProperties.InterpolateMonotone | custom_components/normalize_lights/engine.py:32 | the forward scaling is monotone in the step |
| EngineProperties.DeinterpolateMonotone | custom_components/normalize_lights/engine.py:53 | the backward scaling is monotone in the offset |
| EngineProperties.InterpolateDeinterpolateNear | custom_components/normalize_lights/engine.py:32-53 | scaling an offset back to a step and forward again lands within one of it |
| EngineProperties.InterpolateRoundTrip | custom_components/normalize_lights/engine.py:32-53 | forward, back, forward equals forward, for every band width |
| EngineProperties.DeinterpolateRoundTrip | custom_components/normalize_lights/engine.py:32-53 | back, forward, back equals back, for every band width |
| EngineProperties.ExactSpanRoundTrip | custom_components/normalize_lights/engine.py:32-53 | on a band of exactly 253 steps both scalings are the identity |
| EngineProperties.NarrowSpanRoundTrip | custom_components/normalize_lights/engine.py:32-53 | on a band narrower than 253 steps, forward undoes back exactly |
| EngineProperties.WideSpanRoundTrip | custom_components/normalize_lights/engine.py:32-53 | on a band wider than 253 steps, back undoes forward on its image |
| EngineProperties.VirtualToActualMonotone | custom_components/normalize_lights/engine.py:19-33 | `virtual_to_actual` is non-decreasing in v for fixed bounds |
| EngineProperties.ActualToVirtualMonotone | custom_components/normalize_lights/engine.py:36-54 | `actual_to_virtual` is non-decreasing in a for fixed bounds |
| EngineProperties.ActualBelowBand | custom_components/normalize_lights/engine.py:52-53 | an interior reading below lo reads like lo, which is virtual 1 |
| EngineProperties.ActualAboveBand | custom_components/normalize_lights/engine.py:52-53 | an interior reading above hi reads like hi, which is virtual 254 |
| EngineProperties.ScaleNear | custom_components/normalize_lights/engine.py:31-53 | on the band, ScaleIn after ScaleOut is within one of the start |
| EngineProperties.ApproximateInverse | custom_components/normalize_lights/engine.py:36-54 | for a in [lo, hi], `virtual_to_actual(actual_to_virtual(a))` is within 1 of a |
| EngineProperties.ScaleBackward | custom_components/normalize_lights/engine.py:31-53 | ScaleOut, ScaleIn, ScaleOut equals ScaleOut, and the middle value stays interior |
| EngineProperties.ScaleForward | custom_components/normalize_lights/engine.py:31-53 | ScaleIn, ScaleOut, ScaleIn equals ScaleIn when the landing point is interior |
| EngineProperties.ForwardIdempotent | custom_components/normalize_lights/engine.py:19-54 | commanding v, reading the actual value back and commanding that again sends the same actual value |
| EngineProperties.BackwardIdempotent | custom_components/normalize_lights/engine.py:19-54 | mirroring a reading, commanding the mirrored value and mirroring again gives the same virtual value |
| EngineProperties.InteriorImage | custom_components/normalize_lights/engine.py:32-53 | an offset's round-trip image reads as the same step, and is a band end only if the offset was |
| EngineProperties.ExampleBandEnds | custom_components/normalize_lights/engine.py:31-33 | with LLV 17 and HLD 238, virtual 1 gives 17 and virtual 254 gives 238 |
| EngineProperties.ExampleMidpoint | custom_components/normalize_lights/engine.py:31-33 | with LLV 17 and HLD 238, virtual 128 gives 128 |
| EngineProperties.ExampleBelowBand | custom_components/normalize_lights/engine.py:52-53 | with LLV 20 and HLD 230, actual 5 reads as virtual 1 |
| PyText.Strip | custom_components/normalize_lights/config_flow.py:85-86 | the stripped string is no longer than the input (what it removes: StripSpec, StripPadded) |
| PyText.StripSpec | custom_components/normalize_lights/config_flow.py:85-86 | `strip()` leaves a piece of the string with only whitespace around it and none at its ends; it is empty exactly when the string is all whitespace |
| PyText.StripPadded | custom_components/normalize_lights/config_flow.py:85-86 | a string with no whitespace at its ends survives any whitespace padding on either side |
| PyText.StripIdempotent | custom_components/normalize_lights/config_flow.py:85-86 | stripping twice is stripping once |
| PyText.Lower | custom_components/normalize_lights/light.py:141 | `lower()` keeps the length and lower-cases each ASCII letter |
| PyText.LowerIsOn | custom_components/normalize_lights/light.py:141 | the lower-cased state is "on" exactly for "on", "On", "oN" and "ON" |
| Light.Clamp | custom_components/normalize_lights/light.py:27-32 | result in 0..255; 0 and non-numeric input give 0; identity in range; saturates at both ends |
| Light.StepFromPercent | custom_components/normalize_lights/light.py:96 | the percent step is 255 * pct / 100 truncated toward zero, for both signs |
| Light.TurnOnLevel | custom_components/normalize_lights/light.py:86-97 | the new virtual level stays in 0..255 (its value in each case: StepOnBase, PercentOnBase, NoStepKeepsBase, with AbsoluteAlone, AbsoluteThenStep and StepOverridesPercent) |
| Light.OutboundBrightness | custom_components/normalize_lights/light.py:100-106 | the sent brightness is in 1..255: the engine's value, or 1 where the engine gives 0 |
| Light.Mirror | custom_components/normalize_lights/light.py:139-152 | on exactly when the lower-cased state is "on" (a missing state is off); without a brightness, 255 when on and 0 when off; otherwise `actual_to_virtual` of the brightness, even when off |
| Light.Step | custom_components/normalize_lights/light.py:83-152 | every event keeps the virtual level in 0..255 |
| Light.Outbound | custom_components/normalize_lights/light.py:101-124 | only commands send a call, always to the target in the light domain; turn_on sends light.turn_on with `OutboundBrightness` of the level `Step` leaves and the transition passed through; turn_off sends light.turn_off with no brightness and only the transition; a target event sends nothing |
| Light.NormalizeProxyLight.constructor | custom_components/normalize_lights/light.py:42-48 | a new entity is off, at virtual 0, with no subscription |
| Light.NormalizeProxyLight.Brightness | custom_components/normalize_lights/light.py:51-53 | `None` exactly when off; otherwise the virtual level, in 0..255 |
| Light.NormalizeProxyLight.AddedToHass | custom_components/normalize_lights/light.py:65-75 | mirrors the target's current state when there is one, and leaves the entity subscribed |
| Light.NormalizeProxyLight.WillRemoveFromHass | custom_components/normalize_lights/light.py:77-80 | leaves the entity unsubscribed |
| Light.NormalizeProxyLight.TurnOn | custom_components/normalize_lights/light.py:83-117 | the new state is on at `TurnOnLevel`; the call sent is light.turn_on to the target with `OutboundBrightness` of that level and the transition passed through |
| Light.NormalizeProxyLight.TurnOff | custom_components/normalize_lights/light.py:119-129 | the new state is off at 0; the call sent is light.turn_off to the target with no brightness and the transition passed through |
| Light.NormalizeProxyLight.HandleTargetEvent | custom_components/normalize_lights/light.py:132-137 | an event with a new state mirrors it; an event without one changes nothing |
| Light.NormalizeProxyLight.ApplyTargetState | custom_components/normalize_lights/light.py:139-152 | the new state is `Mirror` of the report, and the level stays in 0..255 |
| LightProperties.RunKeepsRange | custom_components/normalize_lights/light.py:47 | the virtual level stays in 0..255 under any sequence of events |
| LightProperties.EmptyEventIgnored | custom_components/normalize_lights/light.py:134-136 | an event without a new state changes nothing |
| LightProperties.TurnOffResult | custom_components/normalize_lights/light.py:119-128 | turn_off always ends off at 0 and sends only the entity and the transition |
| LightProperties.TurnOnFromOffWithoutArguments | custom_components/normalize_lights/light.py:86-116 | turning on from off with no arguments stores level 0 but sends brightness 1 |
| LightProperties.AbsoluteAlone | custom_components/normalize_lights/light.py:88-90 | an absolute brightness with no step sets the level to its clamp, whatever the current level |
| LightProperties.AbsoluteThenStep | custom_components/normalize_lights/light.py:89-94 | an absolute brightness replaces the level, then the step is added on top, each clamped |
| LightProperties.StepOverridesPercent | custom_components/normalize_lights/light.py:93-97 | `brightness_step` takes precedence over `brightness_step_pct` |
| LightProperties.PercentOnBase | custom_components/normalize_lights/light.py:86-97 | without brightness_step, the truncated percent step is added to the base level (the clamped absolute brightness when given, the current level otherwise) and the sum clamped |
| LightProperties.StepOnBase | custom_components/normalize_lights/light.py:86-94 | brightness_step is added to the base level (the clamped absolute brightness when given, the current level otherwise) and the sum clamped, whatever the percent step |
| LightProperties.NoStepKeepsBase | custom_components/normalize_lights/light.py:86-90 | with neither step, the level is the clamped absolute brightness when given (0 for a None or non-numeric one) and otherwise the current level unchanged |
| LightProperties.PercentStepExamples | custom_components/normalize_lights/light.py:95-97 | 50 % steps by 127 and -50 % by -127; 100 % by 255 |
| LightProperties.FloorAppliesExactly | custom_components/normalize_lights/light.py:100-106 | without bounds the engine gives 0 exactly for virtual levels up to 1, so the floor of 1 replaces exactly those |
| LightProperties.DefaultMappingNearIdentity | custom_components/normalize_lights/light.py:100 | without bounds both directions stay within one step of the identity |
| LightProperties.DefaultMappingEnds | custom_components/normalize_lights/light.py:151 | without bounds virtual 1 maps to 0 and actual 1 reads as 2 |
| LightProperties.EchoIsStable | custom_components/normalize_lights/light.py:100-152 | if the target echoes the brightness a turn_on sent, the mirrored level sends that same brightness again |
| LightProperties.MirroredOnIff | custom_components/normalize_lights/light.py:141 | the mirrored flag is on exactly for the four spellings of "on" |
| LightProperties.MirrorOffKeepsLevel | custom_components/normalize_lights/light.py:144-152 | an "off" report with brightness 128 mirrors as off at level 128, not 0 |
| ConfigFlow.Clamp255 | custom_components/normalize_lights/config_flow.py:24-30 | result in 0..255; at most 0 gives 0, at least 255 gives 255; in between it is a nearest integer to the value, and on a tie the even one |
| ConfigFlow.ParseLevel | custom_components/normalize_lights/config_flow.py:15-63 | any result is in 0..255; None, other types and non-numeric strings give None; a "%" string is rejected exactly when outside 0..100; a plain number or numeric string always parses |
| ConfigFlow.TargetAlreadyProxied | custom_components/normalize_lights/config_flow.py:114-118 | true exactly when some existing entry targets the entity |
| ConfigFlow.UserStepOutcome | custom_components/normalize_lights/config_flow.py:82-112 | no input gives the form with no errors; a submitted form that fails comes back with one "base" error among bad_level, llv_gt_hld and target_in_use; a created entry is titled by the stripped name and holds the stripped target and the profile (which check fails first, and when an entry is created: ErrorOrder, CreatedIffNoError, CreatedEntryWellFormed) |
| ConfigFlow.StepUser | custom_components/normalize_lights/config_flow.py:82-112 | the filled-in errors map and the created entry are exactly `UserStepOutcome` |
| ConfigFlowProperties.ParseExamples | custom_components/normalize_lights/config_flow.py:15-63 | "100" is 255, "50" is 128 and "30" is 76 (ties to even), "35%" is 89, 204 is 204, "101%" and non-numbers are rejected |
| ConfigFlowProperties.PercentIsRounded | custom_components/normalize_lights/config_flow.py:43-45 | a percentage in 0..100 parses to `round(255 * pct / 100)` |
| ConfigFlowProperties.PlainUpToHundredIsPercent | custom_components/normalize_lights/config_flow.py:51-60 | a plain value in 0..100, string or number, reads exactly like that percentage |
| ConfigFlowProperties.PlainOutsidePercentRange | custom_components/normalize_lights/config_flow.py:54-61 | a plain value above 100 is a raw level capped at 255; a negative one becomes 0 rather than being rejected |
| ConfigFlowProperties.HeuristicJump | custom_components/normalize_lights/config_flow.py:51-54 | the heuristic is not monotone: 100 reads as 255, 101 as 101 |
| ConfigFlowProperties.CreatedIffNoError | custom_components/normalize_lights/config_flow.py:95-110 | an entry is created exactly when both levels parse, llv <= hld, and the target is not yet proxied |
| ConfigFlowProperties.ErrorOrder | custom_components/normalize_lights/config_flow.py:95-100 | a level that does not parse gives bad_level whatever else is wrong; parsed levels with llv > hld give llv_gt_hld; parsed, ordered levels with a proxied target give target_in_use, and only they do; every error form holds the one key "base" |
| ConfigFlowProperties.EqualLevelsAccepted | custom_components/normalize_lights/config_flow.py:97 | llv == hld is accepted |
| ConfigFlowProperties.CreatedEntryWellFormed | custom_components/normalize_lights/config_flow.py:102-110 | a created entry holds the stripped name (also its title), the stripped target, the parsed llv and hld (ordered, in 0..255), and the profile as given |
| ConfigFlowProperties.CreatingKeepsTargetsUnique | custom_components/normalize_lights/config_flow.py:99-118 | adding the created entry to entries with unique targets keeps them unique |

## Left out

- Home Assistant glue is not modelled: `hass.services.async_call`, `hass.states.get`, `async_track_state_change_event`, `async_write_ha_state`, `async_show_form`, `async_create_entry` and the form schema. Service calls are returned as values. The looked-up state and the event payload are method arguments. The form data is a `UserInput`, the existing entries are a sequence, and the form / entry result is a `FlowResult`.
- The `blocking=False` flag, the form's `step_id` and schema, and the integration's `DOMAIN` filter on config entries are not modelled.
- Async scheduling is not modelled: each handler is one atomic step, and the order between the service call and the optimistic update is not captured.
- `device_info`, `setup_platform`, `async_setup_platform` and `__init__.py` are not modelled; they are host lifecycle plumbing.
- `float()` parsing is not modelled: decimals, exponents, "nan" and "inf" are out, because only integer payloads are modelled. A string reaches the model already split into its "%" suffix and its parsed number.
- Bools counting as ints, and `int()` truncating float keyword arguments, are not modelled.
- Light.Clamp: only integer and non-numeric payloads are modelled, so the truncation of a float brightness argument is not captured.
- Light.StepFromPercent: computed on exact integers. For very large percentages the source's float product `255 * (pct / 100)` can differ from the exact quotient; the model does not capture that.
- Engine.Clamp0To255, ConfigFlow.ParseLevel, Light.StepFromPercent: integers are unbounded, so three `OverflowError`s of the source are not modelled. In `_clamp_0_255` (engine.py:4-7), `float(x)` of an int too large for a float, or `round` of the infinity a huge numeric string becomes, raises instead of clamping. The model returns 0 or 255 there, and so do `VirtualToActual` and `ActualToVirtual`. In `_parse_level` (config_flow.py:58), `float(value)` raises on such an int, where the model parses it. At light.py:96, `int(pct) / 100` raises once the quotient is beyond float range, where the model steps.
- A `brightness_step` or `brightness_step_pct` that `int()` rejects raises an exception in the source; the model takes these arguments as integers.
- The `profile` argument of the engine functions is ignored by the source, so the model leaves it off.
- PyText.Lower: only ASCII letters are lower-cased; every other character is kept. No non-ASCII character lower-cases to "o" or "n", so the "on" test is unaffected.
- PyText.Strip: its own contract gives only the length bound; `StripSpec` and `StripPadded` state what it removes.
