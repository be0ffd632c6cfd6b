/**
 * Properties of level parsing and of the user step: the result range, the
 * "up to 100 means percent" reading, the order of the error checks, and that
 * accepting an entry never proxies a target twice.
 */
module ConfigFlowProperties {
  import opened Wrappers
  import opened Rounding
  import opened PyText
  import opened ConfigFlow

  /** The worked values: "100" is 255, "50" is 128 (127.5 rounds to even), "30" is 76. */
  lemma ParseExamples()
    ensures ParseLevel(Text(false, Some(100))) == Some(255)
    ensures ParseLevel(Text(false, Some(50))) == Some(128)
    ensures ParseLevel(Text(false, Some(30))) == Some(76)
    ensures ParseLevel(Text(true, Some(35))) == Some(89)
    ensures ParseLevel(Number(204)) == Some(204)
    ensures ParseLevel(Text(true, Some(101))) == None
    ensures ParseLevel(Text(true, None)) == None && ParseLevel(Text(false, None)) == None
  {
    // 127.5 and 76.5 are ties, which go to the even neighbour
    assert RoundHalfEven(255 * 50, 100) == 128;
    assert RoundHalfEven(255 * 30, 100) == 76;
    RoundUnique(255 * 35, 100, 89);
    RoundMultiple(204, 1);
  }

  /** A percentage in 0..100 is 255 * pct / 100 rounded half to even. */
  lemma PercentIsRounded(pct: int)
    requires 0 <= pct <= 100
    ensures ParseLevel(Text(true, Some(pct))) == Some(RoundHalfEven(255 * pct, 100))
  {
  }

  /** A plain value in 0..100, string or number, reads exactly like the same percentage. */
  lemma PlainUpToHundredIsPercent(v: int)
    requires 0 <= v <= 100
    ensures ParseLevel(Number(v)) == ParseLevel(Text(false, Some(v))) == ParseLevel(Text(true, Some(v)))
  {
  }

  /** A plain value above 100 is a raw level, capped at 255; a negative one becomes 0. */
  lemma {:induction false} PlainOutsidePercentRange(v: int)
    requires v < 0 || v > 100
    ensures ParseLevel(Number(v)) == ParseLevel(Text(false, Some(v)))
    ensures v > 100 ==> ParseLevel(Number(v)) == Some(if v > 255 then 255 else v)
    ensures v < 0 ==> ParseLevel(Number(v)) == Some(0)
  {
    if 100 < v <= 255 {
      RoundMultiple(v, 1);
    }
  }

  /** The heuristic is not monotone: 100 reads as full brightness, 101 as raw 101. */
  lemma HeuristicJump()
    ensures ParseLevel(Number(100)) == Some(255)
    ensures ParseLevel(Number(101)) == Some(101)
  {
    RoundMultiple(101, 1);
  }

  /** An entry is created exactly when both levels parse, llv <= hld, and the target is free. */
  lemma CreatedIffNoError(userInput: Option<UserInput>, entries: seq<ConfigEntry>)
    ensures UserStepOutcome(userInput, entries).CreateEntry? <==>
            && userInput.Some?
            && ParseLevel(userInput.value.llv).Some?
            && ParseLevel(userInput.value.hld).Some?
            && ParseLevel(userInput.value.llv).value <= ParseLevel(userInput.value.hld).value
            && !Proxied(entries, Strip(userInput.value.target))
  {
  }

  /**
   * The errors come in a fixed order: a level that does not parse is reported
   * whatever else is wrong, then llv_gt_hld for parsed levels out of order,
   * then target_in_use for a proxied target; target_in_use only when both
   * levels are fine.
   */
  lemma ErrorOrder(u: UserInput, entries: seq<ConfigEntry>)
    ensures ParseLevel(u.llv).None? || ParseLevel(u.hld).None? ==>
              UserStepOutcome(Some(u), entries) == ShowForm(map[ErrorKey := BadLevel])
    ensures ParseLevel(u.llv).Some? && ParseLevel(u.hld).Some? && ParseLevel(u.llv).value > ParseLevel(u.hld).value ==>
              UserStepOutcome(Some(u), entries) == ShowForm(map[ErrorKey := LlvGtHld])
    ensures && ParseLevel(u.llv).Some? && ParseLevel(u.hld).Some?
            && ParseLevel(u.llv).value <= ParseLevel(u.hld).value && Proxied(entries, Strip(u.target)) ==>
              UserStepOutcome(Some(u), entries) == ShowForm(map[ErrorKey := TargetInUse])
    ensures UserStepOutcome(Some(u), entries) == ShowForm(map[ErrorKey := TargetInUse]) ==>
              && ParseLevel(u.llv).Some? && ParseLevel(u.hld).Some?
              && ParseLevel(u.llv).value <= ParseLevel(u.hld).value
              && Proxied(entries, Strip(u.target))
    ensures UserStepOutcome(Some(u), entries).ShowForm? ==>
              UserStepOutcome(Some(u), entries).errors.Keys == {ErrorKey}
  {
    var r := UserStepOutcome(Some(u), entries);
    if r == ShowForm(map[ErrorKey := TargetInUse]) {
      assert r.errors[ErrorKey] == TargetInUse;
      assert BadLevel != TargetInUse && LlvGtHld != TargetInUse;
    }
  }

  /** Equal levels are accepted: the check is a strict llv > hld. */
  lemma EqualLevelsAccepted(u: UserInput, entries: seq<ConfigEntry>)
    requires ParseLevel(u.llv).Some? && ParseLevel(u.llv) == ParseLevel(u.hld)
    requires !Proxied(entries, Strip(u.target))
    ensures UserStepOutcome(Some(u), entries).CreateEntry?
  {
  }

  /**
   * A created entry holds stripped text, the parsed levels (ordered, in 0..255)
   * and the profile as given.
   */
  lemma CreatedEntryWellFormed(u: UserInput, entries: seq<ConfigEntry>)
    requires UserStepOutcome(Some(u), entries).CreateEntry?
    ensures var r := UserStepOutcome(Some(u), entries);
            && r.title == r.data.name == Strip(u.name)
            && r.data.target == Strip(u.target) && Trimmed(r.data.target)
            && 0 <= r.data.llv <= r.data.hld <= 255
            && r.data.llv == ParseLevel(u.llv).value && r.data.hld == ParseLevel(u.hld).value
            && r.data.profile == u.profile
  {
    var llv, hld := ParseLevel(u.llv), ParseLevel(u.hld);
    var name, target := Strip(u.name), Strip(u.target);
    StripSpec(u.target);
    assert UserStepOutcome(Some(u), entries)
           == CreateEntry(name, EntryData(name, target, llv.value, hld.value, u.profile));
  }

  /** No two entries name the same target. */
  predicate UniqueTargets(entries: seq<ConfigEntry>)
  {
    forall i, j :: 0 <= i < j < |entries| && entries[i].target.Some? ==> entries[i].target != entries[j].target
  }

  /** Adding the entry the user step creates keeps targets unique. */
  lemma CreatingKeepsTargetsUnique(u: UserInput, entries: seq<ConfigEntry>)
    requires UniqueTargets(entries)
    requires UserStepOutcome(Some(u), entries).CreateEntry?
    ensures UniqueTargets(entries + [ConfigEntry(Some(UserStepOutcome(Some(u), entries).data.target))])
  {
    var target := UserStepOutcome(Some(u), entries).data.target;
    var grown := entries + [ConfigEntry(Some(target))];
    forall i, j | 0 <= i < j < |grown| && grown[i].target.Some?
      ensures grown[i].target != grown[j].target
    {
      if j == |entries| {
        assert grown[i] == entries[i];
      }
    }
  }
}
