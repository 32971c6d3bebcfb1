/**
 * The resolution part of build_wifi_card (src/sysutil_wifi.cpp): from an already
 * probed identity (interface, driver, vendor and device ids) and the two override
 * maps and the profile catalog, the detected and effective card type, the
 * selected capability profile, and the published power fields.
 *
 * The method follows the source's sequence of updates to the card record; the
 * function ResolvedCard states each field of the result directly.
 */
module CardResolution {
  import opened Wrappers
  import opened Text
  import opened OverrideStores
  import opened ProfileCatalog
  import opened CardIdentity

  /** What the sysfs probing produced for one interface. */
  datatype Probe = Probe(interfaceName: string, driverName: string, vendorId: string, deviceId: string)

  /** WifiCardInfo, without the phy index and MAC address read from sysfs. */
  datatype WifiCardInfo = WifiCardInfo(
    interfaceName: string, driverName: string, vendorId: string, deviceId: string,
    detectedType: string, overrideType: string, disabled: bool, effectiveType: string,
    cardName: string, powerMode: string,
    powerLowest: string, powerLow: string, powerMid: string, powerHigh: string, powerMin: string, powerMax: string,
    txPower: string, txPowerHigh: string, txPowerLow: string, powerLevel: string)

  // ------------------------------------------------------------ the result, field by field

  /** The type a card is treated as: the override unless it says DISABLED (any case), else the detected type. */
  function EffectiveType(detected: string, typeOverride: Option<string>): string {
    match typeOverride
    case None => detected
    case Some(t) => if EqualAfterUppercase(t, "DISABLED") then detected else t
  }

  /** The profile at an index, if there is one. */
  function ProfileAt(profiles: seq<WifiCardProfile>, index: Option<nat>): Option<WifiCardProfile> {
    if index.Some? && index.value < |profiles| then Some(profiles[index.value]) else None
  }

  /**
   * The profile used: the override's forced identity when it names both ids and
   * some profile matches them (by its chipset or the detected type, then with an
   * empty hint), else the profile found for the probed ids and the detected type.
   */
  function ProfileIndex(profiles: seq<WifiCardProfile>, vendorId: string, deviceId: string, detected: string,
                        tx: Option<TxPowerOverride>): Option<nat> {
    var probed := FindWifiProfile(profiles, vendorId, deviceId, detected);
    match tx
    case None => probed
    case Some(t) =>
      if t.profileVendorId == [] || t.profileDeviceId == [] then probed
      else
        var hint := if t.profileChipset == [] then detected else t.profileChipset;
        var forced := FindWifiProfile(profiles, t.profileVendorId, t.profileDeviceId, hint);
        var retried := if forced.Some? then forced else FindWifiProfile(profiles, t.profileVendorId, t.profileDeviceId, "");
        if retried.Some? then retried else probed
  }

  /** A FIXED profile (its mode compared in upper case). */
  predicate IsFixed(profile: Option<WifiCardProfile>) {
    profile.Some? && ToUpper(profile.value.powerMode) == "FIXED"
  }

  /** The milliwatt level a selector names, or 0 for any other selector. */
  function SelectedLevel(p: WifiCardProfile, level: string): int {
    if level == "LOWEST" then p.lowestMw
    else if level == "LOW" then p.lowMw
    else if level == "MID" then p.midMw
    else if level == "HIGH" then p.highMw
    else 0
  }

  /**
   * tx_power: empty for a FIXED profile; else the decimal of the selected level
   * when it is positive; else the override's explicit value.
   */
  function TxPowerOf(profile: Option<WifiCardProfile>, tx: Option<TxPowerOverride>): string {
    var explicit := match tx case None => "" case Some(t) => t.txPower;
    if IsFixed(profile) then ""
    else
      var selected := if profile.Some? && tx.Some? then SelectedLevel(profile.value, ToUpper(tx.value.powerLevel)) else 0;
      if selected > 0 then NatToDecimal(selected) else explicit
  }

  /** A bound field: the override's value when set, else the profile's level when positive. */
  function BoundOf(explicit: string, level: Option<int>): string {
    if explicit == [] && level.Some? && level.value > 0 then NatToDecimal(level.value) else explicit
  }

  /** The type override of an interface, if any. */
  function TypeOverrideOf(probe: Probe, overrides: map<string, string>): Option<string> {
    if probe.interfaceName in overrides then Some(overrides[probe.interfaceName]) else None
  }

  /** The transmit-power override of an interface, if any. */
  function TxOf(probe: Probe, txOverrides: map<string, TxPowerOverride>): Option<TxPowerOverride> {
    if probe.interfaceName in txOverrides then Some(txOverrides[probe.interfaceName]) else None
  }

  /** The profile a card resolves to: by its probed ids and detected type, or by the forced identity. */
  function CardProfile(probe: Probe, txOverrides: map<string, TxPowerOverride>, profiles: seq<WifiCardProfile>): Option<WifiCardProfile> {
    ProfileAt(profiles, ProfileIndex(profiles, probe.vendorId, probe.deviceId, DriverToType(probe.driverName), TxOf(probe, txOverrides)))
  }

  /** The probed identity with its detected and effective type; no power fields yet. */
  function TypedCard(probe: Probe, overrides: map<string, string>): WifiCardInfo {
    var detected := DriverToType(probe.driverName);
    var typeOverride := TypeOverrideOf(probe, overrides);
    WifiCardInfo(
      probe.interfaceName, probe.driverName, probe.vendorId, probe.deviceId,
      detected, typeOverride.GetOr(""),
      typeOverride.Some? && EqualAfterUppercase(typeOverride.value, "DISABLED"),
      EffectiveType(detected, typeOverride),
      "", "", "", "", "", "", "", "", "", "", "", "")
  }

  /** The published power fields of a card from its profile and transmit-power override. */
  function PoweredCard(card: WifiCardInfo, profile: Option<WifiCardProfile>, tx: Option<TxPowerOverride>): WifiCardInfo {
    var p := profile.GetOr(WifiCardProfile("", "", "", "", "", 0, 0, 0, 0, 0, 0));
    card.(
      cardName := if tx.Some? && tx.value.cardName != [] then tx.value.cardName else p.name,
      powerMode := p.powerMode,
      powerLowest := ToStringIf(p.lowestMw), powerLow := ToStringIf(p.lowMw), powerMid := ToStringIf(p.midMw),
      powerHigh := ToStringIf(p.highMw), powerMin := ToStringIf(p.minMw), powerMax := ToStringIf(p.maxMw),
      txPower := TxPowerOf(profile, tx),
      txPowerHigh := BoundOf(match tx case None => "" case Some(t) => t.txPowerHigh, if profile.Some? then Some(p.highMw) else None),
      txPowerLow := BoundOf(match tx case None => "" case Some(t) => t.txPowerLow, if profile.Some? then Some(p.lowestMw) else None),
      powerLevel := if IsFixed(profile) then "FIXED" else match tx case None => "" case Some(t) => ToUpper(t.powerLevel))
  }

  /** The card resolved from its probe, the override maps and the catalog. */
  function ResolvedCard(probe: Probe, overrides: map<string, string>, txOverrides: map<string, TxPowerOverride>,
                        profiles: seq<WifiCardProfile>): WifiCardInfo {
    PoweredCard(TypedCard(probe, overrides), CardProfile(probe, txOverrides, profiles), TxOf(probe, txOverrides))
  }

  // ------------------------------------------------------------ build_wifi_card, step by step

  /** The type override step: override_type, disabled and effective_type. */
  method ResolveType(card: WifiCardInfo, overrides: map<string, string>) returns (c: WifiCardInfo)
    ensures var o := if card.interfaceName in overrides then Some(overrides[card.interfaceName]) else None;
      c == card.(overrideType := if o.Some? then o.value else card.overrideType,
                 disabled := card.disabled || (o.Some? && EqualAfterUppercase(o.value, "DISABLED")),
                 effectiveType := EffectiveType(card.detectedType, o))
  {
    c := card;
    if c.interfaceName in overrides {
      c := c.(overrideType := overrides[c.interfaceName]);
      if EqualAfterUppercase(c.overrideType, "DISABLED") {
        c := c.(disabled := true, effectiveType := c.detectedType);
      } else {
        c := c.(effectiveType := c.overrideType);
      }
    } else {
      c := c.(effectiveType := c.detectedType);
    }
  }

  /** The profile lookup, then the forced identity of the transmit-power override. */
  method SelectProfile(profiles: seq<WifiCardProfile>, vendorId: string, deviceId: string, detected: string,
                       tx: Option<TxPowerOverride>) returns (profile: Option<nat>)
    ensures profile == ProfileIndex(profiles, vendorId, deviceId, detected, tx)
  {
    profile := LookupWifiProfile(profiles, vendorId, deviceId, detected);
    if tx.Some? {
      var o := tx.value;
      if o.profileVendorId != [] && o.profileDeviceId != [] {
        var hint := if o.profileChipset == [] then detected else o.profileChipset;
        var found := LookupWifiProfile(profiles, o.profileVendorId, o.profileDeviceId, hint);
        if found.None? {
          found := LookupWifiProfile(profiles, o.profileVendorId, o.profileDeviceId, "");
        }
        if found.Some? {
          profile := found;
        }
      }
    }
  }

  /** The profile's name, mode and level fields. */
  method ApplyProfile(card: WifiCardInfo, p: WifiCardProfile) returns (c: WifiCardInfo)
    ensures c == card.(cardName := if card.cardName == [] then p.name else card.cardName, powerMode := p.powerMode,
      powerLowest := ToStringIf(p.lowestMw), powerLow := ToStringIf(p.lowMw), powerMid := ToStringIf(p.midMw),
      powerHigh := ToStringIf(p.highMw), powerMin := ToStringIf(p.minMw), powerMax := ToStringIf(p.maxMw))
  {
    c := card;
    if c.cardName == [] {
      c := c.(cardName := p.name);
    }
    c := c.(powerMode := p.powerMode);
    c := c.(powerLowest := ToStringIf(p.lowestMw), powerLow := ToStringIf(p.lowMw), powerMid := ToStringIf(p.midMw));
    c := c.(powerHigh := ToStringIf(p.highMw), powerMin := ToStringIf(p.minMw), powerMax := ToStringIf(p.maxMw));
  }

  /** The explicit fields of the transmit-power override, then the upper-cased selector. */
  method ApplyTxOverride(card: WifiCardInfo, t: TxPowerOverride) returns (c: WifiCardInfo)
    ensures c == card.(txPower := t.txPower, txPowerHigh := t.txPowerHigh, txPowerLow := t.txPowerLow,
      cardName := if t.cardName != [] then t.cardName else card.cardName, powerLevel := ToUpper(t.powerLevel))
  {
    c := card.(txPower := t.txPower, txPowerHigh := t.txPowerHigh, txPowerLow := t.txPowerLow);
    if t.cardName != [] {
      c := c.(cardName := t.cardName);
    }
    c := c.(powerLevel := t.powerLevel);
    if c.powerLevel != [] {
      c := c.(powerLevel := ToUpper(c.powerLevel));
    }
  }

  /** The selector step: a positive selected level becomes tx_power. */
  method ApplySelector(card: WifiCardInfo, p: WifiCardProfile) returns (c: WifiCardInfo)
    ensures var selected := SelectedLevel(p, card.powerLevel);
      c == if selected > 0 then card.(txPower := NatToDecimal(selected)) else card
  {
    c := card;
    var level := c.powerLevel;
    var selectedMw := 0;
    if level == "LOWEST" {
      selectedMw := p.lowestMw;
    } else if level == "LOW" {
      selectedMw := p.lowMw;
    } else if level == "MID" {
      selectedMw := p.midMw;
    } else if level == "HIGH" {
      selectedMw := p.highMw;
    }
    if selectedMw > 0 {
      c := c.(txPower := NatToDecimal(selectedMw));
    }
  }

  /** The bound fields: the profile's high and lowest levels where no value was given. */
  method ApplyBounds(card: WifiCardInfo, profile: Option<WifiCardProfile>) returns (c: WifiCardInfo)
    ensures c == card.(txPowerHigh := BoundOf(card.txPowerHigh, if profile.Some? then Some(profile.value.highMw) else None),
                       txPowerLow := BoundOf(card.txPowerLow, if profile.Some? then Some(profile.value.lowestMw) else None))
  {
    c := card;
    if c.txPowerHigh == [] && profile.Some? && profile.value.highMw > 0 {
      c := c.(txPowerHigh := NatToDecimal(profile.value.highMw));
    }
    if c.txPowerLow == [] && profile.Some? && profile.value.lowestMw > 0 {
      c := c.(txPowerLow := NatToDecimal(profile.value.lowestMw));
    }
  }

  /** The profile and override steps, from a card whose power fields are still empty. */
  method ResolvePower(card: WifiCardInfo, profile: Option<WifiCardProfile>, tx: Option<TxPowerOverride>) returns (c: WifiCardInfo)
    requires card.cardName == [] && card.powerMode == [] && card.txPower == [] && card.txPowerHigh == [] &&
             card.txPowerLow == [] && card.powerLevel == []
    requires card.powerLowest == [] && card.powerLow == [] && card.powerMid == [] && card.powerHigh == [] &&
             card.powerMin == [] && card.powerMax == []
    ensures c == PoweredCard(card, profile, tx)
  {
    c := card;
    var fixed := profile.Some? && ToUpper(profile.value.powerMode) == "FIXED";
    if profile.Some? {
      c := ApplyProfile(c, profile.value);
    }
    if tx.Some? {
      c := ApplyTxOverride(c, tx.value);
    }
    if profile.Some? && c.powerLevel != [] && !fixed {
      c := ApplySelector(c, profile.value);
    }
    if fixed {
      c := c.(powerLevel := "FIXED", txPower := "");
    }
    c := ApplyBounds(c, profile);
  }

  /** build_wifi_card from the type classification on. */
  method BuildWifiCard(probe: Probe, overrides: map<string, string>, txOverrides: map<string, TxPowerOverride>,
                       profiles: seq<WifiCardProfile>) returns (card: WifiCardInfo)
    ensures card == ResolvedCard(probe, overrides, txOverrides, profiles)
  {
    card := WifiCardInfo(probe.interfaceName, probe.driverName, probe.vendorId, probe.deviceId,
      "", "", false, "", "", "", "", "", "", "", "", "", "", "", "", "");
    card := card.(detectedType := DriverToType(card.driverName));
    card := ResolveType(card, overrides);
    var tx := if probe.interfaceName in txOverrides then Some(txOverrides[probe.interfaceName]) else None;
    var index := SelectProfile(profiles, card.vendorId, card.deviceId, card.detectedType, tx);
    var profile := ProfileAt(profiles, index);
    card := ResolvePower(card, profile, tx);
  }

  // ------------------------------------------------------------ properties

  /**
   * A DISABLED override (any case) marks the card disabled and keeps the
   * detected type; any other override is the effective type verbatim; without
   * one, the detected driver_to_type classification is used.
   */
  lemma TypeOverrideRules(probe: Probe, overrides: map<string, string>, txOverrides: map<string, TxPowerOverride>,
                          profiles: seq<WifiCardProfile>)
    ensures var c := ResolvedCard(probe, overrides, txOverrides, profiles);
      c.detectedType == DriverToType(probe.driverName) &&
      (probe.interfaceName !in overrides ==> !c.disabled && c.effectiveType == c.detectedType && c.overrideType == "") &&
      (probe.interfaceName in overrides ==> c.overrideType == overrides[probe.interfaceName]) &&
      (probe.interfaceName in overrides && EqualAfterUppercase(overrides[probe.interfaceName], "DISABLED") ==>
         c.disabled && c.effectiveType == c.detectedType && c.effectiveType != "DISABLED") &&
      (probe.interfaceName in overrides && !EqualAfterUppercase(overrides[probe.interfaceName], "DISABLED") ==>
         !c.disabled && c.effectiveType == overrides[probe.interfaceName])
  {
    DriverTypeIsNeverDisabled(probe.driverName);
  }

  /** The power step leaves the identity and type fields as they were. */
  lemma PowerKeepsIdentity(card: WifiCardInfo, profile: Option<WifiCardProfile>, tx: Option<TxPowerOverride>)
    ensures var c := PoweredCard(card, profile, tx);
      c.interfaceName == card.interfaceName && c.driverName == card.driverName &&
      c.vendorId == card.vendorId && c.deviceId == card.deviceId &&
      c.detectedType == card.detectedType && c.overrideType == card.overrideType &&
      c.disabled == card.disabled && c.effectiveType == card.effectiveType
  {
  }

  /** A FIXED profile forces power_level FIXED and an empty tx_power, whatever the override selects. */
  lemma FixedProfileForcesFixed(card: WifiCardInfo, profile: Option<WifiCardProfile>, tx: Option<TxPowerOverride>)
    requires IsFixed(profile)
    ensures var c := PoweredCard(card, profile, tx);
      c.powerLevel == "FIXED" && c.txPower == ""
  {
  }

  /**
   * With a non-FIXED profile and an override selector naming a positive level,
   * tx_power is that level in decimal, whatever explicit value the override gives.
   */
  lemma SelectorSetsTxPower(card: WifiCardInfo, p: WifiCardProfile, t: TxPowerOverride)
    requires !IsFixed(Some(p)) && SelectedLevel(p, ToUpper(t.powerLevel)) > 0
    ensures var level := SelectedLevel(p, ToUpper(t.powerLevel));
      var c := PoweredCard(card, Some(p), Some(t));
      c.txPower == NatToDecimal(level) && DecimalValue(c.txPower) == level && c.powerLevel == ToUpper(t.powerLevel)
  {
    DecimalRoundTrip(SelectedLevel(p, ToUpper(t.powerLevel)));
  }

  /** Without a usable selector, tx_power is the override's explicit value (or empty). */
  lemma ExplicitTxPowerOtherwise(card: WifiCardInfo, profile: Option<WifiCardProfile>, tx: Option<TxPowerOverride>)
    requires !IsFixed(profile)
    requires profile.None? || tx.None? || SelectedLevel(profile.value, ToUpper(tx.value.powerLevel)) <= 0
    ensures PoweredCard(card, profile, tx).txPower == match tx case None => "" case Some(t) => t.txPower
  {
  }

  /**
   * tx_power_high and tx_power_low keep the override's values when given; only
   * when empty are they taken from the profile's positive high and lowest levels.
   */
  lemma BoundsOnlyFillEmpty(card: WifiCardInfo, profile: Option<WifiCardProfile>, tx: Option<TxPowerOverride>)
    ensures var c := PoweredCard(card, profile, tx);
      (tx.Some? && tx.value.txPowerHigh != [] ==> c.txPowerHigh == tx.value.txPowerHigh) &&
      (tx.Some? && tx.value.txPowerLow != [] ==> c.txPowerLow == tx.value.txPowerLow) &&
      ((tx.None? || tx.value.txPowerHigh == []) ==>
         c.txPowerHigh == if profile.Some? && profile.value.highMw > 0 then NatToDecimal(profile.value.highMw) else "") &&
      ((tx.None? || tx.value.txPowerLow == []) ==>
         c.txPowerLow == if profile.Some? && profile.value.lowestMw > 0 then NatToDecimal(profile.value.lowestMw) else "")
  {
  }

  /** A card without a transmit-power override publishes its non-FIXED profile's name, mode and bounds. */
  lemma NoOverrideTakesProfileLevels(card: WifiCardInfo, p: WifiCardProfile)
    requires !IsFixed(Some(p))
    ensures var c := PoweredCard(card, Some(p), None);
      c.txPower == "" && c.powerLevel == "" && c.cardName == p.name && c.powerMode == p.powerMode &&
      c.txPowerHigh == ToStringIf(p.highMw) && c.txPowerLow == ToStringIf(p.lowestMw)
  {
  }

  /** A forced identity missing either id is ignored. */
  lemma ForcedIdentityNeedsBothIds(profiles: seq<WifiCardProfile>, vendorId: string, deviceId: string, detected: string,
                                   t: TxPowerOverride)
    requires t.profileVendorId == [] || t.profileDeviceId == []
    ensures ProfileIndex(profiles, vendorId, deviceId, detected, Some(t)) == FindWifiProfile(profiles, vendorId, deviceId, detected)
  {
  }

  /**
   * A forced identity naming both ids selects the catalog's match for them when
   * there is one, and otherwise leaves the probed profile in place.
   */
  lemma ForcedIdentityWins(profiles: seq<WifiCardProfile>, vendorId: string, deviceId: string, detected: string,
                           t: TxPowerOverride)
    requires t.profileVendorId != [] && t.profileDeviceId != []
    ensures var hint := if t.profileChipset == [] then detected else t.profileChipset;
      var forced := FindWifiProfile(profiles, t.profileVendorId, t.profileDeviceId, hint);
      ProfileIndex(profiles, vendorId, deviceId, detected, Some(t)) ==
        if forced.Some? then forced else FindWifiProfile(profiles, vendorId, deviceId, detected)
  {
    var hint := if t.profileChipset == [] then detected else t.profileChipset;
    FindWifiProfileMatches(profiles, t.profileVendorId, t.profileDeviceId, hint);
    FindWifiProfileMatches(profiles, t.profileVendorId, t.profileDeviceId, "");
  }

  /**
   * The retry with an empty chipset never finds anything the first search missed:
   * find_wifi_profile returns null only when no entry matches vendor and device.
   */
  lemma EmptyHintRetryIsRedundant(profiles: seq<WifiCardProfile>, vendorId: string, deviceId: string, hint: string)
    requires FindWifiProfile(profiles, vendorId, deviceId, hint).None?
    ensures FindWifiProfile(profiles, vendorId, deviceId, "").None?
  {
    FindWifiProfileMatches(profiles, vendorId, deviceId, hint);
    FindWifiProfileMatches(profiles, vendorId, deviceId, "");
  }

  /** Without a forced identity, the card's profile is the one found for its probed ids and detected type. */
  lemma ProbedMatchIsCardProfile(probe: Probe, txOverrides: map<string, TxPowerOverride>, profiles: seq<WifiCardProfile>, k: nat)
    requires FindWifiProfile(profiles, probe.vendorId, probe.deviceId, DriverToType(probe.driverName)) == Some(k)
    requires k < |profiles|
    requires probe.interfaceName in txOverrides ==> txOverrides[probe.interfaceName].profileVendorId == []
    ensures CardProfile(probe, txOverrides, profiles) == Some(profiles[k])
  {
  }

  /** The default LB-Link 8812eu profile. */
  const LbLinkProfile := WifiCardProfile("0x0BDA", "0xA81A", "OPENHD_RTL_88X2EU", "LB-Link 8812eu", "MW", 25, 1000, 25, 100, 500, 1000)

  /** A two-entry catalog whose second entry is the only one with the LB-Link vendor id resolves those ids to it. */
  lemma FindsSecondOfTwo(ps: seq<WifiCardProfile>, vendorId: string, deviceId: string, hint: string)
    requires |ps| == 2 && IdsMatch(ps[1], vendorId, deviceId)
    requires |ps[0].vendorId| > 3 && |vendorId| > 3 && UpperChar(ps[0].vendorId[3]) != UpperChar(vendorId[3])
    ensures FindWifiProfile(ps, vendorId, deviceId, hint) == Some(1)
  {
    FindWifiProfileMatches(ps, vendorId, deviceId, hint);
    DifferAfterUppercase(ps[0].vendorId, vendorId, 3);
  }

  /** The facts about the default catalog the LB-Link search needs. */
  lemma DefaultCatalogShape(profiles: seq<WifiCardProfile>)
    requires profiles == DefaultWifiCardProfiles()
    ensures |profiles| == 2 && profiles[1] == LbLinkProfile && profiles[0].vendorId == "0x02D0"
  {
  }

  /** In a catalog shaped like the default one, the LB-Link ids select the second entry. */
  lemma FindsLbLinkOfTwo(ps: seq<WifiCardProfile>, vendorId: string, deviceId: string, hint: string)
    requires |ps| == 2 && ps[1] == LbLinkProfile && ps[0].vendorId == "0x02D0"
    requires EqualAfterUppercase(vendorId, "0x0BDA") && EqualAfterUppercase(deviceId, "0xA81A")
    ensures FindWifiProfile(ps, vendorId, deviceId, hint) == Some(1)
  {
    assert |vendorId| == 6 && UpperChar(vendorId[3]) == 'B' by {
      assert ToUpper(vendorId)[3] == ToUpper("0x0BDA")[3];
    }
    assert UpperChar(ps[0].vendorId[3]) == '2';
    FindsSecondOfTwo(ps, vendorId, deviceId, hint);
  }

  /** The default catalog resolves the LB-Link ids, in any case and with any hint, to its second profile. */
  lemma DefaultCatalogFindsLbLink(profiles: seq<WifiCardProfile>, vendorId: string, deviceId: string, hint: string)
    requires profiles == DefaultWifiCardProfiles()
    requires EqualAfterUppercase(vendorId, "0x0BDA") && EqualAfterUppercase(deviceId, "0xA81A")
    ensures FindWifiProfile(profiles, vendorId, deviceId, hint) == Some(1) && profiles[1] == LbLinkProfile
  {
    DefaultCatalogShape(profiles);
    FindsLbLinkOfTwo(profiles, vendorId, deviceId, hint);
  }

  /**
   * The LB-Link profile without a transmit-power override: no tx_power, and the
   * bounds from the profile's high (1000) and lowest (25) levels.
   */
  lemma LbLinkCardWithoutOverride(card: WifiCardInfo)
    ensures var c := PoweredCard(card, Some(LbLinkProfile), None);
      c.cardName == "LB-Link 8812eu" && c.powerMode == "MW" && c.powerLevel == "" &&
      c.txPower == "" && c.txPowerHigh == "1000" && c.txPowerLow == "25"
  {
    UpperOfNoLower("MW");
    NoOverrideTakesProfileLevels(card, LbLinkProfile);
  }

  /** The LB-Link profile with the selector `high` and no other override field: tx_power is 1000. */
  lemma LbLinkCardWithHighSelector(card: WifiCardInfo)
    ensures var c := PoweredCard(card, Some(LbLinkProfile), Some(NoTxOverride.(powerLevel := "high")));
      c.powerLevel == "HIGH" && c.txPower == "1000" && c.txPowerHigh == "1000" && c.txPowerLow == "25"
  {
    UpperOfNoLower("MW");
    assert ToUpper("high") == "HIGH";
    SelectorSetsTxPower(card, LbLinkProfile, NoTxOverride.(powerLevel := "high"));
    BoundsOnlyFillEmpty(card, Some(LbLinkProfile), Some(NoTxOverride.(powerLevel := "high")));
  }

  /** The scenario's typing step: the 88X2EU family, enabled, with no override. */
  lemma LbLinkScenarioType(probe: Probe)
    requires probe.driverName == "rtl88x2eu_ohd"
    ensures var c := TypedCard(probe, map[]);
      c.detectedType == "OPENHD_RTL_88X2EU" && c.effectiveType == "OPENHD_RTL_88X2EU" && !c.disabled
  {
    Rtl88x2euIsClassifiedAs88x2eu();
  }

  /** Without overrides, a card with the LB-Link ids resolves to the LB-Link profile of a default-shaped catalog. */
  lemma LbLinkScenarioProfile(probe: Probe, profiles: seq<WifiCardProfile>)
    requires |profiles| == 2 && profiles[1] == LbLinkProfile && profiles[0].vendorId == "0x02D0"
    requires EqualAfterUppercase(probe.vendorId, "0x0BDA") && EqualAfterUppercase(probe.deviceId, "0xA81A")
    ensures CardProfile(probe, map[], profiles) == Some(LbLinkProfile)
  {
    FindsLbLinkOfTwo(profiles, probe.vendorId, probe.deviceId, DriverToType(probe.driverName));
    ProbedMatchIsCardProfile(probe, map[], profiles, 1);
  }

  /**
   * The LB-Link scenario end to end: an rtl88x2eu_ohd card with the LB-Link ids, no
   * overrides and the default catalog is of the 88X2EU family, in MW mode, with no
   * tx_power and bounds 1000 and 25.
   */
  lemma LbLinkScenario(probe: Probe, profiles: seq<WifiCardProfile>)
    requires profiles == DefaultWifiCardProfiles()
    requires probe.driverName == "rtl88x2eu_ohd"
    requires EqualAfterUppercase(probe.vendorId, "0x0BDA") && EqualAfterUppercase(probe.deviceId, "0xA81A")
    ensures var c := ResolvedCard(probe, map[], map[], profiles);
      c.detectedType == "OPENHD_RTL_88X2EU" && c.effectiveType == "OPENHD_RTL_88X2EU" && !c.disabled &&
      c.powerMode == "MW" && c.txPower == "" && c.txPowerHigh == "1000" && c.txPowerLow == "25"
  {
    var typed := TypedCard(probe, map[]);
    LbLinkScenarioType(probe);
    DefaultCatalogShape(profiles);
    LbLinkScenarioProfile(probe, profiles);
    assert ResolvedCard(probe, map[], map[], profiles) == PoweredCard(typed, Some(LbLinkProfile), None);
    LbLinkCardWithoutOverride(typed);
    PowerKeepsIdentity(typed, Some(LbLinkProfile), None);
  }
}
