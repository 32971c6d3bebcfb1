/**
 * Request handling in src/sysutil_wifi.cpp: the override-store mutations of
 * handle_wifi_update, the card filter of has_openhd_wifibroadcast_cards, and
 * the validation step of handle_link_control_request.
 *
 * The stores are the in-memory maps load_overrides and load_tx_power_overrides
 * return; whether writing a store succeeds is a parameter, and the outcome
 * says which stores were written and whether the inventory is refreshed.
 */
module WifiRequests {
  import opened Wrappers
  import opened Text
  import opened OverrideStores
  import opened CardIdentity
  import opened ProfileCatalog
  import opened CardResolution

  // ------------------------------------------------------------ handle_wifi_update

  /** The string fields of an update request, as extract_string_field returns them. */
  datatype UpdateRequest = UpdateRequest(
    action: Option<string>, iface: Option<string>, overrideType: Option<string>,
    txPower: Option<string>, txPowerHigh: Option<string>, txPowerLow: Option<string>,
    cardName: Option<string>, powerLevel: Option<string>,
    profileVendorId: Option<string>, profileDeviceId: Option<string>, profileChipset: Option<string>)

  /**
   * What handling a request leaves behind: its ok flag, the two stores (as
   * written, when they are written), which stores were written, and whether
   * the card inventory is refreshed.
   */
  datatype UpdateOutcome = UpdateOutcome(
    ok: bool, overrides: map<string, string>, txOverrides: map<string, TxPowerOverride>,
    wroteOverrides: bool, wroteTxOverrides: bool, refreshed: bool)

  /** A value that switches a setting back to automatic. */
  predicate IsAuto(v: string) {
    v == [] || EqualAfterUppercase(v, "AUTO")
  }

  /** The request names some transmit-power field. */
  predicate HasTxField(r: UpdateRequest) {
    r.txPower.Some? || r.txPowerHigh.Some? || r.txPowerLow.Some? || r.cardName.Some? ||
    r.powerLevel.Some? || r.profileVendorId.Some? || r.profileDeviceId.Some? || r.profileChipset.Some?
  }

  /** The request names some forced-identity field. */
  predicate HasProfileField(r: UpdateRequest) {
    r.profileVendorId.Some? || r.profileDeviceId.Some? || r.profileChipset.Some?
  }

  /** The type store after a set request's override_type. */
  function TypeStoreAfter(overrides: map<string, string>, iface: string, value: Option<string>): map<string, string> {
    match value
    case None => overrides
    case Some(v) => if IsAuto(v) then overrides - {iface} else overrides[iface := v]
  }

  /**
   * A power entry after a set request: given fields replace the stored ones; a
   * given power_level (a selector) clears the three explicit values; a forced
   * identity is stored normalised, or cleared unless both ids are given.
   */
  function UpdatedEntry(e: TxPowerOverride, r: UpdateRequest): TxPowerOverride {
    var selectorGiven := r.powerLevel.Some?;
    var identity := ForcedIdentity(e, r);
    TxPowerOverride(
      if selectorGiven then "" else r.txPower.GetOr(e.txPower),
      if selectorGiven then "" else r.txPowerHigh.GetOr(e.txPowerHigh),
      if selectorGiven then "" else r.txPowerLow.GetOr(e.txPowerLow),
      r.cardName.GetOr(e.cardName),
      match r.powerLevel
      case None => e.powerLevel
      case Some(v) => if IsAuto(v) then "" else ToUpper(TrimCopy(v)),
      identity.0, identity.1, identity.2)
  }

  /** The forced identity (vendor id, device id, chipset) of an entry after a set request. */
  function ForcedIdentity(e: TxPowerOverride, r: UpdateRequest): (string, string, string) {
    var vendor := r.profileVendorId.GetOr("");
    var device := r.profileDeviceId.GetOr("");
    if !HasProfileField(r) then (e.profileVendorId, e.profileDeviceId, e.profileChipset)
    else if vendor == [] || device == [] then ("", "", "")
    else (NormalizeId(vendor), NormalizeId(device), NormalizeChipset(r.profileChipset.GetOr("")))
  }

  /** The power store after a set request: the updated entry, or no entry once it holds no value. */
  function TxStoreAfter(tx: map<string, TxPowerOverride>, iface: string, r: UpdateRequest): map<string, TxPowerOverride> {
    if !HasTxField(r) then tx
    else
      var e := UpdatedEntry(if iface in tx then tx[iface] else NoTxOverride, r);
      if HasTxPowerValues(e) then tx[iface := e] else tx - {iface}
  }

  /** The outcome of handle_wifi_update, given whether each store write succeeds. */
  function UpdateResult(r: UpdateRequest, overrides: map<string, string>, tx: map<string, TxPowerOverride>,
                        overridesWriteOk: bool, txWriteOk: bool): (out: UpdateOutcome)
    ensures out.refreshed == out.ok
  {
    var action := r.action.GetOr("refresh");
    if action == "set" then
      if r.iface.None? || r.iface.value == [] then UpdateOutcome(false, overrides, tx, false, false, false)
      else
        var iface := r.iface.value;
        var typeGiven := r.overrideType.Some?;
        var txGiven := HasTxField(r);
        var ok := (!typeGiven || overridesWriteOk) && (!txGiven || txWriteOk);
        UpdateOutcome(ok, TypeStoreAfter(overrides, iface, r.overrideType), TxStoreAfter(tx, iface, r),
                      typeGiven, txGiven, ok)
    else if action == "clear" then
      var named := r.iface.Some? && r.iface.value != [];
      var ok := overridesWriteOk && txWriteOk;
      UpdateOutcome(ok,
                    if named then overrides - {r.iface.value} else map[],
                    if named then tx - {r.iface.value} else map[],
                    true, overridesWriteOk, ok)
    else if action == "refresh" || action == "detect" then UpdateOutcome(true, overrides, tx, false, false, true)
    else UpdateOutcome(false, overrides, tx, false, false, false)
  }

  /** The explicit values and the card name a set request gives. */
  method AssignGivenFields(entry: TxPowerOverride, r: UpdateRequest) returns (e: TxPowerOverride)
    ensures e == entry.(txPower := r.txPower.GetOr(entry.txPower), txPowerHigh := r.txPowerHigh.GetOr(entry.txPowerHigh),
                        txPowerLow := r.txPowerLow.GetOr(entry.txPowerLow), cardName := r.cardName.GetOr(entry.cardName))
  {
    e := entry;
    if r.txPower.Some? {
      e := e.(txPower := r.txPower.value);
    }
    if r.txPowerHigh.Some? {
      e := e.(txPowerHigh := r.txPowerHigh.value);
    }
    if r.txPowerLow.Some? {
      e := e.(txPowerLow := r.txPowerLow.value);
    }
    if r.cardName.Some? {
      e := e.(cardName := r.cardName.value);
    }
  }

  /** The selector a set request gives, which clears the explicit values. */
  method AssignSelector(entry: TxPowerOverride, r: UpdateRequest) returns (e: TxPowerOverride)
    ensures e == match r.powerLevel
      case None => entry
      case Some(v) => entry.(powerLevel := if IsAuto(v) then "" else ToUpper(TrimCopy(v)),
                             txPower := "", txPowerHigh := "", txPowerLow := "")
  {
    e := entry;
    if r.powerLevel.Some? {
      var v := r.powerLevel.value;
      if v == [] || EqualAfterUppercase(v, "AUTO") {
        e := e.(powerLevel := "");
      } else {
        e := e.(powerLevel := ToUpper(TrimCopy(v)));
      }
      e := e.(txPower := "", txPowerHigh := "", txPowerLow := "");
    }
  }

  /** The forced identity a set request gives. */
  method AssignForcedIdentity(entry: TxPowerOverride, r: UpdateRequest) returns (e: TxPowerOverride)
    ensures var identity := ForcedIdentity(entry, r);
      e == entry.(profileVendorId := identity.0, profileDeviceId := identity.1, profileChipset := identity.2)
  {
    e := entry;
    if r.profileVendorId.Some? || r.profileDeviceId.Some? || r.profileChipset.Some? {
      var vendor := r.profileVendorId.GetOr("");
      var device := r.profileDeviceId.GetOr("");
      var chipset := r.profileChipset.GetOr("");
      if vendor == [] || device == [] {
        e := e.(profileVendorId := "", profileDeviceId := "", profileChipset := "");
      } else {
        e := e.(profileVendorId := NormalizeId(vendor), profileDeviceId := NormalizeId(device),
                profileChipset := NormalizeChipset(chipset));
      }
    }
  }

  /** The field assignments of a set request to one power entry, in the source's order. */
  method ApplyTxFields(entry: TxPowerOverride, r: UpdateRequest) returns (e: TxPowerOverride)
    ensures e == UpdatedEntry(entry, r)
  {
    e := AssignGivenFields(entry, r);
    e := AssignSelector(e, r);
    e := AssignForcedIdentity(e, r);
  }

  /** The override_type step of a set request. */
  method SetTypeOverride(overridesIn: map<string, string>, iface: string, value: Option<string>)
    returns (overrides: map<string, string>)
    ensures overrides == TypeStoreAfter(overridesIn, iface, value)
  {
    overrides := overridesIn;
    if value.Some? {
      var v := value.value;
      if v == [] || EqualAfterUppercase(v, "AUTO") {
        overrides := overrides - {iface};
      } else {
        overrides := overrides[iface := v];
      }
    }
  }

  /** The transmit-power step of a set request that names some power field. */
  method SetTxOverride(txIn: map<string, TxPowerOverride>, iface: string, r: UpdateRequest)
    returns (tx: map<string, TxPowerOverride>)
    requires HasTxField(r)
    ensures tx == TxStoreAfter(txIn, iface, r)
  {
    tx := txIn;
    var entry := if iface in tx then tx[iface] else NoTxOverride;
    tx := tx[iface := entry];
    entry := ApplyTxFields(entry, r);
    tx := tx[iface := entry];
    if !HasTxPowerValues(entry) {
      tx := tx - {iface};
    }
  }

  /** The set action on a non-empty interface name. */
  method ApplySet(r: UpdateRequest, iface: string, overridesIn: map<string, string>, txIn: map<string, TxPowerOverride>,
                  overridesWriteOk: bool, txWriteOk: bool)
    returns (ok: bool, overrides: map<string, string>, tx: map<string, TxPowerOverride>, wroteOverrides: bool, wroteTx: bool)
    ensures overrides == TypeStoreAfter(overridesIn, iface, r.overrideType) && tx == TxStoreAfter(txIn, iface, r)
    ensures wroteOverrides == r.overrideType.Some? && wroteTx == HasTxField(r)
    ensures ok == ((!wroteOverrides || overridesWriteOk) && (!wroteTx || txWriteOk))
  {
    ok := true;
    overrides := overridesIn;
    tx := txIn;
    wroteOverrides := false;
    wroteTx := false;
    if r.overrideType.Some? {
      overrides := SetTypeOverride(overrides, iface, r.overrideType);
      wroteOverrides := true;
      ok := overridesWriteOk && ok;
    }
    if r.txPower.Some? || r.txPowerHigh.Some? || r.txPowerLow.Some? || r.cardName.Some? ||
       r.powerLevel.Some? || r.profileVendorId.Some? || r.profileDeviceId.Some? || r.profileChipset.Some? {
      tx := SetTxOverride(tx, iface, r);
      wroteTx := true;
      ok := txWriteOk && ok;
    }
  }

  /** handle_wifi_update without the request parsing, the file access and the JSON response. */
  method HandleWifiUpdate(r: UpdateRequest, overridesIn: map<string, string>, txIn: map<string, TxPowerOverride>,
                          overridesWriteOk: bool, txWriteOk: bool) returns (out: UpdateOutcome)
    ensures out == UpdateResult(r, overridesIn, txIn, overridesWriteOk, txWriteOk)
  {
    var action := r.action.GetOr("refresh");
    var ok := true;
    var overrides := overridesIn;
    var tx := txIn;
    var wroteOverrides := false;
    var wroteTx := false;
    if action == "set" {
      if r.iface.None? || r.iface.value == [] {
        ok := false;
      } else {
        ok, overrides, tx, wroteOverrides, wroteTx := ApplySet(r, r.iface.value, overrides, tx, overridesWriteOk, txWriteOk);
      }
    } else if action == "clear" {
      if r.iface.Some? && r.iface.value != [] {
        overrides := overrides - {r.iface.value};
        tx := tx - {r.iface.value};
      } else {
        overrides := map[];
        tx := map[];
      }
      wroteOverrides := true;
      ok := overridesWriteOk;
      if ok {
        wroteTx := true;
        ok := txWriteOk;
      }
    } else if action == "refresh" || action == "detect" {
      ok := true;
    } else {
      ok := false;
    }
    out := UpdateOutcome(ok, overrides, tx, wroteOverrides, wroteTx, ok);
  }

  // ------------------------------------------------------------ properties of the update rules

  /** A set request without a non-empty interface name fails and changes, writes and refreshes nothing. */
  lemma SetNeedsInterface(r: UpdateRequest, overrides: map<string, string>, tx: map<string, TxPowerOverride>,
                          overridesWriteOk: bool, txWriteOk: bool)
    requires r.action == Some("set") && (r.iface.None? || r.iface.value == [])
    ensures var out := UpdateResult(r, overrides, tx, overridesWriteOk, txWriteOk);
      !out.ok && !out.refreshed && !out.wroteOverrides && !out.wroteTxOverrides &&
      out.overrides == overrides && out.txOverrides == tx
  {
  }

  /** An unknown action fails and changes, writes and refreshes nothing; refresh and detect always succeed. */
  lemma ActionRules(r: UpdateRequest, overrides: map<string, string>, tx: map<string, TxPowerOverride>,
                    overridesWriteOk: bool, txWriteOk: bool)
    ensures var out := UpdateResult(r, overrides, tx, overridesWriteOk, txWriteOk);
      var action := r.action.GetOr("refresh");
      (action != "set" && action != "clear" && action != "refresh" && action != "detect" ==>
         !out.ok && !out.refreshed && !out.wroteOverrides && !out.wroteTxOverrides &&
         out.overrides == overrides && out.txOverrides == tx) &&
      (action == "refresh" || action == "detect" ==>
         out.ok && out.refreshed && !out.wroteOverrides && !out.wroteTxOverrides &&
         out.overrides == overrides && out.txOverrides == tx)
  {
  }

  /** A request without an action is a refresh. */
  lemma MissingActionRefreshes(r: UpdateRequest, overrides: map<string, string>, tx: map<string, TxPowerOverride>,
                               overridesWriteOk: bool, txWriteOk: bool)
    requires r.action.None?
    ensures var out := UpdateResult(r, overrides, tx, overridesWriteOk, txWriteOk);
      out.ok && out.refreshed && out.overrides == overrides && out.txOverrides == tx
  {
  }

  /**
   * An empty or AUTO override_type (any case) erases the interface's type
   * override; any other value is stored verbatim; other interfaces keep theirs.
   */
  lemma TypeStoreRules(overrides: map<string, string>, iface: string, v: string)
    ensures var m := TypeStoreAfter(overrides, iface, Some(v));
      (IsAuto(v) ==> iface !in m) && (!IsAuto(v) ==> iface in m && m[iface] == v) &&
      (forall k :: k != iface ==> (k in m <==> k in overrides) && (k in m ==> m[k] == overrides[k]))
  {
  }

  /**
   * Supplying power_level clears tx_power, tx_power_high and tx_power_low; an
   * empty or AUTO value clears the selector, any other is stored trimmed and in
   * upper case.
   */
  lemma SelectorClearsExplicitValues(e: TxPowerOverride, r: UpdateRequest)
    requires r.powerLevel.Some?
    ensures var u := UpdatedEntry(e, r);
      u.txPower == "" && u.txPowerHigh == "" && u.txPowerLow == "" &&
      (IsAuto(r.powerLevel.value) ==> u.powerLevel == "") &&
      (!IsAuto(r.powerLevel.value) ==>
         u.powerLevel == ToUpper(TrimCopy(r.powerLevel.value)) && IsTrimmed(u.powerLevel) && ToUpper(u.powerLevel) == u.powerLevel)
  {
    ToUpperKeepsTrimmed(TrimCopy(r.powerLevel.value));
    ToUpperIdempotent(TrimCopy(r.powerLevel.value));
  }

  /**
   * A forced identity missing the vendor or the device id clears all three
   * profile fields; with both, the ids are stored canonical and the chipset
   * normalised.
   */
  lemma ForcedIdentityRules(e: TxPowerOverride, r: UpdateRequest)
    requires HasProfileField(r)
    ensures var u := UpdatedEntry(e, r);
      (r.profileVendorId.GetOr("") == [] || r.profileDeviceId.GetOr("") == [] ==>
         u.profileVendorId == "" && u.profileDeviceId == "" && u.profileChipset == "") &&
      (r.profileVendorId.GetOr("") != [] && r.profileDeviceId.GetOr("") != [] ==>
         u.profileVendorId == NormalizeId(r.profileVendorId.value) && u.profileDeviceId == NormalizeId(r.profileDeviceId.value) &&
         IsCanonicalId(u.profileVendorId) && IsCanonicalId(u.profileDeviceId) &&
         IsTrimmed(u.profileChipset) && ToUpper(u.profileChipset) == u.profileChipset)
  {
    if r.profileVendorId.GetOr("") != [] && r.profileDeviceId.GetOr("") != [] {
      NormalizeIdShape(r.profileVendorId.value);
      NormalizeIdShape(r.profileDeviceId.value);
    }
  }

  /** Fields the request does not name keep their stored values. */
  lemma UnnamedFieldsKept(e: TxPowerOverride, r: UpdateRequest)
    ensures var u := UpdatedEntry(e, r);
      (r.cardName.None? ==> u.cardName == e.cardName) &&
      (r.powerLevel.None? ==> u.powerLevel == e.powerLevel) &&
      (r.powerLevel.None? && r.txPower.None? ==> u.txPower == e.txPower) &&
      (r.powerLevel.None? && r.txPowerHigh.None? ==> u.txPowerHigh == e.txPowerHigh) &&
      (r.powerLevel.None? && r.txPowerLow.None? ==> u.txPowerLow == e.txPowerLow) &&
      (!HasProfileField(r) ==>
         u.profileVendorId == e.profileVendorId && u.profileDeviceId == e.profileDeviceId && u.profileChipset == e.profileChipset)
  {
  }

  /** Every entry of the power store holds some value (has_tx_power_values). */
  predicate IsPruned(tx: map<string, TxPowerOverride>) {
    forall k :: k in tx ==> HasTxPowerValues(tx[k])
  }

  /**
   * A set request keeps the power store pruned: the interface has an entry
   * afterwards exactly when its updated entry holds a value, and other
   * interfaces keep theirs.
   */
  lemma SetKeepsStorePruned(tx: map<string, TxPowerOverride>, iface: string, r: UpdateRequest)
    requires IsPruned(tx) && HasTxField(r)
    ensures var m := TxStoreAfter(tx, iface, r);
      var e := UpdatedEntry(if iface in tx then tx[iface] else NoTxOverride, r);
      IsPruned(m) && (iface in m <==> e != NoTxOverride) && (iface in m ==> m[iface] == e) &&
      (forall k :: k != iface ==> (k in m <==> k in tx) && (k in m ==> m[k] == tx[k]))
  {
  }

  /**
   * Clearing one interface removes it from both stores and keeps the other
   * interfaces; clearing without an interface empties both. The power store is
   * written only after the type store was written successfully.
   */
  lemma ClearRules(r: UpdateRequest, overrides: map<string, string>, tx: map<string, TxPowerOverride>,
                   overridesWriteOk: bool, txWriteOk: bool)
    requires r.action == Some("clear")
    ensures var out := UpdateResult(r, overrides, tx, overridesWriteOk, txWriteOk);
      out.ok == (overridesWriteOk && txWriteOk) && out.wroteOverrides && out.wroteTxOverrides == overridesWriteOk &&
      (r.iface.Some? && r.iface.value != [] ==>
         r.iface.value !in out.overrides && r.iface.value !in out.txOverrides &&
         (forall k :: k != r.iface.value ==> (k in out.overrides <==> k in overrides) && (k in out.txOverrides <==> k in tx))) &&
      (r.iface.None? || r.iface.value == [] ==> out.overrides == map[] && out.txOverrides == map[])
  {
  }

  /** A successful set writes exactly the stores the request names and both writes succeeded. */
  lemma SetOkMeansWritesSucceeded(r: UpdateRequest, overrides: map<string, string>, tx: map<string, TxPowerOverride>,
                                  overridesWriteOk: bool, txWriteOk: bool)
    requires r.action == Some("set") && r.iface.Some? && r.iface.value != []
    ensures var out := UpdateResult(r, overrides, tx, overridesWriteOk, txWriteOk);
      out.wroteOverrides == r.overrideType.Some? && out.wroteTxOverrides == HasTxField(r) &&
      (out.ok <==> (out.wroteOverrides ==> overridesWriteOk) && (out.wroteTxOverrides ==> txWriteOk))
  {
  }

  // ------------------------------------------------------------ has_openhd_wifibroadcast_cards

  /** A card that is enabled and of the wifibroadcast family. */
  predicate IsUsableWifibroadcastCard(card: WifiCardInfo) {
    !card.disabled && IsOpenhdWifibroadcastType(card.effectiveType)
  }

  /** has_openhd_wifibroadcast_cards over the card inventory. */
  method HasOpenhdWifibroadcastCards(cards: seq<WifiCardInfo>) returns (found: bool)
    ensures found <==> exists i :: 0 <= i < |cards| && IsUsableWifibroadcastCard(cards[i])
  {
    var i := 0;
    while i < |cards|
      invariant 0 <= i <= |cards|
      invariant forall j :: 0 <= j < i ==> !IsUsableWifibroadcastCard(cards[j])
    {
      if cards[i].disabled {
        i := i + 1;
        continue;
      }
      if IsOpenhdWifibroadcastType(cards[i].effectiveType) {
        return true;
      }
      i := i + 1;
    }
    return false;
  }

  /** A card switched off by a DISABLED override never counts, whatever its driver. */
  lemma DisabledCardNeverCounts(probe: Probe, overrides: map<string, string>, txOverrides: map<string, TxPowerOverride>,
                                profiles: seq<WifiCardProfile>)
    requires probe.interfaceName in overrides && EqualAfterUppercase(overrides[probe.interfaceName], "DISABLED")
    ensures !IsUsableWifibroadcastCard(ResolvedCard(probe, overrides, txOverrides, profiles))
  {
    CardResolution.TypeOverrideRules(probe, overrides, txOverrides, profiles);
  }

  /**
   * A card whose type override is an OPENHD_ type counts: the override, once trimmed and
   * upper-cased, starts with OPENHD_, in whatever case and with whatever surrounding white space it was stored.
   */
  lemma OpenhdOverrideCounts(probe: Probe, overrides: map<string, string>, txOverrides: map<string, TxPowerOverride>,
                             profiles: seq<WifiCardProfile>)
    requires probe.interfaceName in overrides
    requires StartsWith(ToUpper(TrimCopy(overrides[probe.interfaceName])), "OPENHD_")
    ensures IsUsableWifibroadcastCard(ResolvedCard(probe, overrides, txOverrides, profiles))
  {
    var o := overrides[probe.interfaceName];
    OverrideIsNotDisabled(o);
    CardResolution.TypeOverrideRules(probe, overrides, txOverrides, profiles);
    OpenhdTestIsPrefixTest(o);
  }

  /** An override whose trimmed, upper-cased form starts with OPENHD_ is not DISABLED. */
  lemma OverrideIsNotDisabled(o: string)
    requires StartsWith(ToUpper(TrimCopy(o)), "OPENHD_")
    ensures !EqualAfterUppercase(o, "DISABLED")
  {
    var d := ToUpper("DISABLED");
    assert d[0] == 'D';
    TrimCopyKeepsHead(d);
    var u := ToUpper(TrimCopy(o));
    assert u[..7] == "OPENHD_";
    assert u[0] == 'O';
    TrimCopyUpper(o);
    assert TrimCopy(ToUpper(o)) == u;
    assert TrimCopy(d)[0] != u[0];
  }

  /** In particular OPENHD_ followed by any name counts. */
  lemma OpenhdPrefixedOverrideCounts(probe: Probe, overrides: map<string, string>, txOverrides: map<string, TxPowerOverride>,
                                     profiles: seq<WifiCardProfile>, name: string)
    requires probe.interfaceName in overrides && overrides[probe.interfaceName] == "OPENHD_" + name
    ensures IsUsableWifibroadcastCard(ResolvedCard(probe, overrides, txOverrides, profiles))
  {
    OpenhdPrefixedIsInFamily(name);
    OpenhdTestIsPrefixTest("OPENHD_" + name);
    OpenhdOverrideCounts(probe, overrides, txOverrides, profiles);
  }

  // ------------------------------------------------------------ handle_link_control_request validation

  /** The fields of a link-control request, as the protocol extractors return them. */
  datatype LinkRequest = LinkRequest(
    iface: Option<string>, frequencyMhz: Option<int>, channelWidthMhz: Option<int>, mcsIndex: Option<int>,
    txPowerMw: Option<int>, txPowerIndex: Option<int>, powerLevel: Option<string>)

  /** The verdict of the validation step, with the message of each rejection. */
  datatype LinkVerdict = NoRfValues | WidthDisabled | Forward {
    function Message(): string {
      match this
      case NoRfValues => "No RF values provided."
      case WidthDisabled => "40 MHz channel width is disabled."
      case Forward => ""
    }
  }

  /** The request carries something to forward: a non-empty interface or selector, or any number. */
  predicate HasRfValue(r: LinkRequest) {
    (r.iface.Some? && r.iface.value != []) || r.frequencyMhz.Some? || r.channelWidthMhz.Some? ||
    r.mcsIndex.Some? || r.txPowerMw.Some? || r.txPowerIndex.Some? || (r.powerLevel.Some? && r.powerLevel.value != [])
  }

  /** The validation step of handle_link_control_request. */
  method ValidateLinkControl(r: LinkRequest) returns (v: LinkVerdict)
    ensures v == NoRfValues <==> !HasRfValue(r)
    ensures v == WidthDisabled <==> HasRfValue(r) && r.channelWidthMhz == Some(40)
    ensures v == Forward <==> HasRfValue(r) && r.channelWidthMhz != Some(40)
  {
    var hasValue := false;
    hasValue := hasValue || (r.iface.Some? && r.iface.value != []);
    hasValue := hasValue || r.frequencyMhz.Some?;
    hasValue := hasValue || r.channelWidthMhz.Some?;
    hasValue := hasValue || r.mcsIndex.Some?;
    hasValue := hasValue || r.txPowerMw.Some?;
    hasValue := hasValue || r.txPowerIndex.Some?;
    hasValue := hasValue || (r.powerLevel.Some? && r.powerLevel.value != []);
    if !hasValue {
      v := NoRfValues;
    } else if r.channelWidthMhz.Some? && r.channelWidthMhz.value == 40 {
      v := WidthDisabled;
    } else {
      v := Forward;
    }
  }
}
