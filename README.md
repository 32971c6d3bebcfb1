# Wi-Fi card inventory and power-profile resolution

A Dafny model of the card-inventory engine of the system utility's Wi-Fi module
(`src/sysutil_wifi.cpp`). The module detects wireless adapters, classifies them by
driver and resolves, per adapter, the effective type, the hardware profile and the
power fields it publishes. It persists operator overrides in two small text stores
and applies the `set`, `clear`, `refresh` and `detect` update requests to them.
The model separates that logic from the filesystem, the control socket and the
global card cache:

- `wrappers.dfy` (`Wrappers`): the `Option` type the lookups return.
- `text.dfy` (`Text`): the string normalisers.
  - `trim_copy`, `to_upper`, `equal_after_uppercase`, `contains_after_uppercase`.
  - `normalize_id` (canonical `0x` plus upper-case id) and `normalize_chipset`.
  - `to_string_if`, with a decimal rendering of naturals standing in for `std::to_string`.
  - `json_escape`.
  - The line splitting and joining the stores use.
- `scanner.dfy` (`DocumentScanner`): the depth-, quote- and escape-tracking scanners `extract_array_objects` and `extract_object_field`, as loops over a string.
- `stores.dfy` (`OverrideStores`): the type-override store (`iface=value` lines) and the transmit-power store (`iface.field=value` lines).
  - Loaders and writers work over document text.
  - Includes `has_tx_power_values`.
- `profiles.dfy` (`ProfileCatalog`): the catalog.
  - The per-entry handling of `load_wifi_card_profiles`: FIXED zeroing, the `levels_mw` fallback and the ordered `first_positive` synthesis.
  - The document-level fallback to `default_wifi_card_profiles`.
  - The priority matching of `find_wifi_profile`.
- `identity.dfy` (`CardIdentity`): the driver classifier and identity filling.
  - `driver_to_type`, an exact table followed by a substring table, and `is_openhd_wifibroadcast_type`.
  - The fixed-width `PCI_ID=`/`PRODUCT=` and `pci:v`/`usb:v` scans of `fill_vendor_device_from_uevent` and `fill_vendor_device_from_modalias`.
  - The six-level ancestor walk of `fill_vendor_device_from_sysfs`, over a sequence of per-directory attribute records.
- `cards.dfy` (`CardResolution`): the resolution part of `build_wifi_card`, as a method that updates a card record step by step.
  - Its specification is the composition of a typing step (`TypedCard`) and a power step (`PoweredCard`).
  - Covers the type override, the profile choice (including the forced profile identity) and the power fields.
- `requests.dfy` (`WifiRequests`): request handling.
  - The store mutations of `handle_wifi_update` on in-memory maps.
  - The aggregate filter of `has_openhd_wifibroadcast_cards`.
  - The validation step of `handle_link_control_request`.

Loops of the source are methods proved against specification functions. Here are the
properties proved about those functions, with examples:

- `normalize_id` is idempotent and its output is canonical. For example `"0bda"`, `"0x0bda"` and `"0X0BDA"` all give `"0x0BDA"`.
- `find_wifi_profile` returns, in this order of preference:
  1. the first match whose chipset equals the hint;
  2. otherwise the first match with an empty chipset;
  3. otherwise the first vendor/device match.
- Level synthesis never changes a positive level, and it fills the whole ladder from any one of lowest, low, mid or high.
- The scanners only return brace-delimited substrings of their input, and quoted text is transparent to them.
- Writing either store and loading the text back gives the store back. For the power store this holds minus the entries without values.
- A `DISABLED` override never becomes the effective type.
- A FIXED profile forces `power_level` FIXED and an empty `tx_power`.
- A selector picks the profile's level.
- The update rules keep the power store pruned.

## Model

| member | source | states |
|---|---|---|
| Text.TrimCopy | src/sysutil_wifi.cpp:88-95 | the result has no leading or trailing white space and is no longer than the input |
| Text.TrimCopyFixedPoints | src/sysutil_wifi.cpp:88-95 | trimming leaves a string unchanged exactly when it has no white space at either end |
| Text.TrimCopyIdempotent | src/sysutil_wifi.cpp:88-95 | trimming twice equals trimming once |
| Text.TrimCopyUpper | src/sysutil_wifi.cpp:88-95 | trimming commutes with upper-casing |
| Text.ToUpper | src/sysutil_wifi.cpp:112-116 | defines `to_upper`: each character through C `toupper`, so only `a` to `z` change, and the length is kept |
| Text.EqualAfterUppercase | src/sysutil_wifi.cpp:118-120 | defines `equal_after_uppercase`: the two strings are equal once both are upper-cased |
| Text.ToUpperIdempotent | src/sysutil_wifi.cpp:112-116 | upper-casing twice equals upper-casing once |
| Text.ToUpperAppend | src/sysutil_wifi.cpp:112-116 | upper-casing distributes over concatenation |
| Text.ContainsAfterUppercase | src/sysutil_wifi.cpp:122-125 | defines `contains_after_uppercase`: `find` of the upper-cased needle in the upper-cased haystack succeeds |
| Text.ContainsAfterUppercaseMeans | src/sysutil_wifi.cpp:122-125 | an occurrence of the upper-cased needle in the upper-cased haystack makes the containment test true |
| Text.Find | src/sysutil_wifi.cpp:122-125 | the search returns the first occurrence at or after the start, and none only when there is none |
| Text.NormalizeId | src/sysutil_wifi.cpp:780-789 | defines `normalize_id`: trim; empty stays empty; a `0x` or `0X` prefix is replaced by `0x` and the rest upper-cased; otherwise `0x` is prefixed to the upper-cased id |
| Text.NormalizeIdShape | src/sysutil_wifi.cpp:780-789 | the result is empty exactly when the trimmed input is empty, and is otherwise `0x` followed by an id with no lower-case letter and no trailing space |
| Text.NormalizeIdFixedPoints | src/sysutil_wifi.cpp:780-789 | normalize_id leaves exactly the canonical ids unchanged |
| Text.NormalizeIdIdempotent | src/sysutil_wifi.cpp:780-789 | normalizing twice equals normalizing once |
| Text.NormalizeIdIgnoresCase | src/sysutil_wifi.cpp:780-789 | upper-casing the input first does not change the result |
| Text.NormalizeIdExamples | src/sysutil_wifi.cpp:780-789 | `0bda`, `0x0bda` and `0X0BDA` all give `0x0BDA`; a blank input gives the empty string |
| Text.NormalizeChipset | src/sysutil_wifi.cpp:464-466 | the result is trimmed and already upper case |
| Text.NormalizeChipsetIdempotent | src/sysutil_wifi.cpp:464-466 | normalizing a chipset twice equals normalizing it once |
| Text.NatToDecimal | src/sysutil_wifi.cpp:454-459 | the decimal rendering is a non-empty digit string with a leading zero only for zero |
| Text.DecimalRoundTrip | src/sysutil_wifi.cpp:454-459 | reading the decimal rendering of a natural back gives that natural |
| Text.ToStringIf | src/sysutil_wifi.cpp:454-459 | the result is empty exactly for non-positive values, and otherwise the decimal digits of the value with no leading zero, as `std::to_string` writes them |
| Text.JsonEscape | src/sysutil_wifi.cpp:127-153 | the escaping loop yields the character-by-character escape of its input |
| Text.UnescapeEscaped | src/sysutil_wifi.cpp:127-153 | unescaping the escaped text gives the input back, so escaping loses nothing |
| Text.EscapedIsOneLine | src/sysutil_wifi.cpp:127-153 | escaped text contains no newline, carriage return or tab |
| Text.SplitJoinLines | src/sysutil_wifi.cpp:293-309 | splitting joined lines that contain no newline gives the lines back, as the stores' line reading expects |
| DocumentScanner.ExtractArrayObjects | src/sysutil_wifi.cpp:337-396 | the scanning loop returns exactly the specification's list of objects of the keyed array |
| DocumentScanner.ArrayObjects | src/sysutil_wifi.cpp:337-396 | a missing key, colon or bracket gives the empty list; every returned string is a substring of the input after the bracket that starts with `{` and ends with `}` |
| DocumentScanner.ExtractObjectField | src/sysutil_wifi.cpp:398-452 | the scanning loop returns exactly the specification's keyed object |
| DocumentScanner.ObjectField | src/sysutil_wifi.cpp:398-452 | a missing key, colon or brace gives none; a found object is a substring of the input that starts with `{` and ends with `}` |
| DocumentScanner.SlicesAreObjects | src/sysutil_wifi.cpp:337-396 | every slice of a brace span is a brace-delimited substring of the content |
| DocumentScanner.StringBodyIsSkipped | src/sysutil_wifi.cpp:358-373 | inside a string, braces, brackets and escaped quotes up to the closing quote do not change the scan |
| DocumentScanner.QuotedLiteralIsTransparent | src/sysutil_wifi.cpp:358-373 | a quoted literal outside a string leaves depth, object start and the collected objects unchanged |
| OverrideStores.LoadOverrides | src/sysutil_wifi.cpp:286-310 | the line loop yields the specification's store, which only holds valid keys with non-empty trimmed values |
| OverrideStores.WriteOverrides | src/sysutil_wifi.cpp:312-328 | the written text is the header line followed by one `iface=value` line per entry, in some enumeration of the keys |
| OverrideStores.TypeStoreRoundTrip | src/sysutil_wifi.cpp:286-328 | loading the text written from a valid store gives back exactly that store |
| OverrideStores.HasTxPowerValues | src/sysutil_wifi.cpp:330-335 | an entry has values exactly when it differs from the all-empty entry |
| OverrideStores.LoadTxPowerOverrides | src/sysutil_wifi.cpp:594-645 | the line loop yields the specification's power store, whose keys and field values are in stored form |
| OverrideStores.WriteTxPowerOverrides | src/sysutil_wifi.cpp:647-692 | the written text is the header line followed by the non-empty field lines of every entry, in some enumeration of the keys |
| OverrideStores.TxStoreRoundTrip | src/sysutil_wifi.cpp:594-692 | loading the text written from a valid power store gives back exactly the entries that have values, field for field |
| OverrideStores.TxStoreRoundTripWhole | src/sysutil_wifi.cpp:594-692 | a valid power store whose entries all have values comes back whole |
| ProfileCatalog.FirstPositive | src/sysutil_wifi.cpp:524-531 | the result is the first positive value of the list, or zero when there is none |
| ProfileCatalog.FirstPositiveOf | src/sysutil_wifi.cpp:524-531 | the lambda's loop returns the first positive value |
| ProfileCatalog.SynthesizeLevels | src/sysutil_wifi.cpp:533-556 | the six reassignments in order yield the specified synthesized levels |
| ProfileCatalog.SynthesisKeepsPositive | src/sysutil_wifi.cpp:533-556 | a level that is already positive is not changed, no level becomes negative, and no other field changes |
| ProfileCatalog.SynthesisFillsLadder | src/sysutil_wifi.cpp:533-556 | when any of lowest, low, mid or high is positive, all six levels end up positive |
| ProfileCatalog.SynthesisFromHighOnly | src/sysutil_wifi.cpp:533-556 | a profile giving only `high` gets that value for all six levels |
| ProfileCatalog.SynthesisFromMinOnly | src/sysutil_wifi.cpp:533-556 | a profile giving only `min_mw` fills lowest, low, mid and high from it but keeps a zero maximum |
| ProfileCatalog.ProfileOf | src/sysutil_wifi.cpp:479-558 | an entry is skipped exactly when its vendor or device id is missing |
| ProfileCatalog.ReadProfile | src/sysutil_wifi.cpp:479-558 | reading one entry yields the specified profile: FIXED zeroing, the `levels_mw` fallback and the synthesis |
| ProfileCatalog.ProfileOfIsLoaded | src/sysutil_wifi.cpp:485-558 | every profile read has canonical ids, a normalised chipset and an upper-case mode; a FIXED one has all six levels zero, and no level is negative |
| ProfileCatalog.ProfileOfFillsLadder | src/sysutil_wifi.cpp:502-556 | a non-FIXED entry with one positive level after the `levels_mw` fallback has all six levels positive |
| ProfileCatalog.LoadWifiCardProfiles | src/sysutil_wifi.cpp:468-564 | the loading loop yields the specified catalog |
| ProfileCatalog.CatalogIsLoaded | src/sysutil_wifi.cpp:468-564 | the catalog is never empty and every profile in it is in loaded form |
| ProfileCatalog.CatalogFallsBack | src/sysutil_wifi.cpp:470-477 | a missing document or one without catalog objects gives the default catalog |
| ProfileCatalog.DefaultWifiCardProfiles | src/sysutil_wifi.cpp:791-817 | defines `default_wifi_card_profiles`: the two entries, the Raspberry Pi adapter first and the LB-Link 8812eu second |
| ProfileCatalog.DefaultCatalogIsNormalised | src/sysutil_wifi.cpp:791-817 | normalising the raw ids and chipset tags the source writes gives the default catalog: the FIXED Raspberry Pi adapter, then the MW LB-Link 8812eu with levels 25/100/500/1000 and bounds 25 to 1000 |
| ProfileCatalog.DefaultsAreLoaded | src/sysutil_wifi.cpp:791-817 | every default entry is in the form the loader produces: canonical ids, a trimmed upper-case chipset and mode, and all-zero levels for the FIXED entry |
| ProfileCatalog.FindWifiProfile | src/sysutil_wifi.cpp:566-592 | defines `find_wifi_profile` as a scan that returns a chipset match at once and otherwise the remembered generic match, else the remembered first vendor/device match |
| ProfileCatalog.LookupWifiProfile | src/sysutil_wifi.cpp:566-592 | the search loop returns the specified preferred match |
| ProfileCatalog.FindWifiProfileIsPreferred | src/sysutil_wifi.cpp:566-592 | the result is the first match whose non-empty chipset equals the hint ignoring case, else the first empty-chipset match, else the first vendor/device match, else none |
| ProfileCatalog.FindWifiProfileMatches | src/sysutil_wifi.cpp:566-592 | a returned profile matches vendor and device ignoring case, and none is returned exactly when no profile matches them |
| ProfileCatalog.EmptyHintIgnoresChipset | src/sysutil_wifi.cpp:566-592 | with an empty hint the result is the first empty-chipset match, else the first vendor/device match |
| ProfileCatalog.FindWifiProfileExample | src/sysutil_wifi.cpp:566-592 | among entries with chipsets X, empty and Y, hint X selects the first and an unknown hint the second |
| CardIdentity.DriverToType | src/sysutil_wifi.cpp:694-742 | defines `driver_to_type`: the exact table in source order, then the substring table in source order, else `UNKNOWN` |
| CardIdentity.DriverToTypeIgnoresCase | src/sysutil_wifi.cpp:694-742 | the classification does not depend on the case of the driver name |
| CardIdentity.DriverTypeIsNeverDisabled | src/sysutil_wifi.cpp:694-742 | no driver is classified as `DISABLED` |
| CardIdentity.Rtl88x2euIsClassifiedAs88x2eu | src/sysutil_wifi.cpp:704-706 | `rtl88x2eu_ohd` is classified as `OPENHD_RTL_88X2EU` |
| CardIdentity.ExactRuleWinsOverFragment | src/sysutil_wifi.cpp:695-733 | `rtl88xxau_ohd` contains the `88xxau` fragment yet takes the exact rule's `OPENHD_RTL_88X2AU` |
| CardIdentity.Rtl88x2auIsClassifiedAs88x2cu | src/sysutil_wifi.cpp:698-700 | `rtl88x2au_ohd` is classified as `OPENHD_RTL_88X2CU`, as the table says |
| CardIdentity.DifferAfterUppercase | src/sysutil_wifi.cpp:118-120 | two strings that differ at a position after upper-casing are not equal ignoring case |
| CardIdentity.IsOpenhdWifibroadcastType | src/sysutil_wifi.cpp:744-750 | defines `is_openhd_wifibroadcast_type`: false for a blank name, otherwise whether the trimmed, upper-cased name starts with `OPENHD_` |
| CardIdentity.OpenhdTestIsPrefixTest | src/sysutil_wifi.cpp:744-750 | the family test holds exactly when the trimmed, upper-cased name starts with `OPENHD_` |
| CardIdentity.OpenhdTestIgnoresTrimAndCase | src/sysutil_wifi.cpp:744-750 | the family test does not depend on surrounding white space or case |
| CardIdentity.OpenhdTestOfPlainName | src/sysutil_wifi.cpp:744-750 | for a trimmed upper-case name the test holds exactly when the name starts with `OPENHD_` |
| CardIdentity.OpenhdPrefixedIsInFamily | src/sysutil_wifi.cpp:744-750 | `OPENHD_` followed by any name, in any case and with any trailing white space, is in the family |
| CardIdentity.OtherNameIsNotInFamily | src/sysutil_wifi.cpp:744-750 | a trimmed upper-case name not starting with `O` is not in the family |
| CardIdentity.FillFromUevent | src/sysutil_wifi.cpp:819-845 | the uevent filler fills the empty slots from the first `PCI_ID=` match, else the first `PRODUCT=` match |
| CardIdentity.FillFromModalias | src/sysutil_wifi.cpp:847-873 | the modalias filler fills the empty slots from the first `usb:v` match, else the first `pci:v` match |
| CardIdentity.FillSlotsOnlyFillsEmpty | src/sysutil_wifi.cpp:819-873 | a non-empty slot is kept; an empty slot gets `0x` plus the upper-cased hex quad found; without a match nothing changes |
| CardIdentity.UeventPciIdLine | src/sysutil_wifi.cpp:819-845 | a leading `PCI_ID=vvvv:dddd` fills both empty slots with the canonical ids |
| CardIdentity.UeventFallsBackToProduct | src/sysutil_wifi.cpp:819-845 | without a `PCI_ID=` match the `PRODUCT=` pattern is used |
| CardIdentity.FillFromSysfs | src/sysutil_wifi.cpp:875-929 | the ancestor walk yields the specified fill along at most six directories, stopping once both slots are set |
| CardIdentity.FillAlongKeepsSlots | src/sysutil_wifi.cpp:875-929 | the walk never overwrites a known slot and keeps canonical ids canonical |
| CardIdentity.SysfsIgnoresFarAncestors | src/sysutil_wifi.cpp:875-929 | directories beyond the sixth ancestor level do not affect the result |
| CardResolution.ResolvedCard | src/sysutil_wifi.cpp:968-1067 | defines the card `build_wifi_card` resolves: the typing step (override, disabled, effective type) followed by the power step on the selected profile and the interface's power override |
| CardResolution.SelectProfile | src/sysutil_wifi.cpp:983-1010 | the profile chosen is the probed lookup, replaced by the forced identity's lookup (retried with an empty chipset) when that finds one |
| CardResolution.BuildWifiCard | src/sysutil_wifi.cpp:968-1069 | the step-by-step resolution yields the specified card: typing step, then power step with the chosen profile and override |
| CardResolution.ResolvePower | src/sysutil_wifi.cpp:1011-1067 | the power assignments in source order yield the specified power step |
| CardResolution.TypeOverrideRules | src/sysutil_wifi.cpp:968-981 | the detected type is driver_to_type; a DISABLED override (any case) disables the card and keeps the detected type, never the literal `DISABLED`; any other override is the effective type verbatim; without one the detected type is used |
| CardResolution.PowerKeepsIdentity | src/sysutil_wifi.cpp:1011-1067 | the power step leaves the identity and type fields unchanged |
| CardResolution.FixedProfileForcesFixed | src/sysutil_wifi.cpp:1011-1012 | a FIXED profile forces power_level `FIXED` and an empty tx_power, whatever the override selects (see also lines 1057-1060) |
| CardResolution.SelectorSetsTxPower | src/sysutil_wifi.cpp:1036-1055 | with a non-FIXED profile and a selector naming a positive level, tx_power is that level in decimal and the selector is upper-cased |
| CardResolution.ExplicitTxPowerOtherwise | src/sysutil_wifi.cpp:1026-1055 | without a usable selector tx_power is the override's explicit value, or empty without an override |
| CardResolution.BoundsOnlyFillEmpty | src/sysutil_wifi.cpp:1026-1029 | tx_power_high and tx_power_low keep the override's values, and only when empty take the profile's positive high and lowest levels (see also lines 1062-1067) |
| CardResolution.NoOverrideTakesProfileLevels | src/sysutil_wifi.cpp:1013-1067 | without an override a non-FIXED profile gives its name, mode and bounds, with no tx_power and no selector |
| CardResolution.ForcedIdentityNeedsBothIds | src/sysutil_wifi.cpp:986-1010 | a forced identity missing the vendor or the device id is ignored |
| CardResolution.ForcedIdentityWins | src/sysutil_wifi.cpp:986-1010 | with both ids the forced lookup (hint: its chipset, else the detected type; retried with an empty chipset) replaces the probed profile when it finds one |
| CardResolution.EmptyHintRetryIsRedundant | src/sysutil_wifi.cpp:999-1005 | a lookup that fails with some hint also fails with the empty hint |
| CardResolution.ProbedMatchIsCardProfile | src/sysutil_wifi.cpp:983-1010 | without a forced identity the card's profile is the probed lookup's profile |
| CardResolution.DefaultCatalogFindsLbLink | src/sysutil_wifi.cpp:566-592 | a card with ids 0x0bda/0xa81a in any case selects the LB-Link entry of the default catalog for any hint (see also lines 791-817) |
| CardResolution.LbLinkCardWithoutOverride | src/sysutil_wifi.cpp:1013-1067 | the LB-Link profile without an override gives no tx_power and bounds 1000 and 25 |
| CardResolution.LbLinkCardWithHighSelector | src/sysutil_wifi.cpp:1026-1067 | the LB-Link profile with selector `high` gives power_level `HIGH` and tx_power `1000` |
| CardResolution.LbLinkScenario | src/sysutil_wifi.cpp:968-1067 | an `rtl88x2eu_ohd` card with the LB-Link ids, no overrides and the default catalog is an enabled `OPENHD_RTL_88X2EU` card in MW mode with no tx_power, tx_power_high 1000 and tx_power_low 25 |
| WifiRequests.UpdateResult | src/sysutil_wifi.cpp:1148-1250 | defines the outcome of `handle_wifi_update` per action, with the store writes' success as inputs; a refresh happens exactly when the outcome is ok |
| WifiRequests.HandleWifiUpdate | src/sysutil_wifi.cpp:1148-1250 | the mutation and the ok flag follow the specified update result, which refreshes exactly when ok |
| WifiRequests.ApplyTxFields | src/sysutil_wifi.cpp:1186-1225 | the field assignments yield the specified updated entry |
| WifiRequests.SetNeedsInterface | src/sysutil_wifi.cpp:1168-1171 | a set without a non-empty interface fails and changes, writes and refreshes nothing |
| WifiRequests.ActionRules | src/sysutil_wifi.cpp:1242-1250 | an unknown action fails without change or refresh; refresh and detect succeed and refresh (see also line 1149) |
| WifiRequests.MissingActionRefreshes | src/sysutil_wifi.cpp:1149 | a request without an action is a refresh |
| WifiRequests.TypeStoreRules | src/sysutil_wifi.cpp:1172-1178 | an empty or AUTO override_type (any case) erases the interface's type override; any other is stored verbatim; other interfaces are unchanged |
| WifiRequests.SelectorClearsExplicitValues | src/sysutil_wifi.cpp:1199-1209 | supplying power_level clears tx_power, tx_power_high and tx_power_low; empty or AUTO clears the selector, any other is stored trimmed and upper case |
| WifiRequests.ForcedIdentityRules | src/sysutil_wifi.cpp:1210-1225 | a forced identity missing vendor or device clears all three profile fields; otherwise the ids are stored canonical and the chipset normalised |
| WifiRequests.UnnamedFieldsKept | src/sysutil_wifi.cpp:1186-1225 | fields the request does not name keep their stored values |
| WifiRequests.SetKeepsStorePruned | src/sysutil_wifi.cpp:1182-1230 | a set keeps every power-store entry holding some value: the interface keeps an entry exactly when its updated entry has values, and other interfaces are unchanged |
| WifiRequests.ClearRules | src/sysutil_wifi.cpp:1232-1241 | clearing an interface removes it from both stores; clearing without one empties both; the power store is written only after the type store was written |
| WifiRequests.SetOkMeansWritesSucceeded | src/sysutil_wifi.cpp:1168-1231 | a set writes exactly the stores the request names and succeeds exactly when those writes succeed |
| WifiRequests.HasOpenhdWifibroadcastCards | src/sysutil_wifi.cpp:1107-1120 | the result holds exactly when some enabled card has an effective type of the OpenHD family |
| WifiRequests.DisabledCardNeverCounts | src/sysutil_wifi.cpp:1111-1114 | a card whose override is DISABLED never counts, whatever its detected type (see also lines 973-975) |
| WifiRequests.OpenhdOverrideCounts | src/sysutil_wifi.cpp:1115-1117 | a card whose type override, once trimmed and upper-cased, starts with `OPENHD_` counts, whatever its case and surrounding white space (see also lines 973-978) |
| WifiRequests.OverrideIsNotDisabled | src/sysutil_wifi.cpp:973-975 | an override whose trimmed, upper-cased form starts with `OPENHD_` is not `DISABLED` in any case |
| WifiRequests.OpenhdPrefixedOverrideCounts | src/sysutil_wifi.cpp:1115-1117 | a card overridden to `OPENHD_` followed by any name counts |
| WifiRequests.ValidateLinkControl | src/sysutil_wifi.cpp:1288-1305 | no RF value rejects with "No RF values provided."; otherwise a 40 MHz width rejects; otherwise the request is forwarded |

## Left out

- Socket, transport and timeouts (`write_all`, `read_line_with_timeout`, `send_openhd_control`) and the forwarding half of `handle_link_control_request`: I/O outside this logic.
- File access (`read_file`, `file_exists`, the store writes, `create_directories`): documents come in as optional strings and go out as text. Write success is a boolean parameter of the request handler.
- `std::filesystem::canonical` and the `/sys/class/net` iteration of `detect_wifi_cards`: the sysfs ancestry is a sequence of attribute records, and one card's probe is an input.
- `extract_string_field`, `extract_int_field` and `extract_bool_field`: these helpers are not part of this model. Catalog entries are read through field-reading function parameters, and requests come as records of optional fields.
- The `std::regex` engine: the four fixed-width id patterns are scanned explicitly.
- `extract_driver_name` and `read_int_file` (with `std::stoi`): the driver name is an input of the probe.
- `phy_index` and `mac` of the card record: read from files and not used by the resolution.
- The global card cache, `refresh_wifi_info`, logging and the JSON responses (`append_cards_json`, `build_wifi_response`): output assembly. `json_escape` is modelled on its own, and a refresh is the `refreshed` flag of the update outcome.
- `WriteOverrides`, `WriteTxPowerOverrides`: the key order is a ghost enumeration, because `unordered_map` iteration order is unspecified.
- Bytes and the C locale: strings are sequences of Unicode characters rather than bytes; only the ASCII letters `a` to `z` change case and only the six ASCII white-space characters count as space, as C `toupper` and `isspace` behave in the "C" locale. Multi-byte text and other locales are not modelled.
- Machine integers: profile levels are unbounded integers; `std::stoi` overflow and `int` width are not modelled.

## Behaviour of the code worth knowing

- A catalog entry is kept when its vendor and device ids are present, even if they are empty (lines 481-484).
- Level synthesis applies to every mode other than FIXED, not only to `MW` (lines 492-501 skip it for FIXED only; lines 531-556 run it for the rest).
- A FIXED profile still publishes its six (zero) levels, which `to_string_if` renders as empty strings (lines 1013-1022). Its `tx_power_high` and `tx_power_low` keep the override's values (lines 1025-1028); only `power_level` and `tx_power` are forced (lines 1056-1059).
- On the card side a selector of `AUTO` is not cleared: it is published upper-cased and selects no level, so `tx_power` is the override's explicit value (lines 1034-1054). The update handler does clear `AUTO` when it stores the selector (line 1201).

Other observations:

- Level synthesis gives the maximum before the levels it could be taken from. A profile that supplies only `min_mw` therefore keeps a zero `max_mw` (`ProfileCatalog.SynthesisFromMinOnly`).
- The retry of the forced identity with an empty chipset never finds anything the first lookup missed (`CardResolution.EmptyHintRetryIsRedundant`). A failed lookup means no entry has those vendor and device ids.
