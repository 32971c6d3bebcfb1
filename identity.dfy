/**
 * Card identity (src/sysutil_wifi.cpp): the driver-name classification
 * driver_to_type, the wifibroadcast family test is_openhd_wifibroadcast_type,
 * and the vendor/device id fillers reading uevent and modalias text and walking
 * up to six sysfs ancestor directories.
 *
 * The fillers' regular expressions are fixed-width patterns `lead HHHH separator
 * HHHH trail` (H a hexadecimal digit); regex_search finds the leftmost
 * position where such a pattern matches, which is what SearchFrom computes.
 */
module CardIdentity {
  import opened Wrappers
  import opened Text

  // ------------------------------------------------------------ driver_to_type

  /** The exact-name rules of driver_to_type, in order. */
  function ExactDriverType(driver: string): Option<string> {
    if EqualAfterUppercase(driver, "rtl88xxau_ohd") then Some("OPENHD_RTL_88X2AU")
    else if EqualAfterUppercase(driver, "rtl88x2au_ohd") then Some("OPENHD_RTL_88X2CU")
    else if EqualAfterUppercase(driver, "rtl88x2bu_ohd") then Some("OPENHD_RTL_88X2BU")
    else if EqualAfterUppercase(driver, "rtl88x2eu_ohd") then Some("OPENHD_RTL_88X2EU")
    else if EqualAfterUppercase(driver, "cnss_pci") then Some("QUALCOMM")
    else if EqualAfterUppercase(driver, "rtl8852bu_ohd") then Some("OPENHD_RTL_8852BU")
    else if EqualAfterUppercase(driver, "rtl88x2cu_ohd") then Some("OPENHD_RTL_88X2CU")
    else None
  }

  /** The substring rules of driver_to_type, in order. */
  function FragmentDriverType(driver: string): Option<string> {
    if ContainsAfterUppercase(driver, "ath9k") then Some("ATHEROS")
    else if ContainsAfterUppercase(driver, "rt2800usb") then Some("RALINK")
    else if ContainsAfterUppercase(driver, "iwlwifi") then Some("INTEL")
    else if ContainsAfterUppercase(driver, "brcmfmac") || ContainsAfterUppercase(driver, "bcmsdh_sdmmc") then Some("BROADCOM")
    else if ContainsAfterUppercase(driver, "aicwf_sdio") then Some("AIC")
    else if ContainsAfterUppercase(driver, "88xxau") then Some("RTL_88X2AU")
    else if ContainsAfterUppercase(driver, "rtw_8822bu") then Some("RTL_88X2BU")
    else if ContainsAfterUppercase(driver, "mt7921u") then Some("MT_7921u")
    else None
  }

  /** driver_to_type: the exact driver names first, then the substring rules, else UNKNOWN. */
  function DriverToType(driver: string): string {
    match ExactDriverType(driver)
    case Some(t) => t
    case None =>
      match FragmentDriverType(driver)
      case Some(t) => t
      case None => "UNKNOWN"
  }

  /** No driver name is classified as DISABLED, the word that switches a card off. */
  lemma DriverTypeIsNeverDisabled(driver: string)
    ensures DriverToType(driver) != "DISABLED"
  {
    ExactTypesDoNotStartWithD(driver);
    FragmentTypesDoNotStartWithD(driver);
    assert "DISABLED"[0] == 'D';
  }

  lemma ExactTypesDoNotStartWithD(driver: string)
    ensures var t := ExactDriverType(driver); t.Some? ==> |t.value| > 0 && t.value[0] != 'D'
  {
  }

  lemma FragmentTypesDoNotStartWithD(driver: string)
    ensures var t := FragmentDriverType(driver); t.Some? ==> |t.value| > 0 && t.value[0] != 'D'
  {
  }

  /** Two driver names with the same upper-case form are classified alike. */
  lemma DriverToTypeOfSameUpper(a: string, b: string)
    requires ToUpper(a) == ToUpper(b)
    ensures DriverToType(a) == DriverToType(b)
  {
    ExactRulesOfSameUpper(a, b);
    FragmentRulesOfSameUpper(a, b);
  }

  lemma ExactRulesOfSameUpper(a: string, b: string)
    requires ToUpper(a) == ToUpper(b)
    ensures ExactDriverType(a) == ExactDriverType(b)
  {
  }

  lemma FragmentRulesOfSameUpper(a: string, b: string)
    requires ToUpper(a) == ToUpper(b)
    ensures FragmentDriverType(a) == FragmentDriverType(b)
  {
  }

  /** The classification ignores the case of the driver name. */
  lemma DriverToTypeIgnoresCase(driver: string)
    ensures DriverToType(ToUpper(driver)) == DriverToType(driver)
  {
    ToUpperIdempotent(driver);
    DriverToTypeOfSameUpper(ToUpper(driver), driver);
  }

  /** Two same-length names that differ in an upper-cased character are not equal after upper-casing. */
  lemma DifferAfterUppercase(a: string, b: string, i: nat)
    requires i < |a| && i < |b| && UpperChar(a[i]) != UpperChar(b[i])
    ensures !EqualAfterUppercase(a, b)
  {
    assert ToUpper(a)[i] != ToUpper(b)[i];
  }

  /** The rtl88x2au_ohd driver is classified as the 88X2CU family, as the table says. */
  lemma Rtl88x2auIsClassifiedAs88x2cu()
    ensures DriverToType("rtl88x2au_ohd") == "OPENHD_RTL_88X2CU"
  {
    DifferAfterUppercase("rtl88x2au_ohd", "rtl88xxau_ohd", 6);
  }

  /** The rtl88x2eu_ohd driver is classified as the 88X2EU family. */
  lemma Rtl88x2euIsClassifiedAs88x2eu()
    ensures DriverToType("rtl88x2eu_ohd") == "OPENHD_RTL_88X2EU"
  {
    DifferAfterUppercase("rtl88x2eu_ohd", "rtl88xxau_ohd", 6);
    DifferAfterUppercase("rtl88x2eu_ohd", "rtl88x2au_ohd", 7);
    DifferAfterUppercase("rtl88x2eu_ohd", "rtl88x2bu_ohd", 7);
  }

  /** An exact rule wins over a fragment it contains: rtl88xxau_ohd contains 88xxau. */
  lemma ExactRuleWinsOverFragment()
    ensures ContainsAfterUppercase("rtl88xxau_ohd", "88xxau")
    ensures DriverToType("rtl88xxau_ohd") == "OPENHD_RTL_88X2AU"
  {
    var u := ToUpper("rtl88xxau_ohd");
    assert u[3..9] == ToUpper("88xxau");
    ContainsAfterUppercaseMeans("rtl88xxau_ohd", "88xxau", 3);
  }

  // ------------------------------------------------------------ is_openhd_wifibroadcast_type

  /** is_openhd_wifibroadcast_type: the trimmed, upper-cased type starts with OPENHD_. */
  function IsOpenhdWifibroadcastType(typeName: string): bool {
    var upper := ToUpper(TrimCopy(typeName));
    if upper == [] then false else StartsWith(upper, "OPENHD_")
  }

  /** The family test ignores surrounding white space and case. */
  lemma OpenhdTestIgnoresTrimAndCase(typeName: string)
    ensures IsOpenhdWifibroadcastType(TrimCopy(typeName)) == IsOpenhdWifibroadcastType(typeName)
    ensures IsOpenhdWifibroadcastType(ToUpper(typeName)) == IsOpenhdWifibroadcastType(typeName)
  {
    TrimCopyIdempotent(typeName);
    TrimCopyUpper(typeName);
    ToUpperIdempotent(TrimCopy(typeName));
  }

  /** A type name already trimmed and in upper case is in the family exactly when it starts with OPENHD_. */
  lemma OpenhdTestOfPlainName(typeName: string)
    requires IsTrimmed(typeName) && NoLower(typeName)
    ensures IsOpenhdWifibroadcastType(typeName) <==> StartsWith(typeName, "OPENHD_")
  {
    TrimCopyFixedPoints(typeName);
    UpperOfNoLower(typeName);
  }

  /** The family test is the prefix test on the trimmed, upper-cased name. */
  lemma OpenhdTestIsPrefixTest(typeName: string)
    ensures IsOpenhdWifibroadcastType(typeName) <==> StartsWith(ToUpper(TrimCopy(typeName)), "OPENHD_")
  {
  }

  /** OPENHD_ followed by any name, in any case and with any trailing white space, is in the family. */
  lemma OpenhdPrefixedIsInFamily(name: string)
    ensures IsOpenhdWifibroadcastType("OPENHD_" + name)
  {
    var p := "OPENHD_";
    TrimCopyWithHead(p, name);
    ToUpperAppend(p, TrimRight(name));
    assert NoLower(p);
    UpperOfNoLower(p);
    var u := ToUpper(TrimCopy(p + name));
    assert u == p + ToUpper(TrimRight(name));
    assert u[..7] == p;
  }

  /** A plain name whose first character is not O is not in the family. */
  lemma OtherNameIsNotInFamily(name: string)
    requires IsTrimmed(name) && NoLower(name) && name != [] && name[0] != 'O'
    ensures !IsOpenhdWifibroadcastType(name)
  {
    OpenhdTestOfPlainName(name);
    if |name| >= 7 {
      assert name[..7][0] != "OPENHD_"[0];
    }
  }

  // ------------------------------------------------------------ fixed-width id patterns

  /** [0-9A-Fa-f] */
  predicate IsHexDigit(c: char) {
    '0' <= c <= '9' || 'A' <= c <= 'F' || 'a' <= c <= 'f'
  }

  /** Exactly four hexadecimal digits. */
  predicate IsHexQuad(s: string) {
    |s| == 4 && forall k :: 0 <= k < 4 ==> IsHexDigit(s[k])
  }

  /** The pattern `lead([0-9A-Fa-f]{4})separator([0-9A-Fa-f]{4})trail`. */
  datatype IdPattern = IdPattern(lead: string, separator: string, trail: string) {
    /** Where the two groups start, relative to the match. */
    function FirstGroup(): nat { |lead| }
    function SecondGroup(): nat { |lead| + 4 + |separator| }
    function Width(): nat { |lead| + 8 + |separator| + |trail| }
  }

  const PciIdPattern := IdPattern("PCI_ID=", ":", "")
  const ProductPattern := IdPattern("PRODUCT=", "/", "/")
  const UsbAliasPattern := IdPattern("usb:v", "p", "")
  const PciAliasPattern := IdPattern("pci:v", "d", "")

  /** The pattern matches the text at position `i`. */
  predicate MatchesAt(s: string, p: IdPattern, i: nat) {
    i + p.Width() <= |s| &&
    OccursAt(s, p.lead, i) &&
    IsHexQuad(s[i + p.FirstGroup()..i + p.FirstGroup() + 4]) &&
    OccursAt(s, p.separator, i + p.FirstGroup() + 4) &&
    IsHexQuad(s[i + p.SecondGroup()..i + p.SecondGroup() + 4]) &&
    OccursAt(s, p.trail, i + p.SecondGroup() + 4)
  }

  /** The leftmost position at or after `from` where the pattern matches. */
  function SearchFrom(s: string, p: IdPattern, from: nat): (r: Option<nat>)
    ensures r.Some? ==> from <= r.value && MatchesAt(s, p, r.value)
    ensures r.Some? ==> forall j :: from <= j < r.value ==> !MatchesAt(s, p, j)
    ensures r.None? ==> forall j :: from <= j ==> !MatchesAt(s, p, j)
    decreases |s| - from
  {
    if from + p.Width() > |s| then None
    else if MatchesAt(s, p, from) then Some(from)
    else SearchFrom(s, p, from + 1)
  }

  /** regex_search with the two groups of the leftmost match. */
  function SearchIds(s: string, p: IdPattern): (r: Option<(string, string)>)
    ensures r.Some? ==> IsHexQuad(r.value.0) && IsHexQuad(r.value.1)
  {
    match SearchFrom(s, p, 0)
    case None => None
    case Some(i) => Some((s[i + p.FirstGroup()..i + p.FirstGroup() + 4], s[i + p.SecondGroup()..i + p.SecondGroup() + 4]))
  }

  /** A text that starts with a match yields that match's groups. */
  lemma SearchIdsOfLeadingMatch(p: IdPattern, vendor: string, device: string, rest: string)
    requires IsHexQuad(vendor) && IsHexQuad(device)
    ensures SearchIds(p.lead + vendor + p.separator + device + p.trail + rest, p) == Some((vendor, device))
  {
    var s := p.lead + vendor + p.separator + device + p.trail + rest;
    var a := p.FirstGroup();
    var b := p.SecondGroup();
    assert s[..a] == p.lead;
    assert s[a..a + 4] == vendor;
    assert s[a + 4..a + 4 + |p.separator|] == p.separator;
    assert s[b..b + 4] == device;
    assert s[b + 4..b + 4 + |p.trail|] == p.trail;
    assert MatchesAt(s, p, 0);
  }

  /** A hexadecimal group normalizes to `0x` and its upper-case digits. */
  lemma NormalizeIdOfHexQuad(g: string)
    requires IsHexQuad(g)
    ensures NormalizeId(g) == "0x" + ToUpper(g)
    ensures NormalizeId(g) != [] && IsCanonicalId(NormalizeId(g))
  {
    NormalizeIdOfTrimmed(g);
    NormalizeIdShape(g);
    TrimCopyFixedPoints(g);
  }

  // ------------------------------------------------------------ uevent and modalias fillers

  /** Fill the empty slots, and only those, from the groups found. */
  function FillSlots(vendor: string, device: string, ids: Option<(string, string)>): (r: (string, string)) {
    match ids
    case None => (vendor, device)
    case Some((v, d)) => (if vendor == [] then NormalizeId(v) else vendor, if device == [] then NormalizeId(d) else device)
  }

  /** The ids a uevent text names: PCI_ID=... wherever it occurs, else PRODUCT=.../.../. */
  function UeventIds(uevent: string): Option<(string, string)> {
    var pci := SearchIds(uevent, PciIdPattern);
    if pci.Some? then pci else SearchIds(uevent, ProductPattern)
  }

  /** The ids a modalias text names: usb:v...p... wherever it occurs, else pci:v...d.... */
  function ModaliasIds(modalias: string): Option<(string, string)> {
    var usb := SearchIds(modalias, UsbAliasPattern);
    if usb.Some? then usb else SearchIds(modalias, PciAliasPattern)
  }

  /** fill_vendor_device_from_uevent, with vendor and device as in-out parameters. */
  method FillFromUevent(uevent: string, vendorIn: string, deviceIn: string) returns (vendor: string, device: string)
    ensures (vendor, device) == FillSlots(vendorIn, deviceIn, UeventIds(uevent))
  {
    vendor, device := vendorIn, deviceIn;
    if vendor != [] && device != [] {
      return;
    }
    var pci := SearchIds(uevent, PciIdPattern);
    if pci.Some? {
      if vendor == [] {
        vendor := NormalizeId(pci.value.0);
      }
      if device == [] {
        device := NormalizeId(pci.value.1);
      }
      return;
    }
    var product := SearchIds(uevent, ProductPattern);
    if product.Some? {
      if vendor == [] {
        vendor := NormalizeId(product.value.0);
      }
      if device == [] {
        device := NormalizeId(product.value.1);
      }
    }
  }

  /** fill_vendor_device_from_modalias, with vendor and device as in-out parameters. */
  method FillFromModalias(modalias: string, vendorIn: string, deviceIn: string) returns (vendor: string, device: string)
    ensures (vendor, device) == FillSlots(vendorIn, deviceIn, ModaliasIds(modalias))
  {
    vendor, device := vendorIn, deviceIn;
    if vendor != [] && device != [] {
      return;
    }
    var usb := SearchIds(modalias, UsbAliasPattern);
    if usb.Some? {
      if vendor == [] {
        vendor := NormalizeId(usb.value.0);
      }
      if device == [] {
        device := NormalizeId(usb.value.1);
      }
      return;
    }
    var pci := SearchIds(modalias, PciAliasPattern);
    if pci.Some? {
      if vendor == [] {
        vendor := NormalizeId(pci.value.0);
      }
      if device == [] {
        device := NormalizeId(pci.value.1);
      }
    }
  }

  /**
   * Filling never overwrites a non-empty slot, fills an empty one with the canonical
   * form of the group found, and leaves canonical slots canonical.
   */
  lemma FillSlotsOnlyFillsEmpty(vendor: string, device: string, ids: Option<(string, string)>)
    requires ids.Some? ==> IsHexQuad(ids.value.0) && IsHexQuad(ids.value.1)
    ensures var r := FillSlots(vendor, device, ids);
      (vendor != [] ==> r.0 == vendor) && (device != [] ==> r.1 == device) &&
      (ids.Some? && vendor == [] ==> r.0 == "0x" + ToUpper(ids.value.0)) &&
      (ids.Some? && device == [] ==> r.1 == "0x" + ToUpper(ids.value.1)) &&
      (ids.None? ==> r == (vendor, device))
    ensures var r := FillSlots(vendor, device, ids);
      (IsCanonicalId(vendor) ==> IsCanonicalId(r.0)) && (IsCanonicalId(device) ==> IsCanonicalId(r.1))
  {
    if ids.Some? {
      NormalizeIdOfHexQuad(ids.value.0);
      NormalizeIdOfHexQuad(ids.value.1);
    }
  }

  /**
   * A uevent text opening with PCI_ID=VVVV:DDDD fills empty slots with 0xVVVV and
   * 0xDDDD in upper case, whatever PRODUCT line follows.
   */
  lemma UeventPciIdLine(vendor: string, device: string, rest: string)
    requires IsHexQuad(vendor) && IsHexQuad(device)
    ensures UeventIds("PCI_ID=" + vendor + ":" + device + rest) == Some((vendor, device))
    ensures FillSlots([], [], UeventIds("PCI_ID=" + vendor + ":" + device + rest)) ==
      ("0x" + ToUpper(vendor), "0x" + ToUpper(device))
  {
    SearchIdsOfLeadingMatch(PciIdPattern, vendor, device, rest);
    assert "PCI_ID=" + vendor + ":" + device + rest ==
           PciIdPattern.lead + vendor + PciIdPattern.separator + device + PciIdPattern.trail + rest;
    FillSlotsOnlyFillsEmpty([], [], Some((vendor, device)));
  }

  /** Without a PCI_ID match, the PRODUCT match is used. */
  lemma UeventFallsBackToProduct(uevent: string)
    requires SearchIds(uevent, PciIdPattern).None?
    ensures UeventIds(uevent) == SearchIds(uevent, ProductPattern)
  {
  }

  // ------------------------------------------------------------ fill_vendor_device_from_sysfs

  /**
   * The attribute files of one directory on the walk: None when the file does not
   * exist, else its contents (empty when it could not be read).
   */
  datatype DirAttrs = DirAttrs(
    vendor: Option<string>, device: Option<string>, idVendor: Option<string>, idProduct: Option<string>,
    uevent: Option<string>, modalias: Option<string>)

  /** One id file read into a slot that is still empty. */
  function ReadSlot(slot: string, file: Option<string>): string {
    if slot == [] && file.Some? then NormalizeId(file.value) else slot
  }

  /** The four id files of a directory: vendor and device, then idVendor and idProduct. */
  function IdFilesFill(dir: DirAttrs, vendor: string, device: string): (string, string) {
    (ReadSlot(ReadSlot(vendor, dir.vendor), dir.idVendor), ReadSlot(ReadSlot(device, dir.device), dir.idProduct))
  }

  /** One step of the walk: the four id files for empty slots, then the uevent and modalias fillers. */
  function DirFill(dir: DirAttrs, vendor: string, device: string): (string, string) {
    var (v2, d2) := IdFilesFill(dir, vendor, device);
    var (v3, d3) := if dir.uevent.Some? then FillSlots(v2, d2, UeventIds(dir.uevent.value)) else (v2, d2);
    if dir.modalias.Some? then FillSlots(v3, d3, ModaliasIds(dir.modalias.value)) else (v3, d3)
  }

  /** The steps of every directory in turn, with no early stop. */
  function FillAlong(dirs: seq<DirAttrs>, vendor: string, device: string): (string, string)
    decreases |dirs|
  {
    if dirs == [] then (vendor, device)
    else
      var (v, d) := DirFill(dirs[0], vendor, device);
      FillAlong(dirs[1..], v, d)
  }

  /** The sysfs walk: the device directory and at most five ancestors (the root repeats as its own parent). */
  function SysfsIds(dirs: seq<DirAttrs>, vendor: string, device: string): (string, string) {
    FillAlong(dirs[..if |dirs| <= 6 then |dirs| else 6], vendor, device)
  }

  /** The id-file reads of the walk's body. */
  method FillFromIdFiles(dir: DirAttrs, vendorIn: string, deviceIn: string) returns (vendor: string, device: string)
    ensures (vendor, device) == IdFilesFill(dir, vendorIn, deviceIn)
  {
    vendor, device := vendorIn, deviceIn;
    if vendor == [] && dir.vendor.Some? {
      vendor := NormalizeId(dir.vendor.value);
    }
    assert vendor == ReadSlot(vendorIn, dir.vendor);
    if device == [] && dir.device.Some? {
      device := NormalizeId(dir.device.value);
    }
    assert device == ReadSlot(deviceIn, dir.device);
    ghost var v1, d1 := vendor, device;
    if vendor == [] && dir.idVendor.Some? {
      vendor := NormalizeId(dir.idVendor.value);
    }
    assert vendor == ReadSlot(v1, dir.idVendor);
    if device == [] && dir.idProduct.Some? {
      device := NormalizeId(dir.idProduct.value);
    }
    assert device == ReadSlot(d1, dir.idProduct);
  }

  /** The body of the walk for one directory. */
  method FillFromDir(dir: DirAttrs, vendorIn: string, deviceIn: string) returns (vendor: string, device: string)
    ensures (vendor, device) == DirFill(dir, vendorIn, deviceIn)
  {
    vendor, device := FillFromIdFiles(dir, vendorIn, deviceIn);
    if dir.uevent.Some? {
      vendor, device := FillFromUevent(dir.uevent.value, vendor, device);
    }
    if dir.modalias.Some? {
      vendor, device := FillFromModalias(dir.modalias.value, vendor, device);
    }
  }

  /**
   * fill_vendor_device_from_sysfs over the directories from the canonical device path
   * upward (empty for an empty path), stopping once both ids are known.
   */
  method FillFromSysfs(dirs: seq<DirAttrs>, vendorIn: string, deviceIn: string) returns (vendor: string, device: string)
    ensures (vendor, device) == SysfsIds(dirs, vendorIn, deviceIn)
  {
    vendor, device := vendorIn, deviceIn;
    if dirs == [] {
      return;
    }
    var n := if |dirs| <= 6 then |dirs| else 6;
    assert dirs[0..n] == dirs[..n];
    var depth := 0;
    while depth < 6
      invariant 0 <= depth <= n
      invariant SysfsIds(dirs, vendorIn, deviceIn) == FillAlong(dirs[depth..n], vendor, device)
    {
      if depth >= |dirs| {
        break;
      }
      var v, d := FillFromDir(dirs[depth], vendor, device);
      FillAlongStep(dirs, depth, n, vendor, device, v, d);
      vendor, device := v, d;
      if vendor != [] && device != [] {
        FillAlongKeepsKnown(dirs[depth + 1..n], vendor, device);
        return;
      }
      depth := depth + 1;
    }
  }

  /** The walk over a slice is its first directory's step, then the rest. */
  lemma FillAlongStep(dirs: seq<DirAttrs>, depth: nat, n: nat, vendor: string, device: string, vendor': string, device': string)
    requires depth < n <= |dirs| && (vendor', device') == DirFill(dirs[depth], vendor, device)
    ensures FillAlong(dirs[depth..n], vendor, device) == FillAlong(dirs[depth + 1..n], vendor', device')
  {
    assert dirs[depth..n][0] == dirs[depth];
    assert dirs[depth..n][1..] == dirs[depth + 1..n];
  }

  /** Reading a file into a slot never overwrites a known id and keeps a canonical id canonical. */
  lemma ReadSlotKeepsKnown(slot: string, file: Option<string>)
    ensures slot != [] ==> ReadSlot(slot, file) == slot
    ensures IsCanonicalId(slot) ==> IsCanonicalId(ReadSlot(slot, file))
  {
    if file.Some? {
      NormalizeIdShape(file.value);
    }
  }

  /** The id-file reads never overwrite a known id and keep canonical ids canonical. */
  lemma IdFilesFillKeepsKnown(dir: DirAttrs, vendor: string, device: string)
    ensures var r := IdFilesFill(dir, vendor, device);
      (vendor != [] ==> r.0 == vendor) && (device != [] ==> r.1 == device)
    ensures var r := IdFilesFill(dir, vendor, device);
      (IsCanonicalId(vendor) ==> IsCanonicalId(r.0)) && (IsCanonicalId(device) ==> IsCanonicalId(r.1))
  {
    ReadSlotKeepsKnown(vendor, dir.vendor);
    ReadSlotKeepsKnown(ReadSlot(vendor, dir.vendor), dir.idVendor);
    ReadSlotKeepsKnown(device, dir.device);
    ReadSlotKeepsKnown(ReadSlot(device, dir.device), dir.idProduct);
  }

  /** A directory step never overwrites a known id and keeps canonical ids canonical. */
  lemma DirFillKeepsKnown(dir: DirAttrs, vendor: string, device: string)
    ensures var r := DirFill(dir, vendor, device);
      (vendor != [] ==> r.0 == vendor) && (device != [] ==> r.1 == device)
    ensures var r := DirFill(dir, vendor, device);
      (IsCanonicalId(vendor) ==> IsCanonicalId(r.0)) && (IsCanonicalId(device) ==> IsCanonicalId(r.1))
  {
    IdFilesFillKeepsKnown(dir, vendor, device);
    var (v2, d2) := IdFilesFill(dir, vendor, device);
    var (v3, d3) := if dir.uevent.Some? then FillSlots(v2, d2, UeventIds(dir.uevent.value)) else (v2, d2);
    if dir.uevent.Some? {
      FillSlotsOnlyFillsEmpty(v2, d2, UeventIds(dir.uevent.value));
    }
    if dir.modalias.Some? {
      FillSlotsOnlyFillsEmpty(v3, d3, ModaliasIds(dir.modalias.value));
    }
  }

  /** Once both ids are known, the rest of the walk changes nothing. */
  lemma {:induction false} FillAlongKeepsKnown(dirs: seq<DirAttrs>, vendor: string, device: string)
    requires vendor != [] && device != []
    ensures FillAlong(dirs, vendor, device) == (vendor, device)
    decreases |dirs|
  {
    if dirs != [] {
      DirFillKeepsKnown(dirs[0], vendor, device);
      FillAlongKeepsKnown(dirs[1..], vendor, device);
    }
  }

  /** Along the walk, a known id is never overwritten and canonical ids stay canonical. */
  lemma {:induction false} FillAlongKeepsSlots(dirs: seq<DirAttrs>, vendor: string, device: string)
    ensures var r := FillAlong(dirs, vendor, device);
      (vendor != [] ==> r.0 == vendor) && (device != [] ==> r.1 == device)
    ensures var r := FillAlong(dirs, vendor, device);
      (IsCanonicalId(vendor) ==> IsCanonicalId(r.0)) && (IsCanonicalId(device) ==> IsCanonicalId(r.1))
    decreases |dirs|
  {
    if dirs != [] {
      DirFillKeepsKnown(dirs[0], vendor, device);
      var (v, d) := DirFill(dirs[0], vendor, device);
      FillAlongKeepsSlots(dirs[1..], v, d);
    }
  }

  /** Directories beyond the sixth are never read. */
  lemma SysfsIgnoresFarAncestors(dirs: seq<DirAttrs>, more: seq<DirAttrs>, vendor: string, device: string)
    requires |dirs| >= 6
    ensures SysfsIds(dirs + more, vendor, device) == SysfsIds(dirs, vendor, device)
  {
    assert (dirs + more)[..6] == dirs[..6];
  }
}
