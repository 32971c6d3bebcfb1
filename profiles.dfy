/**
 * The capability-profile catalog (src/sysutil_wifi.cpp): the per-entry reading of
 * load_wifi_card_profiles with FIXED zeroing, the levels_mw fallback and the ordered
 * first_positive synthesis of missing milliwatt levels; the built-in default catalog;
 * and find_wifi_profile's priority search.
 *
 * The typed field readers extract_string_field / extract_int_field belong to another
 * file and are parameters here: `fields` reads the flat fields of one catalog object
 * and `levelFields` the fields of its nested levels_mw object.
 */
module ProfileCatalog {
  import opened Wrappers
  import opened Text
  import opened DocumentScanner

  /** WifiCardProfile. Levels are C++ ints as read, so they may be negative. */
  datatype WifiCardProfile = WifiCardProfile(
    vendorId: string, deviceId: string, chipset: string, name: string, powerMode: string,
    minMw: int, maxMw: int, lowestMw: int, lowMw: int, midMw: int, highMw: int)

  // ------------------------------------------------------------ first_positive

  /** first_positive: the first positive value of the list, or 0 when there is none. */
  function FirstPositive(values: seq<int>): (r: int)
    ensures r >= 0
    ensures r > 0 <==> exists i :: 0 <= i < |values| && values[i] > 0
    ensures r > 0 ==> exists i :: 0 <= i < |values| && values[i] == r && forall j :: 0 <= j < i ==> values[j] <= 0
  {
    if values == [] then 0
    else if values[0] > 0 then values[0]
    else
      var r := FirstPositive(values[1..]);
      assert forall i :: 1 <= i < |values| ==> values[i] == values[1..][i - 1];
      if r > 0 then
        ghost var i :| 0 <= i < |values[1..]| && values[1..][i] == r && forall j :: 0 <= j < i ==> values[1..][j] <= 0;
        assert values[i + 1] == r && forall j :: 0 <= j < i + 1 ==> values[j] <= 0;
        r
      else r
  }

  /** The first_positive lambda: a loop returning at the first positive value. */
  method FirstPositiveOf(values: seq<int>) returns (r: int)
    ensures r == FirstPositive(values)
  {
    var i := 0;
    while i < |values|
      invariant 0 <= i <= |values|
      invariant FirstPositive(values) == FirstPositive(values[i..])
    {
      assert values[i..][1..] == values[i + 1..];
      if values[i] > 0 {
        return values[i];
      }
      i := i + 1;
    }
    return 0;
  }

  lemma FirstPositiveCons(a: int, rest: seq<int>)
    ensures FirstPositive([a] + rest) == if a > 0 then a else FirstPositive(rest)
  {
    assert ([a] + rest)[1..] == rest;
  }

  /** first_positive over three values, written out. */
  lemma FirstPositiveOfThree(a: int, b: int, c: int)
    ensures FirstPositive([a, b, c]) == if a > 0 then a else if b > 0 then b else if c > 0 then c else 0
  {
    FirstPositiveCons(a, [b, c]);
    FirstPositiveCons(b, [c]);
    FirstPositiveCons(c, []);
  }

  /** first_positive over four values, written out. */
  lemma FirstPositiveOfFour(a: int, b: int, c: int, d: int)
    ensures FirstPositive([a, b, c, d]) == if a > 0 then a else if b > 0 then b else if c > 0 then c else if d > 0 then d else 0
  {
    FirstPositiveCons(a, [b, c, d]);
    FirstPositiveOfThree(b, c, d);
  }

  // ------------------------------------------------------------ level synthesis

  /** The levels after synthesis, each computed from the ones fixed before it. */
  function SynthesizedLevels(p: WifiCardProfile): (r: WifiCardProfile) {
    var minMw := if p.minMw > 0 then p.minMw else FirstPositive([p.lowestMw, p.lowMw, p.midMw, p.highMw]);
    var maxMw := if p.maxMw > 0 then p.maxMw else FirstPositive([p.highMw, p.midMw, p.lowMw, p.lowestMw]);
    var lowestMw := if p.lowestMw > 0 then p.lowestMw else FirstPositive([p.lowMw, p.midMw, p.highMw, minMw]);
    var lowMw := if p.lowMw > 0 then p.lowMw else FirstPositive([lowestMw, p.midMw, p.highMw, minMw]);
    var midMw := if p.midMw > 0 then p.midMw else FirstPositive([lowMw, p.highMw, maxMw]);
    var highMw := if p.highMw > 0 then p.highMw else FirstPositive([maxMw, midMw, lowMw, lowestMw]);
    p.(minMw := minMw, maxMw := maxMw, lowestMw := lowestMw, lowMw := lowMw, midMw := midMw, highMw := highMw)
  }

  /** One `if (level <= 0) level = first_positive(candidates)` step. */
  method FillLevel(level: int, candidates: seq<int>) returns (r: int)
    ensures r == if level > 0 then level else FirstPositive(candidates)
  {
    r := level;
    if r <= 0 {
      r := FirstPositiveOf(candidates);
    }
  }

  /** The six level-filling steps, in order, each seeing the levels filled before it. */
  method SynthesizeLevels(profile: WifiCardProfile) returns (p: WifiCardProfile)
    ensures p == SynthesizedLevels(profile)
  {
    p := profile;
    var v := FillLevel(p.minMw, [p.lowestMw, p.lowMw, p.midMw, p.highMw]);
    p := p.(minMw := v);
    v := FillLevel(p.maxMw, [p.highMw, p.midMw, p.lowMw, p.lowestMw]);
    p := p.(maxMw := v);
    v := FillLevel(p.lowestMw, [p.lowMw, p.midMw, p.highMw, p.minMw]);
    p := p.(lowestMw := v);
    v := FillLevel(p.lowMw, [p.lowestMw, p.midMw, p.highMw, p.minMw]);
    p := p.(lowMw := v);
    v := FillLevel(p.midMw, [p.lowMw, p.highMw, p.maxMw]);
    p := p.(midMw := v);
    v := FillLevel(p.highMw, [p.maxMw, p.midMw, p.lowMw, p.lowestMw]);
    p := p.(highMw := v);
  }

  /** A level that is already positive is never changed, and no level ends up negative. */
  lemma SynthesisKeepsPositive(p: WifiCardProfile)
    ensures var r := SynthesizedLevels(p);
      (p.minMw > 0 ==> r.minMw == p.minMw) && (p.maxMw > 0 ==> r.maxMw == p.maxMw) &&
      (p.lowestMw > 0 ==> r.lowestMw == p.lowestMw) && (p.lowMw > 0 ==> r.lowMw == p.lowMw) &&
      (p.midMw > 0 ==> r.midMw == p.midMw) && (p.highMw > 0 ==> r.highMw == p.highMw)
    ensures var r := SynthesizedLevels(p);
      r.minMw >= 0 && r.maxMw >= 0 && r.lowestMw >= 0 && r.lowMw >= 0 && r.midMw >= 0 && r.highMw >= 0
    ensures var r := SynthesizedLevels(p);
      r.(minMw := p.minMw, maxMw := p.maxMw, lowestMw := p.lowestMw, lowMw := p.lowMw,
         midMw := p.midMw, highMw := p.highMw) == p
  {
  }

  /** All six levels are positive after synthesis. */
  predicate AllLevelsPositive(p: WifiCardProfile) {
    p.minMw > 0 && p.maxMw > 0 && p.lowestMw > 0 && p.lowMw > 0 && p.midMw > 0 && p.highMw > 0
  }

  /** One positive lowest, low, mid or high level fills the whole ladder. */
  lemma SynthesisFillsLadder(p: WifiCardProfile)
    requires p.lowestMw > 0 || p.lowMw > 0 || p.midMw > 0 || p.highMw > 0
    ensures AllLevelsPositive(SynthesizedLevels(p))
  {
    var r := SynthesizedLevels(p);
    assert r.minMw > 0 by {
      if p.minMw <= 0 {
        var l := [p.lowestMw, p.lowMw, p.midMw, p.highMw];
        assert l[0] > 0 || l[1] > 0 || l[2] > 0 || l[3] > 0;
      }
    }
    assert r.maxMw > 0 by {
      if p.maxMw <= 0 {
        var l := [p.highMw, p.midMw, p.lowMw, p.lowestMw];
        assert l[0] > 0 || l[1] > 0 || l[2] > 0 || l[3] > 0;
      }
    }
    assert r.lowestMw > 0 by {
      if p.lowestMw <= 0 {
        assert [p.lowMw, p.midMw, p.highMw, r.minMw][3] > 0;
      }
    }
    assert r.lowMw > 0 by {
      if p.lowMw <= 0 {
        assert [r.lowestMw, p.midMw, p.highMw, r.minMw][0] > 0;
      }
    }
    assert r.midMw > 0 by {
      if p.midMw <= 0 {
        assert [r.lowMw, p.highMw, r.maxMw][0] > 0;
      }
    }
    assert r.highMw > 0 by {
      if p.highMw <= 0 {
        assert [r.maxMw, r.midMw, r.lowMw, r.lowestMw][0] > 0;
      }
    }
  }

  /** A profile supplying only `high` gets that value for every level. */
  lemma SynthesisFromHighOnly(p: WifiCardProfile, high: int)
    requires high > 0
    requires p.minMw <= 0 && p.maxMw <= 0 && p.lowestMw <= 0 && p.lowMw <= 0 && p.midMw <= 0 && p.highMw == high
    ensures var r := SynthesizedLevels(p);
      r.minMw == high && r.maxMw == high && r.lowestMw == high && r.lowMw == high && r.midMw == high && r.highMw == high
  {
    FirstPositiveOfFour(p.lowestMw, p.lowMw, p.midMw, high);
    FirstPositiveOfFour(high, p.midMw, p.lowMw, p.lowestMw);
    FirstPositiveOfFour(p.lowMw, p.midMw, high, high);
    FirstPositiveOfFour(high, p.midMw, high, high);
    FirstPositiveOfThree(high, high, high);
  }

  /**
   * A profile supplying only `min_mw` keeps a zero maximum: the maximum is synthesized
   * before the levels it could be taken from.
   */
  lemma SynthesisFromMinOnly(p: WifiCardProfile, min: int)
    requires min > 0
    requires p.minMw == min && p.maxMw <= 0 && p.lowestMw <= 0 && p.lowMw <= 0 && p.midMw <= 0 && p.highMw <= 0
    ensures var r := SynthesizedLevels(p);
      r.minMw == min && r.maxMw == 0 && r.lowestMw == min && r.lowMw == min && r.midMw == min && r.highMw == min
  {
    FirstPositiveOfFour(p.highMw, p.midMw, p.lowMw, p.lowestMw);
    FirstPositiveOfFour(p.lowMw, p.midMw, p.highMw, min);
    FirstPositiveOfFour(min, p.midMw, p.highMw, min);
    FirstPositiveOfThree(min, p.highMw, 0);
    FirstPositiveOfFour(0, min, min, min);
  }

  // ------------------------------------------------------------ load_wifi_card_profiles

  /** The flat fields of one catalog object, as the typed field readers return them. */
  datatype EntryFields = EntryFields(
    vendorId: Option<string>, deviceId: Option<string>, chipset: Option<string>,
    name: Option<string>, powerMode: Option<string>,
    minMw: Option<int>, maxMw: Option<int>, lowest: Option<int>, low: Option<int>,
    mid: Option<int>, high: Option<int>)

  /** The fields of a nested levels_mw object. */
  datatype LevelFields = LevelFields(lowest: Option<int>, low: Option<int>, mid: Option<int>, high: Option<int>)

  /** The levels_mw fallback: each non-positive named level is taken from the nested object. */
  function WithNestedLevels(p: WifiCardProfile, l: LevelFields): (r: WifiCardProfile) {
    p.(lowestMw := if p.lowestMw <= 0 then l.lowest.GetOr(0) else p.lowestMw,
       lowMw := if p.lowMw <= 0 then l.low.GetOr(0) else p.lowMw,
       midMw := if p.midMw <= 0 then l.mid.GetOr(0) else p.midMw,
       highMw := if p.highMw <= 0 then l.high.GetOr(0) else p.highMw)
  }

  /** The identity fields of an entry, its levels still zero. */
  function EntryIdentity(f: EntryFields): WifiCardProfile
    requires f.vendorId.Some? && f.deviceId.Some?
  {
    WifiCardProfile(
      NormalizeId(f.vendorId.value), NormalizeId(f.deviceId.value), NormalizeChipset(f.chipset.GetOr("")),
      f.name.GetOr(""), ToUpper(f.powerMode.GetOr("mw")), 0, 0, 0, 0, 0, 0)
  }

  /** The levels of a non-FIXED entry before synthesis: its flat fields, then the levels_mw fallback. */
  function ReadLevels(entry: string, fields: string -> EntryFields, levelFields: string -> LevelFields): WifiCardProfile
    requires fields(entry).vendorId.Some? && fields(entry).deviceId.Some?
  {
    var f := fields(entry);
    var flat := EntryIdentity(f).(minMw := f.minMw.GetOr(0), maxMw := f.maxMw.GetOr(0),
      lowestMw := f.lowest.GetOr(0), lowMw := f.low.GetOr(0), midMw := f.mid.GetOr(0), highMw := f.high.GetOr(0));
    match ObjectField(entry, "levels_mw")
    case None => flat
    case Some(levels) => WithNestedLevels(flat, levelFields(levels))
  }

  /**
   * The profile one catalog object yields, or None when it lacks vendor_id or device_id
   * (an empty id counts as present).
   */
  function ProfileOf(entry: string, fields: string -> EntryFields, levelFields: string -> LevelFields): (r: Option<WifiCardProfile>)
    ensures r.None? <==> fields(entry).vendorId.None? || fields(entry).deviceId.None?
  {
    var f := fields(entry);
    if f.vendorId.None? || f.deviceId.None? then None
    else if EntryIdentity(f).powerMode == "FIXED" then Some(EntryIdentity(f))
    else Some(SynthesizedLevels(ReadLevels(entry, fields, levelFields)))
  }

  /** The profiles the catalog objects yield, in order. */
  function ProfilesOf(objects: seq<string>, fields: string -> EntryFields, levelFields: string -> LevelFields): seq<WifiCardProfile>
    decreases |objects|
  {
    if objects == [] then []
    else
      var n := |objects| - 1;
      ProfilesOf(objects[..n], fields, levelFields) +
      (match ProfileOf(objects[n], fields, levelFields) case None => [] case Some(p) => [p])
  }

  /** The profiles the catalog objects yield, or the default catalog when there are none. */
  function CatalogOf(objects: seq<string>, fields: string -> EntryFields, levelFields: string -> LevelFields): seq<WifiCardProfile> {
    var profiles := ProfilesOf(objects, fields, levelFields);
    if profiles == [] then DefaultWifiCardProfiles() else profiles
  }

  /** The catalog of a document (None when the file is missing) holding a `cards` array. */
  function Catalog(doc: Option<string>, fields: string -> EntryFields, levelFields: string -> LevelFields): seq<WifiCardProfile> {
    match doc
    case None => DefaultWifiCardProfiles()
    case Some(content) => CatalogOf(ArrayObjects(content, "cards"), fields, levelFields)
  }

  /** The per-object body of load_wifi_card_profiles' loop; None stands for `continue`. */
  method ReadProfile(entry: string, fields: string -> EntryFields, levelFields: string -> LevelFields)
    returns (r: Option<WifiCardProfile>)
    ensures r == ProfileOf(entry, fields, levelFields)
  {
    var f := fields(entry);
    if f.vendorId.None? || f.deviceId.None? {
      return None;
    }
    var profile := WifiCardProfile("", "", "", "", "", 0, 0, 0, 0, 0, 0);
    profile := profile.(vendorId := NormalizeId(f.vendorId.value));
    profile := profile.(deviceId := NormalizeId(f.deviceId.value));
    profile := profile.(chipset := NormalizeChipset(f.chipset.GetOr("")));
    profile := profile.(name := f.name.GetOr(""));
    profile := profile.(powerMode := ToUpper(f.powerMode.GetOr("mw")));
    if profile.powerMode == "FIXED" {
      profile := profile.(minMw := 0, maxMw := 0, lowestMw := 0, lowMw := 0, midMw := 0, highMw := 0);
      return Some(profile);
    }
    profile := profile.(minMw := f.minMw.GetOr(0), maxMw := f.maxMw.GetOr(0));
    profile := profile.(lowestMw := f.lowest.GetOr(0), lowMw := f.low.GetOr(0));
    profile := profile.(midMw := f.mid.GetOr(0), highMw := f.high.GetOr(0));
    var levels := ExtractObjectField(entry, "levels_mw");
    if levels.Some? {
      var l := levelFields(levels.value);
      if profile.lowestMw <= 0 {
        profile := profile.(lowestMw := l.lowest.GetOr(0));
      }
      if profile.lowMw <= 0 {
        profile := profile.(lowMw := l.low.GetOr(0));
      }
      if profile.midMw <= 0 {
        profile := profile.(midMw := l.mid.GetOr(0));
      }
      if profile.highMw <= 0 {
        profile := profile.(highMw := l.high.GetOr(0));
      }
    }
    profile := SynthesizeLevels(profile);
    return Some(profile);
  }

  /** load_wifi_card_profiles: the catalog document, or the defaults when it yields nothing. */
  method LoadWifiCardProfiles(doc: Option<string>, fields: string -> EntryFields, levelFields: string -> LevelFields)
    returns (profiles: seq<WifiCardProfile>)
    ensures profiles == Catalog(doc, fields, levelFields)
  {
    if doc.None? {
      return DefaultWifiCardProfiles();
    }
    var objects := ExtractArrayObjects(doc.value, "cards");
    if objects == [] {
      return DefaultWifiCardProfiles();
    }
    profiles := [];
    var i := 0;
    while i < |objects|
      invariant 0 <= i <= |objects|
      invariant profiles == ProfilesOf(objects[..i], fields, levelFields)
    {
      assert objects[..i + 1][..i] == objects[..i];
      var profile := ReadProfile(objects[i], fields, levelFields);
      i := i + 1;
      if profile.None? {
        continue;
      }
      profiles := profiles + [profile.value];
    }
    assert objects[..i] == objects;
    if profiles == [] {
      return DefaultWifiCardProfiles();
    }
  }

  // ------------------------------------------------------------ properties of the catalog

  /** A profile as the loader leaves it. */
  predicate IsLoadedProfile(p: WifiCardProfile) {
    IsCanonicalId(p.vendorId) && IsCanonicalId(p.deviceId) &&
    IsTrimmed(p.chipset) && ToUpper(p.chipset) == p.chipset && ToUpper(p.powerMode) == p.powerMode &&
    (p.powerMode == "FIXED" ==> p.minMw == 0 && p.maxMw == 0 && p.lowestMw == 0 && p.lowMw == 0 && p.midMw == 0 && p.highMw == 0) &&
    p.minMw >= 0 && p.maxMw >= 0 && p.lowestMw >= 0 && p.lowMw >= 0 && p.midMw >= 0 && p.highMw >= 0
  }

  /** Every profile of the list is in loaded form. */
  predicate AllLoaded(profiles: seq<WifiCardProfile>) {
    forall k :: 0 <= k < |profiles| ==> IsLoadedProfile(profiles[k])
  }

  /** Every profile read from an object is canonical, and a FIXED one has all six levels zero. */
  lemma ProfileOfIsLoaded(entry: string, fields: string -> EntryFields, levelFields: string -> LevelFields)
    ensures var r := ProfileOf(entry, fields, levelFields);
      r.Some? ==> IsLoadedProfile(r.value)
  {
    var f := fields(entry);
    if f.vendorId.Some? && f.deviceId.Some? {
      NormalizeIdShape(f.vendorId.value);
      NormalizeIdShape(f.deviceId.value);
      var c := f.chipset.GetOr("");
      TrimCopyFixedPoints(NormalizeChipset(c));
      ToUpperIdempotent(f.powerMode.GetOr("mw"));
      if EntryIdentity(f).powerMode != "FIXED" {
        SynthesisKeepsPositive(ReadLevels(entry, fields, levelFields));
      }
    }
  }

  /**
   * For a non-FIXED entry, one positive lowest, low, mid or high level after the
   * levels_mw fallback gives all six levels positive, and positive levels are kept.
   */
  lemma ProfileOfFillsLadder(entry: string, fields: string -> EntryFields, levelFields: string -> LevelFields)
    requires fields(entry).vendorId.Some? && fields(entry).deviceId.Some?
    requires ToUpper(fields(entry).powerMode.GetOr("mw")) != "FIXED"
    requires var l := ReadLevels(entry, fields, levelFields);
      l.lowestMw > 0 || l.lowMw > 0 || l.midMw > 0 || l.highMw > 0
    ensures ProfileOf(entry, fields, levelFields).Some?
    ensures AllLevelsPositive(ProfileOf(entry, fields, levelFields).value)
  {
    SynthesisFillsLadder(ReadLevels(entry, fields, levelFields));
  }

  lemma {:induction false} ProfilesOfAreLoaded(objects: seq<string>, fields: string -> EntryFields, levelFields: string -> LevelFields)
    ensures AllLoaded(ProfilesOf(objects, fields, levelFields))
    decreases |objects|
  {
    if objects != [] {
      var n := |objects| - 1;
      ProfilesOfAreLoaded(objects[..n], fields, levelFields);
      ProfileOfIsLoaded(objects[n], fields, levelFields);
    }
  }

  lemma CatalogOfIsLoaded(objects: seq<string>, fields: string -> EntryFields, levelFields: string -> LevelFields)
    ensures var c := CatalogOf(objects, fields, levelFields);
      c != [] && AllLoaded(c)
  {
    DefaultsAreLoaded();
    ProfilesOfAreLoaded(objects, fields, levelFields);
  }

  /** The catalog is never empty, and every profile in it is in loaded form. */
  lemma CatalogIsLoaded(doc: Option<string>, fields: string -> EntryFields, levelFields: string -> LevelFields)
    ensures var c := Catalog(doc, fields, levelFields);
      c != [] && AllLoaded(c)
  {
    if doc.Some? {
      CatalogOfIsLoaded(ArrayObjects(doc.value, "cards"), fields, levelFields);
    } else {
      DefaultsAreLoaded();
    }
  }

  /** A missing document, a document without catalog objects, or one without usable objects gives the defaults. */
  lemma CatalogFallsBack(doc: Option<string>, fields: string -> EntryFields, levelFields: string -> LevelFields)
    requires doc.None? || ArrayObjects(doc.value, "cards") == []
    ensures Catalog(doc, fields, levelFields) == DefaultWifiCardProfiles()
  {
  }

  // ------------------------------------------------------------ default_wifi_card_profiles

  /**
   * default_wifi_card_profiles: the on-board Raspberry Pi adapter and the LB-Link 8812eu.
   * The source passes the ids and chipsets through normalize_id and normalize_chipset;
   * DefaultCatalogIsNormalised shows that the values written here are what that yields.
   */
  function DefaultWifiCardProfiles(): (r: seq<WifiCardProfile>)
    ensures |r| == 2
  {
    [WifiCardProfile("0x02D0", "0xA9A6", "BROADCOM", "Raspberry Internal", "FIXED", 0, 0, 0, 0, 0, 0),
     WifiCardProfile("0x0BDA", "0xA81A", "OPENHD_RTL_88X2EU", "LB-Link 8812eu", "MW", 25, 1000, 25, 100, 500, 1000)]
  }

  /** An id of the form 0x and four upper-case hex digits is its own normal form. */
  lemma QuadIdIsCanonical(s: string)
    requires |s| == 6 && s[0] == '0' && s[1] == 'x'
    requires IsUpperHexDigit(s[2]) && IsUpperHexDigit(s[3]) && IsUpperHexDigit(s[4]) && IsUpperHexDigit(s[5])
    ensures NormalizeId(s) == s
  {
    assert NoLower(s[2..]) by {
      forall i | 0 <= i < |s[2..]|
        ensures !('a' <= s[2..][i] <= 'z')
      {
        assert s[2..][i] == s[i + 2];
      }
    }
    NormalizeIdOfCanonical(s);
  }

  /** A digit or an upper-case letter from A to F. */
  predicate IsUpperHexDigit(c: char) {
    '0' <= c <= '9' || 'A' <= c <= 'F'
  }

  /** The chipset tag BROADCOM is its own normal form. */
  lemma BroadcomTagIsNormal(chipset: string)
    requires chipset == "BROADCOM"
    ensures NormalizeChipset(chipset) == chipset
  {
    assert IsTrimmed(chipset);
    assert NoLower(chipset);
    NormalizeChipsetOfNormal(chipset);
  }

  /** The chipset tag OPENHD_RTL_88X2EU is its own normal form. */
  lemma Rtl88x2euTagIsNormal(chipset: string)
    requires chipset == "OPENHD_RTL_88X2EU"
    ensures NormalizeChipset(chipset) == chipset
  {
    assert IsTrimmed(chipset);
    assert NoLower(chipset);
    NormalizeChipsetOfNormal(chipset);
  }

  /** The Raspberry Pi adapter's ids are already canonical. */
  lemma RpiIdsAreCanonical(vendor: string, device: string)
    requires vendor == "0x02D0" && device == "0xA9A6"
    ensures NormalizeId(vendor) == vendor && NormalizeId(device) == device
  {
    QuadIdIsCanonical(vendor);
    QuadIdIsCanonical(device);
  }

  /** The LB-Link adapter's ids are already canonical. */
  lemma LbLinkIdsAreCanonical(vendor: string, device: string)
    requires vendor == "0x0BDA" && device == "0xA81A"
    ensures NormalizeId(vendor) == vendor && NormalizeId(device) == device
  {
    QuadIdIsCanonical(vendor);
    QuadIdIsCanonical(device);
  }

  /**
   * Normalising the raw ids and chipsets the source writes gives the default catalog:
   * the normalisation changes none of them.
   */
  lemma DefaultCatalogIsNormalised(rpiVendor: string, rpiDevice: string, rpiChipset: string,
                                   lbVendor: string, lbDevice: string, lbChipset: string)
    requires rpiVendor == "0x02D0" && rpiDevice == "0xA9A6" && rpiChipset == "BROADCOM"
    requires lbVendor == "0x0BDA" && lbDevice == "0xA81A" && lbChipset == "OPENHD_RTL_88X2EU"
    ensures DefaultWifiCardProfiles() ==
      [WifiCardProfile(NormalizeId(rpiVendor), NormalizeId(rpiDevice), NormalizeChipset(rpiChipset),
         "Raspberry Internal", "FIXED", 0, 0, 0, 0, 0, 0),
       WifiCardProfile(NormalizeId(lbVendor), NormalizeId(lbDevice), NormalizeChipset(lbChipset),
         "LB-Link 8812eu", "MW", 25, 1000, 25, 100, 500, 1000)]
  {
    RpiIdsAreCanonical(rpiVendor, rpiDevice);
    BroadcomTagIsNormal(rpiChipset);
    LbLinkIdsAreCanonical(lbVendor, lbDevice);
    Rtl88x2euTagIsNormal(lbChipset);
  }

  /** The default catalog's power modes are already upper case. */
  lemma ModeIsUpper(mode: string)
    requires mode == "FIXED" || mode == "MW"
    ensures ToUpper(mode) == mode
  {
    assert NoLower(mode);
    UpperOfNoLower(mode);
  }

  /** A profile whose identity is in normal form, with an upper-case mode and loader-shaped levels, is in loaded form. */
  lemma NormalProfileIsLoaded(p: WifiCardProfile)
    requires NormalizeId(p.vendorId) == p.vendorId && NormalizeId(p.deviceId) == p.deviceId
    requires NormalizeChipset(p.chipset) == p.chipset && ToUpper(p.powerMode) == p.powerMode
    requires p.powerMode == "FIXED" ==> p.minMw == 0 && p.maxMw == 0 && p.lowestMw == 0 && p.lowMw == 0 && p.midMw == 0 && p.highMw == 0
    requires p.minMw >= 0 && p.maxMw >= 0 && p.lowestMw >= 0 && p.lowMw >= 0 && p.midMw >= 0 && p.highMw >= 0
    ensures IsLoadedProfile(p)
  {
    NormalizeIdFixedPoints(p.vendorId);
    NormalizeIdFixedPoints(p.deviceId);
  }

  /** The Raspberry Pi entry is in loaded form. */
  lemma RpiProfileIsLoaded(p: WifiCardProfile)
    requires p.vendorId == "0x02D0" && p.deviceId == "0xA9A6" && p.chipset == "BROADCOM" && p.powerMode == "FIXED"
    requires p.minMw == 0 && p.maxMw == 0 && p.lowestMw == 0 && p.lowMw == 0 && p.midMw == 0 && p.highMw == 0
    ensures IsLoadedProfile(p)
  {
    RpiIdsAreCanonical(p.vendorId, p.deviceId);
    BroadcomTagIsNormal(p.chipset);
    ModeIsUpper(p.powerMode);
    NormalProfileIsLoaded(p);
  }

  /** The LB-Link entry is in loaded form. */
  lemma LbLinkProfileIsLoaded(p: WifiCardProfile)
    requires p.vendorId == "0x0BDA" && p.deviceId == "0xA81A" && p.chipset == "OPENHD_RTL_88X2EU" && p.powerMode == "MW"
    requires p.minMw == 25 && p.maxMw == 1000 && p.lowestMw == 25 && p.lowMw == 100 && p.midMw == 500 && p.highMw == 1000
    ensures IsLoadedProfile(p)
  {
    LbLinkIdsAreCanonical(p.vendorId, p.deviceId);
    Rtl88x2euTagIsNormal(p.chipset);
    ModeIsUpper(p.powerMode);
    NormalProfileIsLoaded(p);
  }

  lemma PairIsLoaded(ps: seq<WifiCardProfile>)
    requires |ps| == 2 && IsLoadedProfile(ps[0]) && IsLoadedProfile(ps[1])
    ensures AllLoaded(ps)
  {
  }

  /** The default profiles are in the form the loader produces. */
  lemma DefaultsAreLoaded()
    ensures AllLoaded(DefaultWifiCardProfiles())
  {
    var ps := DefaultWifiCardProfiles();
    RpiProfileIsLoaded(ps[0]);
    LbLinkProfileIsLoaded(ps[1]);
    PairIsLoaded(ps);
  }

  // ------------------------------------------------------------ find_wifi_profile

  /** The vendor and device ids match, ignoring case. */
  predicate IdsMatch(p: WifiCardProfile, vendorId: string, deviceId: string) {
    EqualAfterUppercase(p.vendorId, vendorId) && EqualAfterUppercase(p.deviceId, deviceId)
  }

  /** The three kinds of match find_wifi_profile ranks. */
  datatype MatchKind = ChipsetMatch | GenericMatch | AnyMatch

  predicate Matches(p: WifiCardProfile, kind: MatchKind, vendorId: string, deviceId: string, chipset: string) {
    IdsMatch(p, vendorId, deviceId) &&
    match kind
    case ChipsetMatch => p.chipset != [] && EqualAfterUppercase(p.chipset, chipset)
    case GenericMatch => p.chipset == []
    case AnyMatch => true
  }

  /** `j` is the first index whose profile matches in the given way. */
  predicate IsFirst(profiles: seq<WifiCardProfile>, kind: MatchKind, vendorId: string, deviceId: string, chipset: string, j: nat) {
    j < |profiles| && Matches(profiles[j], kind, vendorId, deviceId, chipset) &&
    forall k :: 0 <= k < j ==> !Matches(profiles[k], kind, vendorId, deviceId, chipset)
  }

  /** The first index from `i` on whose profile matches in the given way. */
  function FirstFrom(profiles: seq<WifiCardProfile>, kind: MatchKind, vendorId: string, deviceId: string, chipset: string, i: nat)
    : (r: Option<nat>)
    requires i <= |profiles|
    ensures r.Some? ==> i <= r.value < |profiles| && Matches(profiles[r.value], kind, vendorId, deviceId, chipset)
    ensures r.Some? ==> forall k :: i <= k < r.value ==> !Matches(profiles[k], kind, vendorId, deviceId, chipset)
    ensures r.None? ==> forall k :: i <= k < |profiles| ==> !Matches(profiles[k], kind, vendorId, deviceId, chipset)
    decreases |profiles| - i
  {
    if i == |profiles| then None
    else if Matches(profiles[i], kind, vendorId, deviceId, chipset) then Some(i)
    else FirstFrom(profiles, kind, vendorId, deviceId, chipset, i + 1)
  }

  /** The priority order: the first chipset match, else the first generic match, else the first match. */
  function Preferred(profiles: seq<WifiCardProfile>, vendorId: string, deviceId: string, chipset: string): Option<nat> {
    var exact := FirstFrom(profiles, ChipsetMatch, vendorId, deviceId, chipset, 0);
    var generic := FirstFrom(profiles, GenericMatch, vendorId, deviceId, chipset, 0);
    if exact.Some? then exact
    else if generic.Some? then generic
    else FirstFrom(profiles, AnyMatch, vendorId, deviceId, chipset, 0)
  }

  /**
   * find_wifi_profile's loop from index `i`, with its two remembered matches; the
   * result is an index into `profiles` (the returned pointer), None for nullptr.
   */
  function FindFrom(profiles: seq<WifiCardProfile>, vendorId: string, deviceId: string, chipset: string,
                    i: nat, generic: Option<nat>, any: Option<nat>): Option<nat>
    requires i <= |profiles|
    decreases |profiles| - i
  {
    if i == |profiles| then (if generic.Some? then generic else any)
    else
      var p := profiles[i];
      var any' := if any.None? then Some(i) else any;
      if !IdsMatch(p, vendorId, deviceId) then FindFrom(profiles, vendorId, deviceId, chipset, i + 1, generic, any)
      else if p.chipset == [] then
        FindFrom(profiles, vendorId, deviceId, chipset, i + 1, if generic.None? then Some(i) else generic, any')
      else if EqualAfterUppercase(p.chipset, chipset) then Some(i)
      else FindFrom(profiles, vendorId, deviceId, chipset, i + 1, generic, any')
  }

  /** find_wifi_profile */
  function FindWifiProfile(profiles: seq<WifiCardProfile>, vendorId: string, deviceId: string, chipset: string): Option<nat> {
    FindFrom(profiles, vendorId, deviceId, chipset, 0, None, None)
  }

  /** find_wifi_profile's loop: it returns the preferred match, as FindWifiProfileIsPreferred ranks it. */
  method LookupWifiProfile(profiles: seq<WifiCardProfile>, vendorId: string, deviceId: string, chipset: string)
    returns (r: Option<nat>)
    ensures r == FindWifiProfile(profiles, vendorId, deviceId, chipset)
    ensures r == Preferred(profiles, vendorId, deviceId, chipset)
  {
    FindWifiProfileIsPreferred(profiles, vendorId, deviceId, chipset);
    var vendorDeviceMatch: Option<nat> := None;
    var genericMatch: Option<nat> := None;
    var i := 0;
    while i < |profiles|
      invariant i <= |profiles|
      invariant FindFrom(profiles, vendorId, deviceId, chipset, i, genericMatch, vendorDeviceMatch)
             == FindWifiProfile(profiles, vendorId, deviceId, chipset)
    {
      var p := profiles[i];
      if EqualAfterUppercase(p.vendorId, vendorId) && EqualAfterUppercase(p.deviceId, deviceId) {
        if p.chipset == [] {
          if genericMatch.None? {
            genericMatch := Some(i);
          }
        } else if EqualAfterUppercase(p.chipset, chipset) {
          return Some(i);
        }
        if vendorDeviceMatch.None? {
          vendorDeviceMatch := Some(i);
        }
      }
      i := i + 1;
    }
    if genericMatch.Some? {
      return genericMatch;
    }
    return vendorDeviceMatch;
  }

  /** What the loop has remembered after the profiles before `i`. */
  predicate Remembered(profiles: seq<WifiCardProfile>, kind: MatchKind, vendorId: string, deviceId: string, chipset: string,
                       i: nat, found: Option<nat>) {
    i <= |profiles| &&
    match found
    case None => forall k :: 0 <= k < i ==> !Matches(profiles[k], kind, vendorId, deviceId, chipset)
    case Some(j) => j < i && IsFirst(profiles, kind, vendorId, deviceId, chipset, j)
  }

  /** One more profile seen: the remembered first match is kept, or is this one. */
  lemma RememberStep(profiles: seq<WifiCardProfile>, kind: MatchKind, vendorId: string, deviceId: string, chipset: string,
                     i: nat, found: Option<nat>)
    requires i < |profiles| && Remembered(profiles, kind, vendorId, deviceId, chipset, i, found)
    ensures Remembered(profiles, kind, vendorId, deviceId, chipset, i + 1,
      if found.None? && Matches(profiles[i], kind, vendorId, deviceId, chipset) then Some(i) else found)
  {
  }

  /** At the end of the loop, the generic match, else the vendor/device match, is the preferred one. */
  lemma FindEndIsPreferred(profiles: seq<WifiCardProfile>, vendorId: string, deviceId: string, chipset: string,
                           generic: Option<nat>, any: Option<nat>)
    requires forall k :: 0 <= k < |profiles| ==> !Matches(profiles[k], ChipsetMatch, vendorId, deviceId, chipset)
    requires Remembered(profiles, GenericMatch, vendorId, deviceId, chipset, |profiles|, generic)
    requires Remembered(profiles, AnyMatch, vendorId, deviceId, chipset, |profiles|, any)
    ensures (if generic.Some? then generic else any) == Preferred(profiles, vendorId, deviceId, chipset)
  {
    var g := FirstFrom(profiles, GenericMatch, vendorId, deviceId, chipset, 0);
    var a := FirstFrom(profiles, AnyMatch, vendorId, deviceId, chipset, 0);
    if generic.Some? {
      FirstIsUnique(profiles, GenericMatch, vendorId, deviceId, chipset, g, generic.value);
    } else if any.Some? {
      FirstIsUnique(profiles, AnyMatch, vendorId, deviceId, chipset, a, any.value);
    }
  }

  lemma {:induction false} FindFromIsPreferred(profiles: seq<WifiCardProfile>, vendorId: string, deviceId: string, chipset: string,
                                               i: nat, generic: Option<nat>, any: Option<nat>)
    requires i <= |profiles|
    requires forall k :: 0 <= k < i ==> !Matches(profiles[k], ChipsetMatch, vendorId, deviceId, chipset)
    requires Remembered(profiles, GenericMatch, vendorId, deviceId, chipset, i, generic)
    requires Remembered(profiles, AnyMatch, vendorId, deviceId, chipset, i, any)
    ensures FindFrom(profiles, vendorId, deviceId, chipset, i, generic, any) == Preferred(profiles, vendorId, deviceId, chipset)
    decreases |profiles| - i
  {
    if i == |profiles| {
      FindEndIsPreferred(profiles, vendorId, deviceId, chipset, generic, any);
    } else {
      var p := profiles[i];
      RememberStep(profiles, GenericMatch, vendorId, deviceId, chipset, i, generic);
      RememberStep(profiles, AnyMatch, vendorId, deviceId, chipset, i, any);
      if IdsMatch(p, vendorId, deviceId) && p.chipset != [] && EqualAfterUppercase(p.chipset, chipset) {
        FirstIsUnique(profiles, ChipsetMatch, vendorId, deviceId, chipset,
          FirstFrom(profiles, ChipsetMatch, vendorId, deviceId, chipset, 0), i);
      } else {
        assert !Matches(p, ChipsetMatch, vendorId, deviceId, chipset);
        FindFromIsPreferred(profiles, vendorId, deviceId, chipset, i + 1,
          if generic.None? && Matches(p, GenericMatch, vendorId, deviceId, chipset) then Some(i) else generic,
          if any.None? && Matches(p, AnyMatch, vendorId, deviceId, chipset) then Some(i) else any);
      }
    }
  }

  /** FirstFrom from 0 returns the first match, which is unique. */
  lemma FirstIsUnique(profiles: seq<WifiCardProfile>, kind: MatchKind, vendorId: string, deviceId: string, chipset: string,
                      r: Option<nat>, j: nat)
    requires r == FirstFrom(profiles, kind, vendorId, deviceId, chipset, 0)
    requires IsFirst(profiles, kind, vendorId, deviceId, chipset, j)
    ensures r == Some(j)
  {
  }

  /**
   * find_wifi_profile ranks the matches: the first match with a non-empty chipset equal
   * to the hint wins wherever it stands, else the first chipset-agnostic match, else
   * the first vendor/device match, else none.
   */
  lemma FindWifiProfileIsPreferred(profiles: seq<WifiCardProfile>, vendorId: string, deviceId: string, chipset: string)
    ensures FindWifiProfile(profiles, vendorId, deviceId, chipset) == Preferred(profiles, vendorId, deviceId, chipset)
  {
    FindFromIsPreferred(profiles, vendorId, deviceId, chipset, 0, None, None);
  }

  /** Every returned profile matches vendor and device ignoring case, and none is returned only without a match. */
  lemma FindWifiProfileMatches(profiles: seq<WifiCardProfile>, vendorId: string, deviceId: string, chipset: string)
    ensures var r := FindWifiProfile(profiles, vendorId, deviceId, chipset);
      (r.Some? ==> r.value < |profiles| && IdsMatch(profiles[r.value], vendorId, deviceId)) &&
      (r.None? <==> forall k :: 0 <= k < |profiles| ==> !IdsMatch(profiles[k], vendorId, deviceId))
  {
    FindWifiProfileIsPreferred(profiles, vendorId, deviceId, chipset);
    var a := FirstFrom(profiles, AnyMatch, vendorId, deviceId, chipset, 0);
    if a.Some? {
      assert FirstFrom(profiles, GenericMatch, vendorId, deviceId, chipset, 0).Some? ||
             FirstFrom(profiles, ChipsetMatch, vendorId, deviceId, chipset, 0).Some? ||
             Preferred(profiles, vendorId, deviceId, chipset) == a;
    } else {
      forall k | 0 <= k < |profiles|
        ensures !IdsMatch(profiles[k], vendorId, deviceId)
      {
        assert !Matches(profiles[k], AnyMatch, vendorId, deviceId, chipset);
      }
    }
  }

  /** An empty chipset hint never selects by chipset. */
  lemma EmptyHintIgnoresChipset(profiles: seq<WifiCardProfile>, vendorId: string, deviceId: string)
    ensures var generic := FirstFrom(profiles, GenericMatch, vendorId, deviceId, "", 0);
      FindWifiProfile(profiles, vendorId, deviceId, "") ==
        if generic.Some? then generic else FirstFrom(profiles, AnyMatch, vendorId, deviceId, "", 0)
  {
    FindWifiProfileIsPreferred(profiles, vendorId, deviceId, "");
    forall k | 0 <= k < |profiles|
      ensures !Matches(profiles[k], ChipsetMatch, vendorId, deviceId, "")
    {
      if profiles[k].chipset != [] {
        assert |ToUpper(profiles[k].chipset)| != |ToUpper("")|;
      }
    }
  }

  /**
   * Three entries for one card with chipsets X, "" and Y: the hint X selects the
   * first entry, an unknown hint Z the chipset-agnostic second one.
   */
  lemma FindWifiProfileExample(a: WifiCardProfile, b: WifiCardProfile, c: WifiCardProfile, vendorId: string, deviceId: string)
    requires IdsMatch(a, vendorId, deviceId) && IdsMatch(b, vendorId, deviceId) && IdsMatch(c, vendorId, deviceId)
    requires a.chipset == "X" && b.chipset == "" && c.chipset == "Y"
    ensures FindWifiProfile([a, b, c], vendorId, deviceId, "X") == Some(0)
    ensures FindWifiProfile([a, b, c], vendorId, deviceId, "Z") == Some(1)
  {
    var ps := [a, b, c];
    assert EqualAfterUppercase(a.chipset, "X");
    assert ToUpper("X") == "X" && ToUpper("Y") == "Y" && ToUpper("Z") == "Z";
    assert FindFrom(ps, vendorId, deviceId, "Z", 3, Some(1), Some(0)) == Some(1);
    assert FindFrom(ps, vendorId, deviceId, "Z", 2, Some(1), Some(0)) == Some(1);
    assert FindFrom(ps, vendorId, deviceId, "Z", 1, None, Some(0)) == Some(1);
  }
}
