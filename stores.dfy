/**
 * The two override stores of the Wi-Fi card inventory, as text.
 *
 * The type store holds `iface=type` lines; the transmit-power store holds
 * `iface.field=value` lines.  Both start with a comment header, skip blank and `#`
 * lines, split at the first '=' and trim both sides.  A missing file (`doc == None`)
 * reads as an empty store.  The writers list the map in the iteration order of an
 * std::unordered_map, which the model leaves open: `order` is any enumeration of
 * the keys.
 */
module OverrideStores {
  import opened Wrappers
  import opened Text

  const TypeHeader := "# OpenHD SysUtils Wi-Fi overrides"
  const TxHeader := "# OpenHD SysUtils Wi-Fi TX power overrides"

  /** An interface name as the loaders can produce it: trimmed, non-empty, no '=', no leading '#'. */
  predicate IsStoreKey(k: string) {
    k != [] && IsTrimmed(k) && k[0] != '#' && '=' !in k
  }

  /** `order` lists every element of `keys` exactly once. */
  ghost predicate Enumerates(order: seq<string>, keys: set<string>) {
    (forall k :: k in keys <==> k in order) &&
    (forall i, j :: 0 <= i < j < |order| ==> order[i] != order[j])
  }

  /** The trimmed text before and after the first '=' of a trimmed, non-comment line. */
  function SplitAssignment(t: string): (r: Option<(string, string)>)
    requires t != [] && IsTrimmed(t) && t[0] != '#'
    ensures r.Some? ==> IsTrimmed(r.value.0) && IsTrimmed(r.value.1) && '=' !in r.value.0
    ensures r.Some? && r.value.0 != [] ==> IsStoreKey(r.value.0)
  {
    match Find(t, "=", 0)
    case None => None
    case Some(p) =>
      FindCharPrefix(t, '=', p);
      TrimCopyWithin(t[..p]);
      var key := TrimCopy(t[..p]);
      if key == [] then Some((key, TrimCopy(t[p + 1..])))
      else
        TrimCopyKeepsHead(t[..p]);
        Some((key, TrimCopy(t[p + 1..])))
  }

  // ---------------------------------------------------------------- the type store

  /** What one line of the type store says (load_overrides' loop body): an interface and its type. */
  function ParseTypeLine(line: string): (r: Option<(string, string)>)
    ensures r.Some? ==> IsStoreKey(r.value.0) && r.value.1 != [] && IsTrimmed(r.value.1)
  {
    var t := TrimCopy(line);
    if t == [] || t[0] == '#' then None
    else match SplitAssignment(t)
      case None => None
      case Some((iface, value)) => if iface == [] || value == [] then None else Some((iface, value))
  }

  /** Every entry is one the type loader can produce. */
  predicate IsTypeStore(m: map<string, string>) {
    forall k :: k in m ==> IsStoreKey(k) && m[k] != [] && IsTrimmed(m[k])
  }

  /** What load_overrides reads from each line, in order. */
  function ParsedTypeLines(lines: seq<string>): (r: seq<Option<(string, string)>>)
    ensures |r| == |lines|
    ensures forall i :: 0 <= i < |lines| ==> r[i] == ParseTypeLine(lines[i])
  {
    seq(|lines|, i requires 0 <= i < |lines| => ParseTypeLine(lines[i]))
  }

  lemma ParsedTypeLinesAppend(a: seq<string>, b: seq<string>)
    ensures ParsedTypeLines(a + b) == ParsedTypeLines(a) + ParsedTypeLines(b)
  {
  }

  /** The map after storing one parsed line: `overrides[iface] = type`, or nothing. */
  function StoreTypeEntry(m: map<string, string>, p: Option<(string, string)>): map<string, string> {
    match p
    case None => m
    case Some((iface, value)) => m[iface := value]
  }

  /** The map after storing the parsed lines in order; a later line for an interface wins. */
  function CollectTypeEntries(m: map<string, string>, ps: seq<Option<(string, string)>>): map<string, string>
    decreases |ps|
  {
    if ps == [] then m
    else StoreTypeEntry(CollectTypeEntries(m, ps[..|ps| - 1]), ps[|ps| - 1])
  }

  lemma CollectTypeEntriesStep(m: map<string, string>, ps: seq<Option<(string, string)>>, i: nat)
    requires i < |ps|
    ensures CollectTypeEntries(m, ps[..i + 1]) == StoreTypeEntry(CollectTypeEntries(m, ps[..i]), ps[i])
  {
    assert ps[..i + 1][..i] == ps[..i];
  }

  /** Every parsed entry is one the type loader keeps. */
  predicate AreTypeEntries(ps: seq<Option<(string, string)>>) {
    forall i :: 0 <= i < |ps| && ps[i].Some? ==>
      IsStoreKey(ps[i].value.0) && ps[i].value.1 != [] && IsTrimmed(ps[i].value.1)
  }

  /** Storing well-formed entries into a well-formed store leaves it well formed. */
  lemma {:induction false} CollectTypeEntriesKeepsStore(m: map<string, string>, ps: seq<Option<(string, string)>>)
    requires IsTypeStore(m) && AreTypeEntries(ps)
    ensures IsTypeStore(CollectTypeEntries(m, ps))
    decreases |ps|
  {
    if ps != [] {
      assert AreTypeEntries(ps[..|ps| - 1]);
      CollectTypeEntriesKeepsStore(m, ps[..|ps| - 1]);
    }
  }

  /** load_overrides: the store a document holds; every entry is well formed. */
  function TypeOverridesOf(doc: Option<string>): (r: map<string, string>)
    ensures IsTypeStore(r)
  {
    match doc
    case None => map[]
    case Some(text) =>
      var ps := ParsedTypeLines(SplitLines(text));
      CollectTypeEntriesKeepsStore(map[], ps);
      CollectTypeEntries(map[], ps)
  }

  /** load_overrides: the line loop. */
  method LoadOverrides(doc: Option<string>) returns (overrides: map<string, string>)
    ensures overrides == TypeOverridesOf(doc)
    ensures IsTypeStore(overrides)
  {
    overrides := map[];
    if doc.None? {
      return;
    }
    var lines := SplitLines(doc.value);
    ghost var ps := ParsedTypeLines(lines);
    var i := 0;
    while i < |lines|
      invariant 0 <= i <= |lines|
      invariant overrides == CollectTypeEntries(map[], ps[..i])
    {
      CollectTypeEntriesStep(map[], ps, i);
      var line := TrimCopy(lines[i]);
      i := i + 1;
      if line == [] || line[0] == '#' {
        continue;
      }
      var found := Find(line, "=", 0);
      if found.None? {
        continue;
      }
      var pos := found.value;
      var iface := TrimCopy(line[..pos]);
      var value := TrimCopy(line[pos + 1..]);
      if iface == [] || value == [] {
        continue;
      }
      overrides := overrides[iface := value];
    }
    assert ps[..i] == ps;
  }

  function TypeLine(iface: string, value: string): string {
    iface + "=" + value
  }

  /** The lines write_overrides emits after its header, one per key of `order`. */
  function TypeBody(data: map<string, string>, order: seq<string>): (r: seq<string>)
    requires forall i :: 0 <= i < |order| ==> order[i] in data
    ensures |r| == |order|
    ensures forall i :: 0 <= i < |order| ==> r[i] == TypeLine(order[i], data[order[i]])
  {
    seq(|order|, i requires 0 <= i < |order| => TypeLine(order[i], data[order[i]]))
  }

  /** One more entry adds its line to the text of the type store. */
  lemma TypeTextSnoc(data: map<string, string>, order: seq<string>, iface: string)
    requires forall i :: 0 <= i < |order| ==> order[i] in data
    requires iface in data
    ensures JoinLines([TypeHeader] + TypeBody(data, order + [iface]))
         == JoinLines([TypeHeader] + TypeBody(data, order)) + iface + "=" + data[iface] + "\n"
  {
    var lines := [TypeHeader] + TypeBody(data, order);
    JoinLinesAppend(lines, [TypeLine(iface, data[iface])]);
    assert [TypeHeader] + TypeBody(data, order + [iface]) == lines + [TypeLine(iface, data[iface])];
  }

  /** write_overrides: the header, then `iface=value` for every entry in iteration order. */
  method WriteOverrides(data: map<string, string>) returns (text: string, ghost order: seq<string>)
    ensures Enumerates(order, data.Keys)
    ensures text == JoinLines([TypeHeader] + TypeBody(data, order))
  {
    text := TypeHeader + "\n";
    order := [];
    var remaining := data.Keys;
    assert [TypeHeader] + TypeBody(data, order) == [TypeHeader];
    while remaining != {}
      invariant remaining <= data.Keys
      invariant forall k :: k in data.Keys <==> k in remaining || k in order
      invariant forall k :: k in remaining ==> k !in order
      invariant forall i, j :: 0 <= i < j < |order| ==> order[i] != order[j]
      invariant text == JoinLines([TypeHeader] + TypeBody(data, order))
      decreases remaining
    {
      var iface :| iface in remaining;
      TypeTextSnoc(data, order, iface);
      text := text + iface + "=" + data[iface] + "\n";
      order := order + [iface];
      remaining := remaining - {iface};
    }
  }

  /** A one-line comment, such as the headers the writers emit. */
  predicate IsCommentLine(line: string) {
    line != [] && line[0] == '#' && IsTrimmed(line) && forall i | 0 <= i < |line| :: line[i] != '\n'
  }

  lemma HeadersAreComments()
    ensures IsCommentLine(TypeHeader) && IsCommentLine(TxHeader)
  {
  }

  /** Both loaders skip a comment line. */
  lemma CommentLineIsSkipped(line: string)
    requires IsCommentLine(line)
    ensures ParseTypeLine(line).None? && ParseTxLine(line).None?
  {
    TrimCopyFixedPoints(line);
  }

  /** An assignment line written from a store key and a trimmed value splits back into both. */
  lemma SplitOfAssignment(key: string, value: string)
    requires IsStoreKey(key) && IsTrimmed(value)
    ensures TrimCopy(key + "=" + value) == key + "=" + value
    ensures SplitAssignment(key + "=" + value) == Some((key, value))
  {
    var p := key + "=";
    TrimCopyWithHead(p, value);
    assert TrimRight(value) == value;
    var line := key + "=" + value;
    assert line == key + ['='] + value;
    FindAfterHead(key, '=', value);
    SplitAround(key, '=', value);
    TrimCopyFixedPoints(key);
    TrimCopyFixedPoints(value);
  }

  /** A written type line reads back as the entry it was written from. */
  lemma ParseTypeLineOfEntry(iface: string, value: string)
    requires IsStoreKey(iface) && value != [] && IsTrimmed(value)
    ensures ParseTypeLine(TypeLine(iface, value)) == Some((iface, value))
  {
    SplitOfAssignment(iface, value);
  }

  /** The body lines of `order` read back as its entries. */
  lemma ParsedTypeBody(data: map<string, string>, order: seq<string>)
    requires IsTypeStore(data)
    requires forall i :: 0 <= i < |order| ==> order[i] in data
    ensures forall i :: 0 <= i < |order| ==>
      ParsedTypeLines(TypeBody(data, order))[i] == Some((order[i], data[order[i]]))
  {
    var body := TypeBody(data, order);
    forall i | 0 <= i < |order|
      ensures ParseTypeLine(body[i]) == Some((order[i], data[order[i]]))
    {
      ParseTypeLineOfEntry(order[i], data[order[i]]);
    }
  }

  /** A leading line that parses to nothing, such as the header, changes nothing. */
  lemma {:induction false} CollectTypeEntriesAfterSkip(m: map<string, string>, ps: seq<Option<(string, string)>>)
    requires ps != [] && ps[0].None?
    ensures CollectTypeEntries(m, ps) == CollectTypeEntries(m, ps[1..])
    decreases |ps|
  {
    if |ps| > 1 {
      var n := |ps| - 1;
      CollectTypeEntriesAfterSkip(m, ps[..n]);
      assert ps[..n][1..] == ps[1..][..n - 1];
    }
  }

  /** Storing the entries of `order` gives the entries of the keys listed, later ones winning. */
  lemma {:induction false} TypeEntriesLoad(data: map<string, string>, order: seq<string>, ps: seq<Option<(string, string)>>)
    requires |ps| == |order|
    requires forall i :: 0 <= i < |order| ==> order[i] in data && ps[i] == Some((order[i], data[order[i]]))
    ensures var r := CollectTypeEntries(map[], ps);
      (forall k :: k in r <==> k in order) && (forall k :: k in r ==> r[k] == data[k])
    decreases |order|
  {
    if order != [] {
      var n := |order| - 1;
      TypeEntriesLoad(data, order[..n], ps[..n]);
      assert forall k :: k in order <==> k in order[..n] || k == order[n];
    }
  }

  /** Two maps with the same keys and the same value under each key are equal. */
  lemma SameEntries<V>(a: map<string, V>, b: map<string, V>)
    requires forall k :: k in a <==> k in b
    requires forall k :: k in a ==> a[k] == b[k]
    ensures a == b
  {
  }

  /** The written text of the type store splits back into the written lines. */
  lemma TypeTextSplits(header: string, data: map<string, string>, order: seq<string>)
    requires IsCommentLine(header)
    requires forall i :: 0 <= i < |order| ==> order[i] in data
    requires forall k :: k in data ==> '\n' !in k && '\n' !in data[k]
    ensures SplitLines(JoinLines([header] + TypeBody(data, order))) == [header] + TypeBody(data, order)
  {
    var lines := [header] + TypeBody(data, order);
    forall i | 0 <= i < |lines|
      ensures '\n' !in lines[i]
    {
      if i > 0 {
        assert lines[i] == order[i - 1] + "=" + data[order[i - 1]];
      }
    }
    SplitJoinLines(lines);
  }

  /** Reading the written lines, header first, gives the map back. */
  lemma TypeLinesLoad(header: string, data: map<string, string>, order: seq<string>)
    requires IsCommentLine(header)
    requires IsTypeStore(data) && Enumerates(order, data.Keys)
    ensures CollectTypeEntries(map[], ParsedTypeLines([header] + TypeBody(data, order))) == data
  {
    var body := TypeBody(data, order);
    var ps := ParsedTypeLines([header] + body);
    CommentLineIsSkipped(header);
    ParsedTypeLinesAppend([header], body);
    assert ps[1..] == ParsedTypeLines(body);
    ParsedTypeBody(data, order);
    TypeEntriesLoad(data, order, ps[1..]);
    CollectTypeEntriesAfterSkip(map[], ps);
    var r := CollectTypeEntries(map[], ps[1..]);
    SameEntries(r, data);
  }

  /**
   * Round trip of the type store: reading back what write_overrides wrote gives the
   * map itself, whatever the iteration order, for every map the loader can produce
   * whose text holds no line break.
   */
  lemma TypeStoreRoundTrip(data: map<string, string>, order: seq<string>)
    requires IsTypeStore(data) && Enumerates(order, data.Keys)
    requires forall k :: k in data ==> '\n' !in k && '\n' !in data[k]
    ensures TypeOverridesOf(Some(JoinLines([TypeHeader] + TypeBody(data, order)))) == data
  {
    HeadersAreComments();
    TypeTextSplits(TypeHeader, data, order);
    TypeLinesLoad(TypeHeader, data, order);
  }

  // ------------------------------------------------------ the transmit-power store

  /** WifiTxPowerOverride: the per-interface power settings. */
  datatype TxPowerOverride = TxPowerOverride(
    txPower: string, txPowerHigh: string, txPowerLow: string, cardName: string,
    powerLevel: string, profileVendorId: string, profileDeviceId: string, profileChipset: string)

  const NoTxOverride := TxPowerOverride("", "", "", "", "", "", "", "")

  /** has_tx_power_values: some field is set. */
  function HasTxPowerValues(e: TxPowerOverride): (b: bool)
    ensures b <==> e != NoTxOverride
  {
    e.txPower != [] || e.txPowerHigh != [] || e.txPowerLow != [] || e.cardName != [] ||
    e.powerLevel != [] || e.profileVendorId != [] || e.profileDeviceId != [] || e.profileChipset != []
  }

  /** The entry stored for an interface, or the default one operator[] would create. */
  function TxEntry(m: map<string, TxPowerOverride>, iface: string): TxPowerOverride {
    if iface in m then m[iface] else NoTxOverride
  }

  /** The eight fields of a power override. */
  datatype TxField =
    | TxPowerField | TxPowerHighField | TxPowerLowField | CardNameField
    | PowerLevelField | ProfileVendorIdField | ProfileDeviceIdField | ProfileChipsetField

  /** The field an upper-cased field name selects in load_tx_power_overrides; other names select none. */
  function FieldNamed(fieldUpper: string): Option<TxField> {
    if fieldUpper == "TX_POWER" then Some(TxPowerField)
    else if fieldUpper == "TX_POWER_HIGH" then Some(TxPowerHighField)
    else if fieldUpper == "TX_POWER_LOW" then Some(TxPowerLowField)
    else if fieldUpper == "CARD_NAME" then Some(CardNameField)
    else if fieldUpper == "POWER_LEVEL" then Some(PowerLevelField)
    else if fieldUpper == "PROFILE_VENDOR_ID" then Some(ProfileVendorIdField)
    else if fieldUpper == "PROFILE_DEVICE_ID" then Some(ProfileDeviceIdField)
    else if fieldUpper == "PROFILE_CHIPSET" then Some(ProfileChipsetField)
    else None
  }

  /** The value of one field. */
  function FieldOf(e: TxPowerOverride, f: TxField): string {
    match f
    case TxPowerField => e.txPower
    case TxPowerHighField => e.txPowerHigh
    case TxPowerLowField => e.txPowerLow
    case CardNameField => e.cardName
    case PowerLevelField => e.powerLevel
    case ProfileVendorIdField => e.profileVendorId
    case ProfileDeviceIdField => e.profileDeviceId
    case ProfileChipsetField => e.profileChipset
  }

  /** The entry with one field replaced and the others kept. */
  function WithField(e: TxPowerOverride, f: TxField, value: string): (r: TxPowerOverride)
    ensures FieldOf(r, f) == value
    ensures forall g :: g != f ==> FieldOf(r, g) == FieldOf(e, g)
  {
    match f
    case TxPowerField => e.(txPower := value)
    case TxPowerHighField => e.(txPowerHigh := value)
    case TxPowerLowField => e.(txPowerLow := value)
    case CardNameField => e.(cardName := value)
    case PowerLevelField => e.(powerLevel := value)
    case ProfileVendorIdField => e.(profileVendorId := value)
    case ProfileDeviceIdField => e.(profileDeviceId := value)
    case ProfileChipsetField => e.(profileChipset := value)
  }

  /** What the loader stores for a field: ids normalised, the chipset tag upper-cased, the rest as read. */
  function StoredValue(f: TxField, value: string): string {
    match f
    case ProfileVendorIdField => NormalizeId(value)
    case ProfileDeviceIdField => NormalizeId(value)
    case ProfileChipsetField => NormalizeChipset(value)
    case _ => value
  }

  /** The field assignment of load_tx_power_overrides; an unknown field name changes nothing. */
  function ApplyTxField(e: TxPowerOverride, fieldUpper: string, value: string): TxPowerOverride {
    match FieldNamed(fieldUpper)
    case None => e
    case Some(f) => WithField(e, f, StoredValue(f, value))
  }

  /** ApplyTxField follows the if-chain of load_tx_power_overrides on the upper-cased field name. */
  lemma ApplyTxFieldByName(e: TxPowerOverride, fieldUpper: string, value: string)
    ensures fieldUpper == "TX_POWER" ==> ApplyTxField(e, fieldUpper, value) == e.(txPower := value)
    ensures fieldUpper == "TX_POWER_HIGH" ==> ApplyTxField(e, fieldUpper, value) == e.(txPowerHigh := value)
    ensures fieldUpper == "TX_POWER_LOW" ==> ApplyTxField(e, fieldUpper, value) == e.(txPowerLow := value)
    ensures fieldUpper == "CARD_NAME" ==> ApplyTxField(e, fieldUpper, value) == e.(cardName := value)
    ensures fieldUpper == "POWER_LEVEL" ==> ApplyTxField(e, fieldUpper, value) == e.(powerLevel := value)
    ensures fieldUpper == "PROFILE_VENDOR_ID" ==>
      ApplyTxField(e, fieldUpper, value) == e.(profileVendorId := NormalizeId(value))
    ensures fieldUpper == "PROFILE_DEVICE_ID" ==>
      ApplyTxField(e, fieldUpper, value) == e.(profileDeviceId := NormalizeId(value))
    ensures fieldUpper == "PROFILE_CHIPSET" ==>
      ApplyTxField(e, fieldUpper, value) == e.(profileChipset := NormalizeChipset(value))
    ensures FieldNamed(fieldUpper) == None ==> ApplyTxField(e, fieldUpper, value) == e
  {
  }

  /** An interface name of the power store: a store key without a '.'. */
  predicate IsTxKey(k: string) {
    IsStoreKey(k) && '.' !in k
  }

  /** A value as the loader stores it in a field. */
  predicate IsStoredValue(f: TxField, v: string) {
    match f
    case ProfileVendorIdField => IsCanonicalId(v)
    case ProfileDeviceIdField => IsCanonicalId(v)
    case ProfileChipsetField => IsTrimmed(v) && ToUpper(v) == v
    case _ => IsTrimmed(v)
  }

  /** An entry as the loader leaves it: values trimmed, ids canonical, chipset normalised. */
  predicate IsTxEntry(e: TxPowerOverride) {
    forall f :: IsStoredValue(f, FieldOf(e, f))
  }

  predicate IsTxStore(m: map<string, TxPowerOverride>) {
    forall k :: k in m ==> IsTxKey(k) && IsTxEntry(m[k])
  }

  /** The loader stores a trimmed value in the form IsStoredValue describes, and keeps one already in it. */
  lemma StoredValueShape(f: TxField, value: string)
    requires IsTrimmed(value)
    ensures IsStoredValue(f, StoredValue(f, value))
    ensures IsStoredValue(f, value) ==> StoredValue(f, value) == value
  {
    match f
    case ProfileVendorIdField => NormalizeIdShape(value); NormalizeIdFixedPoints(value);
    case ProfileDeviceIdField => NormalizeIdShape(value); NormalizeIdFixedPoints(value);
    case ProfileChipsetField => TrimCopyFixedPoints(value);
    case _ =>
  }

  /** A field assignment with a trimmed value keeps an entry well formed. */
  lemma ApplyTxFieldKeepsEntry(e: TxPowerOverride, fieldUpper: string, value: string)
    requires IsTxEntry(e) && IsTrimmed(value)
    ensures IsTxEntry(ApplyTxField(e, fieldUpper, value))
  {
    match FieldNamed(fieldUpper)
    case None =>
    case Some(f) =>
      StoredValueShape(f, value);
      var r := WithField(e, f, StoredValue(f, value));
      forall g
        ensures IsStoredValue(g, FieldOf(r, g))
      {
        if g != f {
          assert IsStoredValue(g, FieldOf(e, g));
        }
      }
  }

  /** One parsed line of the power store: interface, upper-cased field name, trimmed value. */
  datatype TxLine = TxLine(iface: string, fieldUpper: string, value: string)

  /** The interface and the field name of a power-store key, split at its first '.'. */
  function SplitTxKey(key: string): (r: Option<(string, string)>)
    requires IsStoreKey(key)
    ensures r.Some? ==> IsTxKey(r.value.0) && r.value.1 != []
  {
    match Find(key, ".", 0)
    case None => None
    case Some(dot) =>
      FindCharPrefix(key, '.', dot);
      TrimCopyWithin(key[..dot]);
      var iface := TrimCopy(key[..dot]);
      var field := TrimCopy(key[dot + 1..]);
      if iface == [] || field == [] then None
      else
        TrimCopyKeepsHead(key[..dot]);
        Some((iface, field))
  }

  lemma SplitTxKeyAt(key: string, dot: nat)
    requires IsStoreKey(key) && Find(key, ".", 0) == Some(dot)
    requires TrimCopy(key[..dot]) != [] && TrimCopy(key[dot + 1..]) != []
    ensures SplitTxKey(key) == Some((TrimCopy(key[..dot]), TrimCopy(key[dot + 1..])))
  {
  }

  /** What one line of the power store says (load_tx_power_overrides' loop body). */
  function ParseTxLine(line: string): (r: Option<TxLine>)
    ensures r.Some? ==> IsTxKey(r.value.iface) && IsTrimmed(r.value.value)
  {
    var t := TrimCopy(line);
    if t == [] || t[0] == '#' then None
    else match SplitAssignment(t)
      case None => None
      case Some((key, value)) =>
        if key == [] then None
        else match SplitTxKey(key)
          case None => None
          case Some((iface, field)) => Some(TxLine(iface, ToUpper(field), value))
  }

  lemma ParseTxLineOfParts(raw: string, key: string, value: string)
    requires TrimCopy(raw) != [] && TrimCopy(raw)[0] != '#'
    requires SplitAssignment(TrimCopy(raw)) == Some((key, value)) && key != []
    ensures IsStoreKey(key)
    ensures ParseTxLine(raw) == match SplitTxKey(key)
      case None => None
      case Some((iface, field)) => Some(TxLine(iface, ToUpper(field), value))
  {
  }

  /** What load_tx_power_overrides reads from each line, in order. */
  function ParsedTxLines(lines: seq<string>): (r: seq<Option<TxLine>>)
    ensures |r| == |lines|
    ensures forall i :: 0 <= i < |lines| ==> r[i] == ParseTxLine(lines[i])
  {
    seq(|lines|, i requires 0 <= i < |lines| => ParseTxLine(lines[i]))
  }

  lemma ParsedTxLinesAppend(a: seq<string>, b: seq<string>)
    ensures ParsedTxLines(a + b) == ParsedTxLines(a) + ParsedTxLines(b)
  {
  }

  /** The power store after storing one parsed line; any parsed line creates its interface's entry. */
  function StoreTxLine(m: map<string, TxPowerOverride>, p: Option<TxLine>): map<string, TxPowerOverride> {
    match p
    case None => m
    case Some(l) => m[l.iface := ApplyTxField(TxEntry(m, l.iface), l.fieldUpper, l.value)]
  }

  /** The power store after storing the parsed lines in order. */
  function CollectTxLines(m: map<string, TxPowerOverride>, ps: seq<Option<TxLine>>): map<string, TxPowerOverride>
    decreases |ps|
  {
    if ps == [] then m
    else StoreTxLine(CollectTxLines(m, ps[..|ps| - 1]), ps[|ps| - 1])
  }

  lemma CollectTxLinesStep(m: map<string, TxPowerOverride>, ps: seq<Option<TxLine>>, i: nat)
    requires i < |ps|
    ensures CollectTxLines(m, ps[..i + 1]) == StoreTxLine(CollectTxLines(m, ps[..i]), ps[i])
  {
    assert ps[..i + 1][..i] == ps[..i];
  }

  lemma {:induction false} CollectTxLinesAppend(m: map<string, TxPowerOverride>, a: seq<Option<TxLine>>, b: seq<Option<TxLine>>)
    ensures CollectTxLines(m, a + b) == CollectTxLines(CollectTxLines(m, a), b)
    decreases |b|
  {
    if b == [] {
      assert a + b == a;
    } else {
      assert (a + b)[..|a + b| - 1] == a + b[..|b| - 1];
      CollectTxLinesAppend(m, a, b[..|b| - 1]);
    }
  }

  /** A leading line that parses to nothing, such as the header, changes nothing. */
  lemma {:induction false} CollectTxLinesAfterSkip(m: map<string, TxPowerOverride>, ps: seq<Option<TxLine>>)
    requires ps != [] && ps[0].None?
    ensures CollectTxLines(m, ps) == CollectTxLines(m, ps[1..])
  {
    CollectTxLinesAppend(m, [ps[0]], ps[1..]);
    assert [ps[0]] + ps[1..] == ps;
  }

  /** Every parsed line is one the power loader can produce. */
  predicate AreTxLines(ps: seq<Option<TxLine>>) {
    forall i :: 0 <= i < |ps| && ps[i].Some? ==> IsTxKey(ps[i].value.iface) && IsTrimmed(ps[i].value.value)
  }

  /** Storing parsed lines into a well-formed power store leaves it well formed. */
  lemma {:induction false} CollectTxLinesKeepsStore(m: map<string, TxPowerOverride>, ps: seq<Option<TxLine>>)
    requires IsTxStore(m) && AreTxLines(ps)
    ensures IsTxStore(CollectTxLines(m, ps))
    decreases |ps|
  {
    if ps != [] {
      var before := CollectTxLines(m, ps[..|ps| - 1]);
      assert AreTxLines(ps[..|ps| - 1]);
      CollectTxLinesKeepsStore(m, ps[..|ps| - 1]);
      match ps[|ps| - 1]
      case None =>
      case Some(l) =>
        ApplyTxFieldKeepsEntry(TxEntry(before, l.iface), l.fieldUpper, l.value);
    }
  }

  /** load_tx_power_overrides: the store a document holds; every entry is well formed. */
  function TxOverridesOf(doc: Option<string>): (r: map<string, TxPowerOverride>)
    ensures IsTxStore(r)
  {
    match doc
    case None => map[]
    case Some(text) =>
      var ps := ParsedTxLines(SplitLines(text));
      CollectTxLinesKeepsStore(map[], ps);
      CollectTxLines(map[], ps)
  }

  /** The parsing half of load_tx_power_overrides' loop body; `None` stands for `continue`. */
  method ReadTxLine(raw: string) returns (r: Option<TxLine>)
    ensures r == ParseTxLine(raw)
  {
    var line := TrimCopy(raw);
    if line == [] || line[0] == '#' {
      return None;
    }
    var found := Find(line, "=", 0);
    if found.None? {
      return None;
    }
    var pos := found.value;
    var key := TrimCopy(line[..pos]);
    var value := TrimCopy(line[pos + 1..]);
    assert SplitAssignment(line) == Some((key, value));
    if key == [] {
      return None;
    }
    ParseTxLineOfParts(raw, key, value);
    var split := ReadTxKey(key);
    if split.None? {
      return None;
    }
    var (iface, field) := split.value;
    r := Some(TxLine(iface, ToUpper(field), value));
  }

  /** The key-splitting part of load_tx_power_overrides' loop body; `None` stands for `continue`. */
  method ReadTxKey(key: string) returns (r: Option<(string, string)>)
    requires IsStoreKey(key)
    ensures r == SplitTxKey(key)
  {
    var dot := Find(key, ".", 0);
    if dot.None? {
      return None;
    }
    var iface := TrimCopy(key[..dot.value]);
    var field := TrimCopy(key[dot.value + 1..]);
    if iface == [] || field == [] {
      return None;
    }
    SplitTxKeyAt(key, dot.value);
    r := Some((iface, field));
  }

  /** load_tx_power_overrides: the line loop; `overrides[iface]` creates the entry a line names. */
  method LoadTxPowerOverrides(doc: Option<string>) returns (overrides: map<string, TxPowerOverride>)
    ensures overrides == TxOverridesOf(doc)
    ensures IsTxStore(overrides)
  {
    overrides := map[];
    if doc.None? {
      return;
    }
    var lines := SplitLines(doc.value);
    ghost var ps := ParsedTxLines(lines);
    var i := 0;
    while i < |lines|
      invariant 0 <= i <= |lines|
      invariant overrides == CollectTxLines(map[], ps[..i])
    {
      CollectTxLinesStep(map[], ps, i);
      var parsed := ReadTxLine(lines[i]);
      i := i + 1;
      if parsed.None? {
        continue;
      }
      var TxLine(iface, fieldUpper, value) := parsed.value;
      var entry := if iface in overrides then overrides[iface] else NoTxOverride;
      ApplyTxFieldByName(entry, fieldUpper, value);
      if fieldUpper == "TX_POWER" {
        entry := entry.(txPower := value);
      } else if fieldUpper == "TX_POWER_HIGH" {
        entry := entry.(txPowerHigh := value);
      } else if fieldUpper == "TX_POWER_LOW" {
        entry := entry.(txPowerLow := value);
      } else if fieldUpper == "CARD_NAME" {
        entry := entry.(cardName := value);
      } else if fieldUpper == "POWER_LEVEL" {
        entry := entry.(powerLevel := value);
      } else if fieldUpper == "PROFILE_VENDOR_ID" {
        entry := entry.(profileVendorId := NormalizeId(value));
      } else if fieldUpper == "PROFILE_DEVICE_ID" {
        entry := entry.(profileDeviceId := NormalizeId(value));
      } else if fieldUpper == "PROFILE_CHIPSET" {
        entry := entry.(profileChipset := NormalizeChipset(value));
      }
      overrides := overrides[iface := entry];
    }
    assert ps[..i] == ps;
  }

  /** The line `iface.name=value`, written only for a non-empty value. */
  function FieldLine(iface: string, name: string, value: string): seq<string> {
    if value == [] then [] else [iface + "." + name + "=" + value]
  }

  /** The lines write_tx_power_overrides emits for one entry, in its field order. */
  function EntryLines(iface: string, e: TxPowerOverride): seq<string> {
    FieldLine(iface, "card_name", e.cardName) +
    FieldLine(iface, "power_level", e.powerLevel) +
    FieldLine(iface, "profile_vendor_id", e.profileVendorId) +
    FieldLine(iface, "profile_device_id", e.profileDeviceId) +
    FieldLine(iface, "profile_chipset", e.profileChipset) +
    FieldLine(iface, "tx_power", e.txPower) +
    FieldLine(iface, "tx_power_high", e.txPowerHigh) +
    FieldLine(iface, "tx_power_low", e.txPowerLow)
  }

  /** The lines write_tx_power_overrides emits after its header, entry by entry in `order`. */
  function TxBody(data: map<string, TxPowerOverride>, order: seq<string>): seq<string>
    requires forall i :: 0 <= i < |order| ==> order[i] in data
    decreases |order|
  {
    if order == [] then []
    else
      var iface := order[|order| - 1];
      TxBody(data, order[..|order| - 1]) +
      (if HasTxPowerValues(data[iface]) then EntryLines(iface, data[iface]) else [])
  }

  /** One field more of an entry adds its line, if any, to the text. */
  lemma FieldTextStep(written: seq<string>, iface: string, name: string, value: string)
    ensures value == [] ==> JoinLines(written + FieldLine(iface, name, value)) == JoinLines(written)
    ensures value != [] ==>
      JoinLines(written + FieldLine(iface, name, value)) == JoinLines(written) + iface + "." + name + "=" + value + "\n"
  {
    JoinLinesAppend(written, FieldLine(iface, name, value));
    if value == [] {
      assert written + FieldLine(iface, name, value) == written;
    }
  }

  lemma EmptyConcat<T>(a: seq<T>)
    ensures [] + a == a
  {
  }

  lemma ConcatAssoc<T>(a: seq<T>, b: seq<T>, c: seq<T>)
    ensures a + (b + c) == (a + b) + c
  {
  }

  /** The lines of an entry after other lines, appended field by field. */
  lemma EntryLinesAfter(prefix: seq<string>, iface: string, e: TxPowerOverride)
    ensures prefix + EntryLines(iface, e) ==
      prefix + FieldLine(iface, "card_name", e.cardName)
             + FieldLine(iface, "power_level", e.powerLevel)
             + FieldLine(iface, "profile_vendor_id", e.profileVendorId)
             + FieldLine(iface, "profile_device_id", e.profileDeviceId)
             + FieldLine(iface, "profile_chipset", e.profileChipset)
             + FieldLine(iface, "tx_power", e.txPower)
             + FieldLine(iface, "tx_power_high", e.txPowerHigh)
             + FieldLine(iface, "tx_power_low", e.txPowerLow)
  {
    var l1, l2, l3, l4 := FieldLine(iface, "card_name", e.cardName), FieldLine(iface, "power_level", e.powerLevel),
      FieldLine(iface, "profile_vendor_id", e.profileVendorId), FieldLine(iface, "profile_device_id", e.profileDeviceId);
    var l5, l6, l7, l8 := FieldLine(iface, "profile_chipset", e.profileChipset), FieldLine(iface, "tx_power", e.txPower),
      FieldLine(iface, "tx_power_high", e.txPowerHigh), FieldLine(iface, "tx_power_low", e.txPowerLow);
    ConcatAssoc(prefix, l1 + l2 + l3 + l4 + l5 + l6 + l7, l8);
    ConcatAssoc(prefix, l1 + l2 + l3 + l4 + l5 + l6, l7);
    ConcatAssoc(prefix, l1 + l2 + l3 + l4 + l5, l6);
    ConcatAssoc(prefix, l1 + l2 + l3 + l4, l5);
    ConcatAssoc(prefix, l1 + l2 + l3, l4);
    ConcatAssoc(prefix, l1 + l2, l3);
    ConcatAssoc(prefix, l1, l2);
  }

  /** The written lines grow by the lines of one more entry. */
  lemma TxBodySnoc(data: map<string, TxPowerOverride>, order: seq<string>, iface: string)
    requires forall i :: 0 <= i < |order| ==> order[i] in data
    requires iface in data
    ensures [TxHeader] + TxBody(data, order + [iface]) ==
      [TxHeader] + TxBody(data, order) + (if HasTxPowerValues(data[iface]) then EntryLines(iface, data[iface]) else [])
  {
    assert (order + [iface])[..|order|] == order;
    ConcatAssoc([TxHeader], TxBody(data, order),
      if HasTxPowerValues(data[iface]) then EntryLines(iface, data[iface]) else []);
  }

  /** One `if (!value.empty()) file << iface << "." << name << "=" << value << "\n"` of the writer. */
  method WriteFieldLine(text: string, ghost written: seq<string>, iface: string, name: string, value: string)
    returns (out: string)
    requires text == JoinLines(written)
    ensures out == JoinLines(written + FieldLine(iface, name, value))
  {
    FieldTextStep(written, iface, name, value);
    out := text;
    if value != [] {
      out := out + iface + "." + name + "=" + value + "\n";
    }
  }

  /** The lines write_tx_power_overrides emits for one entry, field by field. */
  method WriteTxEntry(iface: string, values: TxPowerOverride) returns (text: string)
    ensures text == JoinLines(EntryLines(iface, values))
  {
    text := "";
    ghost var written: seq<string> := [];
    EntryLinesAfter(written, iface, values);
    text := WriteFieldLine(text, written, iface, "card_name", values.cardName);
    written := written + FieldLine(iface, "card_name", values.cardName);
    text := WriteFieldLine(text, written, iface, "power_level", values.powerLevel);
    written := written + FieldLine(iface, "power_level", values.powerLevel);
    text := WriteFieldLine(text, written, iface, "profile_vendor_id", values.profileVendorId);
    written := written + FieldLine(iface, "profile_vendor_id", values.profileVendorId);
    text := WriteFieldLine(text, written, iface, "profile_device_id", values.profileDeviceId);
    written := written + FieldLine(iface, "profile_device_id", values.profileDeviceId);
    text := WriteFieldLine(text, written, iface, "profile_chipset", values.profileChipset);
    written := written + FieldLine(iface, "profile_chipset", values.profileChipset);
    text := WriteFieldLine(text, written, iface, "tx_power", values.txPower);
    written := written + FieldLine(iface, "tx_power", values.txPower);
    text := WriteFieldLine(text, written, iface, "tx_power_high", values.txPowerHigh);
    written := written + FieldLine(iface, "tx_power_high", values.txPowerHigh);
    text := WriteFieldLine(text, written, iface, "tx_power_low", values.txPowerLow);
    written := written + FieldLine(iface, "tx_power_low", values.txPowerLow);
    EmptyConcat(EntryLines(iface, values));
  }

  /** write_tx_power_overrides: the header, then the lines of every entry that has values. */
  method WriteTxPowerOverrides(data: map<string, TxPowerOverride>) returns (text: string, ghost order: seq<string>)
    ensures Enumerates(order, data.Keys)
    ensures text == JoinLines([TxHeader] + TxBody(data, order))
  {
    text := TxHeader + "\n";
    order := [];
    var remaining := data.Keys;
    while remaining != {}
      invariant remaining <= data.Keys
      invariant forall k :: k in data.Keys <==> k in remaining || k in order
      invariant forall k :: k in remaining ==> k !in order
      invariant forall i, j :: 0 <= i < j < |order| ==> order[i] != order[j]
      invariant text == JoinLines([TxHeader] + TxBody(data, order))
      decreases remaining
    {
      var iface :| iface in remaining;
      TxBodySnoc(data, order, iface);
      ghost var written := [TxHeader] + TxBody(data, order);
      order := order + [iface];
      remaining := remaining - {iface};
      var values := data[iface];
      if !HasTxPowerValues(values) {
        assert written + [] == written;
        continue;
      }
      var lines := WriteTxEntry(iface, values);
      JoinLinesAppend(written, EntryLines(iface, values));
      text := text + lines;
    }
  }

  // ------------------------------------------- reading back the transmit-power store

  /** The name write_tx_power_overrides gives a field in `iface.name=value`. */
  function FieldKey(f: TxField): string {
    match f
    case TxPowerField => "tx_power"
    case TxPowerHighField => "tx_power_high"
    case TxPowerLowField => "tx_power_low"
    case CardNameField => "card_name"
    case PowerLevelField => "power_level"
    case ProfileVendorIdField => "profile_vendor_id"
    case ProfileDeviceIdField => "profile_device_id"
    case ProfileChipsetField => "profile_chipset"
  }

  /** A field name that survives `iface.name=value`: non-empty, trimmed, no '=' and no line break. */
  predicate IsFieldName(name: string) {
    name != [] && IsTrimmed(name) && forall i | 0 <= i < |name| :: name[i] != '=' && name[i] != '\n'
  }

  /** The name load_tx_power_overrides compares an upper-cased field name with. */
  function FieldKeyUpper(f: TxField): string {
    match f
    case TxPowerField => "TX_POWER"
    case TxPowerHighField => "TX_POWER_HIGH"
    case TxPowerLowField => "TX_POWER_LOW"
    case CardNameField => "CARD_NAME"
    case PowerLevelField => "POWER_LEVEL"
    case ProfileVendorIdField => "PROFILE_VENDOR_ID"
    case ProfileDeviceIdField => "PROFILE_DEVICE_ID"
    case ProfileChipsetField => "PROFILE_CHIPSET"
  }

  /** Each written field name is a field name and upper-cases to the name the reader compares with. */
  lemma TxPowerKeyUpperCase()
    ensures IsFieldName("tx_power") && ToUpper("tx_power") == "TX_POWER"
  {
  }

  lemma TxPowerHighKeyUpperCase()
    ensures IsFieldName("tx_power_high") && ToUpper("tx_power_high") == "TX_POWER_HIGH"
  {
  }

  lemma TxPowerLowKeyUpperCase()
    ensures IsFieldName("tx_power_low") && ToUpper("tx_power_low") == "TX_POWER_LOW"
  {
  }

  lemma CardNameKeyUpperCase()
    ensures IsFieldName("card_name") && ToUpper("card_name") == "CARD_NAME"
  {
  }

  lemma PowerLevelKeyUpperCase()
    ensures IsFieldName("power_level") && ToUpper("power_level") == "POWER_LEVEL"
  {
  }

  lemma ProfileVendorIdKeyUpperCase()
    ensures IsFieldName("profile_vendor_id") && ToUpper("profile_vendor_id") == "PROFILE_VENDOR_ID"
  {
  }

  lemma ProfileDeviceIdKeyUpperCase()
    ensures IsFieldName("profile_device_id") && ToUpper("profile_device_id") == "PROFILE_DEVICE_ID"
  {
  }

  lemma ProfileChipsetKeyUpperCase()
    ensures IsFieldName("profile_chipset") && ToUpper("profile_chipset") == "PROFILE_CHIPSET"
  {
  }

  lemma FieldKeyUpperCase(f: TxField)
    ensures IsFieldName(FieldKey(f)) && ToUpper(FieldKey(f)) == FieldKeyUpper(f)
  {
    match f
    case TxPowerField => TxPowerKeyUpperCase();
    case TxPowerHighField => TxPowerHighKeyUpperCase();
    case TxPowerLowField => TxPowerLowKeyUpperCase();
    case CardNameField => CardNameKeyUpperCase();
    case PowerLevelField => PowerLevelKeyUpperCase();
    case ProfileVendorIdField => ProfileVendorIdKeyUpperCase();
    case ProfileDeviceIdField => ProfileDeviceIdKeyUpperCase();
    case ProfileChipsetField => ProfileChipsetKeyUpperCase();
  }

  /** The eight names of the if-chain select the eight fields. */
  lemma FieldNamedSelects(f: TxField)
    ensures FieldNamed(FieldKeyUpper(f)) == Some(f)
  {
  }

  /** Each written field name is read back, upper-cased, as the field it was written for. */
  lemma FieldKeyIsRead(f: TxField)
    ensures IsFieldName(FieldKey(f))
    ensures FieldNamed(ToUpper(FieldKey(f))) == Some(f)
  {
    FieldKeyUpperCase(f);
    FieldNamedSelects(f);
  }

  /** An interface and a field name joined by `.` form a store key. */
  lemma FieldKeyIsStoreKey(iface: string, name: string)
    requires IsTxKey(iface) && IsFieldName(name)
    ensures IsStoreKey(iface + "." + name)
  {
    var key := iface + "." + name;
    assert key == iface + ['.'] + name;
    forall i | 0 <= i < |key|
      ensures key[i] != '='
    {
      if i < |iface| {
        assert key[i] == iface[i];
      } else if i > |iface| {
        assert key[i] == name[i - |iface| - 1];
      }
    }
    assert key[0] == iface[0] && key[|key| - 1] == name[|name| - 1];
  }

  /** A written power line reads back as its interface, upper-cased field name and value. */
  lemma ParseFieldLine(iface: string, name: string, value: string)
    requires IsTxKey(iface) && IsFieldName(name) && value != [] && IsTrimmed(value)
    ensures ParseTxLine(iface + "." + name + "=" + value) == Some(TxLine(iface, ToUpper(name), value))
  {
    var key := iface + "." + name;
    FieldKeyIsStoreKey(iface, name);
    SplitOfAssignment(key, value);
    FindAfterHead(iface, '.', name);
    SplitAround(iface, '.', name);
    TrimCopyFixedPoints(iface);
    TrimCopyFixedPoints(name);
    SplitTxKeyAt(key, |iface|);
    ParseTxLineOfParts(iface + "." + name + "=" + value, key, value);
  }

  /** The store with `iface`'s entry set to `e` when `e` has values, and unchanged otherwise. */
  function PutEntry(m: map<string, TxPowerOverride>, iface: string, e: TxPowerOverride): map<string, TxPowerOverride> {
    if HasTxPowerValues(e) then m[iface := e] else m
  }

  lemma UpdateTwice<K, V>(m: map<K, V>, k: K, a: V, b: V)
    ensures m[k := a][k := b] == m[k := b]
  {
  }

  /** Two entries with the same fields are equal. */
  lemma SameFields(a: TxPowerOverride, b: TxPowerOverride)
    requires forall f :: FieldOf(a, f) == FieldOf(b, f)
    ensures a == b
  {
    assert FieldOf(a, TxPowerField) == FieldOf(b, TxPowerField);
    assert FieldOf(a, TxPowerHighField) == FieldOf(b, TxPowerHighField);
    assert FieldOf(a, TxPowerLowField) == FieldOf(b, TxPowerLowField);
    assert FieldOf(a, CardNameField) == FieldOf(b, CardNameField);
    assert FieldOf(a, PowerLevelField) == FieldOf(b, PowerLevelField);
    assert FieldOf(a, ProfileVendorIdField) == FieldOf(b, ProfileVendorIdField);
    assert FieldOf(a, ProfileDeviceIdField) == FieldOf(b, ProfileDeviceIdField);
    assert FieldOf(a, ProfileChipsetField) == FieldOf(b, ProfileChipsetField);
  }

  /** An empty field writes no line, and reading nothing changes nothing. */
  lemma EmptyFieldLineLoads(m: map<string, TxPowerOverride>, iface: string, p: TxPowerOverride, f: TxField)
    requires FieldOf(p, f) == []
    ensures CollectTxLines(PutEntry(m, iface, p), ParsedTxLines(FieldLine(iface, FieldKey(f), [])))
         == PutEntry(m, iface, WithField(p, f, []))
  {
    SameFields(WithField(p, f, []), p);
    assert ParsedTxLines([]) == [];
  }

  /** The upper-cased name of a field's line selects that field. */
  lemma ApplyFieldKey(e: TxPowerOverride, f: TxField, value: string)
    ensures ApplyTxField(e, ToUpper(FieldKey(f)), value) == WithField(e, f, StoredValue(f, value))
  {
    FieldKeyIsRead(f);
  }

  /** A non-empty field's line parses to its interface, name and value. */
  lemma FieldLineParses(iface: string, f: TxField, value: string)
    requires IsTxKey(iface) && value != [] && IsTrimmed(value)
    ensures ParsedTxLines(FieldLine(iface, FieldKey(f), value)) == [Some(TxLine(iface, ToUpper(FieldKey(f)), value))]
  {
    FieldKeyIsRead(f);
    ParseFieldLine(iface, FieldKey(f), value);
  }

  lemma CollectOneTxLine(m: map<string, TxPowerOverride>, p: Option<TxLine>)
    ensures CollectTxLines(m, [p]) == StoreTxLine(m, p)
  {
    assert [p][..0] == [];
  }

  /** A non-empty field's line, read into the entry built so far, sets that field. */
  lemma SetFieldLineLoads(m: map<string, TxPowerOverride>, iface: string, p: TxPowerOverride, f: TxField, value: string)
    requires iface !in m && IsTxKey(iface)
    requires value != [] && IsTrimmed(value) && IsStoredValue(f, value)
    ensures CollectTxLines(PutEntry(m, iface, p), ParsedTxLines(FieldLine(iface, FieldKey(f), value)))
         == m[iface := WithField(p, f, value)]
  {
    var s := PutEntry(m, iface, p);
    var l := TxLine(iface, ToUpper(FieldKey(f)), value);
    FieldLineParses(iface, f, value);
    CollectOneTxLine(s, Some(l));
    assert TxEntry(s, iface) == p;
    ApplyFieldKey(p, f, value);
    StoredValueShape(f, value);
    assert StoreTxLine(s, Some(l)) == s[iface := WithField(p, f, value)];
    if HasTxPowerValues(p) {
      UpdateTwice(m, iface, p, WithField(p, f, value));
    }
  }

  /** The line of one field, read into the entry built so far, sets that field. */
  lemma FieldLineLoads(m: map<string, TxPowerOverride>, iface: string, p: TxPowerOverride, f: TxField, value: string)
    requires iface !in m && IsTxKey(iface)
    requires IsTrimmed(value) && IsStoredValue(f, value) && FieldOf(p, f) == []
    ensures CollectTxLines(PutEntry(m, iface, p), ParsedTxLines(FieldLine(iface, FieldKey(f), value)))
         == PutEntry(m, iface, WithField(p, f, value))
  {
    if value == [] {
      EmptyFieldLineLoads(m, iface, p, f);
    } else {
      SetFieldLineLoads(m, iface, p, f, value);
      var w := WithField(p, f, value);
      assert FieldOf(NoTxOverride, f) == [];
      assert HasTxPowerValues(w);
    }
  }

  /** One more field line after the lines of an entry read so far. */
  lemma FieldLineLoadsAfter(m: map<string, TxPowerOverride>, iface: string, p: TxPowerOverride,
                            lines: seq<string>, f: TxField, value: string)
    requires iface !in m && IsTxKey(iface)
    requires IsTrimmed(value) && IsStoredValue(f, value) && FieldOf(p, f) == []
    requires CollectTxLines(m, ParsedTxLines(lines)) == PutEntry(m, iface, p)
    ensures CollectTxLines(m, ParsedTxLines(lines + FieldLine(iface, FieldKey(f), value)))
         == PutEntry(m, iface, WithField(p, f, value))
  {
    var chunk := FieldLine(iface, FieldKey(f), value);
    ParsedTxLinesAppend(lines, chunk);
    CollectTxLinesAppend(m, ParsedTxLines(lines), ParsedTxLines(chunk));
    FieldLineLoads(m, iface, p, f, value);
  }

  /** The fields of an entry that write_tx_power_overrides emits first. */
  function LeadingFields(e: TxPowerOverride): TxPowerOverride {
    NoTxOverride.(cardName := e.cardName, powerLevel := e.powerLevel,
                  profileVendorId := e.profileVendorId, profileDeviceId := e.profileDeviceId)
  }

  /** The first four field lines of an entry load its leading fields. */
  lemma LeadingLinesLoad(m: map<string, TxPowerOverride>, iface: string, e: TxPowerOverride)
    requires iface !in m && IsTxKey(iface) && IsTxEntry(e)
    ensures CollectTxLines(m, ParsedTxLines(
              FieldLine(iface, "card_name", e.cardName) + FieldLine(iface, "power_level", e.powerLevel) +
              FieldLine(iface, "profile_vendor_id", e.profileVendorId) + FieldLine(iface, "profile_device_id", e.profileDeviceId)))
         == PutEntry(m, iface, LeadingFields(e))
  {
    assert IsStoredValue(CardNameField, FieldOf(e, CardNameField)) && IsStoredValue(PowerLevelField, FieldOf(e, PowerLevelField));
    assert IsStoredValue(ProfileVendorIdField, FieldOf(e, ProfileVendorIdField));
    assert IsStoredValue(ProfileDeviceIdField, FieldOf(e, ProfileDeviceIdField));
    var p0 := NoTxOverride;
    var p1 := WithField(p0, CardNameField, e.cardName);
    var p2 := WithField(p1, PowerLevelField, e.powerLevel);
    var p3 := WithField(p2, ProfileVendorIdField, e.profileVendorId);
    var p4 := WithField(p3, ProfileDeviceIdField, e.profileDeviceId);
    SameFields(p4, LeadingFields(e));
    assert PutEntry(m, iface, p0) == m;
    var l1 := FieldLine(iface, "card_name", e.cardName);
    var l2 := FieldLine(iface, "power_level", e.powerLevel);
    var l3 := FieldLine(iface, "profile_vendor_id", e.profileVendorId);
    FieldLineLoads(m, iface, p0, CardNameField, e.cardName);
    FieldLineLoadsAfter(m, iface, p1, l1, PowerLevelField, e.powerLevel);
    FieldLineLoadsAfter(m, iface, p2, l1 + l2, ProfileVendorIdField, e.profileVendorId);
    FieldLineLoadsAfter(m, iface, p3, l1 + l2 + l3, ProfileDeviceIdField, e.profileDeviceId);
  }

  /** The lines of one well-formed entry, read into a store without it, add that entry if it has values. */
  lemma EntryLinesLoad(m: map<string, TxPowerOverride>, iface: string, e: TxPowerOverride)
    requires iface !in m && IsTxKey(iface) && IsTxEntry(e)
    ensures CollectTxLines(m, ParsedTxLines(EntryLines(iface, e))) == PutEntry(m, iface, e)
  {
    assert IsStoredValue(ProfileChipsetField, FieldOf(e, ProfileChipsetField)) && IsStoredValue(TxPowerField, FieldOf(e, TxPowerField));
    assert IsStoredValue(TxPowerHighField, FieldOf(e, TxPowerHighField)) && IsStoredValue(TxPowerLowField, FieldOf(e, TxPowerLowField));
    var p4 := LeadingFields(e);
    var p5 := WithField(p4, ProfileChipsetField, e.profileChipset);
    var p6 := WithField(p5, TxPowerField, e.txPower);
    var p7 := WithField(p6, TxPowerHighField, e.txPowerHigh);
    var p8 := WithField(p7, TxPowerLowField, e.txPowerLow);
    SameFields(p8, e);
    var lead := FieldLine(iface, "card_name", e.cardName) + FieldLine(iface, "power_level", e.powerLevel) +
                FieldLine(iface, "profile_vendor_id", e.profileVendorId) + FieldLine(iface, "profile_device_id", e.profileDeviceId);
    var l5 := FieldLine(iface, "profile_chipset", e.profileChipset);
    var l6 := FieldLine(iface, "tx_power", e.txPower);
    var l7 := FieldLine(iface, "tx_power_high", e.txPowerHigh);
    LeadingLinesLoad(m, iface, e);
    FieldLineLoadsAfter(m, iface, p4, lead, ProfileChipsetField, e.profileChipset);
    FieldLineLoadsAfter(m, iface, p5, lead + l5, TxPowerField, e.txPower);
    FieldLineLoadsAfter(m, iface, p6, lead + l5 + l6, TxPowerHighField, e.txPowerHigh);
    FieldLineLoadsAfter(m, iface, p7, lead + l5 + l6 + l7, TxPowerLowField, e.txPowerLow);
  }

  /** Reading the body lines of `order` gives the entries of the keys listed that have values. */
  lemma {:induction false} TxBodyLoads(data: map<string, TxPowerOverride>, order: seq<string>)
    requires IsTxStore(data)
    requires forall i :: 0 <= i < |order| ==> order[i] in data
    requires forall i, j :: 0 <= i < j < |order| ==> order[i] != order[j]
    ensures var r := CollectTxLines(map[], ParsedTxLines(TxBody(data, order)));
      (forall k :: k in r <==> k in data && k in order && HasTxPowerValues(data[k])) &&
      (forall k :: k in r ==> r[k] == data[k])
    decreases |order|
  {
    if order != [] {
      var n := |order| - 1;
      var iface := order[n];
      var e := data[iface];
      var before := TxBody(data, order[..n]);
      var chunk := if HasTxPowerValues(e) then EntryLines(iface, e) else [];
      TxBodyLoads(data, order[..n]);
      var r0 := CollectTxLines(map[], ParsedTxLines(before));
      assert iface !in r0;
      ParsedTxLinesAppend(before, chunk);
      CollectTxLinesAppend(map[], ParsedTxLines(before), ParsedTxLines(chunk));
      if HasTxPowerValues(e) {
        EntryLinesLoad(r0, iface, e);
      } else {
        assert ParsedTxLines(chunk) == [];
      }
      BodyStep(data, order, r0);
    }
  }

  /** Adding the last interface of `order` to the store read from the others gives the store read from all. */
  lemma BodyStep(data: map<string, TxPowerOverride>, order: seq<string>, r0: map<string, TxPowerOverride>)
    requires order != [] && order[|order| - 1] in data
    requires forall i :: 0 <= i < |order| - 1 ==> order[i] != order[|order| - 1]
    requires forall k :: k in r0 <==> k in data && k in order[..|order| - 1] && HasTxPowerValues(data[k])
    requires forall k :: k in r0 ==> r0[k] == data[k]
    ensures var r := PutEntry(r0, order[|order| - 1], data[order[|order| - 1]]);
      (forall k :: k in r <==> k in data && k in order && HasTxPowerValues(data[k])) &&
      (forall k :: k in r ==> r[k] == data[k])
  {
    var n := |order| - 1;
    assert forall k :: k in order <==> k in order[..n] || k == order[n];
  }

  /** No line of `lines` holds a line break. */
  predicate HasNoBreak(lines: seq<string>) {
    forall i :: 0 <= i < |lines| ==> '\n' !in lines[i]
  }

  lemma NoBreakAppend(a: seq<string>, b: seq<string>)
    requires HasNoBreak(a) && HasNoBreak(b)
    ensures HasNoBreak(a + b)
  {
    forall i | 0 <= i < |a + b|
      ensures '\n' !in (a + b)[i]
    {
      if i >= |a| {
        assert (a + b)[i] == b[i - |a|];
      }
    }
  }

  /** An entry whose interface and values hold no line break. */
  predicate EntryHasNoBreak(iface: string, e: TxPowerOverride) {
    '\n' !in iface && forall f :: '\n' !in FieldOf(e, f)
  }

  lemma FieldLineNoBreak(iface: string, f: TxField, value: string)
    requires '\n' !in iface && '\n' !in value
    ensures HasNoBreak(FieldLine(iface, FieldKey(f), value))
  {
    FieldKeyIsRead(f);
    var name := FieldKey(f);
    assert '\n' !in name by {
      assert forall i | 0 <= i < |name| :: name[i] != '\n';
    }
  }

  lemma EntryLinesNoBreak(iface: string, e: TxPowerOverride)
    requires EntryHasNoBreak(iface, e)
    ensures HasNoBreak(EntryLines(iface, e))
  {
    var l1 := FieldLine(iface, FieldKey(CardNameField), e.cardName);
    var l2 := FieldLine(iface, FieldKey(PowerLevelField), e.powerLevel);
    var l3 := FieldLine(iface, FieldKey(ProfileVendorIdField), e.profileVendorId);
    var l4 := FieldLine(iface, FieldKey(ProfileDeviceIdField), e.profileDeviceId);
    var l5 := FieldLine(iface, FieldKey(ProfileChipsetField), e.profileChipset);
    var l6 := FieldLine(iface, FieldKey(TxPowerField), e.txPower);
    var l7 := FieldLine(iface, FieldKey(TxPowerHighField), e.txPowerHigh);
    var l8 := FieldLine(iface, FieldKey(TxPowerLowField), e.txPowerLow);
    assert '\n' !in FieldOf(e, CardNameField) && '\n' !in FieldOf(e, PowerLevelField);
    assert '\n' !in FieldOf(e, ProfileVendorIdField) && '\n' !in FieldOf(e, ProfileDeviceIdField);
    assert '\n' !in FieldOf(e, ProfileChipsetField) && '\n' !in FieldOf(e, TxPowerField);
    assert '\n' !in FieldOf(e, TxPowerHighField) && '\n' !in FieldOf(e, TxPowerLowField);
    FieldLineNoBreak(iface, CardNameField, e.cardName);
    FieldLineNoBreak(iface, PowerLevelField, e.powerLevel);
    FieldLineNoBreak(iface, ProfileVendorIdField, e.profileVendorId);
    FieldLineNoBreak(iface, ProfileDeviceIdField, e.profileDeviceId);
    FieldLineNoBreak(iface, ProfileChipsetField, e.profileChipset);
    FieldLineNoBreak(iface, TxPowerField, e.txPower);
    FieldLineNoBreak(iface, TxPowerHighField, e.txPowerHigh);
    FieldLineNoBreak(iface, TxPowerLowField, e.txPowerLow);
    NoBreakAppend(l1, l2);
    NoBreakAppend(l1 + l2, l3);
    NoBreakAppend(l1 + l2 + l3, l4);
    NoBreakAppend(l1 + l2 + l3 + l4, l5);
    NoBreakAppend(l1 + l2 + l3 + l4 + l5, l6);
    NoBreakAppend(l1 + l2 + l3 + l4 + l5 + l6, l7);
    NoBreakAppend(l1 + l2 + l3 + l4 + l5 + l6 + l7, l8);
  }

  lemma {:induction false} TxBodyNoBreak(data: map<string, TxPowerOverride>, order: seq<string>)
    requires forall i :: 0 <= i < |order| ==> order[i] in data
    requires forall k :: k in data ==> EntryHasNoBreak(k, data[k])
    ensures HasNoBreak(TxBody(data, order))
    decreases |order|
  {
    if order != [] {
      var n := |order| - 1;
      var iface := order[n];
      TxBodyNoBreak(data, order[..n]);
      if HasTxPowerValues(data[iface]) {
        EntryLinesNoBreak(iface, data[iface]);
        NoBreakAppend(TxBody(data, order[..n]), EntryLines(iface, data[iface]));
      } else {
        assert TxBody(data, order) == TxBody(data, order[..n]) + [];
      }
    }
  }

  /** The written text of the power store splits back into the written lines. */
  lemma TxTextSplits(header: string, data: map<string, TxPowerOverride>, order: seq<string>)
    requires IsCommentLine(header)
    requires forall i :: 0 <= i < |order| ==> order[i] in data
    requires forall k :: k in data ==> EntryHasNoBreak(k, data[k])
    ensures SplitLines(JoinLines([header] + TxBody(data, order))) == [header] + TxBody(data, order)
  {
    TxBodyNoBreak(data, order);
    assert HasNoBreak([header]) by {
      assert forall i | 0 <= i < |header| :: header[i] != '\n';
    }
    NoBreakAppend([header], TxBody(data, order));
    SplitJoinLines([header] + TxBody(data, order));
  }

  /** Reading the written lines, header first, gives the entries that have values. */
  lemma TxLinesLoad(header: string, data: map<string, TxPowerOverride>, order: seq<string>)
    requires IsCommentLine(header)
    requires IsTxStore(data) && Enumerates(order, data.Keys)
    ensures CollectTxLines(map[], ParsedTxLines([header] + TxBody(data, order)))
         == map k | k in data && HasTxPowerValues(data[k]) :: data[k]
  {
    var body := TxBody(data, order);
    var ps := ParsedTxLines([header] + body);
    CommentLineIsSkipped(header);
    ParsedTxLinesAppend([header], body);
    assert ps[1..] == ParsedTxLines(body);
    CollectTxLinesAfterSkip(map[], ps);
    TxBodyLoads(data, order);
    SameEntries(CollectTxLines(map[], ps[1..]), map k | k in data && HasTxPowerValues(data[k]) :: data[k]);
  }

  /**
   * Round trip of the power store: reading back what write_tx_power_overrides wrote
   * gives every entry that has a value, whatever the iteration order, for every store
   * the loader can produce whose text holds no line break; an all-empty entry is not
   * written and so does not come back.
   */
  lemma TxStoreRoundTrip(data: map<string, TxPowerOverride>, order: seq<string>)
    requires IsTxStore(data) && Enumerates(order, data.Keys)
    requires forall k :: k in data ==> EntryHasNoBreak(k, data[k])
    ensures TxOverridesOf(Some(JoinLines([TxHeader] + TxBody(data, order))))
         == map k | k in data && HasTxPowerValues(data[k]) :: data[k]
  {
    HeadersAreComments();
    TxTextSplits(TxHeader, data, order);
    TxLinesLoad(TxHeader, data, order);
  }

  /** A store whose entries all have values comes back whole. */
  lemma TxStoreRoundTripWhole(data: map<string, TxPowerOverride>, order: seq<string>)
    requires IsTxStore(data) && Enumerates(order, data.Keys)
    requires forall k :: k in data ==> EntryHasNoBreak(k, data[k]) && HasTxPowerValues(data[k])
    ensures TxOverridesOf(Some(JoinLines([TxHeader] + TxBody(data, order)))) == data
  {
    TxStoreRoundTrip(data, order);
    SameEntries(map k | k in data && HasTxPowerValues(data[k]) :: data[k], data);
  }
}
