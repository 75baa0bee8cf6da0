/**
 * CompactProtocol (api/protocol.py): the two-way codec between "compact"
 * messages (short field codes such as `t`, `m`, short type codes such as `cr`)
 * and "standard" messages (long field names, long type names).  `parse` also
 * reads the legacy shape that nests fields under `data`.
 *
 * Both directions fill a fresh dict in a loop over the input's items, so a
 * later item overwrites an earlier one that lands on the same key.  The
 * functions `Normalized` and `Compacted` specify the two loops; the methods
 * `Parse` and `Compact` are the loops themselves.
 */
module Protocol {
  import opened Outcomes
  import opened Dicts
  import opened JsonData

  /** SHORT_TO_LONG: compact field code to standard field name. */
  const FieldNames: map<string, string> := map[
    "i" := "id", "t" := "type", "ts" := "timestamp", "p" := "playerName",
    "c" := "companionName", "m" := "message", "a" := "action",
    "pos" := "position", "hp" := "health"]

  /** _LONG_TO_SHORT: standard field name to compact field code. */
  const FieldCodes: map<string, string> := map[
    "id" := "i", "type" := "t", "timestamp" := "ts", "playerName" := "p",
    "companionName" := "c", "message" := "m", "action" := "a",
    "position" := "pos", "health" := "hp"]

  /** TYPE_MAP: short type code to long type name. */
  const TypeNames: map<string, string> := map[
    "cr" := "conversation_request", "cs" := "conversation_response",
    "gs" := "game_state_update", "ac" := "action_command", "er" := "error"]

  /** _TYPE_LONG_TO_SHORT: long type name to short type code. */
  const TypeCodes: map<string, string> := map[
    "conversation_request" := "cr", "conversation_response" := "cs",
    "game_state_update" := "gs", "action_command" := "ac", "error" := "er"]

  const ParseError: string := "parse 期望 dict 输入"
  const CompactError: string := "compact 期望 dict 输入"


  /** The inverse field table undoes the forward one, in both directions. */
  lemma FieldTablesInvert()
    ensures forall s :: s in FieldNames ==> FieldNames[s] in FieldCodes && FieldCodes[FieldNames[s]] == s
    ensures forall l :: l in FieldCodes ==> FieldCodes[l] in FieldNames && FieldNames[FieldCodes[l]] == l
  {
    assert FieldNames.Keys == {"i", "t", "ts", "p", "c", "m", "a", "pos", "hp"};
    assert FieldCodes.Keys == {"id", "type", "timestamp", "playerName", "companionName", "message", "action", "position", "health"};
  }

  /** The inverse type table undoes the forward one, in both directions. */
  lemma TypeTablesInvert()
    ensures forall s :: s in TypeNames ==> TypeNames[s] in TypeCodes && TypeCodes[TypeNames[s]] == s
    ensures forall l :: l in TypeCodes ==> TypeCodes[l] in TypeNames && TypeNames[TypeCodes[l]] == l
  {
    assert TypeNames.Keys == {"cr", "cs", "gs", "ac", "er"};
    assert TypeCodes.Keys == {"conversation_request", "conversation_response", "game_state_update", "action_command", "error"};
  }

  /** No short field code is also a long field name. */
  lemma FieldTablesDisjoint()
    ensures FieldNames.Keys !! FieldCodes.Keys
  {
    FieldNamesShort();
    FieldCodesLong();
  }

  /** `data`, the legacy envelope, belongs to neither field table. */
  lemma DataIsNoField()
    ensures "data" !in FieldNames && "data" !in FieldCodes
  {
    FieldNameKeys();
    FieldCodeKeys();
  }

  /** Every short code is at most three characters long and none is `id`. */
  lemma FieldNamesShort()
    ensures forall k | k in FieldNames :: |k| <= 3 && k != "id"
  {
    FieldNameKeys();
  }

  /** Every long name is at least four characters long, except `id`. */
  lemma FieldCodesLong()
    ensures forall k | k in FieldCodes :: |k| >= 4 || k == "id"
  {
    FieldCodeKeys();
  }

  lemma FieldNameKeys()
    ensures FieldNames.Keys == {"i", "t", "ts", "p", "c", "m", "a", "pos", "hp"}
  {
  }

  lemma FieldCodeKeys()
    ensures FieldCodes.Keys == {"id", "type", "timestamp", "playerName", "companionName", "message", "action", "position", "health"}
  {
  }

  /** No short type code is also a long type name. */
  lemma TypeTablesDisjoint()
    ensures TypeNames.Keys !! TypeCodes.Keys
  {
    assert TypeNames.Keys == {"cr", "cs", "gs", "ac", "er"};
    assert TypeCodes.Keys == {"conversation_request", "conversation_response", "game_state_update", "action_command", "error"};
  }

  lemma TablesInvert()
    ensures forall s :: s in FieldNames ==> FieldNames[s] in FieldCodes && FieldCodes[FieldNames[s]] == s
    ensures forall l :: l in FieldCodes ==> FieldCodes[l] in FieldNames && FieldNames[FieldCodes[l]] == l
    ensures forall s :: s in TypeNames ==> TypeNames[s] in TypeCodes && TypeCodes[TypeNames[s]] == s
    ensures forall l :: l in TypeCodes ==> TypeCodes[l] in TypeNames && TypeNames[TypeCodes[l]] == l
    ensures forall s :: s in FieldNames ==> s !in FieldCodes
    ensures forall s :: s in TypeNames ==> s !in TypeCodes
    ensures "data" !in FieldNames && "data" !in FieldCodes
  {
    FieldTablesInvert();
    TypeTablesInvert();
    FieldTablesDisjoint();
    DataIsNoField();
    TypeTablesDisjoint();
  }

  predicate IsShortTypeCode(v: Json)
  {
    v.JStr? && v.s in TypeNames
  }

  predicate IsLongTypeName(v: Json)
  {
    v.JStr? && v.s in TypeCodes
  }

  /** _expand_type: a short type code becomes its long name; anything else is kept. */
  function ExpandType(v: Json): (r: Json)
    ensures !IsShortTypeCode(r)
    ensures !IsShortTypeCode(v) ==> r == v
  {
    TablesInvert();
    if v.JStr? && v.s in TypeNames then JStr(TypeNames[v.s]) else v
  }

  /** _compact_type: a long type name becomes its short code; anything else is kept. */
  function CompactType(v: Json): (r: Json)
    ensures !IsLongTypeName(r)
    ensures !IsLongTypeName(v) ==> r == v
  {
    TablesInvert();
    if v.JStr? && v.s in TypeCodes then JStr(TypeCodes[v.s]) else v
  }

  /** Shortening a type value and expanding it again gives it back, unless it was itself a short code. */
  lemma ExpandCompactType(v: Json)
    requires !IsShortTypeCode(v)
    ensures ExpandType(CompactType(v)) == v
  {
    TablesInvert();
  }

  /** Expanding a type value and shortening it again gives it back, unless it was itself a long name. */
  lemma CompactExpandType(v: Json)
    requires !IsLongTypeName(v)
    ensures CompactType(ExpandType(v)) == v
  {
    TablesInvert();
  }

  /**
   * One iteration of parse's first loop: the key and value written for an
   * input item, or None for the `data` item, which the loop skips.
   */
  function RenameEntry(key: string, value: Json): Option<(string, Json)>
  {
    if key in FieldNames then
      var longKey := FieldNames[key];
      Some((longKey, if longKey == "type" then ExpandType(value) else value))
    else if key == "type" then Some(("type", ExpandType(value)))
    else if key != "data" then Some((key, value))
    else None
  }

  /** A long name other than `type` passes through parse's loop unchanged. */
  lemma RenameLongKey(key: string, value: Json)
    requires key !in FieldNames && key != "type" && key != "data"
    ensures RenameEntry(key, value) == Some((key, value))
  {
  }

  /** The `type` field keeps its name and has its value expanded. */
  lemma RenameTypeKey(value: Json)
    ensures RenameEntry("type", value) == Some(("type", ExpandType(value)))
  {
    FieldNamesShort();
  }

  /** The legacy envelope `data` is skipped by parse's loop. */
  lemma RenameDataKey(value: Json)
    ensures RenameEntry("data", value) == None
  {
    DataIsNoField();
  }

  /** One iteration of compact's loop: the key and value written for an input item. */
  function CompactEntry(key: string, value: Json): Option<(string, Json)>
  {
    if key == "type" then Some((FieldCodes["type"], CompactType(value)))
    else if key in FieldCodes then Some((FieldCodes[key], value))
    else Some((key, value))
  }

  /**
   * A fresh dict filled by a loop over `items`, writing `entry(key, value)`
   * for each item (nothing when `entry` gives None).
   */
  function Refill(items: Fields, entry: (string, Json) -> Option<(string, Json)>): Fields
    decreases |items|
  {
    if items == [] then []
    else
      var rest := Refill(items[..|items| - 1], entry);
      var last := items[|items| - 1];
      match entry(last.0, last.1)
      case None => rest
      case Some(e) => Put(rest, e.0, e.1)
  }

  /**
   * When every item writes something and no two items write the same key, the
   * loop writes the items one by one in input order, overwriting nothing.
   */
  lemma {:induction false} RefillEntrywise(items: Fields, entry: (string, Json) -> Option<(string, Json)>)
    requires forall i :: 0 <= i < |items| ==> entry(items[i].0, items[i].1).Some?
    requires forall i, j :: 0 <= i < j < |items| ==>
      entry(items[i].0, items[i].1).value.0 != entry(items[j].0, items[j].1).value.0
    ensures |Refill(items, entry)| == |items|
    ensures forall i :: 0 <= i < |items| ==> Refill(items, entry)[i] == entry(items[i].0, items[i].1).value
    decreases |items|
  {
    if items != [] {
      var n := |items| - 1;
      var init := items[..n];
      var e := entry(items[n].0, items[n].1).value;
      assert forall i :: 0 <= i < n ==> init[i] == items[i];
      RefillEntrywise(init, entry);
      RefillGetNone(init, entry, e.0);
      PutKeys(Refill(init, entry), e.0, e.1);
    }
  }

  /** The key holds the value the last item writing it wrote. */
  lemma {:induction false} RefillGetLast(items: Fields, entry: (string, Json) -> Option<(string, Json)>, i: nat, k: string, w: Json)
    requires i < |items| && entry(items[i].0, items[i].1) == Some((k, w))
    requires forall j :: i < j < |items| ==>
      entry(items[j].0, items[j].1).None? || entry(items[j].0, items[j].1).value.0 != k
    ensures Get(Refill(items, entry), k) == Some(w)
    decreases |items|
  {
    var n := |items| - 1;
    var init := items[..n];
    assert Refill(items, entry) == match entry(items[n].0, items[n].1)
      case None => Refill(init, entry)
      case Some(e) => Put(Refill(init, entry), e.0, e.1);
    if i < n {
      assert forall j :: i < j < |init| ==> init[j] == items[j];
      RefillGetLast(init, entry, i, k, w);
    }
  }

  /** A key no item writes is absent after the loop. */
  lemma {:induction false} RefillGetNone(items: Fields, entry: (string, Json) -> Option<(string, Json)>, k: string)
    requires forall j :: 0 <= j < |items| ==>
      entry(items[j].0, items[j].1).None? || entry(items[j].0, items[j].1).value.0 != k
    ensures Get(Refill(items, entry), k) == None
    decreases |items|
  {
    if items != [] {
      RefillGetNone(items[..|items| - 1], entry, k);
    }
  }

  /** An entry a standard message may hold: a long or unknown key (never a short code, never `data`), and a type value that is not a short code. */
  predicate StandardEntry(key: string, value: Json)
  {
    key !in FieldNames && key != "data" && (key == "type" ==> !IsShortTypeCode(value))
  }

  /** A message in the internal standard form. */
  predicate Standard(r: Fields)
  {
    IsDict(r) && forall i :: 0 <= i < |r| ==> StandardEntry(r[i].0, r[i].1)
  }

  /** Writing a standard entry keeps a message standard. */
  lemma PutStandard(r: Fields, key: string, value: Json)
    requires Standard(r) && StandardEntry(key, value)
    ensures Standard(Put(r, key, value))
  {
    PutEntries(r, key, value);
  }

  /** Every item parse's first loop writes is a standard entry, so the loop builds a standard message. */
  lemma {:induction false} ExpandedIsStandard(items: Fields)
    ensures Standard(Refill(items, RenameEntry))
    decreases |items|
  {
    TablesInvert();
    if items != [] {
      var n := |items| - 1;
      ExpandedIsStandard(items[..n]);
      var e := RenameEntry(items[n].0, items[n].1);
      if e.Some? {
        PutStandard(Refill(items[..n], RenameEntry), e.value.0, e.value.1);
      }
    }
  }

  function HasKey(d: Fields, k: string): bool
  {
    k in Keys(d)
  }

  /** A standard message has no `data` key. */
  lemma StandardHasNoData(r: Fields)
    requires Standard(r)
    ensures !HasKey(r, "data")
  {
    KeyIn(r, "data");
  }

  /** The value of the first alias present in `d`, in precedence order. */
  function FirstPresent(d: Fields, aliases: seq<string>): (r: Option<Json>)
    ensures r.Some? <==> exists i :: 0 <= i < |aliases| && HasKey(d, aliases[i])
    ensures r.Some? ==> exists i :: 0 <= i < |aliases| && Get(d, aliases[i]) == r
                                    && forall j :: 0 <= j < i ==> !HasKey(d, aliases[j])
  {
    if aliases == [] then None
    else if HasKey(d, aliases[0]) then Get(d, aliases[0])
    else
      var r := FirstPresent(d, aliases[1..]);
      assert forall i :: 1 <= i < |aliases| ==> aliases[i] == aliases[1..][i - 1];
      r
  }

  /** The keys of `data` read for each standard field, highest precedence first. */
  function Aliases(key: string): seq<string>
  {
    if key == "playerName" then ["playerName", "player_name", "player"]
    else if key == "message" then ["message", "msg"]
    else if key == "companionName" then ["companionName", "companion_name", "companion"]
    else if key == "action" then ["action"]
    else if key == "position" then ["position"]
    else if key == "health" then ["health", "hp"]
    else []
  }

  /** The value the legacy branch writes under `key`, if any. */
  function LegacyValue(d: Fields, key: string): Option<Json>
  {
    FirstPresent(d, Aliases(key))
  }

  function PutIfSome(r: Fields, key: string, v: Option<Json>): Fields
  {
    if v.Some? then Put(r, key, v.value) else r
  }

  /** Parse's second step: fields found under `data` overwrite the top-level ones. */
  function ApplyLegacy(r: Fields, d: Fields): Fields
  {
    var r1 := PutIfSome(r, "playerName", LegacyValue(d, "playerName"));
    var r2 := PutIfSome(r1, "message", LegacyValue(d, "message"));
    var r3 := PutIfSome(r2, "companionName", LegacyValue(d, "companionName"));
    var r4 := PutIfSome(r3, "action", LegacyValue(d, "action"));
    var r5 := PutIfSome(r4, "position", LegacyValue(d, "position"));
    PutIfSome(r5, "health", LegacyValue(d, "health"))
  }

  lemma GetPutIfSome(r: Fields, key: string, v: Option<Json>, k: string)
    ensures Get(PutIfSome(r, key, v), k) == if k == key && v.Some? then v else Get(r, k)
  {
  }

  /** The precedence of up to three aliases, spelled out. */
  lemma FirstPresentUnfold(d: Fields, aliases: seq<string>)
    requires 1 <= |aliases| <= 3
    ensures FirstPresent(d, aliases) ==
      if HasKey(d, aliases[0]) then Get(d, aliases[0])
      else if |aliases| == 1 then None
      else if HasKey(d, aliases[1]) then Get(d, aliases[1])
      else if |aliases| == 2 then None
      else if HasKey(d, aliases[2]) then Get(d, aliases[2])
      else None
  {
    if |aliases| >= 2 {
      assert aliases[1..][0] == aliases[1];
      if |aliases| == 3 {
        assert aliases[1..][1..][0] == aliases[2];
        assert aliases[1..][1..][1..] == [];
      } else {
        assert aliases[1..][1..] == [];
      }
    } else {
      assert aliases[1..] == [];
    }
  }

  /** After the legacy step a key holds the legacy value when there is one, and its old value otherwise. */
  lemma ApplyLegacyGet(r: Fields, d: Fields, key: string)
    ensures Get(ApplyLegacy(r, d), key) ==
      if LegacyValue(d, key).Some? then LegacyValue(d, key) else Get(r, key)
  {
    var r1 := PutIfSome(r, "playerName", LegacyValue(d, "playerName"));
    var r2 := PutIfSome(r1, "message", LegacyValue(d, "message"));
    var r3 := PutIfSome(r2, "companionName", LegacyValue(d, "companionName"));
    var r4 := PutIfSome(r3, "action", LegacyValue(d, "action"));
    var r5 := PutIfSome(r4, "position", LegacyValue(d, "position"));
    GetPutIfSome(r, "playerName", LegacyValue(d, "playerName"), key);
    GetPutIfSome(r1, "message", LegacyValue(d, "message"), key);
    GetPutIfSome(r2, "companionName", LegacyValue(d, "companionName"), key);
    GetPutIfSome(r3, "action", LegacyValue(d, "action"), key);
    GetPutIfSome(r4, "position", LegacyValue(d, "position"), key);
    GetPutIfSome(r5, "health", LegacyValue(d, "health"), key);
    if key !in {"playerName", "message", "companionName", "action", "position", "health"} {
      assert Aliases(key) == [];
    }
  }

  /** The legacy step keeps a message standard. */
  lemma ApplyLegacyStandard(r: Fields, d: Fields)
    requires Standard(r)
    ensures Standard(ApplyLegacy(r, d))
  {
    var r1 := PutIfSome(r, "playerName", LegacyValue(d, "playerName"));
    var r2 := PutIfSome(r1, "message", LegacyValue(d, "message"));
    var r3 := PutIfSome(r2, "companionName", LegacyValue(d, "companionName"));
    var r4 := PutIfSome(r3, "action", LegacyValue(d, "action"));
    var r5 := PutIfSome(r4, "position", LegacyValue(d, "position"));
    PutIfSomeStandard(r, "playerName", LegacyValue(d, "playerName"));
    PutIfSomeStandard(r1, "message", LegacyValue(d, "message"));
    PutIfSomeStandard(r2, "companionName", LegacyValue(d, "companionName"));
    PutIfSomeStandard(r3, "action", LegacyValue(d, "action"));
    PutIfSomeStandard(r4, "position", LegacyValue(d, "position"));
    PutIfSomeStandard(r5, "health", LegacyValue(d, "health"));
  }

  /** The legacy branch writes only long names other than `type`, so it keeps a message standard. */
  lemma PutIfSomeStandard(r: Fields, key: string, v: Option<Json>)
    requires Standard(r) && key in {"playerName", "message", "companionName", "action", "position", "health"}
    ensures Standard(PutIfSome(r, key, v))
  {
    FieldNameKeys();
    if v.Some? {
      PutStandard(r, key, v.value);
    }
  }

  /** Parse's last step: the `type` value, if any, is expanded once more. */
  function ReExpandType(r: Fields): Fields
  {
    if HasKey(r, "type") then Put(r, "type", ExpandType(Get(r, "type").value)) else r
  }

  /** On a standard message the last step changes nothing: its `type` is already expanded. */
  lemma ReExpandStandard(r: Fields)
    requires Standard(r)
    ensures ReExpandType(r) == r
  {
    if HasKey(r, "type") {
      KeyIn(r, "type");
      var i :| 0 <= i < |r| && r[i].0 == "type";
      GetAt(r, i);
      PutSame(r, "type", r[i].1);
    }
  }

  /** The legacy nested object, when the message has a `data` member that is a dict. */
  function LegacyData(fields: Fields): Option<Fields>
  {
    var data := Get(fields, "data");
    if data.Some? && data.value.JObj? then Some(data.value.fields) else None
  }

  /** The message after parse's first two steps. */
  function Merged(fields: Fields): Fields
  {
    var step1 := Refill(fields, RenameEntry);
    match LegacyData(fields)
    case Some(d) => ApplyLegacy(step1, d)
    case None => step1
  }

  /** CompactProtocol.parse: compact, standard or legacy message to standard form. */
  function Normalized(msg: Json): (r: Result<Fields>)
    ensures r.Fail? <==> !msg.JObj?
  {
    if !msg.JObj? then Fail(ParseError) else Ok(ReExpandType(Merged(msg.fields)))
  }

  /** CompactProtocol.compact: standard message to compact form. */
  function Compacted(msg: Json): (r: Result<Fields>)
    ensures r.Fail? <==> !msg.JObj?
  {
    if !msg.JObj? then Fail(CompactError) else Ok(Refill(msg.fields, CompactEntry))
  }

  /** A key after parse's first two steps: the legacy value if there is one, else what the first loop wrote. */
  lemma MergedGet(fields: Fields, k: string)
    ensures Get(Merged(fields), k) ==
      if LegacyData(fields).Some? && LegacyValue(LegacyData(fields).value, k).Some?
      then LegacyValue(LegacyData(fields).value, k)
      else Get(Refill(fields, RenameEntry), k)
  {
    if LegacyData(fields).Some? {
      ApplyLegacyGet(Refill(fields, RenameEntry), LegacyData(fields).value, k);
    }
  }

  /** Only long field names have legacy aliases. */
  lemma LegacyValueOfUnknownKey(d: Fields, k: string)
    requires k !in FieldCodes
    ensures LegacyValue(d, k) == None
  {
    assert Aliases(k) == [];
  }

  /** Parse's first two steps give a standard message, so its last step changes nothing. */
  lemma MergedIsStandard(fields: Fields)
    ensures Standard(Merged(fields))
    ensures ReExpandType(Merged(fields)) == Merged(fields)
  {
    ExpandedIsStandard(fields);
    if LegacyData(fields).Some? {
      ApplyLegacyStandard(Refill(fields, RenameEntry), LegacyData(fields).value);
    }
    ReExpandStandard(Merged(fields));
  }

  /**
   * parse returns a dict in standard form: no key twice, no short field code,
   * no `data` key, and a `type` that is not a short code.
   */
  lemma NormalizedIsStandard(msg: Json)
    requires msg.JObj?
    ensures Standard(Normalized(msg).value)
    ensures !HasKey(Normalized(msg).value, "data")
  {
    MergedIsStandard(msg.fields);
    StandardHasNoData(Normalized(msg).value);
  }

  /** A standard entry goes through parse's first loop unchanged. */
  lemma RenameStandardEntry(key: string, value: Json)
    requires StandardEntry(key, value)
    ensures RenameEntry(key, value) == Some((key, value))
  {
  }

  /** A standard message is a fixed point of parse. */
  lemma NormalizedFixedPoint(r: Fields)
    requires Standard(r)
    ensures Normalized(JObj(r)) == Ok(r)
  {
    RefillEntrywise(r, RenameEntry);
    assert Refill(r, RenameEntry) == r;
    StandardHasNoData(r);
    ReExpandStandard(r);
  }

  /** parse is idempotent: parsing its output again gives the same dict. */
  lemma NormalizeIdempotent(msg: Json)
    requires msg.JObj?
    ensures Normalized(JObj(Normalized(msg).value)) == Normalized(msg)
  {
    NormalizedIsStandard(msg);
    NormalizedFixedPoint(Normalized(msg).value);
  }

  /** Keys of distinct short codes expand to distinct long names, never to a key that is itself unknown. */
  lemma RenameKeyOf(key: string, value: Json)
    requires RenameEntry(key, value).Some?
    ensures key in FieldNames ==> RenameEntry(key, value).value.0 == FieldNames[key] && FieldNames[key] in FieldCodes
    ensures key !in FieldNames ==> RenameEntry(key, value).value.0 == key
  {
    TablesInvert();
  }

  /** A key parse passes through unchanged is written only by the item that carries it. */
  lemma {:induction false} WritersOfUnknownKey(fields: Fields, k: string, i: nat)
    requires IsDict(fields) && k !in FieldNames && k !in FieldCodes
    requires i < |fields| ==> fields[i].0 == k
    requires i >= |fields| ==> k !in Keys(fields)
    ensures forall j :: 0 <= j < |fields| && j != i ==>
      RenameEntry(fields[j].0, fields[j].1).None? || RenameEntry(fields[j].0, fields[j].1).value.0 != k
  {
    KeyIn(fields, k);
    forall j | 0 <= j < |fields| && j != i && RenameEntry(fields[j].0, fields[j].1).Some?
      ensures RenameEntry(fields[j].0, fields[j].1).value.0 != k
    {
      assert fields[j].0 != k;
      RenameKeyOf(fields[j].0, fields[j].1);
    }
  }

  /** Parse's first loop keeps the value of a key that is neither a short code nor a long name. */
  lemma ExpandedKeepsUnknownKey(fields: Fields, k: string)
    requires IsDict(fields) && k !in FieldNames && k !in FieldCodes && k != "data"
    ensures Get(Refill(fields, RenameEntry), k) == Get(fields, k)
  {
    KeyIn(fields, k);
    if k in Keys(fields) {
      var i :| 0 <= i < |fields| && fields[i].0 == k;
      WritersOfUnknownKey(fields, k, i);
      RenameKeyOf(k, fields[i].1);
      RefillGetLast(fields, RenameEntry, i, k, fields[i].1);
      GetAt(fields, i);
    } else {
      WritersOfUnknownKey(fields, k, |fields|);
      RefillGetNone(fields, RenameEntry, k);
    }
  }

  /**
   * A key that is neither a short code, a long name nor `data` passes through
   * parse with its value unchanged (and stays absent when absent).
   */
  lemma NormalizedKeepsUnknownKey(msg: Json, k: string)
    requires msg.JObj? && IsDict(msg.fields)
    requires k !in FieldNames && k !in FieldCodes && k != "data"
    ensures Get(Normalized(msg).value, k) == Get(msg.fields, k)
  {
    var fields := msg.fields;
    ExpandedKeepsUnknownKey(fields, k);
    MergedGet(fields, k);
    if LegacyData(fields).Some? {
      LegacyValueOfUnknownKey(LegacyData(fields).value, k);
    }
    MergedIsStandard(fields);
  }

  /**
   * A short field code is written under its long name, the `t` value expanded;
   * when the message also carries the long name, the later of the two wins.
   * A legacy value under `data`, when there is one, still overrides it.
   */
  lemma NormalizedRenamesShortKey(msg: Json, i: nat)
    requires msg.JObj? && IsDict(msg.fields) && i < |msg.fields|
    requires msg.fields[i].0 in FieldNames
    requires forall j :: i < j < |msg.fields| ==> msg.fields[j].0 != FieldNames[msg.fields[i].0]
    requires LegacyData(msg.fields).None? || LegacyValue(LegacyData(msg.fields).value, FieldNames[msg.fields[i].0]).None?
    ensures Get(Normalized(msg).value, FieldNames[msg.fields[i].0]) ==
      Some(if msg.fields[i].0 == "t" then ExpandType(msg.fields[i].1) else msg.fields[i].1)
  {
    var fields := msg.fields;
    var s := fields[i].0;
    var l := FieldNames[s];
    TablesInvert();
    forall j | i < j < |fields| && RenameEntry(fields[j].0, fields[j].1).Some?
      ensures RenameEntry(fields[j].0, fields[j].1).value.0 != l
    {
      RenameKeyOf(fields[j].0, fields[j].1);
    }
    RefillGetLast(fields, RenameEntry, i, l, if s == "t" then ExpandType(fields[i].1) else fields[i].1);
    if LegacyData(fields).Some? {
      ApplyLegacyGet(Refill(fields, RenameEntry), LegacyData(fields).value, l);
    }
    MergedIsStandard(fields);
  }

  /**
   * Whatever parse's first loop writes from an item is in the result, unless
   * a later item writes the same key or the legacy branch overrides it.
   */
  lemma NormalizedLastWriter(msg: Json, i: nat)
    requires msg.JObj? && i < |msg.fields| && RenameEntry(msg.fields[i].0, msg.fields[i].1).Some?
    requires forall j :: i < j < |msg.fields| ==>
      RenameEntry(msg.fields[j].0, msg.fields[j].1).None? ||
      RenameEntry(msg.fields[j].0, msg.fields[j].1).value.0 != RenameEntry(msg.fields[i].0, msg.fields[i].1).value.0
    requires LegacyData(msg.fields).None? ||
      LegacyValue(LegacyData(msg.fields).value, RenameEntry(msg.fields[i].0, msg.fields[i].1).value.0).None?
    ensures var e := RenameEntry(msg.fields[i].0, msg.fields[i].1).value;
      Get(Normalized(msg).value, e.0) == Some(e.1)
  {
    var e := RenameEntry(msg.fields[i].0, msg.fields[i].1).value;
    RefillGetLast(msg.fields, RenameEntry, i, e.0, e.1);
    MergedGet(msg.fields, e.0);
    MergedIsStandard(msg.fields);
  }

  /**
   * A field found under a legacy `data` dict overrides the top-level value; the
   * alias it is read from follows `FirstPresent`'s precedence.
   */
  lemma NormalizedLegacy(msg: Json, key: string)
    requires msg.JObj? && LegacyData(msg.fields).Some?
    requires LegacyValue(LegacyData(msg.fields).value, key).Some?
    ensures Get(Normalized(msg).value, key) == LegacyValue(LegacyData(msg.fields).value, key)
  {
    ApplyLegacyGet(Refill(msg.fields, RenameEntry), LegacyData(msg.fields).value, key);
    MergedIsStandard(msg.fields);
  }

  /** Compacting a standard entry and expanding it again gives the entry back. */
  lemma CompactEntryRoundTrip(key: string, value: Json)
    requires StandardEntry(key, value)
    ensures CompactEntry(key, value).Some?
    ensures RenameEntry(CompactEntry(key, value).value.0, CompactEntry(key, value).value.1) == Some((key, value))
  {
    TablesInvert();
    if key == "type" {
      ExpandCompactType(value);
    }
  }

  /** Distinct keys of a standard message compact to distinct keys. */
  lemma CompactKeysDistinct(k1: string, v1: Json, k2: string, v2: Json)
    requires k1 !in FieldNames && k2 !in FieldNames && k1 != k2
    ensures CompactEntry(k1, v1).value.0 != CompactEntry(k2, v2).value.0
  {
    TablesInvert();
  }

  /** On a standard message compact renames entry by entry, in order, merging nothing. */
  lemma CompactedEntrywise(m: Fields)
    requires Standard(m)
    ensures |Compacted(JObj(m)).value| == |m|
    ensures forall i :: 0 <= i < |m| ==> Compacted(JObj(m)).value[i] == CompactEntry(m[i].0, m[i].1).value
  {
    forall i, j | 0 <= i < j < |m|
      ensures CompactEntry(m[i].0, m[i].1).value.0 != CompactEntry(m[j].0, m[j].1).value.0
    {
      CompactKeysDistinct(m[i].0, m[i].1, m[j].0, m[j].1);
    }
    RefillEntrywise(m, CompactEntry);
  }

  /** parse(compact(m)) == m for every message in standard form. */
  lemma RoundTrip(m: Fields)
    requires Standard(m)
    ensures Compacted(JObj(m)).Ok?
    ensures Normalized(JObj(Compacted(JObj(m)).value)) == Ok(m)
  {
    TablesInvert();
    CompactedEntrywise(m);
    var c := Compacted(JObj(m)).value;
    forall i | 0 <= i < |c|
      ensures RenameEntry(c[i].0, c[i].1) == Some(m[i])
    {
      CompactEntryRoundTrip(m[i].0, m[i].1);
    }
    RefillEntrywise(c, RenameEntry);
    assert Refill(c, RenameEntry) == m;
    KeyIn(c, "data");
    assert LegacyData(c).None?;
    ReExpandStandard(m);
  }

  /** An entry of a message in compact form: no long name that compact would shorten, no `data`, and a `t` value that is not a long type name. */
  predicate CompactFormEntry(key: string, value: Json)
  {
    key !in FieldCodes && key != "data" && (key == "t" ==> !IsLongTypeName(value))
  }

  /** A message as the mod sends it in compact form. */
  predicate CompactForm(c: Fields)
  {
    IsDict(c) && forall i :: 0 <= i < |c| ==> CompactFormEntry(c[i].0, c[i].1)
  }

  /** Expanding a compact entry and compacting it again gives the entry back. */
  lemma RenameEntryRoundTrip(key: string, value: Json)
    requires CompactFormEntry(key, value)
    ensures RenameEntry(key, value).Some?
    ensures CompactEntry(RenameEntry(key, value).value.0, RenameEntry(key, value).value.1) == Some((key, value))
  {
    FieldTablesInvert();
    if key == "t" {
      CompactExpandType(value);
    } else if key in FieldNames {
      FieldCodeKeys();
    }
  }

  /** compact(parse(c)) == c for every message in compact form. */
  lemma RoundTripFromCompact(c: Fields)
    requires CompactForm(c)
    ensures Compacted(JObj(Normalized(JObj(c)).value)) == Ok(c)
  {
    TablesInvert();
    forall i | 0 <= i < |c|
      ensures RenameEntry(c[i].0, c[i].1).Some?
    {
      RenameEntryRoundTrip(c[i].0, c[i].1);
    }
    forall i, j | 0 <= i < j < |c|
      ensures RenameEntry(c[i].0, c[i].1).value.0 != RenameEntry(c[j].0, c[j].1).value.0
    {
      RenameKeyOf(c[i].0, c[i].1);
      RenameKeyOf(c[j].0, c[j].1);
    }
    RefillEntrywise(c, RenameEntry);
    var p := Refill(c, RenameEntry);
    KeyIn(c, "data");
    assert LegacyData(c).None?;
    MergedIsStandard(c);
    assert Normalized(JObj(c)).value == p;
    forall i | 0 <= i < |p|
      ensures CompactEntry(p[i].0, p[i].1) == Some(c[i])
    {
      RenameEntryRoundTrip(c[i].0, c[i].1);
    }
    RefillEntrywise(p, CompactEntry);
    assert Refill(p, CompactEntry) == c;
  }

  /**
   * parse as written: the first loop over the items, the legacy `data`
   * branch, then the final expansion of `type`.
   */
  method Parse(msg: Json) returns (r: Result<Fields>)
    ensures r == Normalized(msg)
  {
    if !msg.JObj? {
      return Fail(ParseError);
    }
    var src := msg.fields;
    var result := RenameAll(src);
    var data := Get(src, "data");
    if data.Some? && data.value.JObj? {
      result := MergeLegacy(result, data.value.fields);
    }
    if HasKey(result, "type") {
      result := Put(result, "type", ExpandType(Get(result, "type").value));
    }
    return Ok(result);
  }

  /** The main loop of parse: every top-level item except `data`, under its long name. */
  method RenameAll(src: Fields) returns (result: Fields)
    ensures result == Refill(src, RenameEntry)
  {
    result := [];
    for n := 0 to |src|
      invariant result == Refill(src[..n], RenameEntry)
    {
      var key, value := src[n].0, src[n].1;
      if key in FieldNames {
        var longKey := FieldNames[key];
        if longKey == "type" {
          result := Put(result, longKey, ExpandType(value));
        } else {
          result := Put(result, longKey, value);
        }
      } else if key == "type" {
        result := Put(result, "type", ExpandType(value));
      } else if key != "data" {
        result := Put(result, key, value);
      }
      assert src[..n + 1][..n] == src[..n];
    }
    assert src[..|src|] == src;
  }

  /** The legacy branch of parse: fields nested under `data` overwrite the top-level ones. */
  method MergeLegacy(top: Fields, d: Fields) returns (r: Fields)
    ensures r == ApplyLegacy(top, d)
  {
    r := MergeNames(top, d);
    r := MergeState(r, d);
  }

  /** The player, message and companion aliases of the legacy branch. */
  method MergeNames(top: Fields, d: Fields) returns (r: Fields)
    ensures r == PutIfSome(PutIfSome(PutIfSome(top, "playerName", LegacyValue(d, "playerName")),
                 "message", LegacyValue(d, "message")), "companionName", LegacyValue(d, "companionName"))
  {
    r := MergePlayer(top, d);
    r := MergeMessage(r, d);
    r := MergeCompanion(r, d);
  }

  /** `playerName`, else `player_name`, else `player`. */
  method MergePlayer(top: Fields, d: Fields) returns (r: Fields)
    ensures r == PutIfSome(top, "playerName", LegacyValue(d, "playerName"))
  {
    r := top;
    FirstPresentUnfold(d, Aliases("playerName"));
    if HasKey(d, "playerName") {
      r := Put(r, "playerName", Get(d, "playerName").value);
    } else if HasKey(d, "player_name") {
      r := Put(r, "playerName", Get(d, "player_name").value);
    } else if HasKey(d, "player") {
      r := Put(r, "playerName", Get(d, "player").value);
    }
  }

  /** `message`, else `msg`. */
  method MergeMessage(top: Fields, d: Fields) returns (r: Fields)
    ensures r == PutIfSome(top, "message", LegacyValue(d, "message"))
  {
    r := top;
    FirstPresentUnfold(d, Aliases("message"));
    if HasKey(d, "message") {
      r := Put(r, "message", Get(d, "message").value);
    } else if HasKey(d, "msg") {
      r := Put(r, "message", Get(d, "msg").value);
    }
  }

  /** `companionName`, else `companion_name`, else `companion`. */
  method MergeCompanion(top: Fields, d: Fields) returns (r: Fields)
    ensures r == PutIfSome(top, "companionName", LegacyValue(d, "companionName"))
  {
    r := top;
    FirstPresentUnfold(d, Aliases("companionName"));
    if HasKey(d, "companionName") {
      r := Put(r, "companionName", Get(d, "companionName").value);
    } else if HasKey(d, "companion_name") {
      r := Put(r, "companionName", Get(d, "companion_name").value);
    } else if HasKey(d, "companion") {
      r := Put(r, "companionName", Get(d, "companion").value);
    }
  }

  /** The action, position and health aliases of the legacy branch (`health` wins over `hp`). */
  method MergeState(top: Fields, d: Fields) returns (r: Fields)
    ensures r == PutIfSome(PutIfSome(PutIfSome(top, "action", LegacyValue(d, "action")),
                 "position", LegacyValue(d, "position")), "health", LegacyValue(d, "health"))
  {
    r := top;
    FirstPresentUnfold(d, Aliases("action"));
    if HasKey(d, "action") {
      r := Put(r, "action", Get(d, "action").value);
    }
    ghost var r4 := r;
    assert r4 == PutIfSome(top, "action", LegacyValue(d, "action"));
    FirstPresentUnfold(d, Aliases("position"));
    if HasKey(d, "position") {
      r := Put(r, "position", Get(d, "position").value);
    }
    ghost var r5 := r;
    assert r5 == PutIfSome(r4, "position", LegacyValue(d, "position"));
    FirstPresentUnfold(d, Aliases("health"));
    if HasKey(d, "hp") && !HasKey(d, "health") {
      r := Put(r, "health", Get(d, "hp").value);
    } else if HasKey(d, "health") {
      r := Put(r, "health", Get(d, "health").value);
    }
  }

  /** compact as written: one loop over the items. */
  method Compact(msg: Json) returns (r: Result<Fields>)
    ensures r == Compacted(msg)
  {
    if !msg.JObj? {
      return Fail(CompactError);
    }
    var src := msg.fields;
    var dest: Fields := [];
    for n := 0 to |src|
      invariant dest == Refill(src[..n], CompactEntry)
    {
      var key, value := src[n].0, src[n].1;
      if key == "type" {
        dest := Put(dest, FieldCodes["type"], CompactType(value));
      } else if key in FieldCodes {
        dest := Put(dest, FieldCodes[key], value);
      } else {
        dest := Put(dest, key, value);
      }
      assert src[..n + 1][..n] == src[..n];
    }
    assert src[..|src|] == src;
    return Ok(dest);
  }
}
