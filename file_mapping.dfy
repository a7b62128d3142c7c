/**
 * The mapping normaliser: per-document-type field lists, alias tables and nested list schemas,
 * the resolver that picks a type's mapping, and `apply_mapping`, which reshapes an extracted
 * dict into the mapped dict plus mapping metadata.
 *
 * A mapping is a typed record rather than a raw JSON dict: `fields` is a list of names, `aliases`
 * the alias table's (alias, target) entries in order, `listFields` the nested schemas in order.
 */
module FileMapping {
  import opened Wrappers
  import opened Values

  /** The schema applied to each dict element of a list field. */
  datatype ItemMapping = ItemMapping(fields: seq<string>, aliases: seq<(string, string)>)

  /** One document type's stored mapping; the empty mapping stands for `{}`. */
  datatype TypeMapping = TypeMapping(
    name: Option<string>,
    fields: seq<string>,
    aliases: seq<(string, string)>,
    listFields: seq<(string, ItemMapping)>)

  const EmptyMapping := TypeMapping(None, [], [], [])

  /**
   * The mapping argument of `apply_mapping`: falsy (`{}` or None), or a type mapping together
   * with the keys `resolve` adds (absent when the caller passes a bare type mapping).
   */
  datatype MappingArg =
    | Falsy
    | Given(m: TypeMapping, source: Option<string>, file: Option<string>, documentType: Option<string>)

  /** What reading the mapping file gives; every outcome but `Loaded` falls back to the defaults. */
  datatype LoadOutcome =
    | Missing
    | Unreadable
    | NotAnObject
    | Loaded(mappings: seq<(string, TypeMapping)>)

  const BidderFields: seq<string> :=
    ["bidder_name", "bidder_location", "total_bid_amount", "bid_rank", "percentage_diff", "is_winner"]

  const BidItemFields: seq<string> :=
    ["item_number", "item_code", "description", "quantity", "unit", "unit_price", "total_price", "bidder_name"]

  const ItemCBidderFields: seq<string> :=
    ["bidder_name", "bidder_location", "total_bid_amount", "percentage_diff", "bid_rank", "is_winner"]

  /** `DEFAULT_FIELD_MAPPINGS`: four document types have a default schema. */
  const DefaultMappings: seq<(string, TypeMapping)> := [
    ("invitation_to_bid", TypeMapping(Some("invitation_to_bid_default"),
      ["contract_number", "wbs_element", "counties", "description", "date_available",
       "completion_date", "mbe_goal", "wbe_goal", "combined_goal", "bid_opening_date"], [], [])),
    ("award_letter", TypeMapping(Some("award_letter_default"),
      ["contract_number", "awarded_to", "awarded_amount", "award_date", "wbs_element",
       "counties", "description"], [], [])),
    ("bid_tabs", TypeMapping(Some("bid_tabs_default"),
      ["contract_number", "bidders", "bid_items"], [],
      [("bidders", ItemMapping(BidderFields, [])), ("bid_items", ItemMapping(BidItemFields, []))])),
    ("item_c_report", TypeMapping(Some("item_c_report_default"),
      ["contract_number", "proposal_length", "type_of_work", "location", "estimated_cost",
       "date_available", "completion_date", "bidders"], [],
      [("bidders", ItemMapping(ItemCBidderFields, []))]))
  ]

  /** `mappings.get(document_type, {})`. */
  function Lookup(ms: seq<(string, TypeMapping)>, t: string): (r: TypeMapping)
    ensures (forall i :: 0 <= i < |ms| ==> ms[i].0 != t) ==> r == EmptyMapping
    ensures ms != [] && ms[0].0 == t ==> r == ms[0].1
  {
    if ms == [] then EmptyMapping
    else if ms[0].0 == t then ms[0].1
    else Lookup(ms[1..], t)
  }

  /** `_load_mappings`: the file's mappings when it exists and holds a JSON object, else the defaults. */
  function LoadMappings(outcome: LoadOutcome): (r: seq<(string, TypeMapping)>)
    ensures outcome.Loaded? ==> r == outcome.mappings
    ensures !outcome.Loaded? ==> r == DefaultMappings
  {
    match outcome
    case Loaded(ms) => ms
    case _ => DefaultMappings
  }

  /** The resolver: the mapping file's path and the mappings loaded from it once. */
  class MappingResolver {
    const mappingPath: string
    const mappings: seq<(string, TypeMapping)>

    constructor (mappingPath: string, outcome: LoadOutcome)
      ensures this.mappingPath == mappingPath
      ensures mappings == LoadMappings(outcome)
    {
      this.mappingPath := mappingPath;
      this.mappings := LoadMappings(outcome);
    }

    /**
     * `resolve`: a copy of the type's mapping (empty for an unknown type) with mapping_source,
     * mapping_file, document_type and file_name added. `fileExists` is the file system's answer
     * to `mapping_path.exists()` at the time of the call.
     */
    function Resolve(documentType: string, fileName: string, fileExists: bool): (r: MappingArg)
      ensures r.Given? && r.m == Lookup(mappings, documentType)
      ensures r.source == Some(if fileExists then "external" else "default")
      ensures r.file == Some(mappingPath) && r.documentType == Some(documentType)
    {
      Given(Lookup(mappings, documentType), Some(if fileExists then "external" else "default"),
        Some(mappingPath), Some(documentType))
    }
  }

  // ----- the specification of the three loops, one entry at a time -----

  /** The first loop: each listed field present in the data, copied in field order. */
  function FieldsPass(d: Fields, fs: seq<string>): Fields
    decreases |fs|
  {
    if fs == [] then []
    else
      var m := FieldsPass(d, fs[..|fs| - 1]);
      var f := fs[|fs| - 1];
      match Get(d, f)
      case Some(v) => Put(m, f, v)
      case None => m
  }

  /** The alias loop: an alias fills its target when the target is listed and still unmapped. */
  function AliasPass(d: Fields, fs: seq<string>, als: seq<(string, string)>, m: Fields): Fields
    decreases |als|
  {
    if als == [] then m
    else
      var m' := AliasPass(d, fs, als[..|als| - 1], m);
      var (alias, target) := als[|als| - 1];
      match Get(d, alias)
      case Some(v) => if target in fs && !HasKey(m', target) then Put(m', target, v) else m'
      case None => m'
  }

  /** `_apply_item_mapping`. */
  function ItemMap(item: Fields, im: ItemMapping): Fields {
    AliasPass(item, im.fields, im.aliases, FieldsPass(item, im.fields))
  }

  /** The dict elements of a list, in order, each reduced by the item schema. */
  function MapItems(items: seq<Value>, im: ItemMapping): (r: seq<Value>)
    ensures |r| <= |items|
    ensures forall k :: 0 <= k < |r| ==> r[k].Obj?
    ensures (forall k :: 0 <= k < |items| ==> items[k].Obj?) ==>
      |r| == |items| && forall k :: 0 <= k < |r| ==> r[k] == Obj(ItemMap(items[k].fields, im))
    decreases |items|
  {
    if items == [] then []
    else
      var prefix := MapItems(items[..|items| - 1], im);
      var last := items[|items| - 1];
      if last.Obj? then prefix + [Obj(ItemMap(last.fields, im))] else prefix
  }

  /** `data.get(list_name, [])`. */
  function ListValue(d: Fields, name: string): Value {
    Get(d, name).GetOr(List([]))
  }

  /** The list loop: each list field whose value is a list gets the mapped list. */
  function ListPass(d: Fields, lfs: seq<(string, ItemMapping)>, m: Fields): Fields
    decreases |lfs|
  {
    if lfs == [] then m
    else
      var m' := ListPass(d, lfs[..|lfs| - 1], m);
      var (name, im) := lfs[|lfs| - 1];
      match ListValue(d, name)
      case List(items) => Put(m', name, List(MapItems(items, im)))
      case _ => m'
  }

  /** The mapped dict of `apply_mapping`. */
  function MapFields(d: Fields, tm: TypeMapping): Fields {
    ListPass(d, tm.listFields, AliasPass(d, tm.fields, tm.aliases, FieldsPass(d, tm.fields)))
  }

  function OptStr(o: Option<string>): Value {
    match o
    case Some(s) => Str(s)
    case None => Null
  }

  function StrValues(ss: seq<string>): (r: seq<Value>)
    ensures |r| == |ss| && forall i :: 0 <= i < |ss| ==> r[i] == Str(ss[i])
  {
    seq(|ss|, i requires 0 <= i < |ss| => Str(ss[i]))
  }

  /** The metadata of an applied mapping. */
  function Metadata(m: TypeMapping, source: Option<string>, file: Option<string>, documentType: Option<string>): Fields {
    [("applied", Bool(true)), ("mapping_name", OptStr(m.name)), ("mapping_source", OptStr(source)),
     ("mapping_file", OptStr(file)), ("document_type", OptStr(documentType)),
     ("expected_fields", List(StrValues(m.fields)))]
  }

  /** `apply_mapping`: the mapped data and the metadata. */
  function ApplyMappingSpec(data: Value, mapping: MappingArg): (r: (Value, Fields))
    ensures mapping.Falsy? || !data.Obj? ==> r.0 == data && r.1 == [("applied", Bool(false))]
    ensures mapping.Given? && data.Obj? ==>
      r.0.Obj? && GetOrNull(r.1, "applied") == Bool(true)
      && GetOrNull(r.1, "expected_fields") == List(StrValues(mapping.m.fields))
  {
    match mapping
    case Falsy => (data, [("applied", Bool(false))])
    case Given(m, source, file, documentType) =>
      if data.Obj? then
        var meta := Metadata(m, source, file, documentType);
        GetAt(meta, 5);
        (Obj(MapFields(data.fields, m)), meta)
      else (data, [("applied", Bool(false))])
  }

  // ----- the imperative operations -----

  /** The loop copying each listed field the dict has. */
  method CopyFields(d: Fields, fs: seq<string>) returns (mapped: Fields)
    ensures mapped == FieldsPass(d, fs)
  {
    mapped := [];
    var i := 0;
    while i < |fs|
      invariant 0 <= i <= |fs|
      invariant mapped == FieldsPass(d, fs[..i])
    {
      var f := fs[i];
      assert fs[..i + 1][..i] == fs[..i];
      if Get(d, f).Some? {
        mapped := Put(mapped, f, Get(d, f).value);
      }
      i := i + 1;
    }
    assert fs[..i] == fs;
  }

  /** The loop filling each still-missing listed target from the first alias the dict has. */
  method CopyAliases(d: Fields, fs: seq<string>, als: seq<(string, string)>, start: Fields) returns (mapped: Fields)
    ensures mapped == AliasPass(d, fs, als, start)
  {
    mapped := start;
    var j := 0;
    while j < |als|
      invariant 0 <= j <= |als|
      invariant mapped == AliasPass(d, fs, als[..j], start)
    {
      var (alias, target) := als[j];
      assert als[..j + 1][..j] == als[..j];
      if Get(d, alias).Some? && target in fs && !HasKey(mapped, target) {
        mapped := Put(mapped, target, Get(d, alias).value);
      }
      j := j + 1;
    }
    assert als[..j] == als;
  }

  /** `_apply_item_mapping`: the fields loop and the alias loop over one dict element. */
  method ApplyItemMapping(item: Fields, im: ItemMapping) returns (mapped: Fields)
    ensures mapped == ItemMap(item, im)
  {
    mapped := CopyFields(item, im.fields);
    mapped := CopyAliases(item, im.fields, im.aliases, mapped);
  }

  /** One more element adds its reduction when it is a dict. */
  lemma MapItemsStep(items: seq<Value>, k: nat, im: ItemMapping)
    requires k < |items|
    ensures MapItems(items[..k + 1], im)
         == MapItems(items[..k], im) + (if items[k].Obj? then [Obj(ItemMap(items[k].fields, im))] else [])
  {
    assert items[..k + 1][..k] == items[..k];
  }

  /** The loop reducing each dict element of a list by the item schema, dropping the rest. */
  method MapItemList(items: seq<Value>, im: ItemMapping) returns (mappedItems: seq<Value>)
    ensures mappedItems == MapItems(items, im)
  {
    mappedItems := [];
    var k := 0;
    while k < |items|
      invariant 0 <= k <= |items|
      invariant mappedItems == MapItems(items[..k], im)
    {
      var item := items[k];
      MapItemsStep(items, k, im);
      if item.Obj? {
        var reduced := ApplyItemMapping(item.fields, im);
        mappedItems := mappedItems + [Obj(reduced)];
      }
      k := k + 1;
    }
    assert items[..k] == items;
  }

  /** The loop over the list fields: each one the dict holds as a list is put, reduced, into the result. */
  method CopyLists(d: Fields, lfs: seq<(string, ItemMapping)>, start: Fields) returns (mapped: Fields)
    ensures mapped == ListPass(d, lfs, start)
  {
    mapped := start;
    var l := 0;
    while l < |lfs|
      invariant 0 <= l <= |lfs|
      invariant mapped == ListPass(d, lfs[..l], start)
    {
      var (name, im) := lfs[l];
      assert lfs[..l + 1][..l] == lfs[..l];
      var items := ListValue(d, name);
      if items.List? {
        var mappedItems := MapItemList(items.items, im);
        mapped := Put(mapped, name, List(mappedItems));
      }
      l := l + 1;
    }
    assert lfs[..l] == lfs;
  }

  /** `apply_mapping`: three loops building the mapped dict, then the metadata. */
  method ApplyMapping(data: Value, mapping: MappingArg) returns (result: Value, metadata: Fields)
    ensures (result, metadata) == ApplyMappingSpec(data, mapping)
  {
    if mapping.Falsy? || !data.Obj? {
      return data, [("applied", Bool(false))];
    }
    var tm := mapping.m;
    var d := data.fields;
    var mapped := CopyFields(d, tm.fields);
    mapped := CopyAliases(d, tm.fields, tm.aliases, mapped);
    mapped := CopyLists(d, tm.listFields, mapped);
    result := Obj(mapped);
    metadata := Metadata(tm, mapping.source, mapping.file, mapping.documentType);
  }

  // ----- properties of the mapping -----

  /** The first loop copies exactly the listed fields present in the data, verbatim. */
  lemma {:induction false} FieldsPassGet(d: Fields, fs: seq<string>, k: string)
    ensures Get(FieldsPass(d, fs), k) == if k in fs then Get(d, k) else None
    decreases |fs|
  {
    if fs != [] {
      var prefix := fs[..|fs| - 1];
      var f := fs[|fs| - 1];
      assert fs == prefix + [f];
      FieldsPassGet(d, prefix, k);
      if Get(d, f).Some? {
        PutGet(FieldsPass(d, prefix), f, Get(d, f).value, k);
      }
    }
  }

  /** The alias loop never changes a key that is already mapped. */
  lemma {:induction false} AliasPassKeeps(d: Fields, fs: seq<string>, als: seq<(string, string)>, m: Fields, k: string)
    requires HasKey(m, k)
    ensures Get(AliasPass(d, fs, als, m), k) == Get(m, k)
    decreases |als|
  {
    if als != [] {
      var m' := AliasPass(d, fs, als[..|als| - 1], m);
      AliasPassKeeps(d, fs, als[..|als| - 1], m, k);
      var (alias, target) := als[|als| - 1];
      if Get(d, alias).Some? && target in fs && !HasKey(m', target) {
        PutGet(m', target, Get(d, alias).value, k);
      }
    }
  }

  /** The value the alias table supplies for `target`: that of the first alias present in the data. */
  function FirstAlias(d: Fields, als: seq<(string, string)>, target: string): (r: Option<Value>)
    ensures r.Some? ==> exists i :: 0 <= i < |als| && als[i].1 == target && Get(d, als[i].0) == r
    ensures r.None? ==> forall i :: 0 <= i < |als| && als[i].1 == target ==> !HasKey(d, als[i].0)
  {
    if als == [] then None
    else if als[0].1 == target && HasKey(d, als[0].0) then Get(d, als[0].0)
    else
      var rest := FirstAlias(d, als[1..], target);
      assert rest.Some? ==> exists i :: 0 <= i < |als| && als[i].1 == target && Get(d, als[i].0) == rest by {
        if rest.Some? {
          var i :| 0 <= i < |als| - 1 && als[1..][i].1 == target && Get(d, als[1..][i].0) == rest;
          assert als[i + 1] == als[1..][i];
        }
      }
      assert rest.None? ==> forall i :: 0 <= i < |als| && als[i].1 == target ==> !HasKey(d, als[i].0) by {
        if rest.None? {
          forall i | 0 <= i < |als| && als[i].1 == target ensures !HasKey(d, als[i].0) {
            if i > 0 {
              assert als[1..][i - 1] == als[i];
            }
          }
        }
      }
      rest
  }

  /** Appending an alias only matters when no earlier alias supplied the target. */
  lemma {:induction false} FirstAliasSnoc(d: Fields, als: seq<(string, string)>, x: (string, string), target: string)
    ensures FirstAlias(d, als + [x], target) ==
      if FirstAlias(d, als, target).Some? then FirstAlias(d, als, target)
      else if x.1 == target && HasKey(d, x.0) then Get(d, x.0)
      else None
    decreases |als|
  {
    if als != [] {
      assert (als + [x])[1..] == als[1..] + [x];
      FirstAliasSnoc(d, als[1..], x, target);
    }
  }

  /**
   * Explicit fields win over aliases, and the first alias present wins among several: an
   * unmapped listed target takes the value of the first alias for it that the data holds.
   */
  lemma {:induction false} AliasPassGet(d: Fields, fs: seq<string>, als: seq<(string, string)>, m: Fields, t: string)
    ensures Get(AliasPass(d, fs, als, m), t) ==
      if HasKey(m, t) then Get(m, t) else if t in fs then FirstAlias(d, als, t) else None
    decreases |als|
  {
    if HasKey(m, t) {
      AliasPassKeeps(d, fs, als, m, t);
    } else if als != [] {
      var prefix := als[..|als| - 1];
      var x := als[|als| - 1];
      assert als == prefix + [x];
      var m' := AliasPass(d, fs, prefix, m);
      AliasPassGet(d, fs, prefix, m, t);
      FirstAliasSnoc(d, prefix, x, t);
      if Get(d, x.0).Some? && x.1 in fs && !HasKey(m', x.1) {
        PutGet(m', x.1, Get(d, x.0).value, t);
      }
    }
  }

  predicate ListNamesDistinct(lfs: seq<(string, ItemMapping)>) {
    forall i, j :: 0 <= i < j < |lfs| ==> lfs[i].0 != lfs[j].0
  }

  /** The list loop leaves every key that is not a list field as it was. */
  lemma {:induction false} ListPassOther(d: Fields, lfs: seq<(string, ItemMapping)>, m: Fields, k: string)
    requires forall i :: 0 <= i < |lfs| ==> lfs[i].0 != k
    ensures Get(ListPass(d, lfs, m), k) == Get(m, k)
    decreases |lfs|
  {
    if lfs != [] {
      var m' := ListPass(d, lfs[..|lfs| - 1], m);
      ListPassOther(d, lfs[..|lfs| - 1], m, k);
      var (name, im) := lfs[|lfs| - 1];
      if ListValue(d, name).List? {
        PutGet(m', name, List(MapItems(ListValue(d, name).items, im)), k);
      }
    }
  }

  /**
   * A list field whose value is a list (or which is absent, defaulting to `[]`) gets the mapped
   * list; one whose value is not a list keeps whatever the earlier loops mapped.
   */
  lemma {:induction false} ListPassGet(d: Fields, lfs: seq<(string, ItemMapping)>, m: Fields, i: nat)
    requires i < |lfs| && ListNamesDistinct(lfs)
    ensures Get(ListPass(d, lfs, m), lfs[i].0) ==
      match ListValue(d, lfs[i].0)
      case List(items) => Some(List(MapItems(items, lfs[i].1)))
      case _ => Get(m, lfs[i].0)
    decreases |lfs|
  {
    var prefix := lfs[..|lfs| - 1];
    var (name, im) := lfs[|lfs| - 1];
    var m' := ListPass(d, prefix, m);
    if i == |lfs| - 1 {
      ListPassOther(d, prefix, m, name);
      if ListValue(d, name).List? {
        PutGet(m', name, List(MapItems(ListValue(d, name).items, im)), name);
      }
    } else {
      assert prefix[i] == lfs[i];
      ListPassGet(d, prefix, m, i);
      if ListValue(d, name).List? {
        PutGet(m', name, List(MapItems(ListValue(d, name).items, im)), lfs[i].0);
      }
    }
  }

  function ListNames(lfs: seq<(string, ItemMapping)>): (r: seq<string>)
    ensures |r| == |lfs| && forall i :: 0 <= i < |lfs| ==> r[i] == lfs[i].0
  {
    seq(|lfs|, i requires 0 <= i < |lfs| => lfs[i].0)
  }

  /** A plain listed field (not a list field) present in the data is copied verbatim. */
  lemma ExplicitFieldCopied(d: Fields, tm: TypeMapping, k: string)
    requires k in tm.fields && HasKey(d, k) && k !in ListNames(tm.listFields)
    ensures Get(MapFields(d, tm), k) == Get(d, k)
  {
    var m0 := FieldsPass(d, tm.fields);
    FieldsPassGet(d, tm.fields, k);
    AliasPassGet(d, tm.fields, tm.aliases, m0, k);
    ListPassOther(d, tm.listFields, AliasPass(d, tm.fields, tm.aliases, m0), k);
  }

  /** A plain listed field missing from the data takes the value of its first alias present, if any. */
  lemma AliasFillsMissingField(d: Fields, tm: TypeMapping, k: string)
    requires k in tm.fields && !HasKey(d, k) && k !in ListNames(tm.listFields)
    ensures Get(MapFields(d, tm), k) == FirstAlias(d, tm.aliases, k)
  {
    var m0 := FieldsPass(d, tm.fields);
    FieldsPassGet(d, tm.fields, k);
    AliasPassGet(d, tm.fields, tm.aliases, m0, k);
    ListPassOther(d, tm.listFields, AliasPass(d, tm.fields, tm.aliases, m0), k);
  }

  /** Keys that are neither listed fields nor list fields are dropped. */
  lemma UnlistedKeyDropped(d: Fields, tm: TypeMapping, k: string)
    requires k !in tm.fields && k !in ListNames(tm.listFields)
    ensures !HasKey(MapFields(d, tm), k)
  {
    var m0 := FieldsPass(d, tm.fields);
    FieldsPassGet(d, tm.fields, k);
    AliasPassGet(d, tm.fields, tm.aliases, m0, k);
    ListPassOther(d, tm.listFields, AliasPass(d, tm.fields, tm.aliases, m0), k);
  }

  /** Every list field appears in the output, as `[]` when the data lacks it. */
  lemma ListFieldPresent(d: Fields, tm: TypeMapping, i: nat)
    requires i < |tm.listFields| && ListNamesDistinct(tm.listFields)
    requires ListValue(d, tm.listFields[i].0).List?
    ensures Get(MapFields(d, tm), tm.listFields[i].0)
      == Some(List(MapItems(ListValue(d, tm.listFields[i].0).items, tm.listFields[i].1)))
    ensures !HasKey(d, tm.listFields[i].0) ==> Get(MapFields(d, tm), tm.listFields[i].0) == Some(List([]))
  {
    ListPassGet(d, tm.listFields, AliasPass(d, tm.fields, tm.aliases, FieldsPass(d, tm.fields)), i);
  }

  /** A mapping with no fields and no list fields maps every dict to `{}`. */
  lemma EmptySchemaGivesEmptyDict(d: Fields, tm: TypeMapping)
    requires tm.fields == [] && tm.listFields == []
    ensures MapFields(d, tm) == []
  {
    if MapFields(d, tm) != [] {
      var k := MapFields(d, tm)[0].0;
      assert Keys(MapFields(d, tm))[0] == k;
      UnlistedKeyDropped(d, tm, k);
      assert false;
    }
  }

  /** The default mappings have no schema for `bid_summary` or `bids_as_read`. */
  lemma NoDefaultSchema(t: string)
    requires t !in {"invitation_to_bid", "award_letter", "bid_tabs", "item_c_report"}
    ensures Lookup(DefaultMappings, t) == EmptyMapping
  {
  }

  /**
   * End to end: with the default mappings, a `bid_summary` or `bids_as_read` document's dict is
   * mapped to `{}` although `resolve` returns a non-empty mapping, and the metadata says applied.
   */
  lemma UnmappedTypesBecomeEmpty(r: MappingResolver, t: string, fileName: string, fileExists: bool, d: Fields)
    requires r.mappings == DefaultMappings && t in {"bid_summary", "bids_as_read"}
    ensures ApplyMappingSpec(Obj(d), r.Resolve(t, fileName, fileExists)).0 == Obj([])
    ensures GetOrNull(ApplyMappingSpec(Obj(d), r.Resolve(t, fileName, fileExists)).1, "applied") == Bool(true)
  {
    NoDefaultSchema(t);
    EmptySchemaGivesEmptyDict(d, EmptyMapping);
  }
}
