/** The dynamic form-item schema (`src/components/Dynamic/schema.ts`): the
    default descriptor, filling a partial descriptor with defaults, building
    child options from an option map, migrating legacy (v1) descriptors, and
    the read-only display of a value. */
module DynamicSchema {
  import opened Wrappers
  import opened Js
  import opened JsText

  /** The nested defaults: an empty label and hint without rules, an
      empty clearable input, and a responsive column width. */
  const DefaultAttrsFormItem: Value := Obj([("label", Str("")), ("labelHint", Str("")), ("rules", List([]))])
  const DefaultAttrs: Value := Obj([("placeholder", Str("")), ("clearable", Bool(true))])
  const DefaultAttrsCol: Value :=
    Obj([("xs", Num(24)), ("sm", Num(12)), ("md", Num(8)), ("lg", Num(6)), ("xl", Num(4))])

  /** `DEFAULT_FORM_ITEM`, in its declaration order. */
  const DefaultFormItem: Props := [
    ("prop", Str("")),
    ("value", Undef),
    ("defaultValue", Undef),
    ("visible", Bool(true)),
    ("readOnlyFormatter", Null),
    ("readOnlyComponent", Null),
    ("useFormItem", Bool(true)),
    ("remark", Str("")),
    ("component", Null),
    ("content", Str("")),
    ("attrsFormItem", DefaultAttrsFormItem),
    ("attrs", DefaultAttrs),
    ("listeners", Obj([])),
    ("attrsCol", DefaultAttrsCol),
    ("unit", Str("")),
    ("permission", Null),
    ("slotMap", JsMap([])),
    ("childComponent", Null),
    ("childMap", JsMap([])),
    ("childSlotMap", JsMap([]))
  ]

  /** `INIT_ITEM(config)`: the defaults overridden by `config`. */
  function InitItem(config: Props): Props {
    Spread(DefaultFormItem, config)
  }

  /** `INIT_ITEM` keeps every default key, in the default order, and adds
      after them the keys only `config` has. */
  lemma InitItemKeys(config: Props)
    ensures |DefaultFormItem| <= |InitItem(config)|
    ensures Keys(InitItem(config))[..|DefaultFormItem|] == Keys(DefaultFormItem)
    ensures forall k :: k in Keys(InitItem(config)) <==> k in Keys(DefaultFormItem) || k in Keys(config)
  {
    SpreadShape(DefaultFormItem, config);
  }

  /** Each key `config` gives takes `config`'s value as a whole (a shallow
      merge); every other key keeps its default. */
  lemma InitItemValues(config: Props)
    ensures forall k :: k !in Keys(config) ==> Get(InitItem(config), k) == Get(DefaultFormItem, k)
    ensures UniqueKeys(config) ==> forall k :: k in Keys(config) ==> Get(InitItem(config), k) == Get(config, k)
  {
    SpreadLaws(DefaultFormItem, config);
  }

  /** The four keys the migration rewrites after the defaults are filled in. */
  predicate Rewritten(k: string) {
    k == "component" || k == "childComponent" || k == "childMap" || k == "childSlotMap"
  }

  /** The default item is shown. */
  lemma DefaultFormItemShown()
    ensures Get(DefaultFormItem, "visible") == Some(Bool(true))
  {
    GetFirst(DefaultFormItem, 3);
  }

  /** The four keys the migration rewrites are default keys. */
  lemma DefaultFormItemHasRewrittenKeys()
    ensures forall k :: Rewritten(k) ==> k in Keys(DefaultFormItem)
  {
    KeysAt(DefaultFormItem, 8);
    KeysAt(DefaultFormItem, 17);
    KeysAt(DefaultFormItem, 18);
    KeysAt(DefaultFormItem, 19);
  }

  /** An item whose configuration does not mention `visible` is shown. */
  lemma InitItemShownByDefault(config: Props)
    requires "visible" !in Keys(config)
    ensures Field(InitItem(config), "visible") == Bool(true)
  {
    SpreadKeeps(DefaultFormItem, config, "visible");
    DefaultFormItemShown();
  }

  /** An `attrs` override replaces the default attributes outright: the
      default placeholder and `clearable` do not survive next to it. */
  lemma InitItemIsShallow(config: Props, attrs: Props)
    requires UniqueKeys(config) && Get(config, "attrs") == Some(Obj(attrs))
    ensures Field(InitItem(config), "attrs") == Obj(attrs)
  {
    assert "attrs" in Keys(config);
    SpreadOverrides(DefaultFormItem, config, "attrs");
  }

  // ---------------------------------------------------------------------
  // quictGenerateChild
  // ---------------------------------------------------------------------

  /** The child components the generator knows; any other value is `Other`. */
  datatype ChildKind = ElOption | ElRadio | ElCheckbox | Other

  function KindOf(childComponent: Value): ChildKind {
    if childComponent == Str("el-option") then ElOption
    else if childComponent == Str("el-radio") then ElRadio
    else if childComponent == Str("el-checkbox") then ElCheckbox
    else Other
  }

  /** The index keys `"0"`, `"1"`, ... that JavaScript gives the elements
      of an array or the characters of a string. */
  function Indexed(vs: seq<Value>): seq<(string, Value)> {
    seq(|vs|, i requires 0 <= i < |vs| => (NatToString(i), vs[i]))
  }

  function Chars(s: string): seq<Value> {
    seq(|s|, i requires 0 <= i < |s| => Str([s[i]]))
  }

  /** The own enumerable properties of a value, as `{ ...v }` copies them. */
  function OwnProps(v: Value): Props {
    match v
    case Obj(props) => props
    case List(items) => Indexed(items)
    case Str(s) => Indexed(Chars(s))
    case _ => []
  }

  /** The option entries: those of a `Map`, else `Object.entries(v)`, which
      throws a `TypeError` on `undefined` and `null`. */
  function OptionEntries(optionMap: Value): Result<seq<(Value, Value)>, string> {
    match optionMap
    case JsMap(es) => Ok(es)
    case Undef => Err("TypeError")
    case Null => Err("TypeError")
    case _ =>
      var props := OwnProps(optionMap);
      Ok(seq(|props|, i requires 0 <= i < |props| => (Str(props[i].0), props[i].1)))
  }

  /** The properties a child sets after spreading `attrsChild`: `key`,
      `label` (the option's text) and `value` (its key), and for `el-option`
      also `disabled: false`. */
  function OwnChildProps(kind: ChildKind, key: Value, text: Value): Props {
    [("key", key), ("label", text), ("value", key)]
      + (if kind == ElOption then [("disabled", Bool(false))] else [])
  }

  /** The attributes of one child: `attrs` (the own properties of
      `attrsChild`) spread first, then the child's own properties, each
      overriding a same-named attribute. */
  function ChildDescriptor(kind: ChildKind, attrs: Props, key: Value, text: Value): Value {
    Obj(Spread(attrs, OwnChildProps(kind, key, text)))
  }

  /** The child's own property names, each once. */
  lemma OwnChildPropsKeys(kind: ChildKind, key: Value, text: Value)
    ensures Keys(OwnChildProps(kind, key, text))
              == ["key", "label", "value"] + (if kind == ElOption then ["disabled"] else [])
    ensures UniqueKeys(OwnChildProps(kind, key, text))
  {
    var own := OwnChildProps(kind, key, text);
    KeysAt(own, 0);
    KeysAt(own, 1);
    KeysAt(own, 2);
    if kind == ElOption {
      KeysAt(own, 3);
    }
  }

  /** The child map the generator's loop builds over `entries`: for a known
      kind each entry is set under its key, for any other kind nothing is. */
  function ChildMapOf(kind: ChildKind, attrs: Props, entries: seq<(Value, Value)>): seq<(Value, Value)>
    decreases |entries|
  {
    if kind == Other || entries == [] then []
    else
      var last := entries[|entries| - 1];
      Put(ChildMapOf(kind, attrs, entries[..|entries| - 1]), last.0,
          ChildDescriptor(kind, attrs, last.0, last.1))
  }

  /** The child slot map: radio and checkbox children always render their
      label; an option does only through a given `optionFormatter`. */
  function SlotMapOf(kind: ChildKind, optionFormatter: Value): (r: seq<(Value, Value)>)
    ensures (kind == ElRadio || kind == ElCheckbox) ==> r == [(Str("default"), Fn(ScopeLabel))]
    ensures kind == ElOption && Truthy(optionFormatter) ==>
              r == [(Str("default"), Fn(CallOptionFormatter(optionFormatter)))]
    ensures (kind == Other || (kind == ElOption && !Truthy(optionFormatter))) ==> r == []
  {
    match kind
    case ElOption => if Truthy(optionFormatter) then [(Str("default"), Fn(CallOptionFormatter(optionFormatter)))] else []
    case ElRadio => [(Str("default"), Fn(ScopeLabel))]
    case ElCheckbox => [(Str("default"), Fn(ScopeLabel))]
    case Other => []
  }

  /** Over entries without repeated keys (those of any `Map` or object),
      a known kind gets exactly one child per entry, in the entries' order,
      under the entry's key. */
  lemma {:induction false} ChildMapOfUnique(kind: ChildKind, attrs: Props, entries: seq<(Value, Value)>)
    requires kind != Other && UniqueKeys(entries)
    ensures |ChildMapOf(kind, attrs, entries)| == |entries|
    ensures forall i :: 0 <= i < |entries| ==>
              ChildMapOf(kind, attrs, entries)[i]
                == (entries[i].0, ChildDescriptor(kind, attrs, entries[i].0, entries[i].1))
    ensures Keys(ChildMapOf(kind, attrs, entries)) == Keys(entries)
    decreases |entries|
  {
    if entries != [] {
      var n := |entries| - 1;
      var init := entries[..n];
      assert UniqueKeys(init);
      ChildMapOfUnique(kind, attrs, init);
      KeyNotBefore(entries, n);
      KeysAppend(init, [entries[n]]);
      assert init + [entries[n]] == entries;
      var m := ChildMapOf(kind, attrs, init);
      var d := ChildDescriptor(kind, attrs, entries[n].0, entries[n].1);
      KeysAppend(m, [(entries[n].0, d)]);
    }
  }

  /** One more entry: a known kind sets it, any other kind leaves the map. */
  lemma ChildMapOfStep(kind: ChildKind, attrs: Props, entries: seq<(Value, Value)>, i: nat)
    requires i < |entries|
    ensures ChildMapOf(kind, attrs, entries[..i + 1])
              == if kind == Other then ChildMapOf(kind, attrs, entries[..i])
                 else Put(ChildMapOf(kind, attrs, entries[..i]), entries[i].0,
                          ChildDescriptor(kind, attrs, entries[i].0, entries[i].1))
  {
    assert entries[..i + 1][..i] == entries[..i];
  }

  /** What `quictGenerateChild` returns. */
  datatype ChildMaps = ChildMaps(childMap: seq<(Value, Value)>, childSlotMap: seq<(Value, Value)>)

  /** `quictGenerateChild({childComponent, optionMap, attrsChild,
      optionFormatter})`: fills the two maps entry by entry; `Err` is the
      `TypeError` of an `optionMap` that is `undefined` or `null`. */
  method GenerateChild(childComponent: Value, optionMap: Value, attrsChild: Value, optionFormatter: Value)
    returns (r: Result<ChildMaps, string>)
    ensures r.Err? <==> OptionEntries(optionMap).Err?
    ensures r.Ok? ==> r.value.childMap == ChildMapOf(KindOf(childComponent), OwnProps(attrsChild),
                                                     OptionEntries(optionMap).value)
    ensures r.Ok? ==> r.value.childSlotMap == SlotMapOf(KindOf(childComponent), optionFormatter)
  {
    var kind := KindOf(childComponent);
    var attrs := OwnProps(attrsChild);
    var childMap: seq<(Value, Value)> := [];
    var found := OptionEntries(optionMap);
    if found.Err? {
      return Err(found.error);
    }
    var entries := found.value;
    var i := 0;
    while i < |entries|
      invariant 0 <= i <= |entries|
      invariant childMap == ChildMapOf(kind, attrs, entries[..i])
    {
      var key, text := entries[i].0, entries[i].1;
      if kind != Other {
        childMap := Put(childMap, key, ChildDescriptor(kind, attrs, key, text));
      }
      ChildMapOfStep(kind, attrs, entries, i);
      i := i + 1;
    }
    assert entries[..i] == entries;
    // The closing switch sets at most the `default` slot.
    var childSlotMap := SlotMapOf(kind, optionFormatter);
    r := Ok(ChildMaps(childMap, childSlotMap));
  }

  // ---------------------------------------------------------------------
  // convertV1ToV2
  // ---------------------------------------------------------------------

  /** The four assignments of the migration, in the source's order. */
  function Migrate(item: Props, main: Value, child: Value, maps: ChildMaps): Props {
    var item1 := Put(item, "component", main);
    var item2 := Put(item1, "childComponent", child);
    var item3 := Put(item2, "childMap", JsMap(maps.childMap));
    Put(item3, "childSlotMap", JsMap(maps.childSlotMap))
  }

  /** On an item that already has the four keys, the migration keeps the
      key order, sets the four keys and leaves every other key alone. */
  lemma MigrateLaws(item: Props, main: Value, child: Value, maps: ChildMaps)
    requires forall k :: Rewritten(k) ==> k in Keys(item)
    ensures Keys(Migrate(item, main, child, maps)) == Keys(item)
    ensures forall k :: !Rewritten(k) ==> Get(Migrate(item, main, child, maps), k) == Get(item, k)
    ensures Get(Migrate(item, main, child, maps), "component") == Some(main)
    ensures Get(Migrate(item, main, child, maps), "childComponent") == Some(child)
    ensures Get(Migrate(item, main, child, maps), "childMap") == Some(JsMap(maps.childMap))
    ensures Get(Migrate(item, main, child, maps), "childSlotMap") == Some(JsMap(maps.childSlotMap))
  {
    var item1 := Put(item, "component", main);
    var item2 := Put(item1, "childComponent", child);
    var item3 := Put(item2, "childMap", JsMap(maps.childMap));
    var item4 := Put(item3, "childSlotMap", JsMap(maps.childSlotMap));
    PutKeys(item, "component", main);
    PutKeys(item1, "childComponent", child);
    PutKeys(item2, "childMap", JsMap(maps.childMap));
    PutKeys(item3, "childSlotMap", JsMap(maps.childSlotMap));
    forall k | !Rewritten(k) ensures Get(item4, k) == Get(item, k) {
      PutOther(item, "component", main, k);
      PutOther(item1, "childComponent", child, k);
      PutOther(item2, "childMap", JsMap(maps.childMap), k);
      PutOther(item3, "childSlotMap", JsMap(maps.childSlotMap), k);
    }
    PutOther(item1, "childComponent", child, "component");
    PutOther(item2, "childMap", JsMap(maps.childMap), "component");
    PutOther(item3, "childSlotMap", JsMap(maps.childSlotMap), "component");
    PutOther(item2, "childMap", JsMap(maps.childMap), "childComponent");
    PutOther(item3, "childSlotMap", JsMap(maps.childSlotMap), "childComponent");
    PutOther(item3, "childSlotMap", JsMap(maps.childSlotMap), "childMap");
  }

  /** Every filled-in legacy item has the four keys the migration sets. */
  lemma InitItemHasRewrittenKeys(v1: Props)
    ensures forall k :: Rewritten(k) ==> k in Keys(InitItem(v1))
  {
    InitItemKeys(v1);
    DefaultFormItemHasRewrittenKeys();
  }

  /** `convertV1ToV2(v1)`: the defaults filled in under every legacy key
      (the legacy keys stay), `component` and `childComponent` taken from
      `componentNameMain` and `componentNameChild`, and the two child maps
      generated from the legacy option fields. */
  method ConvertV1ToV2(v1: Props) returns (r: Result<Props, string>)
    ensures r.Err? <==> OptionEntries(Field(v1, "optionMap")).Err?
    ensures r.Ok? ==> Keys(r.value) == Keys(InitItem(v1))
    ensures r.Ok? ==> forall k :: !Rewritten(k) ==> Get(r.value, k) == Get(InitItem(v1), k)
    ensures r.Ok? ==> Field(r.value, "component") == Field(v1, "componentNameMain")
    ensures r.Ok? ==> Field(r.value, "childComponent") == Field(v1, "componentNameChild")
    ensures r.Ok? ==> Field(r.value, "childMap")
                        == JsMap(ChildMapOf(KindOf(Field(v1, "componentNameChild")), OwnProps(Field(v1, "attrsChild")),
                                            OptionEntries(Field(v1, "optionMap")).value))
    ensures r.Ok? ==> Field(r.value, "childSlotMap")
                        == JsMap(SlotMapOf(KindOf(Field(v1, "componentNameChild")), Field(v1, "optionFormatter")))
  {
    var base := InitItem(v1);
    var main := Field(v1, "componentNameMain");
    var child := Field(v1, "componentNameChild");
    var item := Put(base, "component", main);
    item := Put(item, "childComponent", child);
    var generated := GenerateChild(child, Field(v1, "optionMap"), Field(v1, "attrsChild"), Field(v1, "optionFormatter"));
    if generated.Err? {
      return Err(generated.error);
    }
    item := Put(item, "childMap", JsMap(generated.value.childMap));
    item := Put(item, "childSlotMap", JsMap(generated.value.childSlotMap));
    InitItemHasRewrittenKeys(v1);
    MigrateLaws(base, main, child, generated.value);
    assert item == Migrate(base, main, child, generated.value);
    r := Ok(item);
  }

  // ---------------------------------------------------------------------
  // readOnlyFormatter
  // ---------------------------------------------------------------------

  /** `childMap.get(v)?.label`: the `label` of an object entry, else `undefined`. */
  function LabelOf(entry: Option<Value>): Value {
    if entry.Some? && entry.value.Obj? then Field(entry.value.props, "label") else Undef
  }

  /** `childMap.get(v)?.label || v`. */
  function LabelOr(entries: seq<(Value, Value)>, v: Value): Value {
    var shown := LabelOf(Get(entries, v));
    if Truthy(shown) then shown else v
  }

  /** The value to display: with a non-empty child `Map`, the labels of the
      value's elements (a single value counts as one) joined with "、";
      otherwise the value itself. */
  function DisplayValue(item: Props): Value {
    var value := Field(item, "value");
    var childMap := Field(item, "childMap");
    if childMap.JsMap? && |childMap.entries| > 0 then
      var vs := if value.List? then value.items else [value];
      Str(JoinValues(seq(|vs|, i requires 0 <= i < |vs| => LabelOr(childMap.entries, vs[i])), "、"))
    else value
  }

  /** `readOnlyFormatter(item)`: the literal "null" shows as "-", the number
      0 as "0", any other falsy value as "", and a truthy value as itself. */
  function ReadOnlyFormat(item: Props): (r: Value)
    ensures r != Str("null")
    ensures Truthy(r) || r == Str("")
    ensures DisplayValue(item) == Str("null") ==> r == Str("-")
    ensures DisplayValue(item) == Num(0) ==> r == Str("0")
    ensures !Truthy(DisplayValue(item)) && DisplayValue(item) != Num(0) ==> r == Str("")
    ensures Truthy(DisplayValue(item)) && DisplayValue(item) != Str("null") ==> r == DisplayValue(item)
  {
    var value := DisplayValue(item);
    if value == Str("null") then Str("-")
    else if value == Num(0) then Str("0")
    else if Truthy(value) then value
    else Str("")
  }

  /** Without a non-empty child map: 0 shows as "0", "null" as "-", and an
      empty or missing value as "". */
  lemma ReadOnlyPlainValues(item: Props)
    requires !(Field(item, "childMap").JsMap? && |Field(item, "childMap").entries| > 0)
    ensures Field(item, "value") == Num(0) ==> ReadOnlyFormat(item) == Str("0")
    ensures Field(item, "value") == Str("null") ==> ReadOnlyFormat(item) == Str("-")
    ensures Field(item, "value") == Undef || Field(item, "value") == Str("") ==> ReadOnlyFormat(item) == Str("")
  {
  }

  /** A child descriptor carries the option's key under `key` and `value`
      and its text under `label`, and an `el-option` child is enabled, each
      over a same-named attribute in `attrs`. */
  lemma DescriptorFields(kind: ChildKind, attrs: Props, key: Value, text: Value)
    ensures ChildDescriptor(kind, attrs, key, text).Obj?
    ensures Get(ChildDescriptor(kind, attrs, key, text).props, "key") == Some(key)
    ensures Get(ChildDescriptor(kind, attrs, key, text).props, "label") == Some(text)
    ensures Get(ChildDescriptor(kind, attrs, key, text).props, "value") == Some(key)
    ensures kind == ElOption ==> Get(ChildDescriptor(kind, attrs, key, text).props, "disabled") == Some(Bool(false))
    ensures LabelOf(Some(ChildDescriptor(kind, attrs, key, text))) == text
  {
    var own := OwnChildProps(kind, key, text);
    OwnChildPropsKeys(kind, key, text);
    OwnChildOverrides(attrs, own, 0);
    OwnChildOverrides(attrs, own, 1);
    OwnChildOverrides(attrs, own, 2);
    if kind == ElOption {
      OwnChildOverrides(attrs, own, 3);
    }
  }

  /** One of the child's own properties wins over the spread attributes. */
  lemma OwnChildOverrides(attrs: Props, own: Props, i: nat)
    requires UniqueKeys(own) && i < |own|
    ensures Get(Spread(attrs, own), own[i].0) == Some(own[i].1)
  {
    KeysAt(own, i);
    GetAt(own, i);
    SpreadOverrides(attrs, own, own[i].0);
  }

  /** Every attribute in `attrs` the child does not set itself is
      kept, `disabled` included for radio and checkbox children. */
  lemma DescriptorKeepsAttrs(kind: ChildKind, attrs: Props, key: Value, text: Value, k: string)
    requires k != "key" && k != "label" && k != "value" && (kind == ElOption ==> k != "disabled")
    ensures Get(ChildDescriptor(kind, attrs, key, text).props, k) == Get(attrs, k)
  {
    OwnChildPropsKeys(kind, key, text);
    SpreadKeeps(attrs, OwnChildProps(kind, key, text), k);
  }

  /** Over unique option entries, looking up an entry's key in the
      generated child map finds that entry's child. */
  lemma ChildMapFinds(kind: ChildKind, attrs: Props, entries: seq<(Value, Value)>, i: nat)
    requires kind != Other && UniqueKeys(entries) && i < |entries|
    ensures Get(ChildMapOf(kind, attrs, entries), entries[i].0)
              == Some(ChildDescriptor(kind, attrs, entries[i].0, entries[i].1))
  {
    var cm := ChildMapOf(kind, attrs, entries);
    ChildMapOfUnique(kind, attrs, entries);
    assert UniqueKeys(cm) by {
      forall a, b | 0 <= a < b < |cm| ensures cm[a].0 != cm[b].0 {
        assert cm[a].0 == entries[a].0 && cm[b].0 == entries[b].0;
      }
    }
    GetAt(cm, i);
  }

  /** A single value shown through the child map the generator built from
      unique option entries reads as that option's text, when the text is a
      non-empty string other than "null". */
  lemma ReadOnlyShowsOptionText(item: Props, kind: ChildKind, attrs: Props,
                                entries: seq<(Value, Value)>, i: nat, text: string)
    requires kind != Other && UniqueKeys(entries) && i < |entries|
    requires Field(item, "childMap") == JsMap(ChildMapOf(kind, attrs, entries))
    requires Field(item, "value") == entries[i].0 && !entries[i].0.List?
    requires entries[i].1 == Str(text) && text != "" && text != "null"
    ensures ReadOnlyFormat(item) == Str(text)
  {
    var cm := ChildMapOf(kind, attrs, entries);
    ChildMapFinds(kind, attrs, entries, i);
    DescriptorFields(kind, attrs, entries[i].0, entries[i].1);
    assert LabelOr(cm, entries[i].0) == Str(text);
    var labels := seq(1, j requires 0 <= j < 1 => LabelOr(cm, [entries[i].0][j]));
    assert labels == [Str(text)];
    assert JoinValues(labels, "、") == text;
  }

  /** A single string value with no entry in the child map shows as itself. */
  lemma ReadOnlyUnknownValue(item: Props, s: string)
    requires Field(item, "childMap").JsMap? && |Field(item, "childMap").entries| > 0
    requires Field(item, "value") == Str(s) && Str(s) !in Keys(Field(item, "childMap").entries)
    requires s != "null"
    ensures ReadOnlyFormat(item) == Str(s)
  {
    var vs := [Str(s)];
    var labels := seq(|vs|, j requires 0 <= j < |vs| => LabelOr(Field(item, "childMap").entries, vs[j]));
    assert labels == [Str(s)];
    assert JoinValues(labels, "、") == s;
  }

  /** What one element of the value shows as: the text of the option with
      that key when the text is truthy, else the element itself. */
  function OptionShown(entries: seq<(Value, Value)>, v: Value): Value {
    match Get(entries, v)
    case Some(text) => if Truthy(text) then text else v
    case None => v
  }

  /** Looking an element up in the child map the generator built from
      unique option entries shows what the entries say it shows. */
  lemma ChildMapShows(kind: ChildKind, attrs: Props, entries: seq<(Value, Value)>, v: Value)
    requires kind != Other && UniqueKeys(entries)
    ensures LabelOr(ChildMapOf(kind, attrs, entries), v) == OptionShown(entries, v)
  {
    var cm := ChildMapOf(kind, attrs, entries);
    ChildMapOfUnique(kind, attrs, entries);
    if v in Keys(entries) {
      var i :| 0 <= i < |entries| && Keys(entries)[i] == v;
      KeysAt(entries, i);
      GetAt(entries, i);
      ChildMapFinds(kind, attrs, entries, i);
      DescriptorFields(kind, attrs, v, entries[i].1);
    } else {
      assert Get(cm, v) == None;
    }
  }

  /** A list value shown through the child map the generator built from
      unique option entries reads as its elements' option texts, in order,
      joined with "、"; an element without an option (or whose text is
      falsy) contributes its own text. */
  lemma ReadOnlyShowsOptionTexts(item: Props, kind: ChildKind, attrs: Props,
                                 entries: seq<(Value, Value)>, vs: seq<Value>)
    requires kind != Other && UniqueKeys(entries) && entries != []
    requires Field(item, "childMap") == JsMap(ChildMapOf(kind, attrs, entries))
    requires Field(item, "value") == List(vs)
    ensures DisplayValue(item)
              == Str(JoinValues(seq(|vs|, j requires 0 <= j < |vs| => OptionShown(entries, vs[j])), "、"))
  {
    var cm := ChildMapOf(kind, attrs, entries);
    ChildMapOfUnique(kind, attrs, entries);
    var labels := seq(|vs|, j requires 0 <= j < |vs| => LabelOr(cm, vs[j]));
    var shown := seq(|vs|, j requires 0 <= j < |vs| => OptionShown(entries, vs[j]));
    forall j | 0 <= j < |vs| ensures labels[j] == shown[j] {
      ChildMapShows(kind, attrs, entries, vs[j]);
    }
    assert labels == shown;
  }
}
