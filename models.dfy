/**
 * The records of autodoist/models.py: colours, the concrete resources fetched
 * from Todoist, the desired resources generated from the GTD state, their
 * collections, and the GTD input records.
 *
 * The runtime reflection of dataclasses_json (`to_dict` / `from_dict`) is
 * replaced by an explicit, declared list of fields per kind, a `Dict` value
 * (an insertion-ordered dictionary from field names to values) and the two
 * conversions `ToDict` and `FromDict`.
 */
module Models {
  import opened Wrappers

  /** The 20 members of the `Color` enumeration. */
  datatype Color =
    | BerryRed | Red | Orange | Yellow | OliveGreen | LimeGreen | Green | MintGreen
    | Teal | SkyBlue | LightBlue | Blue | Grape | Violet | Lavender | Magenta
    | Salmon | Charcoal | Grey | Taupe

  /** The value of each member: the colour code Todoist uses. */
  function ColorCode(c: Color): string {
    match c
    case BerryRed => "berry_red"
    case Red => "red"
    case Orange => "orange"
    case Yellow => "yellow"
    case OliveGreen => "olive_green"
    case LimeGreen => "lime_green"
    case Green => "green"
    case MintGreen => "mint_green"
    case Teal => "teal"
    case SkyBlue => "sky_blue"
    case LightBlue => "light_blue"
    case Blue => "blue"
    case Grape => "grape"
    case Violet => "violet"
    case Lavender => "lavender"
    case Magenta => "magenta"
    case Salmon => "salmon"
    case Charcoal => "charcoal"
    case Grey => "grey"
    case Taupe => "taupe"
  }

  /** The Python name of each member, as `str(Color.X)` prints it after `Color.`. */
  function ColorMemberName(c: Color): string {
    match c
    case BerryRed => "BERRY_RED"
    case Red => "RED"
    case Orange => "ORANGE"
    case Yellow => "YELLOW"
    case OliveGreen => "OLIVE_GREEN"
    case LimeGreen => "LIME_GREEN"
    case Green => "GREEN"
    case MintGreen => "MINT_GREEN"
    case Teal => "TEAL"
    case SkyBlue => "SKY_BLUE"
    case LightBlue => "LIGHT_BLUE"
    case Blue => "BLUE"
    case Grape => "GRAPE"
    case Violet => "VIOLET"
    case Lavender => "LAVENDER"
    case Magenta => "MAGENTA"
    case Salmon => "SALMON"
    case Charcoal => "CHARCOAL"
    case Grey => "GREY"
    case Taupe => "TAUPE"
  }

  /** The members in declaration order. */
  const AllColors: seq<Color> := [
    BerryRed, Red, Orange, Yellow, OliveGreen, LimeGreen, Green, MintGreen,
    Teal, SkyBlue, LightBlue, Blue, Grape, Violet, Lavender, Magenta,
    Salmon, Charcoal, Grey, Taupe]

  const DefaultColor: Color := Grey

  /** The position of each colour in `AllColors`. */
  function ColorIndex(c: Color): nat {
    match c
    case BerryRed => 0 case Red => 1 case Orange => 2 case Yellow => 3 case OliveGreen => 4
    case LimeGreen => 5 case Green => 6 case MintGreen => 7 case Teal => 8 case SkyBlue => 9
    case LightBlue => 10 case Blue => 11 case Grape => 12 case Violet => 13 case Lavender => 14
    case Magenta => 15 case Salmon => 16 case Charcoal => 17 case Grey => 18 case Taupe => 19
  }

  /** `Color` has exactly 20 members, listed once each in `AllColors`. */
  lemma ColorMembers()
    ensures |AllColors| == 20
    ensures forall c: Color :: c in AllColors
    ensures forall i, j :: 0 <= i < j < |AllColors| ==> AllColors[i] != AllColors[j]
  {
    ColorsDistinct();
    EveryColorListed();
  }

  lemma ColorsDistinct()
    ensures forall i, j :: 0 <= i < j < |AllColors| ==> AllColors[i] != AllColors[j]
  {
    assert forall i :: 0 <= i < |AllColors| ==> ColorIndex(AllColors[i]) == i;
  }

  lemma EveryColorListed()
    ensures forall c: Color :: c in AllColors
  {
    forall c: Color
      ensures c in AllColors
    {
      assert AllColors[ColorIndex(c)] == c;
    }
  }

  /** Distinct members have distinct codes. */
  lemma ColorCodeInjective(c1: Color, c2: Color)
    requires ColorCode(c1) == ColorCode(c2)
    ensures c1 == c2
  {
    assert ColorCode(c1)[0] == ColorCode(c2)[0];
    assert |ColorCode(c1)| == |ColorCode(c2)|;
  }

  function FindColor(code: string, candidates: seq<Color>): (r: Option<Color>)
    ensures r.Some? ==> r.value in candidates && ColorCode(r.value) == code
    ensures r.None? ==> forall c :: c in candidates ==> ColorCode(c) != code
  {
    if candidates == [] then None
    else if ColorCode(candidates[0]) == code then Some(candidates[0])
    else FindColor(code, candidates[1..])
  }

  /** `Color(code)`: the member whose value is `code`; `None` stands for the ValueError of an unknown code. */
  function ColorFromCode(code: string): Option<Color> {
    FindColor(code, AllColors)
  }

  /** Every colour code starts with a lower-case letter. */
  lemma CodeStartsWithLetter(c: Color)
    ensures |ColorCode(c)| > 0 && 'a' <= ColorCode(c)[0] <= 'z'
  {
  }

  /** Decoding a colour code gives the member back, and only codes of members decode. */
  lemma ColorCodeRoundTrip(c: Color, code: string)
    ensures ColorFromCode(ColorCode(c)) == Some(c)
    ensures ColorFromCode(code).Some? <==> exists m: Color :: ColorCode(m) == code
  {
    ColorMembers();
    var r := ColorFromCode(ColorCode(c));
    if r.Some? {
      ColorCodeInjective(r.value, c);
    }
    if exists m: Color :: ColorCode(m) == code {
      var m: Color :| ColorCode(m) == code;
      assert m in AllColors;
    }
  }

  /** The three resource kinds; `TypeName` is what `get_type` returns. */
  datatype Kind = LabelKind | FilterKind | ProjectKind

  function TypeName(k: Kind): string {
    match k
    case LabelKind => "label"
    case FilterKind => "filter"
    case ProjectKind => "project"
  }

  /** A resource as Todoist stores it; `id` is `None` for a resource still to be created. */
  datatype ConcreteItem =
    | ConcreteTodoistLabel(name: string, color: Color := DefaultColor, isFavorite: bool := false, id: Option<int> := None)
    | ConcreteTodoistFilter(name: string, query: string, color: Color := DefaultColor, isFavorite: bool := false, id: Option<int> := None)
    | ConcreteTodoistProject(name: string, color: Color := DefaultColor, isFavorite: bool := false, id: Option<int> := None)

  function KindOf(item: ConcreteItem): Kind {
    match item
    case ConcreteTodoistLabel(_, _, _, _) => LabelKind
    case ConcreteTodoistFilter(_, _, _, _, _) => FilterKind
    case ConcreteTodoistProject(_, _, _, _) => ProjectKind
  }

  /** `get_type` of the three concrete classes. */
  function GetType(item: ConcreteItem): (t: string)
    ensures t == TypeName(KindOf(item))
  {
    match item
    case ConcreteTodoistLabel(_, _, _, _) => "label"
    case ConcreteTodoistFilter(_, _, _, _, _) => "filter"
    case ConcreteTodoistProject(_, _, _, _) => "project"
  }

  /** A resource as the GTD state wants it: the user-settable fields only. */
  datatype DesiredItem =
    | TodoistLabel(name: string, color: Color := DefaultColor, isFavorite: bool := false)
    | TodoistFilter(name: string, query: string, color: Color := DefaultColor, isFavorite: bool := false)
    | TodoistProject(name: string, color: Color := DefaultColor, isFavorite: bool := false)

  function DesiredKind(d: DesiredItem): Kind {
    match d
    case TodoistLabel(_, _, _) => LabelKind
    case TodoistFilter(_, _, _, _) => FilterKind
    case TodoistProject(_, _, _) => ProjectKind
  }

  /** Every record defaults to grey and not favourite; a concrete record also to no id. */
  lemma RecordDefaults(name: string, query: string)
    ensures var l := ConcreteTodoistLabel(name); l.color == Grey && !l.isFavorite && l.id.None?
    ensures var f := ConcreteTodoistFilter(name, query); f.color == Grey && !f.isFavorite && f.id.None?
    ensures var p := ConcreteTodoistProject(name); p.color == Grey && !p.isFavorite && p.id.None?
    ensures var l := TodoistLabel(name); l.color == Grey && !l.isFavorite
    ensures var f := TodoistFilter(name, query); f.color == Grey && !f.isFavorite
    ensures var p := TodoistProject(name); p.color == Grey && !p.isFavorite
  {
  }

  datatype ConcreteTodoistObjects = ConcreteTodoistObjects(
    labels: seq<ConcreteItem>, filters: seq<ConcreteItem>, projects: seq<ConcreteItem>)

  /** `get_all_items`: labels, then filters, then projects, each in its own order. */
  function GetAllItems(objects: ConcreteTodoistObjects): (items: seq<ConcreteItem>)
    ensures |items| == |objects.labels| + |objects.filters| + |objects.projects|
    ensures forall i :: 0 <= i < |objects.labels| ==> items[i] == objects.labels[i]
    ensures forall i :: 0 <= i < |objects.filters| ==> items[|objects.labels| + i] == objects.filters[i]
    ensures forall i :: 0 <= i < |objects.projects| ==>
      items[|objects.labels| + |objects.filters| + i] == objects.projects[i]
  {
    objects.labels + objects.filters + objects.projects
  }

  datatype TodoistCollection = TodoistCollection(
    labels: seq<DesiredItem>, filters: seq<DesiredItem>, projects: seq<DesiredItem>)

  /** The type annotations of the two collection records: each list holds records of its own kind. */
  predicate AllOfKind(items: seq<ConcreteItem>, kind: Kind) {
    forall i :: 0 <= i < |items| ==> KindOf(items[i]) == kind
  }

  predicate AllDesiredOfKind(items: seq<DesiredItem>, kind: Kind) {
    forall i :: 0 <= i < |items| ==> DesiredKind(items[i]) == kind
  }

  predicate WellKindedObjects(o: ConcreteTodoistObjects) {
    AllOfKind(o.labels, LabelKind) && AllOfKind(o.filters, FilterKind) && AllOfKind(o.projects, ProjectKind)
  }

  predicate WellKindedCollection(c: TodoistCollection) {
    AllDesiredOfKind(c.labels, LabelKind) && AllDesiredOfKind(c.filters, FilterKind)
    && AllDesiredOfKind(c.projects, ProjectKind)
  }

  // ----- Explicit field lists and the dictionary form of a record -----

  datatype FieldName = Name | Query | ColorField | IsFavorite | Id

  /** The attribute name of each field, as it appears in a serialised dictionary. */
  function FieldKey(f: FieldName): string {
    match f
    case Name => "name"
    case Query => "query"
    case ColorField => "color"
    case IsFavorite => "is_favorite"
    case Id => "id"
  }

  /** The declared fields of `ConcreteTodoist{Label,Filter,Project}`, in declaration order. */
  function ConcreteFields(k: Kind): seq<FieldName> {
    match k
    case LabelKind => [Name, ColorField, IsFavorite, Id]
    case FilterKind => [Name, Query, ColorField, IsFavorite, Id]
    case ProjectKind => [Name, ColorField, IsFavorite, Id]
  }

  /** The declared fields of `Todoist{Label,Filter,Project}`, in declaration order. */
  function DesiredFields(k: Kind): seq<FieldName> {
    match k
    case LabelKind => [Name, ColorField, IsFavorite]
    case FilterKind => [Name, Query, ColorField, IsFavorite]
    case ProjectKind => [Name, ColorField, IsFavorite]
  }

  /**
   * Desired records have exactly the fields of the concrete records of the
   * same kind except the trailing `id`; only filters carry a `query`.
   */
  lemma DesiredFieldsAreConcreteWithoutId(k: Kind)
    ensures ConcreteFields(k) == DesiredFields(k) + [Id]
    ensures Id !in DesiredFields(k)
    ensures Query in DesiredFields(k) <==> k == FilterKind
    ensures forall i, j :: 0 <= i < j < |ConcreteFields(k)| ==> ConcreteFields(k)[i] != ConcreteFields(k)[j]
  {
  }

  /** The value of a field; `Null` is Python's None, `Hue` a `Color` member. */
  datatype Value = Str(s: string) | Hue(c: Color) | Flag(b: bool) | Num(n: int) | Null

  datatype Entry = Entry(key: FieldName, value: Value)

  /** An insertion-ordered dictionary, as Python's `dict`. */
  type Dict = seq<Entry>

  function Keys(d: Dict): (ks: seq<FieldName>)
    ensures |ks| == |d|
    ensures forall i :: 0 <= i < |d| ==> ks[i] == d[i].key
  {
    seq(|d|, i requires 0 <= i < |d| => d[i].key)
  }

  /** `d.get(k)`: the value of the first entry with key `k`. */
  function Lookup(d: Dict, k: FieldName): (r: Option<Value>)
    ensures r.Some? <==> k in Keys(d)
    ensures r.Some? ==> exists i :: 0 <= i < |d| && d[i] == Entry(k, r.value)
  {
    if d == [] then None
    else if d[0].key == k then Some(d[0].value)
    else Lookup(d[1..], k)
  }

  /** `d[k] = v`: replaces the value of an existing key in place, or appends a new entry. */
  function Put(d: Dict, k: FieldName, v: Value): (r: Dict)
    ensures k in Keys(d) ==> |r| == |d|
    ensures k !in Keys(d) ==> r == d + [Entry(k, v)]
    ensures forall i :: 0 <= i < |r| ==> r[i] == Entry(k, v) || r[i] in d
  {
    if d == [] then [Entry(k, v)]
    else if d[0].key == k then [Entry(k, v)] + d[1..]
    else [d[0]] + Put(d[1..], k, v)
  }

  lemma {:induction false} PutLookup(d: Dict, k: FieldName, v: Value, k': FieldName)
    ensures Lookup(Put(d, k, v), k') == if k' == k then Some(v) else Lookup(d, k')
    decreases |d|
  {
    if d != [] && d[0].key != k {
      PutLookup(d[1..], k, v, k');
      assert Put(d, k, v)[1..] == Put(d[1..], k, v);
    }
  }

  /** `d[k] = v` where `d[k]` already is `v` leaves the dictionary as it was. */
  lemma {:induction false} PutExisting(d: Dict, k: FieldName, v: Value)
    requires Lookup(d, k) == Some(v)
    ensures Put(d, k, v) == d
    decreases |d|
  {
    var head, tail := d[0], d[1..];
    assert d == [head] + tail;
    if head.key == k {
      assert head == Entry(k, v);
    } else {
      assert Lookup(tail, k) == Some(v);
      PutExisting(tail, k, v);
    }
  }

  /** The type annotation of each field: which values `from_dict` can store in it. */
  predicate FitsField(f: FieldName, v: Value) {
    match f
    case Name => v.Str?
    case Query => v.Str?
    case ColorField => v.Hue?
    case IsFavorite => v.Flag?
    case Id => v.Num? || v.Null?
  }

  predicate WellTyped(d: Dict) {
    forall i :: 0 <= i < |d| ==> FitsField(d[i].key, d[i].value)
  }

  function IdValue(id: Option<int>): (v: Value)
    ensures FitsField(Id, v)
  {
    if id.Some? then Num(id.value) else Null
  }

  /** `getattr(item, f)` for a declared field of the item's class. */
  function Attr(item: ConcreteItem, f: FieldName): (v: Value)
    requires f in ConcreteFields(KindOf(item))
    ensures FitsField(f, v)
  {
    match f
    case Name => Str(item.name)
    case Query => Str(item.query)
    case ColorField => Hue(item.color)
    case IsFavorite => Flag(item.isFavorite)
    case Id => IdValue(item.id)
  }

  /** `getattr(item, f)` for a declared field of a desired record. */
  function DesiredAttr(d: DesiredItem, f: FieldName): (v: Value)
    requires f in DesiredFields(DesiredKind(d))
    ensures FitsField(f, v)
  {
    match f
    case Name => Str(d.name)
    case Query => Str(d.query)
    case ColorField => Hue(d.color)
    case IsFavorite => Flag(d.isFavorite)
  }

  /** Only `id` carries `exclude=ExcludeIfNone`: it is left out of the dictionary when it is None. */
  predicate ExcludedFromDict(f: FieldName, v: Value) {
    f == Id && v.Null?
  }

  /**
   * `to_dict()` of a concrete record: its declared fields in declaration
   * order, where `id` (the only field with `exclude=ExcludeIfNone`) is left
   * out when it is None.
   */
  function ToDict(item: ConcreteItem): (d: Dict)
    ensures WellTyped(d)
    ensures Keys(d) == if item.id.None? then DesiredFields(KindOf(item)) else ConcreteFields(KindOf(item))
    ensures forall i :: 0 <= i < |d| ==> d[i].key in ConcreteFields(KindOf(item)) && d[i].value == Attr(item, d[i].key)
  {
    var kind := KindOf(item);
    DesiredFieldsAreConcreteWithoutId(kind);
    var fs := DesiredFields(kind);
    var kept := seq(|fs|, i requires 0 <= i < |fs| => Entry(fs[i], Attr(item, fs[i])));
    var idEntry := if ExcludedFromDict(Id, Attr(item, Id)) then [] else [Entry(Id, Attr(item, Id))];
    assert Keys(kept + idEntry) == fs + Keys(idEntry);
    kept + idEntry
  }

  /** `to_dict()` of a desired record: all its declared fields in order. */
  function DesiredToDict(d: DesiredItem): (r: Dict)
    ensures WellTyped(r)
    ensures Keys(r) == DesiredFields(DesiredKind(d))
    ensures forall i :: 0 <= i < |r| ==> r[i].key in DesiredFields(DesiredKind(d)) && r[i].value == DesiredAttr(d, r[i].key)
  {
    var fs := DesiredFields(DesiredKind(d));
    seq(|fs|, i requires 0 <= i < |fs| => Entry(fs[i], DesiredAttr(d, fs[i])))
  }

  /**
   * What `from_dict` raises: the KeyError for a field that has no default
   * and no entry, or the ValueError of `Color(code)` for a code that names
   * no member.
   */
  datatype DecodeError = MissingField(field: FieldName) | InvalidColor(code: string)

  /** Fields with a declared default: everything except `name` and `query`. */
  predicate HasDefault(f: FieldName) {
    f != Name && f != Query
  }

  function DefaultValue(f: FieldName): (v: Value)
    requires HasDefault(f)
    ensures FitsField(f, v)
  {
    match f
    case ColorField => Hue(DefaultColor)
    case IsFavorite => Flag(false)
    case Id => Null
  }

  function StrOf(v: Option<Value>): string {
    if v.Some? && v.value.Str? then v.value.s else ""
  }

  /**
   * `ConcreteTodoist<kind>.from_dict(d)`: each declared field takes its
   * entry, or its default when it has none; a required field without an
   * entry raises KeyError, `name` being looked at before `query`. Entries
   * for undeclared fields are ignored.
   */
  function FromDict(kind: Kind, d: Dict): (r: Result<ConcreteItem, DecodeError>)
    requires WellTyped(d)
    ensures r.Ok? <==> Name in Keys(d) && (kind == FilterKind ==> Query in Keys(d))
    ensures r.Err? ==> r.error == MissingField(if Name !in Keys(d) then Name else Query)
    ensures r.Ok? ==> KindOf(r.value) == kind
  {
    var name := Lookup(d, Name);
    var query := Lookup(d, Query);
    var color := match Lookup(d, ColorField) case Some(Hue(c)) => c case _ => DefaultColor;
    var favorite := match Lookup(d, IsFavorite) case Some(Flag(b)) => b case _ => false;
    var id := match Lookup(d, Id) case Some(Num(n)) => Some(n) case _ => None;
    if name.None? then Err(MissingField(Name))
    else if kind == FilterKind && query.None? then Err(MissingField(Query))
    else Ok(match kind
      case LabelKind => ConcreteTodoistLabel(StrOf(name), color, favorite, id)
      case FilterKind => ConcreteTodoistFilter(StrOf(name), StrOf(query), color, favorite, id)
      case ProjectKind => ConcreteTodoistProject(StrOf(name), color, favorite, id))
  }

  /** A decoded field holds the dictionary's entry if there is one, its default otherwise. */
  lemma FromDictFields(kind: Kind, d: Dict, f: FieldName)
    requires WellTyped(d)
    requires FromDict(kind, d).Ok?
    requires f in ConcreteFields(kind)
    ensures Lookup(d, f).Some? ==> Attr(FromDict(kind, d).value, f) == Lookup(d, f).value
    ensures Lookup(d, f).None? ==> HasDefault(f) && Attr(FromDict(kind, d).value, f) == DefaultValue(f)
  {
    LookupFits(d, f);
    var r := FromDict(kind, d).value;
    var v := Lookup(d, f);
    match f
    case Name =>
    case Query =>
    case ColorField =>
    case IsFavorite =>
    case Id =>
  }

  /** A well-typed dictionary holds under each key a value of that field's type. */
  lemma LookupFits(d: Dict, f: FieldName)
    requires WellTyped(d)
    ensures Lookup(d, f).Some? ==> FitsField(f, Lookup(d, f).value)
  {
    if Lookup(d, f).Some? {
      var i :| 0 <= i < |d| && d[i] == Entry(f, Lookup(d, f).value);
      assert FitsField(d[i].key, d[i].value);
    }
  }

  /** Two records of the same class are equal when every declared field is. */
  lemma AttrsDetermine(a: ConcreteItem, b: ConcreteItem)
    requires KindOf(a) == KindOf(b)
    requires forall f :: f in ConcreteFields(KindOf(a)) ==> Attr(a, f) == Attr(b, f)
    ensures a == b
  {
    assert Attr(a, Name) == Attr(b, Name);
    assert Attr(a, ColorField) == Attr(b, ColorField);
    assert Attr(a, IsFavorite) == Attr(b, IsFavorite);
    assert Attr(a, Id) == Attr(b, Id);
    if KindOf(a) == FilterKind {
      assert Attr(a, Query) == Attr(b, Query);
    }
  }

  /** A dictionary decodes to `x` when each declared field of `x` is its entry, or its default when it has none. */
  lemma FromDictByFields(kind: Kind, d: Dict, x: ConcreteItem)
    requires WellTyped(d) && KindOf(x) == kind
    requires forall f :: f in ConcreteFields(kind) ==>
      if Lookup(d, f).Some? then Lookup(d, f).value == Attr(x, f) else HasDefault(f) && DefaultValue(f) == Attr(x, f)
    ensures FromDict(kind, d) == Ok(x)
  {
    assert Name in ConcreteFields(kind);
    if kind == FilterKind {
      assert Query in ConcreteFields(kind);
    }
    var c := FromDict(kind, d).value;
    forall f | f in ConcreteFields(kind)
      ensures Attr(c, f) == Attr(x, f)
    {
      FromDictFields(kind, d, f);
    }
    AttrsDetermine(c, x);
  }

  /** The concrete record of the same kind and fields as `d`, with the given id. */
  function WithId(d: DesiredItem, id: Option<int>): (c: ConcreteItem)
    ensures KindOf(c) == DesiredKind(d)
  {
    match d
    case TodoistLabel(n, c, f) => ConcreteTodoistLabel(n, c, f, id)
    case TodoistFilter(n, q, c, f) => ConcreteTodoistFilter(n, q, c, f, id)
    case TodoistProject(n, c, f) => ConcreteTodoistProject(n, c, f, id)
  }

  /** A desired record's dictionary holds exactly its declared fields, each with its value. */
  lemma DesiredToDictLookup(d: DesiredItem, f: FieldName)
    ensures Lookup(DesiredToDict(d), f) == if f in DesiredFields(DesiredKind(d)) then Some(DesiredAttr(d, f)) else None
  {
    var dict := DesiredToDict(d);
    if Lookup(dict, f).Some? {
      var i :| 0 <= i < |dict| && dict[i] == Entry(f, Lookup(dict, f).value);
      assert Keys(dict)[i] == f;
    }
  }

  /** A concrete record's dictionary holds its declared fields, `id` only when it is not None. */
  lemma ToDictLookup(item: ConcreteItem, f: FieldName)
    ensures Lookup(ToDict(item), f) ==
      if f in ConcreteFields(KindOf(item)) && !(f == Id && item.id.None?) then Some(Attr(item, f)) else None
  {
    var dict := ToDict(item);
    DesiredFieldsAreConcreteWithoutId(KindOf(item));
    if Lookup(dict, f).Some? {
      var i :| 0 <= i < |dict| && dict[i] == Entry(f, Lookup(dict, f).value);
      assert Keys(dict)[i] == f;
    }
  }

  /** A desired record serialised and decoded as a concrete record is the same record without an id. */
  lemma DesiredRoundTrip(d: DesiredItem)
    ensures FromDict(DesiredKind(d), DesiredToDict(d)) == Ok(WithId(d, None))
  {
    var dict := DesiredToDict(d);
    var kind := DesiredKind(d);
    var x := WithId(d, None);
    DesiredFieldsAreConcreteWithoutId(kind);
    forall f | f in ConcreteFields(kind)
      ensures if Lookup(dict, f).Some? then Lookup(dict, f).value == Attr(x, f) else HasDefault(f) && DefaultValue(f) == Attr(x, f)
    {
      DesiredToDictLookup(d, f);
    }
    FromDictByFields(kind, dict, x);
  }

  /** A concrete record serialised and decoded gives the same record back. */
  lemma ConcreteRoundTrip(item: ConcreteItem)
    ensures FromDict(KindOf(item), ToDict(item)) == Ok(item)
  {
    var dict := ToDict(item);
    var kind := KindOf(item);
    forall f | f in ConcreteFields(kind)
      ensures if Lookup(dict, f).Some? then Lookup(dict, f).value == Attr(item, f) else HasDefault(f) && DefaultValue(f) == Attr(item, f)
    {
      ToDictLookup(item, f);
    }
    FromDictByFields(kind, dict, item);
  }

  // ----- The GTD input records -----

  datatype Context = Context(name: string, emojis: string := "", color: Color := DefaultColor)

  datatype CompositeContext = CompositeContext(
    name: string, emojis: string := "", color: Color := DefaultColor, labels: seq<string> := [])

  datatype ExclusionList = ExclusionList(name: string, color: Color := DefaultColor)

  datatype GTDState = GTDState(
    contexts: seq<Context>, compositeContexts: seq<CompositeContext>, exclusionLists: seq<ExclusionList>)
}
