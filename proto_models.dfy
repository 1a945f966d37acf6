/**
 * The records of the prototype in src/gtd/models.py: colours are free
 * strings, `is_favorite` defaults to None, and a collection holds only labels
 * and filters.
 */
module ProtoModels {
  import opened Wrappers
  import Models

  const DefaultColorValue: string := "default_color_value"

  /** `TodoistLabel` and `TodoistFilter` of the prototype. */
  datatype TodoistItem =
    | TodoistLabel(name: string, color: string := DefaultColorValue, isFavorite: Option<bool> := None)
    | TodoistFilter(name: string, query: string, color: string := DefaultColorValue, isFavorite: Option<bool> := None)

  datatype TodoistCollection = TodoistCollection(labels: seq<TodoistItem>, filters: seq<TodoistItem>)

  datatype GTDContext = GTDContext(name: string, emojis: string := "", color: string := DefaultColorValue)

  datatype CompositeContext = CompositeContext(
    name: string, emojis: string := "", color: string := DefaultColorValue, labels: seq<string> := [])

  /** The serialised `is_favorite`: the flag, or null for None. */
  function FlagValue(b: Option<bool>): Models.Value {
    if b.Some? then Models.Flag(b.value) else Models.Null
  }

  /**
   * `to_dict()` of a prototype record: every declared field in declaration
   * order, a None `is_favorite` kept as a null value.
   */
  function ToDict(item: TodoistItem): (d: Models.Dict)
    ensures Models.Keys(d) == if item.TodoistFilter? then Models.DesiredFields(Models.FilterKind) else Models.DesiredFields(Models.LabelKind)
    ensures Models.Lookup(d, Models.Name) == Some(Models.Str(item.name))
  {
    match item
    case TodoistLabel(name, color, isFavorite) =>
      [Models.Entry(Models.Name, Models.Str(name)), Models.Entry(Models.ColorField, Models.Str(color)),
       Models.Entry(Models.IsFavorite, FlagValue(isFavorite))]
    case TodoistFilter(name, query, color, isFavorite) =>
      [Models.Entry(Models.Name, Models.Str(name)), Models.Entry(Models.Query, Models.Str(query)),
       Models.Entry(Models.ColorField, Models.Str(color)), Models.Entry(Models.IsFavorite, FlagValue(isFavorite))]
  }

  /**
   * Each serialised value is the record's own attribute: the colour string,
   * the query of a filter, and `is_favorite` as a flag or, when None, as a
   * null value; no `id` is written.
   */
  lemma ToDictValues(item: TodoistItem)
    ensures var d := ToDict(item);
      && Models.Lookup(d, Models.ColorField) == Some(Models.Str(item.color))
      && Models.Lookup(d, Models.IsFavorite) ==
           Some(if item.isFavorite.Some? then Models.Flag(item.isFavorite.value) else Models.Null)
      && (item.TodoistFilter? ==> Models.Lookup(d, Models.Query) == Some(Models.Str(item.query)))
      && Models.Lookup(d, Models.Id).None?
  {
    var flag := Models.Entry(Models.IsFavorite, FlagValue(item.isFavorite));
    var color := Models.Entry(Models.ColorField, Models.Str(item.color));
    var name := Models.Entry(Models.Name, Models.Str(item.name));
    if item.TodoistLabel? {
      assert ToDict(item) == [name, color, flag];
      LabelEntryValues(name, color, flag);
    } else {
      var query := Models.Entry(Models.Query, Models.Str(item.query));
      assert ToDict(item) == [name, query, color, flag];
      FilterEntryValues(name, query, color, flag);
    }
  }

  /** Lookups in a dictionary whose keys are a first key, the colour and the flag, in that order. */
  lemma LabelEntryValues(first: Models.Entry, color: Models.Entry, flag: Models.Entry)
    requires first.key == Models.Name || first.key == Models.Query
    requires color.key == Models.ColorField && flag.key == Models.IsFavorite
    ensures var d := [first, color, flag];
      && Models.Lookup(d, first.key) == Some(first.value)
      && Models.Lookup(d, Models.ColorField) == Some(color.value)
      && Models.Lookup(d, Models.IsFavorite) == Some(flag.value)
      && Models.Lookup(d, Models.Id).None?
  {
    var d := [first, color, flag];
    assert d[1..] == [color, flag];
    assert d[1..][1..] == [flag];
    assert d[1..][1..][1..] == [];
    assert Models.Lookup([flag], Models.IsFavorite) == Some(flag.value);
    assert Models.Lookup([flag], Models.Id) == None;
    assert Models.Lookup([color, flag], Models.IsFavorite) == Some(flag.value);
    assert Models.Lookup([color, flag], Models.Id) == None;
  }

  /** Lookups in a dictionary whose keys are `name`, `query`, the colour and the flag, in that order. */
  lemma FilterEntryValues(name: Models.Entry, query: Models.Entry, color: Models.Entry, flag: Models.Entry)
    requires name.key == Models.Name && query.key == Models.Query
    requires color.key == Models.ColorField && flag.key == Models.IsFavorite
    ensures var d := [name, query, color, flag];
      && Models.Lookup(d, Models.Query) == Some(query.value)
      && Models.Lookup(d, Models.ColorField) == Some(color.value)
      && Models.Lookup(d, Models.IsFavorite) == Some(flag.value)
      && Models.Lookup(d, Models.Id).None?
  {
    var d := [name, query, color, flag];
    assert d[1..] == [query, color, flag];
    LabelEntryValues(query, color, flag);
  }
}
