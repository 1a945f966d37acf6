/**
 * The command builder and endpoint wrapper of
 * autodoist/todoist/api_wrapper.py: records become Todoist Sync v9
 * `*_add` / `*_update` commands, sent in one request, and the fetched
 * resources are decoded into concrete records.
 */
module ApiWrapper {
  import opened Wrappers
  import opened Models
  import opened Environment

  /** A Sync command: `{"type", "uuid", "args"}`, plus `"temp_id"` for an add. */
  datatype Command = Command(commandType: string, uuid: string, args: Dict, tempId: Option<string>)

  /** A value the response can hold under a field: one of the declared type, or, for the colour, a code string. */
  predicate FitsResponse(f: FieldName, v: Value) {
    FitsField(f, v) || (f == ColorField && v.Str?)
  }

  /**
   * A decoded JSON object of the response, restricted to declared fields of
   * the right types; a colour arrives as its code string, or as a `Color`
   * member when the dictionary was built in memory.
   */
  type Record = d: Dict | forall i :: 0 <= i < |d| ==> FitsResponse(d[i].key, d[i].value) witness []

  /** The parameters of one `make_request` call. */
  datatype Payload =
    | ReadResources(syncToken: string, resourceTypes: string)
    | WriteCommands(commands: seq<Command>)

  /** The exception an `update_todoist_objects` call raises before any request is made. */
  datatype UpdateFailure = NameError(undefinedName: string)

  /** The JSON response: resource lists by key. */
  datatype Response = Response(resources: map<string, seq<Record>>)

  /** The one read request `get_all_todoist_objects` makes. */
  const ReadAll := ReadResources("*", "[\"labels\", \"filters\", \"projects\"]")

  /** Python truthiness of an optional id: `None` and `0` are false. */
  predicate Truthy(id: Option<int>) {
    id.Some? && id.value != 0
  }

  /**
   * The command `_create_update_command(item_type, item_id, updated_item)`
   * builds when `uuid4` yields `uuid` and then `tempId`.
   */
  function CommandFor(itemType: string, itemId: Option<int>, item: ConcreteItem, uuid: string, tempId: string): Command {
    if Truthy(itemId) then Command(itemType + "_update", uuid, Put(ToDict(item), Id, Num(itemId.value)), None)
    else Command(itemType + "_add", uuid, ToDict(item), Some(tempId))
  }

  /** How many tokens the command for an item draws: one, or two for an add. */
  function TokensFor(itemId: Option<int>): nat {
    if Truthy(itemId) then 1 else 2
  }

  /**
   * An update command carries the id in `args` and no `temp_id`; an add
   * command carries a `temp_id` and its `args` are exactly the serialised
   * record, which holds an `id` only for the falsy id 0.
   */
  lemma CommandShape(itemType: string, itemId: Option<int>, item: ConcreteItem, uuid: string, tempId: string)
    ensures var c := CommandFor(itemType, itemId, item, uuid, tempId);
      && c.uuid == uuid
      && (Truthy(itemId) ==> c.commandType == itemType + "_update" && c.tempId.None?
                             && Lookup(c.args, Id) == Some(Num(itemId.value)))
      && (!Truthy(itemId) ==> c.commandType == itemType + "_add" && c.tempId == Some(tempId)
                              && c.args == ToDict(item) && (Id in Keys(c.args) <==> item.id.Some?))
  {
    if Truthy(itemId) {
      PutLookup(ToDict(item), Id, Num(itemId.value), Id);
    } else {
      ToDictLookup(item, Id);
      assert Id in ConcreteFields(KindOf(item));
    }
  }

  /**
   * Called as `update_todoist_objects` calls it, with the item's own id,
   * the command's `args` are the serialised item, which decodes back to the
   * item: setting `args["id"]` only rewrites the id entry already there.
   */
  lemma ArgsAreSerialisedItem(item: ConcreteItem, uuid: string, tempId: string)
    ensures CommandFor(GetType(item), item.id, item, uuid, tempId).args == ToDict(item)
    ensures FromDict(KindOf(item), CommandFor(GetType(item), item.id, item, uuid, tempId).args) == Ok(item)
  {
    ConcreteRoundTrip(item);
    if Truthy(item.id) {
      var d := ToDict(item);
      assert Id in Keys(d);
      var v := Lookup(d, Id).value;
      assert v == Attr(item, Id);
      PutExisting(d, Id, Num(item.id.value));
    }
  }

  /**
   * The command `_create_update_command` builds when the token supply is at
   * position `k`: `tokenAt(k)` is its uuid and `tokenAt(k + 1)` its temp_id.
   */
  function CommandAt(itemType: string, itemId: Option<int>, item: ConcreteItem, tokenAt: nat -> string, k: nat): Command {
    CommandFor(itemType, itemId, item, tokenAt(k), tokenAt(k + 1))
  }

  /** The command `update_todoist_objects` builds for one item. */
  function ItemCommand(item: ConcreteItem, tokenAt: nat -> string, k: nat): Command {
    CommandAt(GetType(item), item.id, item, tokenAt, k)
  }

  function TokensNeeded(items: seq<ConcreteItem>): nat
    decreases |items|
  {
    if items == [] then 0 else TokensNeeded(items[..|items| - 1]) + TokensFor(items[|items| - 1].id)
  }

  /** Where the tokens of the item at position `i` start: after those every earlier item drew. */
  function TokenOffset(items: seq<ConcreteItem>, start: nat, i: nat): nat
    requires i <= |items|
  {
    start + TokensNeeded(items[..i])
  }

  lemma TokenOffsetStep(items: seq<ConcreteItem>, start: nat, i: nat)
    requires i < |items|
    ensures TokenOffset(items, start, i + 1) == TokenOffset(items, start, i) + TokensFor(items[i].id)
  {
    assert items[..i + 1][..i] == items[..i];
  }

  /** The `sync_commands` list for `items`, drawing tokens from position `start` on. */
  function BuildCommands(items: seq<ConcreteItem>, tokenAt: nat -> string, start: nat): (commands: seq<Command>)
    ensures |commands| == |items|
  {
    seq(|items|, i requires 0 <= i < |items| => ItemCommand(items[i], tokenAt, TokenOffset(items, start, i)))
  }

  /** Token positions only grow along the item list. */
  lemma {:induction false} TokensNeededGrows(items: seq<ConcreteItem>, i: nat, j: nat)
    requires i <= j <= |items|
    ensures TokensNeeded(items[..i]) + (if i < j then TokensFor(items[i].id) else 0) <= TokensNeeded(items[..j])
    decreases j - i
  {
    if i < j {
      assert items[..j][..j - 1] == items[..j - 1];
      if i < j - 1 {
        TokensNeededGrows(items, i, j - 1);
      }
    }
  }

  /**
   * With a supply that never repeats a token, every uuid and every temp_id
   * of the built commands is distinct from every other.
   */
  lemma CommandTokensDistinct(items: seq<ConcreteItem>, tokenAt: nat -> string, start: nat, i: nat, j: nat)
    requires Injective(tokenAt)
    requires i < j < |items|
    ensures var cs := BuildCommands(items, tokenAt, start);
      && cs[i].uuid != cs[j].uuid
      && (cs[i].tempId.Some? ==> cs[i].tempId.value != cs[j].uuid && cs[i].tempId.value != cs[i].uuid)
      && (cs[j].tempId.Some? ==> cs[j].tempId.value != cs[i].uuid)
      && (cs[i].tempId.Some? && cs[j].tempId.Some? ==> cs[i].tempId.value != cs[j].tempId.value)
  {
    TokensNeededGrows(items, i, j);
    var ki := TokenOffset(items, start, i);
    var kj := TokenOffset(items, start, j);
    assert !Truthy(items[i].id) ==> ki + 1 < kj;
    assert ki < kj;
  }

  /**
   * `Color(v)` of the record's colour entry: the member itself, the member
   * whose value is the code string, `None` for a code that names no member
   * (the ValueError), and the default colour when there is no entry.
   */
  function RecordColor(record: Record): Option<Color> {
    match Lookup(record, ColorField)
    case Some(Str(code)) => ColorFromCode(code)
    case Some(Hue(c)) => Some(c)
    case _ => Some(DefaultColor)
  }

  /** The record's entries other than its colour: every one of them has its declared type. */
  function WithoutColor(record: Record): (d: Dict)
    ensures WellTyped(d)
    ensures forall f :: f != ColorField ==> Lookup(d, f) == Lookup(record, f)
    ensures ColorField !in Keys(d)
    decreases |record|
  {
    if record == [] then []
    else
      var rest := WithoutColor(record[1..]);
      if record[0].key == ColorField then rest
      else
        var d := [record[0]] + rest;
        assert d[1..] == rest;
        d
  }

  /**
   * `ConcreteTodoist<kind>.from_dict(record)` on a response record: the
   * fields in declaration order, so a missing `name`, then a missing `query`
   * of a filter, raise KeyError before the colour code is converted; an
   * unknown code then raises ValueError.
   */
  function DecodeRecord(kind: Kind, record: Record): (r: Result<ConcreteItem, DecodeError>)
    ensures r.Ok? <==> Name in Keys(record) && (kind == FilterKind ==> Query in Keys(record)) && RecordColor(record).Some?
    ensures r.Err? ==>
      r.error == (if Name !in Keys(record) then MissingField(Name)
                  else if kind == FilterKind && Query !in Keys(record) then MissingField(Query)
                  else InvalidColor(StrOf(Lookup(record, ColorField))))
    ensures r.Ok? ==> KindOf(r.value) == kind && Some(r.value.color) == RecordColor(record)
  {
    var d := WithoutColor(record);
    assert Lookup(d, Name) == Lookup(record, Name) && Lookup(d, Query) == Lookup(record, Query);
    var decoded :- FromDict(kind, d);
    var color := RecordColor(record);
    if color.None? then Err(InvalidColor(StrOf(Lookup(record, ColorField))))
    else Ok(decoded.(color := color.value))
  }

  /** Every field of a decoded response record other than its colour is its entry, or its default when it has none. */
  lemma DecodeRecordFields(kind: Kind, record: Record, f: FieldName)
    requires DecodeRecord(kind, record).Ok?
    requires f in ConcreteFields(kind) && f != ColorField
    ensures Lookup(record, f).Some? ==> Attr(DecodeRecord(kind, record).value, f) == Lookup(record, f).value
    ensures Lookup(record, f).None? ==> HasDefault(f) && Attr(DecodeRecord(kind, record).value, f) == DefaultValue(f)
  {
    var d := WithoutColor(record);
    DecodeRecordUnfold(kind, record);
    var decoded := FromDict(kind, d).value;
    FromDictFields(kind, d, f);
    AttrRecoloured(decoded, RecordColor(record).value, f);
  }

  lemma DecodeRecordUnfold(kind: Kind, record: Record)
    requires DecodeRecord(kind, record).Ok?
    ensures FromDict(kind, WithoutColor(record)).Ok? && RecordColor(record).Some?
    ensures DecodeRecord(kind, record).value == FromDict(kind, WithoutColor(record)).value.(color := RecordColor(record).value)
  {
  }

  /** Changing a record's colour changes no other field. */
  lemma AttrRecoloured(x: ConcreteItem, c: Color, f: FieldName)
    requires f in ConcreteFields(KindOf(x)) && f != ColorField
    ensures KindOf(x.(color := c)) == KindOf(x)
    ensures Attr(x.(color := c), f) == Attr(x, f)
  {
  }

  /** A record whose colour is already a `Color` member decodes as `from_dict` decodes any dictionary. */
  lemma TypedRecordDecodes(kind: Kind, record: Record)
    requires WellTyped(record)
    ensures DecodeRecord(kind, record) == FromDict(kind, record)
  {
    LookupFits(record, ColorField);
    var r := DecodeRecord(kind, record);
    if r.Ok? {
      var x := r.value;
      forall f | f in ConcreteFields(kind)
        ensures if Lookup(record, f).Some? then Lookup(record, f).value == Attr(x, f) else HasDefault(f) && DefaultValue(f) == Attr(x, f)
      {
        if f != ColorField {
          DecodeRecordFields(kind, record, f);
        }
      }
      FromDictByFields(kind, record, x);
    }
  }

  /** A response record carrying the code `"#ffffff"`, which names no `Color` member. */
  const WhiteLabel: Record := [Entry(Id, Num(1)), Entry(Name, Str("Label 1")), Entry(ColorField, Str("#ffffff")), Entry(IsFavorite, Flag(true))]

  /** A colour code written as a hex triple names no member: `Color(code)` raises ValueError for it. */
  lemma HexCodeUnknown(code: string)
    requires |code| > 0 && code[0] == '#'
    ensures ColorFromCode(code) == None
  {
    var r := ColorFromCode(code);
    if r.Some? {
      CodeStartsWithLetter(r.value);
    }
  }


  /** The label of the repository's decode test is rejected at its colour. */
  lemma HexColorRejected()
    ensures DecodeRecord(LabelKind, WhiteLabel) == Err(InvalidColor("#ffffff"))
  {
    HexCodeUnknown("#ffffff");
    assert WhiteLabel[1..][1..][0] == Entry(ColorField, Str("#ffffff"));
    assert Lookup(WhiteLabel, ColorField) == Some(Str("#ffffff"));
    assert Lookup(WhiteLabel, Name).Some?;
  }

  /** A response holding that label fails to decode, whatever its other kinds hold. */
  lemma HexColorResponseRejected(response: Response)
    requires "labels" in response.resources && response.resources["labels"] == [WhiteLabel]
    ensures DecodeObjects(response) == Err(InvalidColor("#ffffff"))
  {
    HexColorRejected();
    assert ResourceList(response, "labels") == [WhiteLabel];
  }

  /** `[ConcreteTodoist<kind>.from_dict(r) for r in records]`: the first exception aborts. */
  function DecodeRecords(kind: Kind, records: seq<Record>): (r: Result<seq<ConcreteItem>, DecodeError>)
    ensures r.Ok? <==> forall i :: 0 <= i < |records| ==> DecodeRecord(kind, records[i]).Ok?
    ensures r.Ok? ==> |r.value| == |records| && forall i :: 0 <= i < |records| ==> r.value[i] == DecodeRecord(kind, records[i]).value
  {
    MapResult((record: Record) => DecodeRecord(kind, record), records)
  }

  /** `response.get(key, [])`. */
  function ResourceList(response: Response, key: string): seq<Record> {
    if key in response.resources then response.resources[key] else []
  }

  /** What `get_all_todoist_objects` makes of the response, labels decoded first, then filters, then projects. */
  function DecodeObjects(response: Response): Result<ConcreteTodoistObjects, DecodeError> {
    var labels :- DecodeRecords(LabelKind, ResourceList(response, "labels"));
    var filters :- DecodeRecords(FilterKind, ResourceList(response, "filters"));
    var projects :- DecodeRecords(ProjectKind, ResourceList(response, "projects"));
    Ok(ConcreteTodoistObjects(labels, filters, projects))
  }

  /** A decoded response holds labels, filters and projects each in their own list, as the reconciler requires. */
  lemma DecodedObjectsWellKinded(response: Response)
    ensures DecodeObjects(response).Ok? ==> WellKindedObjects(DecodeObjects(response).value)
  {
  }

  /** A response without a key yields an empty list for that kind. */
  lemma EmptyResponseDecodes()
    ensures DecodeObjects(Response(map[])) == Ok(ConcreteTodoistObjects([], [], []))
  {
  }

  function Encode(items: seq<ConcreteItem>): (records: seq<Record>)
    ensures |records| == |items| && forall i :: 0 <= i < |items| ==> records[i] == ToDict(items[i])
  {
    seq(|items|, i requires 0 <= i < |items| => ToDict(items[i]))
  }

  /** The response Todoist would send for the given records. */
  function EncodeObjects(objects: ConcreteTodoistObjects): Response {
    Response(map["labels" := Encode(objects.labels), "filters" := Encode(objects.filters), "projects" := Encode(objects.projects)])
  }

  lemma DecodeEncodedRecords(kind: Kind, items: seq<ConcreteItem>)
    requires AllOfKind(items, kind)
    ensures DecodeRecords(kind, Encode(items)) == Ok(items)
  {
    var records := Encode(items);
    var decode := (record: Record) => DecodeRecord(kind, record);
    forall i | 0 <= i < |records|
      ensures decode(records[i]) == Ok(items[i])
    {
      ConcreteRoundTrip(items[i]);
      TypedRecordDecodes(kind, records[i]);
    }
    MapResultAllOk(decode, records, items);
  }

  /** Records serialised as the response and fetched again come back unchanged, in order. */
  lemma DecodeEncodedObjects(objects: ConcreteTodoistObjects)
    requires WellKindedObjects(objects)
    ensures DecodeObjects(EncodeObjects(objects)) == Ok(objects)
  {
    var response := EncodeObjects(objects);
    assert ResourceList(response, "labels") == Encode(objects.labels);
    assert ResourceList(response, "filters") == Encode(objects.filters);
    assert ResourceList(response, "projects") == Encode(objects.projects);
    DecodeEncodedRecords(LabelKind, objects.labels);
    DecodeEncodedRecords(FilterKind, objects.filters);
    DecodeEncodedRecords(ProjectKind, objects.projects);
  }

  /**
   * `TodoistApiWrapper`, or `DryRunTodoistApiWrapper` when `dryRun` holds:
   * the subclass differs only in `update_todoist_objects`.
   */
  class TodoistApiWrapper {
    const requester: Requester<Payload, Response>
    const tokens: TokenSupply
    const dryRun: bool

    constructor(requester: Requester<Payload, Response>, tokens: TokenSupply, dryRun: bool)
      ensures this.requester == requester && this.tokens == tokens && this.dryRun == dryRun
    {
      this.requester := requester;
      this.tokens := tokens;
      this.dryRun := dryRun;
    }

    /** `get_all_todoist_objects`: one read request, its response decoded. */
    method GetAllTodoistObjects() returns (r: Result<ConcreteTodoistObjects, DecodeError>)
      modifies requester
      ensures requester.calls == old(requester.calls) + [ReadAll]
      ensures r == DecodeObjects(requester.reply(ReadAll))
    {
      var response := requester.MakeRequest(ReadResources("*", "[\"labels\", \"filters\", \"projects\"]"));
      var labels := DecodeRecords(LabelKind, ResourceList(response, "labels"));
      if labels.Err? { return Err(labels.error); }
      var filters := DecodeRecords(FilterKind, ResourceList(response, "filters"));
      if filters.Err? { return Err(filters.error); }
      var projects := DecodeRecords(ProjectKind, ResourceList(response, "projects"));
      if projects.Err? { return Err(projects.error); }
      return Ok(ConcreteTodoistObjects(labels.value, filters.value, projects.value));
    }

    /** `_create_update_command`: the command dict built, then its id or temp_id set. */
    method CreateUpdateCommand(itemType: string, itemId: Option<int>, updatedItem: ConcreteItem) returns (command: Command)
      modifies tokens
      ensures command == CommandAt(itemType, itemId, updatedItem, tokens.tokenAt, old(tokens.drawn))
      ensures tokens.drawn == old(tokens.drawn) + TokensFor(itemId)
    {
      var actionType := if Truthy(itemId) then "update" else "add";
      ghost var commandType := itemType + "_" + actionType;
      var uuid := tokens.Draw();
      var args := ToDict(updatedItem);
      var tempId := None;
      if Truthy(itemId) {
        assert commandType == itemType + "_update" by {
          assert "_" + actionType == "_update";
          assert itemType + "_" + actionType == itemType + ("_" + actionType);
        }
        args := Put(args, Id, Num(itemId.value));
      } else {
        assert commandType == itemType + "_add" by {
          assert "_" + actionType == "_add";
          assert itemType + "_" + actionType == itemType + ("_" + actionType);
        }
        var token := tokens.Draw();
        tempId := Some(token);
      }
      command := Command(itemType + "_" + actionType, uuid, args, tempId);
    }

    /** The loop of `update_todoist_objects`: one command per item, in order. */
    method BuildSyncCommands(items: seq<ConcreteItem>) returns (syncCommands: seq<Command>)
      modifies tokens
      ensures syncCommands == BuildCommands(items, tokens.tokenAt, old(tokens.drawn))
      ensures tokens.drawn == old(tokens.drawn) + TokensNeeded(items)
    {
      syncCommands := [];
      var i := 0;
      while i < |items|
        invariant 0 <= i <= |items|
        invariant |syncCommands| == i
        invariant forall j :: 0 <= j < i ==> syncCommands[j] == ItemCommand(items[j], tokens.tokenAt, TokenOffset(items, old(tokens.drawn), j))
        invariant tokens.drawn == TokenOffset(items, old(tokens.drawn), i)
      {
        TokenOffsetStep(items, old(tokens.drawn), i);
        var item := items[i];
        var command := CreateUpdateCommand(GetType(item), item.id, item);
        ghost var expected := ItemCommand(items[i], tokens.tokenAt, TokenOffset(items, old(tokens.drawn), i));
        assert command == expected;
        var extended := syncCommands + [command];
        forall j | 0 <= j < i + 1
          ensures extended[j] == ItemCommand(items[j], tokens.tokenAt, TokenOffset(items, old(tokens.drawn), j))
        {
          if j < i {
            assert extended[j] == syncCommands[j];
          }
        }
        syncCommands := extended;
        i := i + 1;
      }
      assert items[..i] == items;
      assert syncCommands == BuildCommands(items, tokens.tokenAt, old(tokens.drawn));
    }

    /**
     * `update_todoist_objects`: one command per item of `get_all_items`, in
     * order, sent in a single request; the dry run builds the same commands,
     * sends nothing and answers an empty dict. The commands built are
     * returned beside the response.
     */
    method UpdateTodoistObjects(todoistObjects: ConcreteTodoistObjects) returns (syncCommands: seq<Command>, response: Response)
      modifies requester, tokens
      ensures syncCommands == BuildCommands(GetAllItems(todoistObjects), tokens.tokenAt, old(tokens.drawn))
      ensures tokens.drawn == old(tokens.drawn) + TokensNeeded(GetAllItems(todoistObjects))
      ensures !dryRun ==> requester.calls == old(requester.calls) + [WriteCommands(syncCommands)]
                          && response == requester.reply(WriteCommands(syncCommands))
      ensures dryRun ==> requester.calls == old(requester.calls) && response == Response(map[])
    {
      syncCommands := BuildSyncCommands(GetAllItems(todoistObjects));
      if dryRun {
        response := Response(map[]);
      } else {
        response := requester.MakeRequest(WriteCommands(syncCommands));
      }
    }

    /**
     * `update_todoist_objects` as the module is written: it never imports
     * `json`, so evaluating `json.dumps(sync_commands)` raises a NameError
     * once the commands are built, and no request is ever sent. The dry run
     * overrides the method and never reaches that expression.
     */
    method UpdateTodoistObjectsAsWritten(todoistObjects: ConcreteTodoistObjects)
      returns (syncCommands: seq<Command>, r: Result<Response, UpdateFailure>)
      modifies requester, tokens
      ensures syncCommands == BuildCommands(GetAllItems(todoistObjects), tokens.tokenAt, old(tokens.drawn))
      ensures tokens.drawn == old(tokens.drawn) + TokensNeeded(GetAllItems(todoistObjects))
      ensures requester.calls == old(requester.calls)
      ensures !dryRun ==> r == Err(NameError("json"))
      ensures dryRun ==> r == Ok(Response(map[]))
    {
      syncCommands := BuildSyncCommands(GetAllItems(todoistObjects));
      if dryRun {
        r := Ok(Response(map[]));
      } else {
        r := Err(NameError("json"));
      }
    }
  }
}
