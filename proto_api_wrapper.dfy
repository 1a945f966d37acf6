/**
 * The prototype command builder of src/gtd/api_wrapper.py: `args` holds
 * only the id or a temp_id, and the record's fields are spread at the top
 * level of the command beside `type`, `uuid` and `args`.
 */
module ProtoApiWrapper {
  import opened Wrappers
  import opened Models
  import opened Environment
  import ApiWrapper

  /** `{"id": item_id}` or `{"temp_id": ...}`. */
  datatype CommandArgs = IdArgs(id: int) | TempIdArgs(tempId: string)

  /**
   * `{"type": ..., "uuid": ..., "args": ..., **fields}`: the serialised
   * record's fields follow the three command keys in the same dictionary.
   */
  datatype Command = Command(commandType: string, uuid: string, args: CommandArgs, fields: Dict)

  datatype Payload =
    | ReadResources(syncToken: string, resourceTypes: seq<string>)
    | WriteCommands(commands: seq<Command>)

  /** The read request: here `resource_types` is a list, not a JSON string. */
  const ReadAll := ReadResources("*", ["labels", "filters", "projects"])

  /**
   * The command built for a record whose serialised fields are `fields`,
   * when the token supply yields `uuid` and then `tempId`; the uuid is drawn
   * first, as the `"uuid"` entry precedes `"args"`.
   */
  function CommandFor(itemType: string, itemId: Option<int>, fields: Dict, uuid: string, tempId: string): Command {
    if ApiWrapper.Truthy(itemId) then Command(itemType + "_update", uuid, IdArgs(itemId.value), fields)
    else Command(itemType + "_add", uuid, TempIdArgs(tempId), fields)
  }

  function CommandAt(itemType: string, itemId: Option<int>, fields: Dict, tokenAt: nat -> string, k: nat): Command {
    CommandFor(itemType, itemId, fields, tokenAt(k), tokenAt(k + 1))
  }

  /**
   * Against the main builder: the same command type, uuid and temp_id, but
   * `args` carries only the id, and the record's fields sit beside it rather
   * than inside it.
   */
  lemma CommandAgainstMain(item: ConcreteItem, uuid: string, tempId: string)
    ensures var p := CommandFor(GetType(item), item.id, ToDict(item), uuid, tempId);
      var c := ApiWrapper.CommandFor(GetType(item), item.id, item, uuid, tempId);
      && p.commandType == c.commandType && p.uuid == c.uuid
      && (p.args.TempIdArgs? <==> c.tempId.Some?)
      && (c.tempId.Some? ==> p.args.tempId == c.tempId.value)
      && (p.args.IdArgs? ==> Some(p.args.id) == item.id)
      && p.fields == ToDict(item)
  {
  }

  /** The command for an update names its kind and the id; an add names its kind and the temp_id. */
  lemma CommandShape(itemType: string, itemId: Option<int>, fields: Dict, uuid: string, tempId: string)
    ensures var c := CommandFor(itemType, itemId, fields, uuid, tempId);
      && c.uuid == uuid && c.fields == fields
      && (ApiWrapper.Truthy(itemId) <==> c.commandType == itemType + "_update")
      && (ApiWrapper.Truthy(itemId) ==> c.args == IdArgs(itemId.value))
      && (!ApiWrapper.Truthy(itemId) ==> c.args == TempIdArgs(tempId))
  {
    assert (itemType + "_update")[|itemType| + 1] == 'u';
    assert (itemType + "_add")[|itemType| + 1] == 'a';
  }

  function ItemCommand(item: ConcreteItem, tokenAt: nat -> string, k: nat): Command {
    CommandAt(GetType(item), item.id, ToDict(item), tokenAt, k)
  }

  /** The `sync_commands` list for `items`, drawing tokens from position `start` on. */
  function BuildCommands(items: seq<ConcreteItem>, tokenAt: nat -> string, start: nat): (commands: seq<Command>)
    ensures |commands| == |items|
  {
    seq(|items|, i requires 0 <= i < |items| => ItemCommand(items[i], tokenAt, ApiWrapper.TokenOffset(items, start, i)))
  }

  /**
   * Both builders draw the same tokens for the same items: the i-th commands
   * agree on type, uuid, temp_id and id, and the prototype's fields are the
   * i-th item serialised.
   */
  lemma BuildCommandsAgainstMain(items: seq<ConcreteItem>, tokenAt: nat -> string, start: nat, i: nat)
    requires i < |items|
    ensures var p := BuildCommands(items, tokenAt, start)[i];
      var c := ApiWrapper.BuildCommands(items, tokenAt, start)[i];
      && p.commandType == c.commandType && p.uuid == c.uuid
      && (p.args.TempIdArgs? <==> c.tempId.Some?)
      && (c.tempId.Some? ==> p.args.tempId == c.tempId.value)
      && (p.args.IdArgs? ==> Some(p.args.id) == items[i].id)
      && p.fields == ToDict(items[i])
  {
    var k := ApiWrapper.TokenOffset(items, start, i);
    CommandAgainstMain(items[i], tokenAt(k), tokenAt(k + 1));
  }

  /** The prototype `TodoistApiWrapper`. */
  class TodoistApiWrapper {
    const requester: Requester<Payload, ApiWrapper.Response>
    const tokens: TokenSupply

    constructor(requester: Requester<Payload, ApiWrapper.Response>, tokens: TokenSupply)
      ensures this.requester == requester && this.tokens == tokens
    {
      this.requester := requester;
      this.tokens := tokens;
    }

    /** `get_all_todoist_objects`: one read request, each kind decoded in response order. */
    method GetAllTodoistObjects() returns (r: Result<ConcreteTodoistObjects, DecodeError>)
      modifies requester
      ensures requester.calls == old(requester.calls) + [ReadAll]
      ensures r == ApiWrapper.DecodeObjects(requester.reply(ReadAll))
    {
      var response := requester.MakeRequest(ReadResources("*", ["labels", "filters", "projects"]));
      var labels := ApiWrapper.DecodeRecords(LabelKind, ApiWrapper.ResourceList(response, "labels"));
      if labels.Err? { return Err(labels.error); }
      var filters := ApiWrapper.DecodeRecords(FilterKind, ApiWrapper.ResourceList(response, "filters"));
      if filters.Err? { return Err(filters.error); }
      var projects := ApiWrapper.DecodeRecords(ProjectKind, ApiWrapper.ResourceList(response, "projects"));
      if projects.Err? { return Err(projects.error); }
      return Ok(ConcreteTodoistObjects(labels.value, filters.value, projects.value));
    }

    /** `_create_update_command`. */
    method CreateUpdateCommand(itemType: string, itemId: Option<int>, updatedItem: ConcreteItem) returns (command: Command)
      modifies tokens
      ensures command == CommandAt(itemType, itemId, ToDict(updatedItem), tokens.tokenAt, old(tokens.drawn))
      ensures tokens.drawn == old(tokens.drawn) + ApiWrapper.TokensFor(itemId)
    {
      var actionType := if ApiWrapper.Truthy(itemId) then "update" else "add";
      ghost var commandType := itemType + "_" + actionType;
      var uuid := tokens.Draw();
      var args;
      if ApiWrapper.Truthy(itemId) {
        assert commandType == itemType + "_update" by {
          assert "_" + actionType == "_update";
          assert itemType + "_" + actionType == itemType + ("_" + actionType);
        }
        args := IdArgs(itemId.value);
      } else {
        assert commandType == itemType + "_add" by {
          assert "_" + actionType == "_add";
          assert itemType + "_" + actionType == itemType + ("_" + actionType);
        }
        var tempId := tokens.Draw();
        args := TempIdArgs(tempId);
      }
      command := Command(itemType + "_" + actionType, uuid, args, ToDict(updatedItem));
    }

    /** The loop of `update_todoist_objects`: one command per item, in order. */
    method BuildSyncCommands(items: seq<ConcreteItem>) returns (syncCommands: seq<Command>)
      modifies tokens
      ensures syncCommands == BuildCommands(items, tokens.tokenAt, old(tokens.drawn))
      ensures tokens.drawn == old(tokens.drawn) + ApiWrapper.TokensNeeded(items)
    {
      syncCommands := [];
      var i := 0;
      while i < |items|
        invariant 0 <= i <= |items|
        invariant |syncCommands| == i
        invariant forall j :: 0 <= j < i ==> syncCommands[j] == ItemCommand(items[j], tokens.tokenAt, ApiWrapper.TokenOffset(items, old(tokens.drawn), j))
        invariant tokens.drawn == ApiWrapper.TokenOffset(items, old(tokens.drawn), i)
      {
        ApiWrapper.TokenOffsetStep(items, old(tokens.drawn), i);
        var item := items[i];
        var command := CreateUpdateCommand(GetType(item), item.id, item);
        ghost var expected := ItemCommand(items[i], tokens.tokenAt, ApiWrapper.TokenOffset(items, old(tokens.drawn), i));
        assert command == expected;
        var extended := syncCommands + [command];
        forall j | 0 <= j < i + 1
          ensures extended[j] == ItemCommand(items[j], tokens.tokenAt, ApiWrapper.TokenOffset(items, old(tokens.drawn), j))
        {
          if j < i {
            assert extended[j] == syncCommands[j];
          }
        }
        syncCommands := extended;
        i := i + 1;
      }
      assert items[..i] == items;
      assert syncCommands == BuildCommands(items, tokens.tokenAt, old(tokens.drawn));
    }

    /** `update_todoist_objects`: one command per item, in order, sent in a single request. */
    method UpdateTodoistObjects(todoistObjects: ConcreteTodoistObjects) returns (syncCommands: seq<Command>, response: ApiWrapper.Response)
      modifies requester, tokens
      ensures syncCommands == BuildCommands(GetAllItems(todoistObjects), tokens.tokenAt, old(tokens.drawn))
      ensures tokens.drawn == old(tokens.drawn) + ApiWrapper.TokensNeeded(GetAllItems(todoistObjects))
      ensures requester.calls == old(requester.calls) + [WriteCommands(syncCommands)]
      ensures response == requester.reply(WriteCommands(syncCommands))
    {
      syncCommands := BuildSyncCommands(GetAllItems(todoistObjects));
      response := requester.MakeRequest(WriteCommands(syncCommands));
    }
  }
}
