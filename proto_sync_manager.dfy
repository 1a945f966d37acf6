/**
 * The prototype reconciler of src/gtd/todoist_sync_manager.py: for each
 * desired label, then each desired filter, the first fetched resource of
 * that kind with the same name supplies the id, and one command is queued
 * in `sync_commands`; the whole queue is then sent as one batch.
 */
module ProtoSyncManager {
  import opened Wrappers
  import opened Models
  import opened Environment
  import ProtoModels
  import ApiWrapper
  import ProtoApiWrapper
  import Reconciler

  /** The two requests the manager sends. */
  datatype SyncRequest =
    | ReadRequest(token: string, syncToken: string, resourceTypes: seq<string>)
    | BatchRequest(commands: seq<ProtoApiWrapper.Command>)

  /** The exceptions `sync` can raise before it sends the batch. */
  datatype SyncError = KeyError(key: string) | AttributeError(attribute: string)

  /** The request `_get_existing_resources` makes. */
  function ReadFor(apiKey: string): SyncRequest {
    ReadRequest(apiKey, "*", ["labels", "filters"])
  }

  /** `{t: response[t] for t in ["labels", "filters"]}`: a missing key raises. */
  function ExistingResources(response: ApiWrapper.Response): (r: Result<map<string, seq<ApiWrapper.Record>>, SyncError>)
    ensures r.Ok? <==> "labels" in response.resources && "filters" in response.resources
    ensures r.Ok? ==> (r.value.Keys == {"labels", "filters"}
      && r.value["labels"] == response.resources["labels"] && r.value["filters"] == response.resources["filters"])
  {
    if "labels" !in response.resources then Err(KeyError("labels"))
    else if "filters" !in response.resources then Err(KeyError("filters"))
    else Ok(map["labels" := response.resources["labels"], "filters" := response.resources["filters"]])
  }

  /** None of the first `i` records is nameless or carries the name. */
  predicate OthersBefore(records: seq<ApiWrapper.Record>, name: string, i: nat)
    requires i <= |records|
  {
    forall j :: 0 <= j < i ==> Lookup(records[j], Name).Some? && Lookup(records[j], Name) != Some(Str(name))
  }

  /**
   * `next((e for e in records if e["name"] == name), None)`: scanning stops
   * at the first record with the name, and raises at a record with no name.
   */
  function FirstNamed(records: seq<ApiWrapper.Record>, name: string): Result<Option<ApiWrapper.Record>, SyncError>
    decreases |records|
  {
    if records == [] then Ok(None)
    else match Lookup(records[0], Name)
      case None => Err(KeyError("name"))
      case Some(v) => if v == Str(name) then Ok(Some(records[0])) else FirstNamed(records[1..], name)
  }

  /**
   * Where the scan stopped: at the first record with the name, at the first
   * nameless record, or past the end, with every record before it named
   * otherwise.
   */
  lemma {:induction false} FirstNamedStops(records: seq<ApiWrapper.Record>, name: string) returns (i: nat)
    ensures i <= |records| && OthersBefore(records, name, i)
    ensures var r := FirstNamed(records, name);
      && (r == Ok(None) <==> i == |records|)
      && (r.Ok? && r.value.Some? ==> i < |records| && r.value.value == records[i] && Lookup(records[i], Name) == Some(Str(name)))
      && (r.Err? ==> r.error == KeyError("name") && i < |records| && Lookup(records[i], Name).None?)
    decreases |records|
  {
    if records == [] {
      i := 0;
    } else if Lookup(records[0], Name).None? || Lookup(records[0], Name) == Some(Str(name)) {
      i := 0;
    } else {
      var k := FirstNamedStops(records[1..], name);
      i := k + 1;
      forall j | 0 <= j < i
        ensures Lookup(records[j], Name).Some? && Lookup(records[j], Name) != Some(Str(name))
      {
        if j > 0 {
          assert records[j] == records[1..][j - 1];
        }
      }
    }
  }

  /** `existing_item.get("id")`: a numeric id, or None when the key is missing or null. */
  function IdOf(record: ApiWrapper.Record): Option<int> {
    match Lookup(record, Id)
    case Some(Num(n)) => Some(n)
    case _ => None
  }

  /** One `_create_update_item` call of the loop: its item type, the id found and the desired record. */
  datatype Step = Step(itemType: string, itemId: Option<int>, item: ProtoModels.TodoistItem)

  /** The calls the loop over one kind makes, and the exception that ended it early, if any. */
  datatype Plan = Plan(steps: seq<Step>, failure: Option<SyncError>)

  function PlanKind(itemType: string, records: seq<ApiWrapper.Record>, items: seq<ProtoModels.TodoistItem>): (p: Plan)
    ensures |p.steps| <= |items|
    decreases |items|
  {
    if items == [] then Plan([], None)
    else
      var n := |items| - 1;
      var earlier := PlanKind(itemType, records, items[..n]);
      if earlier.failure.Some? then earlier
      else match FirstNamed(records, items[n].name)
        case Err(e) => Plan(earlier.steps, Some(e))
        case Ok(None) => Plan(earlier.steps, Some(AttributeError("get")))
        case Ok(Some(existing)) => Plan(earlier.steps + [Step(itemType, IdOf(existing), items[n])], None)
  }

  /**
   * Without a failure every desired item gets one step, in order, with the
   * id of the first same-named resource; a failure stops at the first item
   * whose scan raised or found nothing.
   */
  lemma {:induction false} PlanKindSteps(itemType: string, records: seq<ApiWrapper.Record>, items: seq<ProtoModels.TodoistItem>)
    ensures var p := PlanKind(itemType, records, items);
      && (p.failure.None? ==> |p.steps| == |items|)
      && (p.failure.Some? ==> (|p.steps| < |items|
            && (var r := FirstNamed(records, items[|p.steps|].name); r.Err? || r == Ok(None))))
      && forall i :: 0 <= i < |p.steps| ==>
           (var r := FirstNamed(records, items[i].name);
            r.Ok? && r.value.Some? && p.steps[i] == Step(itemType, IdOf(r.value.value), items[i]))
    decreases |items|
  {
    if items != [] {
      var n := |items| - 1;
      PlanKindSteps(itemType, records, items[..n]);
      var earlier := PlanKind(itemType, records, items[..n]);
      var p := PlanKind(itemType, records, items);
      var r := FirstNamed(records, items[n].name);
      assert p.steps[..|earlier.steps|] == earlier.steps;
      assert |p.steps| > |earlier.steps| ==>
        earlier.failure.None? && |earlier.steps| == n && r.Ok? && r.value.Some?
        && p.steps[n] == Step(itemType, IdOf(r.value.value), items[n]);
      forall i | 0 <= i < |p.steps|
        ensures var r := FirstNamed(records, items[i].name);
          r.Ok? && r.value.Some? && p.steps[i] == Step(itemType, IdOf(r.value.value), items[i])
      {
        if i < |earlier.steps| {
          assert items[..n][i] == items[i];
          assert p.steps[i] == earlier.steps[i] by {
            assert p.steps[i] == p.steps[..|earlier.steps|][i];
          }
        } else {
          assert i == n;
        }
      }
    }
  }

  /** The tokens drawn by the commands of the steps. */
  function StepTokens(steps: seq<Step>): nat
    decreases |steps|
  {
    if steps == [] then 0 else StepTokens(steps[..|steps| - 1]) + ApiWrapper.TokensFor(steps[|steps| - 1].itemId)
  }

  /** Where the tokens drawn after all the steps start. */
  function TokensAfter(steps: seq<Step>, start: nat): nat {
    start + StepTokens(steps)
  }

  /** Where the tokens of the step at position `i` start: after those every earlier step drew. */
  function StepOffset(steps: seq<Step>, start: nat, i: nat): nat
    requires i <= |steps|
  {
    start + StepTokens(steps[..i])
  }

  function StepCommand(step: Step, tokenAt: nat -> string, k: nat): ProtoApiWrapper.Command {
    ProtoApiWrapper.CommandAt(step.itemType, step.itemId, ProtoModels.ToDict(step.item), tokenAt, k)
  }

  /** The commands the steps queue, drawing tokens from position `start` on. */
  function StepCommands(steps: seq<Step>, tokenAt: nat -> string, start: nat): (commands: seq<ProtoApiWrapper.Command>)
    ensures |commands| == |steps|
  {
    seq(|steps|, i requires 0 <= i < |steps| => StepCommand(steps[i], tokenAt, StepOffset(steps, start, i)))
  }

  lemma StepCommandsAppend(steps: seq<Step>, step: Step, tokenAt: nat -> string, start: nat)
    ensures StepCommands(steps + [step], tokenAt, start) ==
      StepCommands(steps, tokenAt, start) + [StepCommand(step, tokenAt, TokensAfter(steps, start))]
  {
    var whole := StepCommands(steps + [step], tokenAt, start);
    var front := StepCommands(steps, tokenAt, start);
    var last := StepCommand(step, tokenAt, TokensAfter(steps, start));
    forall i | 0 <= i < |whole|
      ensures whole[i] == (front + [last])[i]
    {
      StepOffsetPrefix(steps, step, start, i);
      if i < |steps| {
        assert whole[i] == front[i];
      } else {
        assert whole[i] == last;
      }
    }
  }

  lemma StepTokensAppend(steps: seq<Step>, step: Step, start: nat)
    ensures TokensAfter(steps + [step], start) == TokensAfter(steps, start) + ApiWrapper.TokensFor(step.itemId)
  {
    assert (steps + [step])[..|steps|] == steps;
  }

  lemma StepOffsetPrefix(steps: seq<Step>, step: Step, start: nat, i: nat)
    requires i <= |steps|
    ensures StepOffset(steps + [step], start, i) == StepOffset(steps, start, i)
    ensures (steps + [step])[i] == if i < |steps| then steps[i] else step
    ensures i == |steps| ==> StepOffset(steps, start, i) == TokensAfter(steps, start)
  {
    assert (steps + [step])[..i] == steps[..i];
    assert steps[..|steps|] == steps;
  }

  /** The label loop of `sync`. */
  function LabelPlan(existing: map<string, seq<ApiWrapper.Record>>, collection: ProtoModels.TodoistCollection): Plan
    requires "labels" in existing && "filters" in existing
  {
    PlanKind("label", existing["labels"], collection.labels)
  }

  /** The filter loop of `sync`, which runs only when the label loop raised nothing; its failure is the whole `sync`'s. */
  function FilterPlan(existing: map<string, seq<ApiWrapper.Record>>, collection: ProtoModels.TodoistCollection): Plan
    requires "labels" in existing && "filters" in existing
  {
    var labels := LabelPlan(existing, collection);
    if labels.failure.Some? then Plan([], labels.failure)
    else PlanKind("filter", existing["filters"], collection.filters)
  }

  /** What one `sync` appends to the queue, drawing tokens from position `start` on. */
  function Queued(existing: map<string, seq<ApiWrapper.Record>>, collection: ProtoModels.TodoistCollection,
                  tokenAt: nat -> string, start: nat): seq<ProtoApiWrapper.Command>
    requires "labels" in existing && "filters" in existing
  {
    var labels := LabelPlan(existing, collection).steps;
    StepCommands(labels, tokenAt, start) + StepCommands(FilterPlan(existing, collection).steps, tokenAt, TokensAfter(labels, start))
  }

  /** The tokens one `sync` draws. */
  function QueuedTokens(existing: map<string, seq<ApiWrapper.Record>>, collection: ProtoModels.TodoistCollection): nat
    requires "labels" in existing && "filters" in existing
  {
    StepTokens(LabelPlan(existing, collection).steps) + StepTokens(FilterPlan(existing, collection).steps)
  }

  /**
   * A `sync` that raises nothing queues one command per desired label and
   * then one per desired filter, each carrying that item's serialised fields
   * and the id of the first fetched resource with its name.
   */
  lemma SyncQueuesEveryItem(existing: map<string, seq<ApiWrapper.Record>>, collection: ProtoModels.TodoistCollection,
                            tokenAt: nat -> string, start: nat)
    requires "labels" in existing && "filters" in existing
    requires FilterPlan(existing, collection).failure.None?
    ensures var q := Queued(existing, collection, tokenAt, start);
      var nl := |collection.labels|;
      && |q| == nl + |collection.filters|
      && (forall i :: 0 <= i < nl ==> q[i].fields == ProtoModels.ToDict(collection.labels[i]))
      && (forall j :: 0 <= j < |collection.filters| ==> q[nl + j].fields == ProtoModels.ToDict(collection.filters[j]))
  {
    var labels := LabelPlan(existing, collection);
    var filters := FilterPlan(existing, collection);
    var first := StepCommands(labels.steps, tokenAt, start);
    var second := StepCommands(filters.steps, tokenAt, TokensAfter(labels.steps, start));
    var q := first + second;
    assert labels.failure.None? && filters.failure.None?;
    assert Queued(existing, collection, tokenAt, start) == q;
    assert |labels.steps| == |collection.labels| by {
      PlanKindSteps("label", existing["labels"], collection.labels);
    }
    assert |filters.steps| == |collection.filters| by {
      PlanKindSteps("filter", existing["filters"], collection.filters);
    }
    forall i | 0 <= i < |collection.labels|
      ensures q[i].fields == ProtoModels.ToDict(collection.labels[i])
    {
      StepCommandFields(labels.steps, tokenAt, start, i);
      PlanKindItem("label", existing["labels"], collection.labels, i);
    }
    forall j | 0 <= j < |collection.filters|
      ensures q[|collection.labels| + j].fields == ProtoModels.ToDict(collection.filters[j])
    {
      StepCommandFields(filters.steps, tokenAt, TokensAfter(labels.steps, start), j);
      PlanKindItem("filter", existing["filters"], collection.filters, j);
      assert q[|collection.labels| + j] == second[j];
    }
  }

  lemma PlanKindItem(itemType: string, records: seq<ApiWrapper.Record>, items: seq<ProtoModels.TodoistItem>, i: nat)
    requires i < |PlanKind(itemType, records, items).steps|
    ensures i < |items| && PlanKind(itemType, records, items).steps[i].item == items[i]
  {
    PlanKindSteps(itemType, records, items);
  }

  lemma StepCommandFields(steps: seq<Step>, tokenAt: nat -> string, start: nat, i: nat)
    requires i < |steps|
    ensures StepCommands(steps, tokenAt, start)[i].fields == ProtoModels.ToDict(steps[i].item)
  {
  }

  /** Two same-named resources: the prototype takes the first one's id. */
  const FirstWork := ConcreteTodoistLabel("Work", id := Some(1))
  const SecondWork := ConcreteTodoistLabel("Work", id := Some(2))

  /**
   * The prototype's first match against the reconciler's last-wins index:
   * with two same-named resources they pick different ids.
   */
  lemma FirstMatchAgainstLastWins()
    ensures FirstNamed(ApiWrapper.Encode([FirstWork, SecondWork]), "Work") == Ok(Some(ToDict(FirstWork)))
    ensures IdOf(ToDict(FirstWork)) == Some(1)
    ensures Reconciler.IndexByName([FirstWork, SecondWork])["Work"].id == Some(2)
  {
    var records := ApiWrapper.Encode([FirstWork, SecondWork]);
    assert records[0] == ToDict(FirstWork);
    var d := ToDict(FirstWork);
    assert d[0] == Entry(Name, Str("Work"));
    assert Lookup(d, Id) == Some(Num(1)) by {
      assert d[|d| - 1] == Entry(Id, Num(1));
      PutLookupLast(d);
    }
    assert [FirstWork, SecondWork][..1] == [FirstWork];
  }

  /** In a dictionary with distinct keys, the last entry is what a lookup of its key finds. */
  lemma {:induction false} PutLookupLast(d: Dict)
    requires |d| > 0
    requires forall i, j :: 0 <= i < j < |d| ==> d[i].key != d[j].key
    ensures Lookup(d, d[|d| - 1].key) == Some(d[|d| - 1].value)
    decreases |d|
  {
    if |d| > 1 {
      assert d[0].key != d[|d| - 1].key;
      PutLookupLast(d[1..]);
    }
  }

  /** The prototype `TodoistSyncManager`: its queue of commands grows with every call. */
  class TodoistSyncManager {
    const apiKey: string
    const requester: Requester<SyncRequest, ApiWrapper.Response>
    const tokens: TokenSupply
    var syncCommands: seq<ProtoApiWrapper.Command>

    constructor(apiKey: string, requester: Requester<SyncRequest, ApiWrapper.Response>, tokens: TokenSupply)
      ensures this.apiKey == apiKey && this.requester == requester && this.tokens == tokens
      ensures syncCommands == []
    {
      this.apiKey := apiKey;
      this.requester := requester;
      this.tokens := tokens;
      syncCommands := [];
    }

    /** `_get_existing_resources`: one read request, then the two lists. */
    method GetExistingResources() returns (r: Result<map<string, seq<ApiWrapper.Record>>, SyncError>)
      modifies requester
      ensures requester.calls == old(requester.calls) + [ReadFor(apiKey)]
      ensures r == ExistingResources(requester.reply(ReadFor(apiKey)))
    {
      var response := requester.MakeRequest(ReadRequest(apiKey, "*", ["labels", "filters"]));
      if "labels" !in response.resources {
        return Err(KeyError("labels"));
      }
      if "filters" !in response.resources {
        return Err(KeyError("filters"));
      }
      r := Ok(map["labels" := response.resources["labels"], "filters" := response.resources["filters"]]);
    }

    /** `_create_update_item`: appends exactly one command; the queue before it is unchanged. */
    method CreateUpdateItem(itemType: string, itemId: Option<int>, updatedItem: ProtoModels.TodoistItem)
      modifies this, tokens
      ensures syncCommands == old(syncCommands) +
        [ProtoApiWrapper.CommandAt(itemType, itemId, ProtoModels.ToDict(updatedItem), tokens.tokenAt, old(tokens.drawn))]
      ensures tokens.drawn == old(tokens.drawn) + ApiWrapper.TokensFor(itemId)
    {
      ghost var expected := ProtoApiWrapper.CommandAt(itemType, itemId, ProtoModels.ToDict(updatedItem), tokens.tokenAt, tokens.drawn);
      var actionType := if ApiWrapper.Truthy(itemId) then "update" else "add";
      ghost var commandType := itemType + "_" + actionType;
      var uuid := tokens.Draw();
      var args;
      if ApiWrapper.Truthy(itemId) {
        assert commandType == itemType + "_update" by {
          assert "_" + actionType == "_update";
          assert itemType + "_" + actionType == itemType + ("_" + actionType);
        }
        args := ProtoApiWrapper.IdArgs(itemId.value);
      } else {
        assert commandType == itemType + "_add" by {
          assert "_" + actionType == "_add";
          assert itemType + "_" + actionType == itemType + ("_" + actionType);
        }
        var tempId := tokens.Draw();
        args := ProtoApiWrapper.TempIdArgs(tempId);
      }
      var command := ProtoApiWrapper.Command(itemType + "_" + actionType, uuid, args, ProtoModels.ToDict(updatedItem));
      assert command == expected;
      syncCommands := syncCommands + [command];
    }

    /** The inner loop of `sync` for one kind. */
    method SyncKind(itemType: string, records: seq<ApiWrapper.Record>, items: seq<ProtoModels.TodoistItem>)
      returns (failure: Option<SyncError>)
      modifies this, tokens
      ensures var p := PlanKind(itemType, records, items);
        && failure == p.failure
        && syncCommands == old(syncCommands) + StepCommands(p.steps, tokens.tokenAt, old(tokens.drawn))
        && tokens.drawn == TokensAfter(p.steps, old(tokens.drawn))
    {
      failure := None;
      ghost var start := tokens.drawn;
      ghost var steps := [];
      var i := 0;
      while i < |items|
        invariant 0 <= i <= |items|
        invariant PlanKind(itemType, records, items[..i]) == Plan(steps, None)
        invariant syncCommands == old(syncCommands) + StepCommands(steps, tokens.tokenAt, start)
        invariant tokens.drawn == TokensAfter(steps, start)
      {
        var item := items[i];
        PlanKindNext(itemType, records, items, i);
        var existing := FirstNamed(records, item.name);
        if existing.Err? {
          PlanStopsAt(itemType, records, items, i);
          return Some(existing.error);
        }
        if existing.value.None? {
          PlanStopsAt(itemType, records, items, i);
          return Some(AttributeError("get"));
        }
        var itemId := IdOf(existing.value.value);
        ghost var step := Step(itemType, itemId, item);
        StepCommandsAppend(steps, step, tokens.tokenAt, start);
        StepTokensAppend(steps, step, start);
        ghost var before := syncCommands;
        CreateUpdateItem(itemType, itemId, item);
        assert syncCommands == before + [StepCommand(step, tokens.tokenAt, TokensAfter(steps, start))];
        steps := steps + [step];
        i := i + 1;
      }
      assert items[..i] == items;
    }

    /** The two loops of `sync`: labels, then filters, stopping at the first exception. */
    method QueueCollection(resources: map<string, seq<ApiWrapper.Record>>, collection: ProtoModels.TodoistCollection)
      returns (failure: Option<SyncError>)
      requires "labels" in resources && "filters" in resources
      modifies this, tokens
      ensures failure == FilterPlan(resources, collection).failure
      ensures syncCommands == old(syncCommands) + Queued(resources, collection, tokens.tokenAt, old(tokens.drawn))
      ensures tokens.drawn == old(tokens.drawn) + QueuedTokens(resources, collection)
    {
      ghost var start := tokens.drawn;
      ghost var labels := LabelPlan(resources, collection);
      ghost var filters := FilterPlan(resources, collection);
      failure := SyncKind("label", resources["labels"], collection.labels);
      if failure.Some? {
        assert filters == Plan([], failure);
        ghost var none := StepCommands(filters.steps, tokens.tokenAt, TokensAfter(labels.steps, start));
        assert none == [];
        assert syncCommands == syncCommands + none;
        return;
      }
      failure := SyncKind("filter", resources["filters"], collection.filters);
    }

    /**
     * `sync`: reads the resources, queues one command per matched desired
     * label and filter, then sends the whole queue, earlier calls' commands
     * included. An exception leaves the commands queued so far in place and
     * sends nothing more.
     */
    method Sync(collection: ProtoModels.TodoistCollection) returns (r: Result<(), SyncError>)
      modifies this, tokens, requester
      ensures var existing := ExistingResources(requester.reply(ReadFor(apiKey)));
        && (existing.Err? ==> r == Err(existing.error) && syncCommands == old(syncCommands)
                              && tokens.drawn == old(tokens.drawn)
                              && requester.calls == old(requester.calls) + [ReadFor(apiKey)])
        && (existing.Ok? ==>
              var failure := FilterPlan(existing.value, collection).failure;
              && syncCommands == old(syncCommands) + Queued(existing.value, collection, tokens.tokenAt, old(tokens.drawn))
              && tokens.drawn == old(tokens.drawn) + QueuedTokens(existing.value, collection)
              && (failure.Some? ==> r == Err(failure.value) && requester.calls == old(requester.calls) + [ReadFor(apiKey)])
              && (failure.None? ==> (r == Ok(()) &&
                    requester.calls == old(requester.calls) + [ReadFor(apiKey), BatchRequest(syncCommands)])))
    {
      var existing := GetExistingResources();
      if existing.Err? {
        return Err(existing.error);
      }
      var failure := QueueCollection(existing.value, collection);
      if failure.Some? {
        return Err(failure.value);
      }
      var sent := requester.MakeRequest(BatchRequest(syncCommands));
      r := Ok(());
    }
  }

  /** One more item of the loop: the plan grows by its step, or stops at its failure. */
  lemma PlanKindNext(itemType: string, records: seq<ApiWrapper.Record>, items: seq<ProtoModels.TodoistItem>, i: nat)
    requires i < |items|
    requires PlanKind(itemType, records, items[..i]).failure.None?
    ensures var steps := PlanKind(itemType, records, items[..i]).steps;
      var r := FirstNamed(records, items[i].name);
      PlanKind(itemType, records, items[..i + 1]) ==
        if r.Err? then Plan(steps, Some(r.error))
        else if r.value.None? then Plan(steps, Some(AttributeError("get")))
        else Plan(steps + [Step(itemType, IdOf(r.value.value), items[i])], None)
  {
    assert items[..i + 1][..i] == items[..i];
  }

  /** An early stop: the plan for all items is the plan up to the failing one. */
  lemma {:induction false} PlanStopsAt(itemType: string, records: seq<ApiWrapper.Record>, items: seq<ProtoModels.TodoistItem>, i: nat)
    requires i < |items|
    requires PlanKind(itemType, records, items[..i + 1]).failure.Some?
    ensures PlanKind(itemType, records, items) == PlanKind(itemType, records, items[..i + 1])
    decreases |items| - i
  {
    if i + 1 < |items| {
      var n := |items| - 1;
      assert items[..n][..i + 1] == items[..i + 1];
      PlanStopsAt(itemType, records, items[..n], i);
    } else {
      assert items[..i + 1] == items;
    }
  }
}
