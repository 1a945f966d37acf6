/**
 * The reconciler of autodoist/todoist/sync_manager.py. For each kind, the
 * desired records are matched by name against the records fetched from
 * Todoist: an unmatched desired record becomes a record to create, a matched
 * one whose fields differ becomes an update record built from the differing
 * fields plus `id` and `name`, and a matched one that agrees yields nothing.
 * Nothing is ever deleted.
 */
module Reconciler {
  import opened Wrappers
  import opened Models

  /** `{obj.name: obj for obj in existing}`: a later record with the same name replaces an earlier one. */
  function IndexByName(existing: seq<ConcreteItem>): (index: map<string, ConcreteItem>)
    ensures forall n :: n in index ==> index[n] in existing && index[n].name == n
    decreases |existing|
  {
    if existing == [] then map[]
    else
      var last := existing[|existing| - 1];
      var earlier := IndexByName(existing[..|existing| - 1]);
      assert forall n :: n in earlier ==> earlier[n] in existing;
      earlier[last.name := last]
  }

  /** A name is indexed iff some record carries it. */
  lemma {:induction false} IndexByNameKeys(existing: seq<ConcreteItem>, n: string)
    ensures n in IndexByName(existing) <==> exists i :: 0 <= i < |existing| && existing[i].name == n
    decreases |existing|
  {
    if existing != [] {
      var k := |existing| - 1;
      var prefix := existing[..k];
      IndexByNameKeys(prefix, n);
      if exists i :: 0 <= i < |existing| && existing[i].name == n {
        var i :| 0 <= i < |existing| && existing[i].name == n;
        if i < k {
          assert prefix[i].name == n;
        }
      }
      if exists i :: 0 <= i < |prefix| && prefix[i].name == n {
        var i :| 0 <= i < |prefix| && prefix[i].name == n;
        assert existing[i].name == n;
      }
    }
  }

  /** An indexed name maps to the LAST record that carries it. */
  lemma {:induction false} IndexByNameLastWins(existing: seq<ConcreteItem>, n: string)
    requires n in IndexByName(existing)
    ensures exists i :: (0 <= i < |existing| && existing[i] == IndexByName(existing)[n]
      && forall j :: i < j < |existing| ==> existing[j].name != n)
    decreases |existing|
  {
    var k := |existing| - 1;
    var prefix := existing[..k];
    if existing[k].name == n {
      assert existing[k] == IndexByName(existing)[n];
    } else {
      assert IndexByName(existing)[n] == IndexByName(prefix)[n];
      IndexByNameLastWins(prefix, n);
      var i :| 0 <= i < |prefix| && prefix[i] == IndexByName(prefix)[n]
        && forall j :: i < j < |prefix| ==> prefix[j].name != n;
      assert existing[i] == IndexByName(existing)[n];
      assert forall j :: i < j < |existing| ==> existing[j].name != n by {
        forall j | i < j < |existing|
          ensures existing[j].name != n
        {
          if j < k {
            assert existing[j] == prefix[j];
          }
        }
      }
    }
  }

  /** Every indexed record is of the given kind and is indexed under its own name. */
  predicate IndexOfKind(index: map<string, ConcreteItem>, kind: Kind) {
    forall n :: n in index ==> KindOf(index[n]) == kind && index[n].name == n
  }

  lemma IndexByNameOfKind(existing: seq<ConcreteItem>, kind: Kind)
    requires AllOfKind(existing, kind)
    ensures IndexOfKind(IndexByName(existing), kind)
  {
  }

  predicate UniqueKeys(d: Dict) {
    forall i, j :: 0 <= i < j < |d| ==> d[i].key != d[j].key
  }

  /** `{attr: value for attr, value in desired.items() if getattr(existing, attr) != value}`. */
  function DiffAttrs(desired: Dict, existing: ConcreteItem): (diff: Dict)
    requires forall i :: 0 <= i < |desired| ==> desired[i].key in ConcreteFields(KindOf(existing))
    ensures forall i :: 0 <= i < |diff| ==> diff[i] in desired && Attr(existing, diff[i].key) != diff[i].value
    ensures forall i :: 0 <= i < |desired| && Attr(existing, desired[i].key) != desired[i].value ==> desired[i] in diff
    ensures UniqueKeys(desired) ==> UniqueKeys(diff)
    decreases |desired|
  {
    if desired == [] then []
    else
      var rest := DiffAttrs(desired[1..], existing);
      assert forall i :: 0 <= i < |rest| ==> rest[i] in desired;
      if Attr(existing, desired[0].key) != desired[0].value then
        assert UniqueKeys(desired) ==> forall e :: e in desired[1..] ==> e.key != desired[0].key;
        [desired[0]] + rest
      else rest
  }

  /**
   * A desired record agrees with its namesake when colour, favourite flag
   * and, for a filter, query are equal.
   */
  predicate Agrees(d: DesiredItem, e: ConcreteItem)
    requires DesiredKind(d) == KindOf(e)
  {
    d.color == e.color && d.isFavorite == e.isFavorite && (d.TodoistFilter? ==> d.query == e.query)
  }

  /**
   * The update record, field by field: the desired name, the existing id,
   * the desired value of each differing field and the class default of each
   * agreeing one (the query of a filter update is always a differing one).
   */
  function ExpectedUpdate(d: DesiredItem, e: ConcreteItem): ConcreteItem
    requires DesiredKind(d) == KindOf(e)
  {
    var color := if d.color != e.color then d.color else DefaultColor;
    var favorite := if d.isFavorite != e.isFavorite then d.isFavorite else false;
    match d
    case TodoistLabel(_, _, _) => ConcreteTodoistLabel(d.name, color, favorite, e.id)
    case TodoistFilter(_, _, _, _) => ConcreteTodoistFilter(d.name, d.query, color, favorite, e.id)
    case TodoistProject(_, _, _) => ConcreteTodoistProject(d.name, color, favorite, e.id)
  }

  /**
   * What one desired record contributes: a create record equal to it with no
   * id when no fetched record has its name; nothing when its namesake agrees;
   * the KeyError on `query` for a disagreeing filter whose query agrees;
   * otherwise the update record.
   */
  function Outcome(index: map<string, ConcreteItem>, d: DesiredItem, kind: Kind): Result<Option<ConcreteItem>, DecodeError>
    requires DesiredKind(d) == kind && IndexOfKind(index, kind)
  {
    if d.name !in index then Ok(Some(WithId(d, None)))
    else if Agrees(d, index[d.name]) then Ok(None)
    else if kind == FilterKind && d.query == index[d.name].query then Err(MissingField(Query))
    else Ok(Some(ExpectedUpdate(d, index[d.name])))
  }

  /** `updated_attrs` for a desired record and its namesake. */
  function DesiredDiff(d: DesiredItem, e: ConcreteItem): Dict
    requires DesiredKind(d) == KindOf(e)
  {
    DesiredFieldsAreConcreteWithoutId(KindOf(e));
    DiffAttrs(DesiredToDict(d), e)
  }

  /** The dictionary an update record is decoded from: the differing fields, then `id` and `name`. */
  function UpdateDict(d: DesiredItem, e: ConcreteItem): (r: Dict)
    requires DesiredKind(d) == KindOf(e)
    ensures WellTyped(r)
  {
    Put(Put(DesiredDiff(d, e), Id, IdValue(e.id)), Name, Str(d.name))
  }

  /** In the difference, a field has an entry iff it is declared and differs, and the entry is the desired value. */
  lemma DiffLookup(d: DesiredItem, e: ConcreteItem, f: FieldName)
    requires DesiredKind(d) == KindOf(e)
    ensures Lookup(DesiredDiff(d, e), f) ==
      if f in DesiredFields(DesiredKind(d)) && DesiredAttr(d, f) != Attr(e, f) then Some(DesiredAttr(d, f)) else None
  {
    DiffLookupFound(d, e, f);
    DiffLookupDiffers(d, e, f);
  }

  /** An entry of the difference is a desired field whose value differs. */
  lemma DiffLookupFound(d: DesiredItem, e: ConcreteItem, f: FieldName)
    requires DesiredKind(d) == KindOf(e)
    ensures Lookup(DesiredDiff(d, e), f).Some? ==>
      f in DesiredFields(DesiredKind(d)) && DesiredAttr(d, f) != Attr(e, f) && Lookup(DesiredDiff(d, e), f) == Some(DesiredAttr(d, f))
  {
    DesiredFieldsAreConcreteWithoutId(KindOf(e));
    var dict := DesiredToDict(d);
    var diff := DesiredDiff(d, e);
    var r := Lookup(diff, f);
    if r.Some? {
      var i :| 0 <= i < |diff| && diff[i] == Entry(f, r.value);
      assert diff[i] in dict;
      var j :| 0 <= j < |dict| && dict[j] == diff[i];
      assert Keys(dict)[j] == f;
    }
  }

  /** A desired field whose value differs is an entry of the difference. */
  lemma DiffLookupDiffers(d: DesiredItem, e: ConcreteItem, f: FieldName)
    requires DesiredKind(d) == KindOf(e)
    ensures f in DesiredFields(DesiredKind(d)) && DesiredAttr(d, f) != Attr(e, f) ==> Lookup(DesiredDiff(d, e), f).Some?
  {
    if f in DesiredFields(DesiredKind(d)) && DesiredAttr(d, f) != Attr(e, f) {
      DesiredFieldsAreConcreteWithoutId(KindOf(e));
      var dict := DesiredToDict(d);
      var diff := DesiredDiff(d, e);
      var k :| 0 <= k < |dict| && Keys(dict)[k] == f;
      assert dict[k] == Entry(f, DesiredAttr(d, f));
      assert Attr(e, dict[k].key) != dict[k].value;
      assert dict[k] in diff;
      var i :| 0 <= i < |diff| && diff[i] == dict[k];
      assert Keys(diff)[i] == f;
    }
  }

  /** For namesakes, the difference is empty iff the records agree. */
  lemma DiffEmptyIffAgrees(d: DesiredItem, e: ConcreteItem)
    requires DesiredKind(d) == KindOf(e) && d.name == e.name
    ensures DesiredDiff(d, e) == [] <==> Agrees(d, e)
  {
    AgreesWhenDiffEmpty(d, e);
    DisagreesWhenDiffNonEmpty(d, e);
  }

  lemma AgreesWhenDiffEmpty(d: DesiredItem, e: ConcreteItem)
    requires DesiredKind(d) == KindOf(e)
    ensures DesiredDiff(d, e) == [] ==> Agrees(d, e)
  {
    if DesiredDiff(d, e) == [] {
      DiffLookup(d, e, ColorField);
      DiffLookup(d, e, IsFavorite);
      DiffLookup(d, e, Query);
    }
  }

  lemma DisagreesWhenDiffNonEmpty(d: DesiredItem, e: ConcreteItem)
    requires DesiredKind(d) == KindOf(e) && d.name == e.name
    ensures DesiredDiff(d, e) != [] ==> !Agrees(d, e)
  {
    var diff := DesiredDiff(d, e);
    if diff != [] {
      var f := diff[0].key;
      assert Keys(diff)[0] == f;
      DiffLookup(d, e, f);
      assert f != Name;
    }
  }

  /** The update dictionary holds `name`, `id` and exactly the differing fields. */
  lemma UpdateDictLookup(d: DesiredItem, e: ConcreteItem, f: FieldName)
    requires DesiredKind(d) == KindOf(e)
    ensures Lookup(UpdateDict(d, e), f) ==
      if f == Name then Some(Str(d.name))
      else if f == Id then Some(IdValue(e.id))
      else if f in DesiredFields(DesiredKind(d)) && DesiredAttr(d, f) != Attr(e, f) then Some(DesiredAttr(d, f))
      else None
  {
    var diff := DesiredDiff(d, e);
    PutLookup(Put(diff, Id, IdValue(e.id)), Name, Str(d.name), f);
    PutLookup(diff, Id, IdValue(e.id), f);
    DiffLookup(d, e, f);
  }

  /** Decoding the update dictionary gives the update record, or the KeyError on `query`. */
  lemma UpdateDecodes(d: DesiredItem, e: ConcreteItem)
    requires DesiredKind(d) == KindOf(e) && d.name == e.name && !Agrees(d, e)
    ensures FromDict(KindOf(e), UpdateDict(d, e)) ==
      if KindOf(e) == FilterKind && d.query == e.query then Err(MissingField(Query))
      else Ok(ExpectedUpdate(d, e))
  {
    var kind := KindOf(e);
    var u := UpdateDict(d, e);
    DesiredFieldsAreConcreteWithoutId(kind);
    UpdateDictLookup(d, e, Name);
    UpdateDictLookup(d, e, Query);
    if !(kind == FilterKind && d.query == e.query) {
      var x := ExpectedUpdate(d, e);
      forall f | f in ConcreteFields(kind)
        ensures if Lookup(u, f).Some? then Lookup(u, f).value == Attr(x, f) else HasDefault(f) && DefaultValue(f) == Attr(x, f)
      {
        UpdateFieldDecodes(d, e, f);
      }
      FromDictByFields(kind, u, x);
    }
  }

  /** Each field of the update record is the update dictionary's entry, or its default when it has none. */
  lemma UpdateFieldDecodes(d: DesiredItem, e: ConcreteItem, f: FieldName)
    requires DesiredKind(d) == KindOf(e) && d.name == e.name
    requires !(KindOf(e) == FilterKind && d.query == e.query)
    requires f in ConcreteFields(KindOf(e))
    ensures var u := UpdateDict(d, e); var x := ExpectedUpdate(d, e);
      if Lookup(u, f).Some? then Lookup(u, f).value == Attr(x, f) else HasDefault(f) && DefaultValue(f) == Attr(x, f)
  {
    UpdateDictLookup(d, e, f);
    DesiredFieldsAreConcreteWithoutId(KindOf(e));
  }

  /**
   * `_sync_objects` as a function of the name index: the records appended for
   * the desired records in order, or the first KeyError raised.
   */
  function ReconcileIndexed(index: map<string, ConcreteItem>, desired: seq<DesiredItem>, kind: Kind): Result<seq<ConcreteItem>, DecodeError>
    requires AllDesiredOfKind(desired, kind) && IndexOfKind(index, kind)
    decreases |desired|
  {
    if desired == [] then Ok([])
    else
      var done :- ReconcileIndexed(index, desired[..|desired| - 1], kind);
      var one :- Outcome(index, desired[|desired| - 1], kind);
      Ok(done + OptionToSeq(one))
  }

  function Reconcile(existing: seq<ConcreteItem>, desired: seq<DesiredItem>, kind: Kind): Result<seq<ConcreteItem>, DecodeError>
    requires AllOfKind(existing, kind) && AllDesiredOfKind(desired, kind)
  {
    IndexByNameOfKind(existing, kind);
    ReconcileIndexed(IndexByName(existing), desired, kind)
  }

  /** Extending the desired prefix by one record adds that record's outcome. */
  lemma ReconcileStep(index: map<string, ConcreteItem>, desired: seq<DesiredItem>, kind: Kind, i: nat)
    requires AllDesiredOfKind(desired, kind) && IndexOfKind(index, kind)
    requires i < |desired|
    ensures ReconcileIndexed(index, desired[..i + 1], kind) ==
      match ReconcileIndexed(index, desired[..i], kind)
      case Err(err) => Err(err)
      case Ok(done) =>
        match Outcome(index, desired[i], kind)
        case Err(err) => Err(err)
        case Ok(one) => Ok(done + OptionToSeq(one))
  {
    assert desired[..i + 1][..i] == desired[..i];
    assert desired[..i + 1][i] == desired[i];
  }

  /** Once a prefix of the desired records raises, the whole pass raises the same error. */
  lemma {:induction false} ReconcileErrorPersists(index: map<string, ConcreteItem>, desired: seq<DesiredItem>, kind: Kind, k: nat)
    requires AllDesiredOfKind(desired, kind) && IndexOfKind(index, kind)
    requires k <= |desired|
    requires ReconcileIndexed(index, desired[..k], kind).Err?
    ensures ReconcileIndexed(index, desired, kind) == ReconcileIndexed(index, desired[..k], kind)
    decreases |desired| - k
  {
    if k < |desired| {
      assert desired[..k + 1][..k] == desired[..k];
      ReconcileErrorPersists(index, desired, kind, k + 1);
    } else {
      assert desired[..k] == desired;
    }
  }

  /** Per kind, at most one record per desired record, each of that kind. */
  lemma {:induction false} ReconcileBounded(index: map<string, ConcreteItem>, desired: seq<DesiredItem>, kind: Kind)
    requires AllDesiredOfKind(desired, kind) && IndexOfKind(index, kind)
    ensures var r := ReconcileIndexed(index, desired, kind);
      r.Ok? ==> |r.value| <= |desired| && AllOfKind(r.value, kind)
    decreases |desired|
  {
    if desired != [] {
      ReconcileBounded(index, desired[..|desired| - 1], kind);
    }
  }

  /** `pos` picks, strictly increasingly, a desired record carrying the name of each output record. */
  predicate NamedAt(out: seq<ConcreteItem>, desired: seq<DesiredItem>, pos: seq<nat>) {
    && |pos| == |out|
    && (forall i, j :: 0 <= i < j < |pos| ==> pos[i] < pos[j])
    && (forall j :: 0 <= j < |out| ==> pos[j] < |desired| && out[j].name == desired[pos[j]].name)
  }

  /** Positions into a prefix of the desired list are positions into the whole list, all before the cut. */
  lemma NamedAtPrefix(out: seq<ConcreteItem>, desired: seq<DesiredItem>, pos: seq<nat>, n: nat)
    requires n <= |desired| && NamedAt(out, desired[..n], pos)
    ensures NamedAt(out, desired, pos)
    ensures forall j :: 0 <= j < |pos| ==> pos[j] < n
  {
    forall j | 0 <= j < |out|
      ensures pos[j] < |desired| && out[j].name == desired[pos[j]].name
    {
      assert desired[..n][pos[j]] == desired[pos[j]];
    }
  }

  /** A record named after the desired record at the cut extends the positions by the cut. */
  lemma NamedAtAppend(out: seq<ConcreteItem>, desired: seq<DesiredItem>, pos: seq<nat>, x: ConcreteItem, n: nat)
    requires n < |desired| && NamedAt(out, desired[..n], pos) && x.name == desired[n].name
    ensures NamedAt(out + [x], desired, pos + [n])
  {
    NamedAtPrefix(out, desired, pos, n);
    var out', pos' := out + [x], pos + [n];
    forall j | 0 <= j < |out'|
      ensures pos'[j] < |desired| && out'[j].name == desired[pos'[j]].name
    {
      if j < |out| {
        assert out'[j] == out[j] && pos'[j] == pos[j];
      }
    }
  }

  /**
   * The output follows the desired list: each record carries the name of a
   * desired record, at strictly increasing desired positions. A record that
   * is fetched but not desired is never emitted: nothing is deleted.
   */
  lemma {:induction false} ReconcileFollowsDesired(index: map<string, ConcreteItem>, desired: seq<DesiredItem>, kind: Kind)
    returns (pos: seq<nat>)
    requires AllDesiredOfKind(desired, kind) && IndexOfKind(index, kind)
    requires ReconcileIndexed(index, desired, kind).Ok?
    ensures NamedAt(ReconcileIndexed(index, desired, kind).value, desired, pos)
    decreases |desired|
  {
    if desired == [] {
      pos := [];
    } else {
      var n := |desired| - 1;
      var prefix := desired[..n];
      var prefixPos := ReconcileFollowsDesired(index, prefix, kind);
      var done := ReconcileIndexed(index, prefix, kind).value;
      var one := Outcome(index, desired[n], kind).value;
      assert ReconcileIndexed(index, desired, kind).value == done + OptionToSeq(one);
      if one.Some? {
        assert one.value.name == desired[n].name;
        NamedAtAppend(done, desired, prefixPos, one.value, n);
        assert done + OptionToSeq(one) == done + [one.value];
        pos := prefixPos + [n];
      } else {
        NamedAtPrefix(done, desired, prefixPos, n);
        assert done + OptionToSeq(one) == done;
        pos := prefixPos;
      }
    }
  }

  /** A desired filter whose namesake has the same query but some other field different. */
  predicate RaisesOnQuery(index: map<string, ConcreteItem>, d: DesiredItem, kind: Kind)
    requires DesiredKind(d) == kind && IndexOfKind(index, kind)
  {
    kind == FilterKind && d.name in index && !Agrees(d, index[d.name]) && d.query == index[d.name].query
  }

  /**
   * The pass fails iff some desired record raises, which can only be a
   * filter matched to a namesake with the same query but another field
   * different. Labels and projects never fail.
   */
  lemma {:induction false} ReconcileFailsIff(index: map<string, ConcreteItem>, desired: seq<DesiredItem>, kind: Kind)
    requires AllDesiredOfKind(desired, kind) && IndexOfKind(index, kind)
    ensures ReconcileIndexed(index, desired, kind).Err? <==>
      exists i :: 0 <= i < |desired| && RaisesOnQuery(index, desired[i], kind)
    ensures ReconcileIndexed(index, desired, kind).Err? ==>
      ReconcileIndexed(index, desired, kind).error == MissingField(Query)
    decreases |desired|
  {
    if desired != [] {
      var n := |desired| - 1;
      var prefix := desired[..n];
      ReconcileFailsIff(index, prefix, kind);
      if exists i :: 0 <= i < |prefix| && RaisesOnQuery(index, prefix[i], kind) {
        var i :| 0 <= i < |prefix| && RaisesOnQuery(index, prefix[i], kind);
        assert desired[i] == prefix[i];
      }
      if exists i :: 0 <= i < |desired| && RaisesOnQuery(index, desired[i], kind) {
        var i :| 0 <= i < |desired| && RaisesOnQuery(index, desired[i], kind);
        if i < n {
          assert prefix[i] == desired[i];
        }
      }
    }
  }

  /** With nothing fetched, every desired record becomes a create record equal to it, in order. */
  lemma {:induction false} ReconcileAllCreated(desired: seq<DesiredItem>, kind: Kind)
    requires AllDesiredOfKind(desired, kind)
    ensures var r := ReconcileIndexed(map[], desired, kind);
      r.Ok? && |r.value| == |desired| && forall i :: 0 <= i < |desired| ==> r.value[i] == WithId(desired[i], None)
    decreases |desired|
  {
    if desired != [] {
      var n := |desired| - 1;
      ReconcileAllCreated(desired[..n], kind);
      ReconcileStep(map[], desired, kind, n);
      assert desired[..n + 1] == desired;
      assert Outcome(map[], desired[n], kind) == Ok(Some(WithId(desired[n], None)));
    }
  }

  /** When every desired record has an agreeing namesake, nothing is emitted. */
  lemma {:induction false} ReconcileNoChanges(index: map<string, ConcreteItem>, desired: seq<DesiredItem>, kind: Kind)
    requires AllDesiredOfKind(desired, kind) && IndexOfKind(index, kind)
    requires forall i :: 0 <= i < |desired| ==> desired[i].name in index && Agrees(desired[i], index[desired[i].name])
    ensures ReconcileIndexed(index, desired, kind) == Ok([])
    decreases |desired|
  {
    if desired != [] {
      var n := |desired| - 1;
      var prefix := desired[..n];
      forall i | 0 <= i < |prefix|
        ensures prefix[i].name in index && Agrees(prefix[i], index[prefix[i].name])
      {
        assert prefix[i] == desired[i];
      }
      ReconcileNoChanges(index, prefix, kind);
      var one := Outcome(index, desired[n], kind);
      assert one == Ok(None);
      assert ReconcileIndexed(index, desired, kind) == Ok([] + OptionToSeq(one.value));
      assert [] + OptionToSeq(one.value) == [];
    }
  }

  /**
   * One iteration of the loop of `_sync_objects`: `Some` of the record to
   * append, `None` when nothing is appended, or the KeyError `from_dict`
   * raises.
   */
  method SyncItem(index: map<string, ConcreteItem>, d: DesiredItem, kind: Kind)
    returns (r: Result<Option<ConcreteItem>, DecodeError>)
    requires DesiredKind(d) == kind && IndexOfKind(index, kind)
    ensures r == Outcome(index, d, kind)
  {
    if d.name !in index {
      DesiredRoundTrip(d);
      var created := FromDict(kind, DesiredToDict(d));
      return Ok(Some(created.value));
    }
    var e := index[d.name];
    var updatedAttrs := DesiredDiff(d, e);
    DiffEmptyIffAgrees(d, e);
    if updatedAttrs == [] {
      return Ok(None);
    }
    updatedAttrs := Put(updatedAttrs, Id, IdValue(e.id));
    updatedAttrs := Put(updatedAttrs, Name, Str(d.name));
    UpdateDecodes(d, e);
    var updated := FromDict(kind, updatedAttrs);
    if updated.Err? {
      return Err(updated.error);
    }
    return Ok(Some(updated.value));
  }

  /** The dict comprehension that indexes the fetched records by name. */
  method IndexExisting(existing: seq<ConcreteItem>) returns (index: map<string, ConcreteItem>)
    ensures index == IndexByName(existing)
  {
    index := map[];
    var j := 0;
    while j < |existing|
      invariant 0 <= j <= |existing|
      invariant index == IndexByName(existing[..j])
    {
      assert existing[..j + 1][..j] == existing[..j];
      index := index[existing[j].name := existing[j]];
      j := j + 1;
    }
    assert existing[..|existing|] == existing;
  }

  /** `_sync_objects(existing, desired, concrete_class)`, with `kind` naming the class. */
  method SyncObjects(existing: seq<ConcreteItem>, desired: seq<DesiredItem>, kind: Kind)
    returns (r: Result<seq<ConcreteItem>, DecodeError>)
    requires AllOfKind(existing, kind) && AllDesiredOfKind(desired, kind)
    ensures r == Reconcile(existing, desired, kind)
  {
    var existingObjects := IndexExisting(existing);
    IndexByNameOfKind(existing, kind);

    var objectsToSync: seq<ConcreteItem> := [];
    var i := 0;
    while i < |desired|
      invariant 0 <= i <= |desired|
      invariant ReconcileIndexed(existingObjects, desired[..i], kind) == Ok(objectsToSync)
    {
      ReconcileStep(existingObjects, desired, kind, i);
      var one := SyncItem(existingObjects, desired[i], kind);
      if one.Err? {
        ReconcileErrorPersists(existingObjects, desired, kind, i + 1);
        return Err(one.error);
      }
      if one.value.Some? {
        assert OptionToSeq(one.value) == [one.value.value];
        objectsToSync := objectsToSync + [one.value.value];
      } else {
        assert objectsToSync + OptionToSeq(one.value) == objectsToSync;
      }
      i := i + 1;
    }
    assert desired[..|desired|] == desired;
    return Ok(objectsToSync);
  }

  /**
   * `sync`: labels, filters and projects are reconciled independently, each
   * against the fetched records of its own kind only; a KeyError in any kind
   * aborts the whole call.
   */
  method Sync(existingState: ConcreteTodoistObjects, desiredState: TodoistCollection)
    returns (r: Result<ConcreteTodoistObjects, DecodeError>)
    requires WellKindedObjects(existingState) && WellKindedCollection(desiredState)
    ensures var l := Reconcile(existingState.labels, desiredState.labels, LabelKind);
      var f := Reconcile(existingState.filters, desiredState.filters, FilterKind);
      var p := Reconcile(existingState.projects, desiredState.projects, ProjectKind);
      && (r.Ok? <==> l.Ok? && f.Ok? && p.Ok?)
      && (r.Ok? ==> r.value == ConcreteTodoistObjects(l.value, f.value, p.value))
      && (r.Err? ==> r.error == if l.Err? then l.error else if f.Err? then f.error else p.error)
  {
    var labelsToSync := SyncObjects(existingState.labels, desiredState.labels, LabelKind);
    if labelsToSync.Err? { return Err(labelsToSync.error); }
    var filtersToSync := SyncObjects(existingState.filters, desiredState.filters, FilterKind);
    if filtersToSync.Err? { return Err(filtersToSync.error); }
    var projectsToSync := SyncObjects(existingState.projects, desiredState.projects, ProjectKind);
    if projectsToSync.Err? { return Err(projectsToSync.error); }
    return Ok(ConcreteTodoistObjects(labelsToSync.value, filtersToSync.value, projectsToSync.value));
  }
}
