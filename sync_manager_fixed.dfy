/**
 * The reconciler of autodoist/todoist/sync_manager.py with its update
 * record corrected to what the design intends: the desired record with the
 * id of its namesake. The as-written behaviour is kept beside it in module
 * Reconciler, and the lemmas here exhibit where the two part ways.
 */
module ReconcilerFixed {
  import opened Wrappers
  import opened Models
  import opened Reconciler

  /** The corrected contribution of one desired record: create, nothing, or the desired record under the namesake's id. */
  function FixedOutcome(index: map<string, ConcreteItem>, d: DesiredItem, kind: Kind): (r: Option<ConcreteItem>)
    requires DesiredKind(d) == kind && IndexOfKind(index, kind)
    ensures r.Some? ==> KindOf(r.value) == kind && r.value.name == d.name
  {
    if d.name !in index then Some(WithId(d, None))
    else if Agrees(d, index[d.name]) then None
    else Some(WithId(d, index[d.name].id))
  }

  function FixedReconcile(index: map<string, ConcreteItem>, desired: seq<DesiredItem>, kind: Kind): (out: seq<ConcreteItem>)
    requires AllDesiredOfKind(desired, kind) && IndexOfKind(index, kind)
    ensures AllOfKind(out, kind)
    decreases |desired|
  {
    if desired == [] then []
    else
      var n := |desired| - 1;
      var done := FixedReconcile(index, desired[..n], kind);
      var one := FixedOutcome(index, desired[n], kind);
      assert forall r :: r in OptionToSeq(one) ==> KindOf(r) == kind;
      done + OptionToSeq(one)
  }

  /**
   * The records Todoist holds after it has applied `out`, seen by name: each
   * record replaces its namesake or joins the index.
   */
  function Patch(index: map<string, ConcreteItem>, out: seq<ConcreteItem>): (patched: map<string, ConcreteItem>)
    decreases |out|
  {
    if out == [] then index
    else Patch(index, out[..|out| - 1])[out[|out| - 1].name := out[|out| - 1]]
  }

  lemma PatchAppend(index: map<string, ConcreteItem>, out: seq<ConcreteItem>, r: ConcreteItem)
    ensures Patch(index, out + [r]) == Patch(index, out)[r.name := r]
  {
    assert (out + [r])[..|out|] == out;
  }

  lemma {:induction false} PatchOfKind(index: map<string, ConcreteItem>, out: seq<ConcreteItem>, kind: Kind)
    requires IndexOfKind(index, kind) && AllOfKind(out, kind)
    ensures IndexOfKind(Patch(index, out), kind)
    decreases |out|
  {
    if out != [] {
      PatchOfKind(index, out[..|out| - 1], kind);
    }
  }

  predicate UniqueNames(desired: seq<DesiredItem>) {
    forall i, j :: 0 <= i < j < |desired| ==> desired[i].name != desired[j].name
  }

  function NamesUpTo(desired: seq<DesiredItem>, k: nat): set<string>
    requires k <= |desired|
  {
    set i | 0 <= i < k :: desired[i].name
  }

  /** Each of the first `k` desired records has an agreeing namesake in `patched`. */
  predicate AgreesUpTo(patched: map<string, ConcreteItem>, desired: seq<DesiredItem>, kind: Kind, k: nat)
    requires AllDesiredOfKind(desired, kind) && IndexOfKind(patched, kind) && k <= |desired|
  {
    forall i :: 0 <= i < k ==> desired[i].name in patched && Agrees(desired[i], patched[desired[i].name])
  }

  /** Names outside the first `k` desired records are as they were in `index`. */
  ghost predicate UntouchedBeyond(patched: map<string, ConcreteItem>, index: map<string, ConcreteItem>, names: set<string>) {
    forall n :: n !in names ==> (n in patched <==> n in index) && (n in index ==> patched[n] == index[n])
  }

  /**
   * After the corrected output for the first `k` desired records is applied,
   * each of them has an agreeing namesake, and every other name is as it was.
   */
  lemma {:induction false} FixedPatchAgrees(index: map<string, ConcreteItem>, desired: seq<DesiredItem>, kind: Kind, k: nat)
    requires AllDesiredOfKind(desired, kind) && IndexOfKind(index, kind) && UniqueNames(desired)
    requires k <= |desired|
    ensures var patched := Patch(index, FixedReconcile(index, desired[..k], kind));
      && IndexOfKind(patched, kind)
      && AgreesUpTo(patched, desired, kind, k)
      && UntouchedBeyond(patched, index, NamesUpTo(desired, k))
    decreases k
  {
    var out := FixedReconcile(index, desired[..k], kind);
    PatchOfKind(index, out, kind);
    if k > 0 {
      var n := k - 1;
      assert desired[..k][..n] == desired[..n];
      FixedPatchAgrees(index, desired, kind, n);
      FixedPatchStep(index, desired, kind, n);
    }
  }

  /** Applying the output for one more desired record patches at most its own name. */
  lemma PatchByOutcome(index: map<string, ConcreteItem>, desired: seq<DesiredItem>, kind: Kind, n: nat)
    requires AllDesiredOfKind(desired, kind) && IndexOfKind(index, kind)
    requires n < |desired|
    ensures var before := Patch(index, FixedReconcile(index, desired[..n], kind));
      var one := FixedOutcome(index, desired[n], kind);
      Patch(index, FixedReconcile(index, desired[..n + 1], kind)) ==
        if one.Some? then before[desired[n].name := one.value] else before
  {
    assert desired[..n + 1][..n] == desired[..n];
    assert desired[..n + 1][n] == desired[n];
    var done := FixedReconcile(index, desired[..n], kind);
    var one := FixedOutcome(index, desired[n], kind);
    if one.Some? {
      assert OptionToSeq(one) == [one.value];
      PatchAppend(index, done, one.value);
    } else {
      assert done + OptionToSeq(one) == done;
    }
  }

  /** The step of `FixedPatchAgrees`: adding the outcome of desired record `n`. */
  lemma FixedPatchStep(index: map<string, ConcreteItem>, desired: seq<DesiredItem>, kind: Kind, n: nat)
    requires AllDesiredOfKind(desired, kind) && IndexOfKind(index, kind) && UniqueNames(desired)
    requires n < |desired|
    requires var before := Patch(index, FixedReconcile(index, desired[..n], kind));
      && IndexOfKind(before, kind)
      && AgreesUpTo(before, desired, kind, n)
      && UntouchedBeyond(before, index, NamesUpTo(desired, n))
    ensures var after := Patch(index, FixedReconcile(index, desired[..n + 1], kind));
      && IndexOfKind(after, kind)
      && AgreesUpTo(after, desired, kind, n + 1)
      && UntouchedBeyond(after, index, NamesUpTo(desired, n + 1))
  {
    var d := desired[n];
    var before := Patch(index, FixedReconcile(index, desired[..n], kind));
    var after := Patch(index, FixedReconcile(index, desired[..n + 1], kind));
    var one := FixedOutcome(index, d, kind);
    PatchByOutcome(index, desired, kind, n);
    PatchOfKind(index, FixedReconcile(index, desired[..n + 1], kind), kind);
    FixedOutcomeAgrees(index, d, kind);
    if one.Some? {
      assert after == before[d.name := one.value];
    } else {
      assert d.name !in NamesUpTo(desired, n);
      assert after == before && before[d.name] == index[d.name];
    }
    SettledExtends(before, after, index, desired, kind, n);
  }

  /** The corrected record agrees with the desired one; when there is none, the namesake already agrees. */
  lemma FixedOutcomeAgrees(index: map<string, ConcreteItem>, d: DesiredItem, kind: Kind)
    requires DesiredKind(d) == kind && IndexOfKind(index, kind)
    ensures var one := FixedOutcome(index, d, kind);
      && (one.Some? ==> Agrees(d, one.value))
      && (one.None? ==> d.name in index && Agrees(d, index[d.name]))
  {
  }

  /** Fixing desired record `n` and touching no other name extends the settled prefix by one. */
  lemma SettledExtends(before: map<string, ConcreteItem>, after: map<string, ConcreteItem>,
                       index: map<string, ConcreteItem>, desired: seq<DesiredItem>, kind: Kind, n: nat)
    requires AllDesiredOfKind(desired, kind) && IndexOfKind(before, kind) && IndexOfKind(after, kind)
    requires n < |desired| && UniqueNames(desired)
    requires AgreesUpTo(before, desired, kind, n) && UntouchedBeyond(before, index, NamesUpTo(desired, n))
    requires desired[n].name in after && Agrees(desired[n], after[desired[n].name])
    requires forall m :: m != desired[n].name ==> (m in after <==> m in before) && (m in before ==> after[m] == before[m])
    ensures AgreesUpTo(after, desired, kind, n + 1)
    ensures UntouchedBeyond(after, index, NamesUpTo(desired, n + 1))
  {
    assert NamesUpTo(desired, n + 1) == NamesUpTo(desired, n) + {desired[n].name};
    forall i | 0 <= i < n
      ensures desired[i].name in after && Agrees(desired[i], after[desired[i].name])
    {
      assert desired[i].name != desired[n].name;
    }
  }

  /** With unique desired names, the corrected reconciler settles: a second pass against its own result emits nothing. */
  lemma FixedReconcileSettles(index: map<string, ConcreteItem>, desired: seq<DesiredItem>, kind: Kind)
    requires AllDesiredOfKind(desired, kind) && IndexOfKind(index, kind) && UniqueNames(desired)
    ensures var patched := Patch(index, FixedReconcile(index, desired, kind));
      && IndexOfKind(patched, kind)
      && AgreesUpTo(patched, desired, kind, |desired|)
      && UntouchedBeyond(patched, index, NamesUpTo(desired, |desired|))
      && FixedReconcile(patched, desired, kind) == []
  {
    FixedPatchAgrees(index, desired, kind, |desired|);
    assert desired[..|desired|] == desired;
    var patched := Patch(index, FixedReconcile(index, desired, kind));
    FixedNoChanges(patched, desired, kind);
  }

  lemma {:induction false} FixedNoChanges(index: map<string, ConcreteItem>, desired: seq<DesiredItem>, kind: Kind)
    requires AllDesiredOfKind(desired, kind) && IndexOfKind(index, kind)
    requires forall i :: 0 <= i < |desired| ==> desired[i].name in index && Agrees(desired[i], index[desired[i].name])
    ensures FixedReconcile(index, desired, kind) == []
    decreases |desired|
  {
    if desired != [] {
      var n := |desired| - 1;
      FixedNoChanges(index, desired[..n], kind);
      assert FixedOutcome(index, desired[n], kind) == None;
    }
  }

  /**
   * The corrected reconciler agrees with the source wherever the source's
   * update record is not involved: a create and a no-op are the same, and
   * the corrected pass never fails.
   */
  lemma FixedMatchesSourceOutsideUpdates(index: map<string, ConcreteItem>, d: DesiredItem, kind: Kind)
    requires DesiredKind(d) == kind && IndexOfKind(index, kind)
    ensures (d.name !in index || Agrees(d, index[d.name])) ==> Outcome(index, d, kind) == Ok(FixedOutcome(index, d, kind))
    ensures d.name in index && !Agrees(d, index[d.name]) ==>
      FixedOutcome(index, d, kind) == Some(WithId(d, index[d.name].id))
  {
  }

  // Finding 1: the source's update record resets agreeing fields to their defaults.

  const CallLabel := TodoistLabel("call", BerryRed, true)
  const FetchedCall := ConcreteTodoistLabel("call", Yellow, true, Some(123))
  /** The update record the source emits: colour fixed, favourite flag reset. */
  const ResetCall := ConcreteTodoistLabel("call", BerryRed, false, Some(123))
  /** The update record that then follows: favourite flag fixed, colour reset. */
  const RegreyedCall := ConcreteTodoistLabel("call", Grey, true, Some(123))

  /**
   * As written, the source flips between two update records: from the fetched
   * label it emits `ResetCall`, against which it emits `RegreyedCall`,
   * against which it emits `ResetCall` again. It never settles.
   */
  lemma AsWrittenUpdateOscillates()
    ensures Reconcile([FetchedCall], [CallLabel], LabelKind) == Ok([ResetCall])
    ensures Reconcile([ResetCall], [CallLabel], LabelKind) == Ok([RegreyedCall])
    ensures Reconcile([RegreyedCall], [CallLabel], LabelKind) == Ok([ResetCall])
  {
    OneLabelPass(FetchedCall);
    OneLabelPass(ResetCall);
    OneLabelPass(RegreyedCall);
  }

  lemma OneLabelPass(fetched: ConcreteItem)
    requires fetched.ConcreteTodoistLabel? && fetched.name == CallLabel.name && !Agrees(CallLabel, fetched)
    ensures Reconcile([fetched], [CallLabel], LabelKind) == Ok([ExpectedUpdate(CallLabel, fetched)])
  {
    assert [fetched][..0] == [];
    var index := IndexByName([fetched]);
    assert index == map[fetched.name := fetched];
    IndexByNameOfKind([fetched], LabelKind);
    ReconcileStep(index, [CallLabel], LabelKind, 0);
    assert [CallLabel][..0] == [];
    assert [CallLabel][..1] == [CallLabel];
    var x := ExpectedUpdate(CallLabel, fetched);
    assert Outcome(index, CallLabel, LabelKind) == Ok(Some(x));
    assert ReconcileIndexed(index, [], LabelKind) == Ok([]);
    assert OptionToSeq(Some(x)) == [x];
    assert ReconcileIndexed(index, [CallLabel], LabelKind) == Ok([] + [x]);
    assert [] + [x] == [x];
    assert Reconcile([fetched], [CallLabel], LabelKind) == ReconcileIndexed(index, [CallLabel], LabelKind);
  }

  /** Corrected, the same label is fixed in one pass and then left alone. */
  lemma FixedUpdateSettles()
    ensures FixedReconcile(map["call" := FetchedCall], [CallLabel], LabelKind) == [ConcreteTodoistLabel("call", BerryRed, true, Some(123))]
    ensures FixedReconcile(map["call" := ConcreteTodoistLabel("call", BerryRed, true, Some(123))], [CallLabel], LabelKind) == []
  {
    assert [CallLabel][..0] == [];
    var fetched := map["call" := FetchedCall];
    var fixed := map["call" := ConcreteTodoistLabel("call", BerryRed, true, Some(123))];
    assert FixedReconcile(fetched, [CallLabel], LabelKind) == OptionToSeq(FixedOutcome(fetched, CallLabel, LabelKind));
    assert FixedReconcile(fixed, [CallLabel], LabelKind) == OptionToSeq(FixedOutcome(fixed, CallLabel, LabelKind));
    assert FixedOutcome(map["call" := FetchedCall], CallLabel, LabelKind) == Some(ConcreteTodoistLabel("call", BerryRed, true, Some(123)));
    assert FixedOutcome(map["call" := ConcreteTodoistLabel("call", BerryRed, true, Some(123))], CallLabel, LabelKind) == None;
  }

  // Finding 2: a filter update whose query agrees raises KeyError on `query`.

  const NextFilter := TodoistFilter("Next", "@next", BerryRed)
  const FetchedNext := ConcreteTodoistFilter("Next", "@next", Grey, false, Some(7))

  /** As written, recolouring a filter without changing its query aborts the pass. */
  lemma AsWrittenFilterRecolourRaises()
    ensures Reconcile([FetchedNext], [NextFilter], FilterKind) == Err(MissingField(Query))
  {
    assert [FetchedNext][..0] == [];
    var index := IndexByName([FetchedNext]);
    assert index == map[FetchedNext.name := FetchedNext];
    IndexByNameOfKind([FetchedNext], FilterKind);
    ReconcileStep(index, [NextFilter], FilterKind, 0);
    assert [NextFilter][..0] == [];
    assert [NextFilter][..1] == [NextFilter];
  }

  /** Corrected, every update record of a filter carries the desired query, so nothing is missing from it. */
  lemma FixedFilterUpdateKeepsQuery(index: map<string, ConcreteItem>, d: DesiredItem)
    requires DesiredKind(d) == FilterKind && IndexOfKind(index, FilterKind)
    requires d.name in index && !Agrees(d, index[d.name])
    ensures var r := FixedOutcome(index, d, FilterKind);
      r.Some? && r.value.query == d.query && r.value.id == index[d.name].id
      && FromDict(FilterKind, ToDict(r.value)) == Ok(r.value)
  {
    ConcreteRoundTrip(FixedOutcome(index, d, FilterKind).value);
  }
}
