/**
 * The prototype generator of src/gtd/gtd_state.py: plain and composite
 * contexts only, every clause excluding the one project `NotNow`, and no
 * projects generated.
 */
module ProtoGtdGenerator {
  import opened Wrappers
  import opened Strings
  import opened ProtoModels
  import Models
  import GtdGenerator

  /** An entry of the prototype's `contexts`: the two types its dispatch table covers. */
  datatype ContextEntry =
    | PlainEntry(context: GTDContext)
    | CompositeEntry(composite: CompositeContext)

  /** The `(labels, filters)` pair a generator returns. */
  datatype Generated = Generated(labels: seq<TodoistItem>, filters: seq<TodoistItem>)

  /** The one exclusion term every prototype clause carries. */
  const NotNowTerm: string := "!#NotNow"

  /** `f"#{n}{' ' * 60}| (@{n} & !#NotNow)"`. */
  function Clause(name: string): string {
    "#" + name + Repeat(' ', 60) + "| (@" + name + " & !#NotNow)"
  }

  /** The prototype's clause is the generator's clause for a single exclusion list named `NotNow`. */
  lemma ClauseIsSingleExclusion(name: string)
    ensures Clause(name) == GtdGenerator.Clause(name, GtdGenerator.ExclusionQueries([Models.ExclusionList("NotNow")]))
  {
    var e := GtdGenerator.ExclusionQueries([Models.ExclusionList("NotNow")]);
    assert GtdGenerator.ExclusionTerms([Models.ExclusionList("NotNow")]) == ["!#" + "NotNow"];
    assert e == NotNowTerm;
    var pad := Repeat(' ', 60);
    calc {
      GtdGenerator.Clause(name, e);
      "#" + name + pad + "| (@" + name + " & " + NotNowTerm + ")";
      { assert " & " + NotNowTerm + ")" == " & !#NotNow)"; }
      "#" + name + pad + "| (@" + name + " & !#NotNow)";
    }
  }

  function CompositeQuery(names: seq<string>): string {
    Join(",", seq(|names|, i requires 0 <= i < |names| => Clause(names[i])))
  }

  /** The composite query too is the generator's, for the single exclusion list `NotNow`. */
  lemma CompositeQueryIsSingleExclusion(names: seq<string>)
    ensures CompositeQuery(names) ==
      GtdGenerator.CompositeQuery(names, GtdGenerator.ExclusionQueries([Models.ExclusionList("NotNow")]))
  {
    var e := GtdGenerator.ExclusionQueries([Models.ExclusionList("NotNow")]);
    var mine := seq(|names|, i requires 0 <= i < |names| => Clause(names[i]));
    var theirs := seq(|names|, i requires 0 <= i < |names| => GtdGenerator.Clause(names[i], e));
    forall i | 0 <= i < |names|
      ensures mine[i] == theirs[i]
    {
      ClauseIsSingleExclusion(names[i]);
    }
    assert mine == theirs;
  }

  /** Split on commas, a composite query gives one clause per name when no name holds a comma. */
  lemma CompositeQuerySplits(names: seq<string>)
    requires |names| >= 1
    requires forall n :: n in names ==> ',' !in n
    ensures SplitOn(CompositeQuery(names), ',') == seq(|names|, i requires 0 <= i < |names| => Clause(names[i]))
  {
    var xs := [Models.ExclusionList("NotNow")];
    CompositeQueryIsSingleExclusion(names);
    GtdGenerator.CompositeQuerySplits(names, xs);
    var mine := seq(|names|, i requires 0 <= i < |names| => Clause(names[i]));
    var theirs := seq(|names|, i requires 0 <= i < |names| => GtdGenerator.Clause(names[i], GtdGenerator.ExclusionQueries(xs)));
    forall i | 0 <= i < |names|
      ensures mine[i] == theirs[i]
    {
      ClauseIsSingleExclusion(names[i]);
    }
  }

  /** `_generate_todoist_objects_gtd_context`. */
  function GenerateForContext(c: GTDContext): (r: Generated)
    ensures r.labels == [TodoistLabel(c.name, c.color, Some(true))]
    ensures r.filters == [TodoistFilter(GtdGenerator.FilterName(c.emojis, c.name), Clause(c.name), c.color, Some(true))]
  {
    Generated(
      [TodoistLabel(name := c.name, color := c.color, isFavorite := Some(true))],
      [TodoistFilter(
        name := c.emojis + " " + Title(c.name),
        query := "#" + c.name + Repeat(' ', 60) + "| (@" + c.name + " & !#NotNow)",
        color := c.color,
        isFavorite := Some(true))])
  }

  /** `_generate_todoist_objects_composite_context`. */
  function GenerateForComposite(c: CompositeContext): (r: Generated)
    ensures |r.labels| == |c.labels|
    ensures forall i :: 0 <= i < |c.labels| ==> r.labels[i] == TodoistLabel(c.labels[i], c.color, Some(true))
    ensures r.filters == [TodoistFilter(GtdGenerator.FilterName(c.emojis, c.name), CompositeQuery([c.name] + c.labels), c.color, Some(true))]
  {
    var labels := seq(|c.labels|, i requires 0 <= i < |c.labels| => TodoistLabel(name := c.labels[i], color := c.color, isFavorite := Some(true)));
    Generated(labels, [TodoistFilter(c.emojis + " " + Title(c.name), CompositeQuery([c.name] + c.labels), c.color, Some(true))])
  }

  /** `_generate_todoist_objects`: the generator for the entry's type. */
  function Generate(entry: ContextEntry): Generated {
    match entry
    case PlainEntry(c) => GenerateForContext(c)
    case CompositeEntry(c) => GenerateForComposite(c)
  }

  function RenderFrom(entries: seq<ContextEntry>): TodoistCollection
    decreases |entries|
  {
    if entries == [] then TodoistCollection([], [])
    else
      var done := RenderFrom(entries[..|entries| - 1]);
      var generated := Generate(entries[|entries| - 1]);
      TodoistCollection(done.labels + generated.labels, done.filters + generated.filters)
  }

  function LabelCount(entry: ContextEntry): nat {
    match entry
    case PlainEntry(_) => 1
    case CompositeEntry(c) => |c.labels|
  }

  function TotalLabelCount(entries: seq<ContextEntry>): nat
    decreases |entries|
  {
    if entries == [] then 0 else TotalLabelCount(entries[..|entries| - 1]) + LabelCount(entries[|entries| - 1])
  }

  /** One filter per entry; one label per plain context and per composite member. */
  lemma {:induction false} RenderCounts(entries: seq<ContextEntry>)
    ensures |RenderFrom(entries).filters| == |entries|
    ensures |RenderFrom(entries).labels| == TotalLabelCount(entries)
    decreases |entries|
  {
    if entries != [] {
      RenderCounts(entries[..|entries| - 1]);
    }
  }

  /** The filter of the entry at position `i` is the `i`-th filter rendered. */
  lemma {:induction false} RenderFilterAt(entries: seq<ContextEntry>, i: nat)
    requires i < |entries|
    ensures |RenderFrom(entries).filters| == |entries|
    ensures RenderFrom(entries).filters[i] == Generate(entries[i]).filters[0]
    decreases |entries|
  {
    RenderCounts(entries);
    var n := |entries| - 1;
    if i < n {
      RenderFilterAt(entries[..n], i);
    }
  }

  /** Every rendered label and filter is a favourite. */
  lemma {:induction false} RenderFavourites(entries: seq<ContextEntry>)
    ensures forall l :: l in RenderFrom(entries).labels ==> l.TodoistLabel? && l.isFavorite == Some(true)
    ensures forall f :: f in RenderFrom(entries).filters ==> f.TodoistFilter? && f.isFavorite == Some(true)
    decreases |entries|
  {
    if entries != [] {
      RenderFavourites(entries[..|entries| - 1]);
    }
  }

  /** The mutable prototype `GTDState`. */
  class GTDState {
    var contexts: seq<ContextEntry>

    constructor()
      ensures contexts == []
    {
      contexts := [];
    }

    /** `add_context`: appends one entry. */
    method AddContext(context: ContextEntry)
      modifies this
      ensures contexts == old(contexts) + [context]
    {
      contexts := contexts + [context];
    }

    /** `render_todoist_objects`: labels and filters extended entry by entry. */
    method RenderTodoistObjects() returns (r: TodoistCollection)
      ensures r == RenderFrom(contexts)
    {
      var labels: seq<TodoistItem> := [];
      var filters: seq<TodoistItem> := [];
      var i := 0;
      while i < |contexts|
        invariant 0 <= i <= |contexts|
        invariant TodoistCollection(labels, filters) == RenderFrom(contexts[..i])
      {
        assert contexts[..i + 1][..i] == contexts[..i];
        var generated := Generate(contexts[i]);
        labels := labels + generated.labels;
        filters := filters + generated.filters;
        i := i + 1;
      }
      assert contexts[..i] == contexts;
      r := TodoistCollection(labels, filters);
    }
  }
}
