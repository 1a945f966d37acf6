/**
 * The desired-state generator of autodoist/gtd/gtd_state.py: GTD contexts,
 * composite contexts and exclusion lists are turned into the labels, saved
 * filters and projects Todoist should hold.
 */
module GtdGenerator {
  import opened Models
  import opened Strings

  /**
   * An entry of `GTDState.contexts`. The source dispatches on the exact type
   * of the entry; the three constructors are the three types it has a
   * generator for.
   */
  datatype ContextEntry =
    | PlainEntry(context: Context)
    | CompositeEntry(composite: CompositeContext)
    | ExclusionEntry(exclusion: ExclusionList)

  /** The `TodoistObjects` record one generator returns. */
  datatype TodoistObjects = TodoistObjects(labels: seq<DesiredItem>, filters: seq<DesiredItem>, projects: seq<DesiredItem>)

  /** The number of spaces between `#name` and `| (` in a filter clause. */
  const QueryPadWidth: nat := 60

  /** `_get_exclusion_lists`: the exclusion lists among the entries, in order. */
  function ExclusionLists(contexts: seq<ContextEntry>): (xs: seq<ExclusionList>)
    ensures |xs| == CountExclusions(contexts)
    ensures forall x :: x in xs <==> ExclusionEntry(x) in contexts
    decreases |contexts|
  {
    if contexts == [] then []
    else
      var n := |contexts| - 1;
      var earlier := ExclusionLists(contexts[..n]);
      assert forall e :: e in contexts <==> e in contexts[..n] || e == contexts[n];
      match contexts[n]
      case ExclusionEntry(x) => earlier + [x]
      case _ => earlier
  }

  /** The exclusion lists of two entry lists one after the other are theirs, in that order. */
  lemma {:induction false} ExclusionListsAppend(a: seq<ContextEntry>, b: seq<ContextEntry>)
    ensures ExclusionLists(a + b) == ExclusionLists(a) + ExclusionLists(b)
    decreases |b|
  {
    if b == [] {
      assert a + b == a;
    } else {
      var n := |b| - 1;
      assert (a + b)[..|a + b| - 1] == a + b[..n];
      assert (a + b)[|a + b| - 1] == b[n];
      ExclusionListsAppend(a, b[..n]);
    }
  }

  /** One entry contributes its exclusion list if it is one, and nothing otherwise. */
  lemma ExclusionListsSingle(e: ContextEntry)
    ensures ExclusionLists([e]) == if e.ExclusionEntry? then [e.exclusion] else []
  {
    assert [e][..0] == [];
  }

  function CountExclusions(contexts: seq<ContextEntry>): nat
    decreases |contexts|
  {
    if contexts == [] then 0
    else CountExclusions(contexts[..|contexts| - 1]) + if contexts[|contexts| - 1].ExclusionEntry? then 1 else 0
  }

  /** `['!#' + x.name for x in exclusions]`: one negated project term per exclusion list. */
  function ExclusionTerms(exclusions: seq<ExclusionList>): (terms: seq<string>)
    ensures |terms| == |exclusions|
    ensures forall i :: 0 <= i < |exclusions| ==> terms[i] == "!#" + exclusions[i].name
  {
    seq(|exclusions|, i requires 0 <= i < |exclusions| => "!#" + exclusions[i].name)
  }

  /** The terms joined with `' & '`. */
  function ExclusionQueries(exclusions: seq<ExclusionList>): string {
    Join(" & ", ExclusionTerms(exclusions))
  }

  /** The query clause for one label name: tasks in the project, or with the label outside the exclusion lists. */
  function Clause(name: string, exclusionQueries: string): string {
    "#" + name + Repeat(' ', QueryPadWidth) + "| (@" + name + " & " + exclusionQueries + ")"
  }

  /** `','.join` of the clause over the given label names. */
  function CompositeQuery(names: seq<string>, exclusionQueries: string): string {
    Join(",", seq(|names|, i requires 0 <= i < |names| => Clause(names[i], exclusionQueries)))
  }

  /** `f"{emojis} {name.title()}"`. */
  function FilterName(emojis: string, name: string): (r: string)
    ensures |r| == |emojis| + 1 + |name|
    ensures r[..|emojis|] == emojis && r[|emojis|] == ' '
    ensures r[|emojis| + 1..] == Title(name)
  {
    emojis + " " + Title(name)
  }

  /** In a filter name, a letter of the context name is upper-cased exactly when it starts a run of letters. */
  lemma FilterNameCapitalises(emojis: string, name: string, i: nat)
    requires i < |name|
    ensures FilterName(emojis, name)[|emojis| + 1 + i] ==
      if i > 0 && IsCased(name[i - 1]) then ToLower(name[i]) else ToUpper(name[i])
  {
    TitleAt(name, i);
    assert FilterName(emojis, name)[|emojis| + 1 + i] == FilterName(emojis, name)[|emojis| + 1..][i];
  }

  /** `_generate_todoist_objects_gtd_context`. */
  function GenerateForContext(c: Context, exclusions: seq<ExclusionList>): (r: TodoistObjects)
    ensures r.labels == [TodoistLabel(c.name, c.color, true)]
    ensures r.filters == [TodoistFilter(FilterName(c.emojis, c.name), Clause(c.name, ExclusionQueries(exclusions)), c.color, true)]
    ensures r.projects == []
  {
    TodoistObjects(
      [TodoistLabel(name := c.name, color := c.color, isFavorite := true)],
      [TodoistFilter(
        name := c.emojis + " " + Title(c.name),
        query := "#" + c.name + Repeat(' ', QueryPadWidth) + "| (@" + c.name + " & " + ExclusionQueries(exclusions) + ")",
        color := c.color,
        isFavorite := true)],
      [])
  }

  /** `_generate_todoist_objects_composite_context`. */
  function GenerateForComposite(c: CompositeContext, exclusions: seq<ExclusionList>): (r: TodoistObjects)
    ensures |r.labels| == |c.labels|
    ensures forall i :: 0 <= i < |c.labels| ==> r.labels[i] == TodoistLabel(c.labels[i], c.color, true)
    ensures r.filters == [TodoistFilter(FilterName(c.emojis, c.name), CompositeQuery([c.name] + c.labels, ExclusionQueries(exclusions)), c.color, true)]
    ensures r.projects == []
  {
    var labels := seq(|c.labels|, i requires 0 <= i < |c.labels| => TodoistLabel(name := c.labels[i], color := c.color, isFavorite := true));
    var filterQuery := CompositeQuery([c.name] + c.labels, ExclusionQueries(exclusions));
    TodoistObjects(labels, [TodoistFilter(FilterName(c.emojis, c.name), filterQuery, c.color, true)], [])
  }

  /** `_generate_todoist_objects_exclusion_list`. */
  function GenerateForExclusion(x: ExclusionList): (r: TodoistObjects)
    ensures r.labels == [] && r.filters == []
    ensures r.projects == [TodoistProject(x.name, x.color, false)]
  {
    TodoistObjects([], [], [TodoistProject(name := x.name, color := x.color, isFavorite := false)])
  }

  /** `_generate_todoist_objects`: the generator for the entry's type. */
  function Generate(entry: ContextEntry, exclusions: seq<ExclusionList>): TodoistObjects {
    match entry
    case PlainEntry(c) => GenerateForContext(c, exclusions)
    case CompositeEntry(c) => GenerateForComposite(c, exclusions)
    case ExclusionEntry(x) => GenerateForExclusion(x)
  }

  /** The per-entry outputs for `entries` concatenated kind by kind, in entry order. */
  function RenderFrom(entries: seq<ContextEntry>, exclusions: seq<ExclusionList>): TodoistCollection
    decreases |entries|
  {
    if entries == [] then TodoistCollection([], [], [])
    else
      var done := RenderFrom(entries[..|entries| - 1], exclusions);
      var generated := Generate(entries[|entries| - 1], exclusions);
      TodoistCollection(done.labels + generated.labels, done.filters + generated.filters, done.projects + generated.projects)
  }

  /** What `render_todoist_objects` returns for the given entries. */
  function Render(contexts: seq<ContextEntry>): TodoistCollection {
    RenderFrom(contexts, ExclusionLists(contexts))
  }

  /** The number of labels an entry generates. */
  function LabelCount(entry: ContextEntry): nat {
    match entry
    case PlainEntry(_) => 1
    case CompositeEntry(c) => |c.labels|
    case ExclusionEntry(_) => 0
  }

  function TotalLabelCount(entries: seq<ContextEntry>): nat
    decreases |entries|
  {
    if entries == [] then 0 else TotalLabelCount(entries[..|entries| - 1]) + LabelCount(entries[|entries| - 1])
  }

  /**
   * Rendering yields one label per plain context plus one per composite
   * member, one filter per entry that is not an exclusion list, and one
   * project per exclusion list.
   */
  lemma {:induction false} RenderCounts(entries: seq<ContextEntry>, exclusions: seq<ExclusionList>)
    ensures var r := RenderFrom(entries, exclusions);
      && |r.labels| == TotalLabelCount(entries)
      && |r.filters| == |entries| - CountExclusions(entries)
      && |r.projects| == CountExclusions(entries)
    decreases |entries|
  {
    if entries != [] {
      RenderCounts(entries[..|entries| - 1], exclusions);
    }
  }

  /** The projects are exactly the exclusion lists, in order, each as a non-favourite project. */
  lemma {:induction false} RenderProjectsAreExclusionLists(entries: seq<ContextEntry>, exclusions: seq<ExclusionList>)
    ensures var r := RenderFrom(entries, exclusions); var xs := ExclusionLists(entries);
      |r.projects| == |xs| && forall i :: 0 <= i < |xs| ==> r.projects[i] == TodoistProject(xs[i].name, xs[i].color, false)
    decreases |entries|
  {
    if entries != [] {
      RenderProjectsAreExclusionLists(entries[..|entries| - 1], exclusions);
    }
  }

  /** Every label and every filter rendered is a favourite; every project is not. */
  lemma {:induction false} RenderFavourites(entries: seq<ContextEntry>, exclusions: seq<ExclusionList>)
    ensures var r := RenderFrom(entries, exclusions);
      && (forall l :: l in r.labels ==> l.TodoistLabel? && l.isFavorite)
      && (forall f :: f in r.filters ==> f.TodoistFilter? && f.isFavorite)
      && (forall p :: p in r.projects ==> p.TodoistProject? && !p.isFavorite)
    decreases |entries|
  {
    if entries != [] {
      RenderFavourites(entries[..|entries| - 1], exclusions);
    }
  }

  /** The rendered collection holds labels, filters and projects each in their own list, as the reconciler requires. */
  lemma RenderWellKinded(entries: seq<ContextEntry>, exclusions: seq<ExclusionList>)
    ensures WellKindedCollection(RenderFrom(entries, exclusions))
  {
    var r := RenderFrom(entries, exclusions);
    RenderFavourites(entries, exclusions);
    assert forall i :: 0 <= i < |r.labels| ==> r.labels[i] in r.labels;
    assert forall i :: 0 <= i < |r.filters| ==> r.filters[i] in r.filters;
    assert forall i :: 0 <= i < |r.projects| ==> r.projects[i] in r.projects;
  }

  /** Rendering more entries extends every list of the output: earlier output never changes. */
  lemma {:induction false} RenderPrefix(entries: seq<ContextEntry>, more: seq<ContextEntry>, exclusions: seq<ExclusionList>)
    ensures var a := RenderFrom(entries, exclusions); var b := RenderFrom(entries + more, exclusions);
      && a.labels <= b.labels && a.filters <= b.filters && a.projects <= b.projects
    decreases |more|
  {
    if more == [] {
      assert entries + more == entries;
    } else {
      var n := |more| - 1;
      assert (entries + more)[..|entries + more| - 1] == entries + more[..n];
      RenderPrefix(entries, more[..n], exclusions);
    }
  }

  /** A clause of comma-free names and exclusion queries holds no comma. */
  lemma ClauseHasNoComma(name: string, exclusionQueries: string)
    requires ',' !in name && ',' !in exclusionQueries
    ensures ',' !in Clause(name, exclusionQueries)
  {
  }

  lemma ExclusionQueriesHaveNoComma(exclusions: seq<ExclusionList>)
    requires forall x :: x in exclusions ==> ',' !in x.name
    ensures ',' !in ExclusionQueries(exclusions)
  {
    var parts := ExclusionTerms(exclusions);
    forall i | 0 <= i < |parts|
      ensures ',' !in parts[i]
    {
      assert exclusions[i] in exclusions;
    }
    JoinAvoids(" & ", parts, ',');
  }

  /**
   * A composite filter query splits at its commas into exactly one clause
   * per name of `[name] + labels`, in order, provided the names themselves
   * hold no comma.
   */
  lemma CompositeQuerySplits(names: seq<string>, exclusions: seq<ExclusionList>)
    requires |names| >= 1
    requires forall n :: n in names ==> ',' !in n
    requires forall x :: x in exclusions ==> ',' !in x.name
    ensures var e := ExclusionQueries(exclusions);
      SplitOn(CompositeQuery(names, e), ',') == seq(|names|, i requires 0 <= i < |names| => Clause(names[i], e))
  {
    var e := ExclusionQueries(exclusions);
    ExclusionQueriesHaveNoComma(exclusions);
    var clauses := seq(|names|, i requires 0 <= i < |names| => Clause(names[i], e));
    forall i | 0 <= i < |clauses|
      ensures ',' !in clauses[i]
    {
      assert names[i] in names;
      ClauseHasNoComma(names[i], e);
    }
    SplitJoinRoundTrip(clauses, ',');
  }

  /** With no exclusion lists the clause keeps its dangling operator: it ends in `"& )"`. */
  lemma NoExclusionsLeaveDanglingOperator(name: string)
    ensures var q := Clause(name, ExclusionQueries([]));
      |q| >= 3 && q[|q| - 3..] == "& )"
  {
    var q := Clause(name, ExclusionQueries([]));
    assert ExclusionQueries([]) == "";
    assert q == "#" + name + Repeat(' ', QueryPadWidth) + "| (@" + name + " & " + ")";
  }

  /** The clause is `#name`, sixty spaces, then `| (@name & <exclusions>)`. */
  lemma ClauseLayout(name: string, exclusionQueries: string)
    ensures var q := Clause(name, exclusionQueries); var k := 1 + |name|;
      && |q| == k + QueryPadWidth + 4 + |name| + 3 + |exclusionQueries| + 1
      && q[..k] == "#" + name
      && (forall i :: k <= i < k + QueryPadWidth ==> q[i] == ' ')
      && q[k + QueryPadWidth..k + QueryPadWidth + 4] == "| (@"
      && q[k + QueryPadWidth + 4..|q| - 1] == name + " & " + exclusionQueries
      && q[|q| - 1] == ')'
  {
  }

  // The scenario of the repository's tests: a work context, a personal
  // composite of health and finance, and two exclusion lists. The emojis are
  // the tests' own literals, UTF-8 emoji bytes read back as Windows-1252 text.
  const WorkEmojis := "\U{F0}\U{178}\U{161}\U{20AC}"
  const PersonalEmojis := "\U{F0}\U{178}\U{152}\U{178}"
  const Work := Context("Work", WorkEmojis, Blue)
  const Personal := CompositeContext("Personal", PersonalEmojis, Green, ["Health", "Finance"])
  const NotNow := ExclusionList("NotNow", Red)
  const Vacation := ExclusionList("Vacation", Blue)
  const ScenarioEntries := [PlainEntry(Work), CompositeEntry(Personal), ExclusionEntry(NotNow), ExclusionEntry(Vacation)]
  const ScenarioExclusionQueries := "!#NotNow & !#Vacation"

  /** Labels for the context and for the composite's members only, never for the composite's own name. */
  lemma ScenarioLabels()
    ensures Render(ScenarioEntries).labels ==
      [TodoistLabel("Work", Blue, true), TodoistLabel("Health", Green, true), TodoistLabel("Finance", Green, true)]
  {
    ScenarioShape(ScenarioEntries, Work, Personal, NotNow, Vacation);
  }

  /** Every clause excludes both lists, in order; the composite's query joins one clause per name. */
  lemma ScenarioFilters()
    ensures var e := ScenarioExclusionQueries;
      Render(ScenarioEntries).filters ==
        [TodoistFilter(WorkEmojis + " Work", Clause("Work", e), Blue, true),
         TodoistFilter(PersonalEmojis + " Personal", Clause("Personal", e) + "," + Clause("Health", e) + "," + Clause("Finance", e), Green, true)]
  {
    ScenarioShape(ScenarioEntries, Work, Personal, NotNow, Vacation);
    ScenarioExclusions(NotNow, Vacation);
    ScenarioCompositeQuery(ScenarioExclusionQueries);
    ScenarioFilterNames();
  }

  /** The sample's filter names: the emojis, a space and the already title-cased name. */
  lemma ScenarioFilterNames()
    ensures FilterName(WorkEmojis, "Work") == WorkEmojis + " Work"
    ensures FilterName(PersonalEmojis, "Personal") == PersonalEmojis + " Personal"
  {
    assert Title("Work") == "Work";
    assert Title("Personal") == "Personal";
  }

  /** One non-favourite project per exclusion list. */
  lemma ScenarioProjects()
    ensures Render(ScenarioEntries).projects == [TodoistProject("NotNow", Red, false), TodoistProject("Vacation", Blue, false)]
  {
    ScenarioShape(ScenarioEntries, Work, Personal, NotNow, Vacation);
  }

  /**
   * Rendering a context, a two-member composite and two exclusion lists:
   * three labels, two filters whose queries exclude both lists, two projects.
   */
  lemma ScenarioShape(entries: seq<ContextEntry>, work: Context, personal: CompositeContext,
                      notNow: ExclusionList, vacation: ExclusionList)
    requires entries == [PlainEntry(work), CompositeEntry(personal), ExclusionEntry(notNow), ExclusionEntry(vacation)]
    requires |personal.labels| == 2
    ensures var r := Render(entries); var e := ExclusionQueries([notNow, vacation]);
      && r.labels == [TodoistLabel(work.name, work.color, true), TodoistLabel(personal.labels[0], personal.color, true),
                      TodoistLabel(personal.labels[1], personal.color, true)]
      && r.filters == [TodoistFilter(FilterName(work.emojis, work.name), Clause(work.name, e), work.color, true),
                       TodoistFilter(FilterName(personal.emojis, personal.name),
                                     CompositeQuery([personal.name, personal.labels[0], personal.labels[1]], e), personal.color, true)]
      && r.projects == [TodoistProject(notNow.name, notNow.color, false), TodoistProject(vacation.name, vacation.color, false)]
  {
    var xs := [notNow, vacation];
    ScenarioExclusionLists(entries, work, personal, notNow, vacation);
    ScenarioRender(entries, work, personal, notNow, vacation, xs);
    var second := GenerateForComposite(personal, xs);
    assert second.labels == [second.labels[0], second.labels[1]];
    assert [personal.name] + personal.labels == [personal.name, personal.labels[0], personal.labels[1]];
  }

  lemma ScenarioRender(entries: seq<ContextEntry>, work: Context, personal: CompositeContext,
                       notNow: ExclusionList, vacation: ExclusionList, xs: seq<ExclusionList>)
    requires entries == [PlainEntry(work), CompositeEntry(personal), ExclusionEntry(notNow), ExclusionEntry(vacation)]
    ensures var first := GenerateForContext(work, xs); var second := GenerateForComposite(personal, xs);
      RenderFrom(entries, xs) == TodoistCollection(first.labels + second.labels, first.filters + second.filters,
        [TodoistProject(notNow.name, notNow.color, false), TodoistProject(vacation.name, vacation.color, false)])
  {
    var one := entries[..3][..2][..1];
    var two := entries[..3][..2];
    var three := entries[..3];
    assert one[..0] == [];
    assert one == [PlainEntry(work)];
    assert two == [PlainEntry(work), CompositeEntry(personal)];
    assert three == [PlainEntry(work), CompositeEntry(personal), ExclusionEntry(notNow)];
    var first := GenerateForContext(work, xs);
    var second := GenerateForComposite(personal, xs);
    assert RenderFrom(one, xs) == TodoistCollection(first.labels, first.filters, []);
    assert RenderFrom(two, xs) == TodoistCollection(first.labels + second.labels, first.filters + second.filters, []);
  }

  /** The exclusion lists of the four entries are the last two, in order. */
  lemma ScenarioExclusionLists(entries: seq<ContextEntry>, work: Context, personal: CompositeContext,
                               notNow: ExclusionList, vacation: ExclusionList)
    requires entries == [PlainEntry(work), CompositeEntry(personal), ExclusionEntry(notNow), ExclusionEntry(vacation)]
    ensures ExclusionLists(entries) == [notNow, vacation]
  {
    assert entries[..3][..2][..1][..0] == [];
    assert entries[..3][..2][..1] == [PlainEntry(work)];
    assert entries[..3][..2] == [PlainEntry(work), CompositeEntry(personal)];
    assert entries[..3] == [PlainEntry(work), CompositeEntry(personal), ExclusionEntry(notNow)];
    assert ExclusionLists(entries[..3][..2][..1]) == [];
    assert ExclusionLists(entries[..3][..2]) == [];
    assert ExclusionLists(entries[..3]) == [notNow];
  }

  /** The sample's exclusion text. */
  lemma ScenarioExclusions(notNow: ExclusionList, vacation: ExclusionList)
    requires notNow.name == "NotNow" && vacation.name == "Vacation"
    ensures ExclusionQueries([notNow, vacation]) == "!#NotNow & !#Vacation"
  {
    var parts := ExclusionTerms([notNow, vacation]);
    assert "!#" + notNow.name == "!#NotNow";
    assert "!#" + vacation.name == "!#Vacation";
    assert parts == ["!#NotNow", "!#Vacation"];
    assert Join(" & ", parts[1..]) == "!#Vacation";
    assert Join(" & ", parts) == "!#NotNow" + " & " + "!#Vacation";
    assert "!#NotNow" + " & " + "!#Vacation" == "!#NotNow & !#Vacation";
  }

  lemma ScenarioCompositeQuery(e: string)
    ensures CompositeQuery(["Personal", "Health", "Finance"], e) ==
      Clause("Personal", e) + "," + Clause("Health", e) + "," + Clause("Finance", e)
  {
    var names := ["Personal", "Health", "Finance"];
    var clauses := seq(|names|, i requires 0 <= i < |names| => Clause(names[i], e));
    assert clauses[1..][1..] == [clauses[2]];
    assert Join(",", clauses[1..]) == clauses[1] + "," + clauses[2];
  }

  /** The mutable `GTDState` object: the entries added so far. */
  class GTDState {
    var contexts: seq<ContextEntry>

    constructor()
      ensures contexts == []
    {
      contexts := [];
    }

    /** `add_context`: appends one entry. */
    method AddContext(context: ContextEntry)
      modifies this
      ensures contexts == old(contexts) + [context]
    {
      contexts := contexts + [context];
    }

    /** `render_todoist_objects`: the three lists extended entry by entry. */
    method RenderTodoistObjects() returns (r: TodoistCollection)
      ensures r == Render(contexts)
    {
      var labels: seq<DesiredItem> := [];
      var filters: seq<DesiredItem> := [];
      var projects: seq<DesiredItem> := [];
      var exclusions := ExclusionLists(contexts);
      var i := 0;
      while i < |contexts|
        invariant 0 <= i <= |contexts|
        invariant TodoistCollection(labels, filters, projects) == RenderFrom(contexts[..i], exclusions)
      {
        assert contexts[..i + 1][..i] == contexts[..i];
        var generatedObjects := Generate(contexts[i], exclusions);
        labels := labels + generatedObjects.labels;
        filters := filters + generatedObjects.filters;
        projects := projects + generatedObjects.projects;
        i := i + 1;
      }
      assert contexts[..i] == contexts;
      r := TodoistCollection(labels, filters, projects);
    }
  }
}
