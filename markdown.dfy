/**
 * The change report of autodoist/github/markdown.py: one Markdown section
 * per record, a heading saying whether it is created or updated, and a
 * two-column table of its serialised fields.
 */
module Markdown {
  import opened Models
  import opened Strings

  /** `f"{value}"` of a serialised field value; a `Color` member prints as `Color.<NAME>`. */
  function ValueText(v: Value): string {
    match v
    case Str(s) => s
    case Hue(c) => "Color." + ColorMemberName(c)
    case Flag(b) => if b then "True" else "False"
    case Num(n) => IntToString(n)
    case Null => "None"
  }

  /** `field_name.capitalize().replace('_', ' ')`. */
  function FieldLabel(f: FieldName): string {
    ReplaceChar(Capitalize(FieldKey(f)), '_', ' ')
  }

  function Action(item: ConcreteItem): string {
    if item.id.None? then "Created" else "Updated"
  }

  function HeadingLine(item: ConcreteItem): string {
    "### " + Capitalize(GetType(item)) + " (" + Action(item) + ")"
  }

  const FieldHeader: string := "| Field | Value |"
  const HeaderRule: string := "|-------|-------|"

  function RowLine(e: Entry): string {
    "| " + FieldLabel(e.key) + " | " + ValueText(e.value) + " |"
  }

  /** The table rows of a serialised record: one per entry whose value is not None, in order. */
  function RowLines(d: Dict): seq<string>
    decreases |d|
  {
    if d == [] then []
    else
      var n := |d| - 1;
      RowLines(d[..n]) + (if d[n].value.Null? then [] else [RowLine(d[n])])
  }

  /** The section of one record, as the lines it is made of. */
  function SectionLines(item: ConcreteItem): seq<string> {
    [HeadingLine(item), FieldHeader, HeaderRule] + RowLines(ToDict(item)) + [""]
  }

  /** Each line followed by a newline. */
  function Lines(ls: seq<string>): string
    decreases |ls|
  {
    if ls == [] then "" else ls[0] + "\n" + Lines(ls[1..])
  }

  function Section(item: ConcreteItem): string {
    Lines(SectionLines(item))
  }

  /** `[f(x) for x in xs]`. */
  function MapSeq<A, B>(f: A -> B, xs: seq<A>): (ys: seq<B>)
    ensures |ys| == |xs|
    ensures forall i :: 0 <= i < |xs| ==> ys[i] == f(xs[i])
    decreases |xs|
  {
    if xs == [] then []
    else
      var n := |xs| - 1;
      var front := MapSeq(f, xs[..n]);
      assert forall i :: 0 <= i < n ==> front[i] == f(xs[i]);
      front + [f(xs[n])]
  }

  /** The texts `f` gives the elements, one after the other. */
  function ConcatMap<T>(f: T -> string, xs: seq<T>): string
    decreases |xs|
  {
    if xs == [] then "" else ConcatMap(f, xs[..|xs| - 1]) + f(xs[|xs| - 1])
  }

  lemma {:induction false} ConcatMapAppend<T>(f: T -> string, a: seq<T>, b: seq<T>)
    ensures ConcatMap(f, a + b) == ConcatMap(f, a) + ConcatMap(f, b)
    decreases |b|
  {
    if b == [] {
      assert a + b == a;
    } else {
      var n := |b| - 1;
      assert (a + b)[..|a + b| - 1] == a + b[..n];
      assert (a + b)[|a + b| - 1] == b[n];
      ConcatMapAppend(f, a, b[..n]);
    }
  }

  lemma ConcatMapStep<T>(f: T -> string, xs: seq<T>, i: nat)
    requires i < |xs|
    ensures ConcatMap(f, xs[..i + 1]) == ConcatMap(f, xs[..i]) + f(xs[i])
  {
    assert xs[..i + 1][..i] == xs[..i];
    assert xs[..i + 1][i] == xs[i];
  }

  /** The report for a list of records: their sections one after the other. */
  function MarkdownOf(items: seq<ConcreteItem>): string {
    ConcatMap(Section, items)
  }

  lemma SectionNotEmpty(item: ConcreteItem)
    ensures Section(item) != ""
  {
    assert |Section(item)| >= |HeadingLine(item)|;
  }

  /** A report is empty exactly when there are no records. */
  lemma MarkdownEmpty(items: seq<ConcreteItem>)
    ensures MarkdownOf(items) == "" <==> items == []
  {
    if items != [] {
      var last := items[|items| - 1];
      SectionNotEmpty(last);
      assert |MarkdownOf(items)| >= |Section(last)|;
    }
  }

  /** The report for two lists of records is their two reports one after the other. */
  lemma MarkdownAppend(a: seq<ConcreteItem>, b: seq<ConcreteItem>)
    ensures MarkdownOf(a + b) == MarkdownOf(a) + MarkdownOf(b)
  {
    ConcatMapAppend(Section, a, b);
  }

  lemma {:induction false} LinesAppend(a: seq<string>, b: seq<string>)
    ensures Lines(a + b) == Lines(a) + Lines(b)
    decreases |a|
  {
    if a == [] {
      assert a + b == b;
    } else {
      assert (a + b)[1..] == a[1..] + b;
      LinesAppend(a[1..], b);
    }
  }

  /** The report lists the labels' sections, then the filters', then the projects'. */
  lemma MarkdownByKind(objects: ConcreteTodoistObjects)
    ensures MarkdownOf(GetAllItems(objects)) ==
      MarkdownOf(objects.labels) + MarkdownOf(objects.filters) + MarkdownOf(objects.projects)
  {
    assert GetAllItems(objects) == objects.labels + objects.filters + objects.projects;
    MarkdownAppend(objects.labels + objects.filters, objects.projects);
    MarkdownAppend(objects.labels, objects.filters);
  }

  /** Splitting newline-terminated lines on the newline gives the lines back, and a trailing empty string. */
  lemma {:induction false} SplitLines(ls: seq<string>)
    requires forall i :: 0 <= i < |ls| ==> '\n' !in ls[i]
    ensures SplitOn(Lines(ls), '\n') == ls + [""]
    decreases |ls|
  {
    if ls != [] {
      SplitLines(ls[1..]);
      SplitAtFirstSeparator(ls[0], Lines(ls[1..]), '\n');
      assert ls[0] + "\n" + Lines(ls[1..]) == ls[0] + ['\n'] + Lines(ls[1..]);
      assert [ls[0]] + (ls[1..] + [""]) == ls + [""];
    }
  }

  lemma {:induction false} DigitsHaveNoNewline(n: nat)
    ensures '\n' !in NatToString(n) && '|' !in NatToString(n)
    decreases n
  {
    if n >= 10 {
      DigitsHaveNoNewline(n / 10);
    }
  }

  lemma ColorNameOnOneLine(c: Color)
    ensures '\n' !in ColorMemberName(c)
  {
  }

  lemma FieldLabelOnOneLine(f: FieldName)
    ensures '\n' !in FieldLabel(f)
  {
    assert '\n' !in FieldKey(f);
  }

  /** A value prints without a newline unless it is a string holding one. */
  lemma ValueTextOnOneLine(v: Value)
    requires v.Str? ==> '\n' !in v.s
    ensures '\n' !in ValueText(v)
  {
    match v
    case Num(n) =>
      if n < 0 { DigitsHaveNoNewline(-n); } else { DigitsHaveNoNewline(n); }
    case Hue(c) =>
      ColorNameOnOneLine(c);
      assert ValueText(v) == "Color." + ColorMemberName(c);
    case _ =>
  }

  predicate OnOneLine(s: string) {
    '\n' !in s
  }

  predicate AllOnOneLine(ls: seq<string>) {
    forall i :: 0 <= i < |ls| ==> OnOneLine(ls[i])
  }

  /** The names and queries of a record hold no newline. */
  predicate SingleLineFields(item: ConcreteItem) {
    OnOneLine(item.name) && (item.ConcreteTodoistFilter? ==> OnOneLine(item.query))
  }

  /** No string value of the dictionary holds a newline. */
  predicate SingleLineValues(d: Dict) {
    forall i :: 0 <= i < |d| ==> d[i].value.Str? ==> OnOneLine(d[i].value.s)
  }

  lemma RowLineOnOneLine(e: Entry)
    requires e.value.Str? ==> OnOneLine(e.value.s)
    ensures OnOneLine(RowLine(e))
  {
    ValueTextOnOneLine(e.value);
    FieldLabelOnOneLine(e.key);
  }

  lemma {:induction false} RowLinesOnOneLine(d: Dict)
    requires SingleLineValues(d)
    ensures AllOnOneLine(RowLines(d))
    decreases |d|
  {
    if d != [] {
      var n := |d| - 1;
      assert SingleLineValues(d[..n]) by {
        forall i | 0 <= i < n ensures d[..n][i] == d[i] { }
      }
      RowLinesOnOneLine(d[..n]);
      var tail := if d[n].value.Null? then [] else [RowLine(d[n])];
      if !d[n].value.Null? {
        RowLineOnOneLine(d[n]);
      }
      assert RowLines(d) == RowLines(d[..n]) + tail;
    }
  }

  lemma ToDictOnOneLine(item: ConcreteItem)
    requires SingleLineFields(item)
    ensures SingleLineValues(ToDict(item))
  {
    var d := ToDict(item);
    forall i | 0 <= i < |d| && d[i].value.Str?
      ensures OnOneLine(d[i].value.s)
    {
      assert d[i].value == Attr(item, d[i].key);
    }
  }

  lemma CapitalizeOnOneLine(s: string)
    requires OnOneLine(s)
    ensures OnOneLine(Capitalize(s))
  {
    var c := Capitalize(s);
    forall i | 0 <= i < |c|
      ensures c[i] != '\n'
    {
      assert s[i] != '\n';
    }
  }

  lemma HeadingOnOneLine(item: ConcreteItem)
    ensures OnOneLine(HeadingLine(item))
  {
    var t := GetType(item);
    assert OnOneLine(t);
    CapitalizeOnOneLine(t);
    var a := Action(item);
    assert OnOneLine(a);
    assert HeadingLine(item) == "### " + Capitalize(t) + " (" + a + ")";
  }

  lemma SplitTable(heading: string, rows: seq<string>)
    requires OnOneLine(heading) && AllOnOneLine(rows)
    ensures SplitOn(Lines([heading, FieldHeader, HeaderRule] + rows + [""]), '\n') ==
      [heading, "| Field | Value |", "|-------|-------|"] + rows + ["", ""]
  {
    var ls := [heading, FieldHeader, HeaderRule] + rows + [""];
    forall i | 0 <= i < |ls|
      ensures '\n' !in ls[i]
    {
      if 3 <= i < |ls| - 1 {
        assert ls[i] == rows[i - 3];
      }
    }
    SplitLines(ls);
  }

  /**
   * Read line by line, the section of a record is its heading, the two
   * fixed header lines, one row per non-None field and an empty line.
   */
  lemma SectionSplits(item: ConcreteItem)
    requires SingleLineFields(item)
    ensures SplitOn(Section(item), '\n') ==
      [HeadingLine(item), "| Field | Value |", "|-------|-------|"] + RowLines(ToDict(item)) + ["", ""]
  {
    ToDictOnOneLine(item);
    RowLinesOnOneLine(ToDict(item));
    HeadingOnOneLine(item);
    SplitTable(HeadingLine(item), RowLines(ToDict(item)));
  }

  /** One row per entry whose value is not None, in entry order. */
  lemma {:induction false} RowLinesCount(d: Dict)
    ensures |RowLines(d)| == NonNullCount(d) <= |d|
    decreases |d|
  {
    if d != [] {
      RowLinesCount(d[..|d| - 1]);
    }
  }

  function NonNullCount(d: Dict): nat
    decreases |d|
  {
    if d == [] then 0 else NonNullCount(d[..|d| - 1]) + (if d[|d| - 1].value.Null? then 0 else 1)
  }

  /** The rows of a serialised record: one per declared field, `id` only when it is not None. */
  lemma SectionRows(item: ConcreteItem)
    ensures RowLines(ToDict(item)) == MapSeq(RowLine, ToDict(item))
    ensures |RowLines(ToDict(item))| == if item.id.None? then |DesiredFields(KindOf(item))| else |ConcreteFields(KindOf(item))|
  {
    var d := ToDict(item);
    ToDictHasNoNull(item);
    AllPresentRows(d);
    assert |d| == |Keys(d)|;
  }

  /** A serialised record holds no None value: `id` is left out when it is None. */
  lemma ToDictHasNoNull(item: ConcreteItem)
    ensures forall i :: 0 <= i < |ToDict(item)| ==> !ToDict(item)[i].value.Null?
  {
    var d := ToDict(item);
    DesiredFieldsAreConcreteWithoutId(KindOf(item));
    forall i | 0 <= i < |d|
      ensures !d[i].value.Null?
    {
      assert Keys(d)[i] == d[i].key;
    }
  }

  lemma {:induction false} AllPresentRows(d: Dict)
    requires forall i :: 0 <= i < |d| ==> !d[i].value.Null?
    ensures RowLines(d) == MapSeq(RowLine, d)
    decreases |d|
  {
    if d != [] {
      AllPresentRows(d[..|d| - 1]);
    }
  }

  /** The heading says "Created" exactly for a record without an id. */
  lemma HeadingAction(item: ConcreteItem)
    ensures var t := Capitalize(GetType(item));
      HeadingLine(item) == "### " + t + (if item.id.None? then " (Created)" else " (Updated)")
    ensures |HeadingLine(item)| >= 9 &&
      HeadingLine(item)[|HeadingLine(item)| - 9..] == if item.id.None? then "(Created)" else "(Updated)"
  {
    var t := Capitalize(GetType(item));
    assert "### " + t + " (" + Action(item) + ")" == "### " + t + (" (" + Action(item) + ")");
    HeadingEndsWithAction(t, item.id.None?);
  }

  lemma HeadingEndsWithAction(t: string, created: bool)
    ensures var h := "### " + t + " (" + (if created then "Created" else "Updated") + ")";
      |h| >= 9 && h[|h| - 9..] == if created then "(Created)" else "(Updated)"
  {
    var tail := "(" + (if created then "Created" else "Updated") + ")";
    assert "### " + t + " (" + (if created then "Created" else "Updated") + ")" == ("### " + t + " ") + tail;
  }

  lemma MarkdownStep(items: seq<ConcreteItem>, i: nat)
    requires i < |items|
    ensures MarkdownOf(items[..i + 1]) == MarkdownOf(items[..i]) + Section(items[i])
  {
    ConcatMapStep(Section, items, i);
  }

  lemma EmptyLine()
    ensures Lines([""]) == "\n"
  {
    assert [""][1..] == [];
    assert "" + "\n" == "\n";
  }

  lemma LinesOfThree(a: string, b: string, c: string)
    ensures Lines([a, b, c]) == a + "\n" + b + "\n" + c + "\n"
  {
    assert [c][1..] == [];
    assert Lines([c]) == c + "\n";
    assert [b, c][1..] == [c];
    assert Lines([b, c]) == b + "\n" + (c + "\n");
    assert [a, b, c][1..] == [b, c];
    assert Lines([a, b, c]) == a + "\n" + (b + "\n" + (c + "\n"));
  }

  lemma RowsStep(d: Dict, j: nat)
    requires j < |d|
    ensures Lines(RowLines(d[..j + 1])) ==
      Lines(RowLines(d[..j])) + (if d[j].value.Null? then "" else RowLine(d[j]) + "\n")
  {
    assert d[..j + 1][..j] == d[..j];
    var tail := if d[j].value.Null? then [] else [RowLine(d[j])];
    assert RowLines(d[..j + 1]) == RowLines(d[..j]) + tail;
    LinesAppend(RowLines(d[..j]), tail);
    if tail != [] {
      assert tail[1..] == [];
    }
  }

  /** The row text the loop appends is the row line and its newline. */
  lemma RowLineText(e: Entry)
    ensures "| " + FieldLabel(e.key) + " | " + ValueText(e.value) + " |\n" == RowLine(e) + "\n"
  {
    assert " |\n" == " |" + "\n";
  }

  /** The inner loop of `render_as_markdown`: the table rows of one record. */
  method RenderRows(dict: Dict) returns (rows: string)
    ensures rows == Lines(RowLines(dict))
  {
    rows := "";
    var j := 0;
    while j < |dict|
      invariant 0 <= j <= |dict|
      invariant rows == Lines(RowLines(dict[..j]))
    {
      RowsStep(dict, j);
      if dict[j].value != Null {
        RowLineText(dict[j]);
        rows := rows + ("| " + FieldLabel(dict[j].key) + " | " + ValueText(dict[j].value) + " |\n");
      }
      j := j + 1;
    }
    assert dict[..j] == dict;
  }

  /** The body of the outer loop of `render_as_markdown`: the section of one record. */
  method RenderSection(item: ConcreteItem) returns (section: string)
    ensures section == Section(item)
  {
    var action := if item.id.None? then "Created" else "Updated";
    section := "### " + Capitalize(GetType(item)) + " (" + action + ")" + "\n";
    ghost var heading := HeadingLine(item) + "\n";
    assert section == heading;
    section := section + "| Field | Value |\n";
    assert "| Field | Value |\n" == FieldHeader + "\n";
    section := section + "|-------|-------|\n";
    assert "|-------|-------|\n" == HeaderRule + "\n";
    var top := [HeadingLine(item), FieldHeader, HeaderRule];
    LinesOfThree(HeadingLine(item), FieldHeader, HeaderRule);
    assert section == heading + (FieldHeader + "\n") + (HeaderRule + "\n");
    assert section == Lines(top);
    ghost var tableLines := RowLines(ToDict(item));
    var rows := RenderRows(ToDict(item));
    section := section + rows;
    section := section + "\n";
    LinesAppend(top, tableLines);
    LinesAppend(top + tableLines, [""]);
    EmptyLine();
    assert SectionLines(item) == top + tableLines + [""];
  }

  /** `render_as_markdown`: the report accumulated section by section, row by row. */
  method RenderAsMarkdown(todoistObjects: ConcreteTodoistObjects) returns (markdown: string)
    ensures markdown == MarkdownOf(GetAllItems(todoistObjects))
  {
    markdown := RenderItems(GetAllItems(todoistObjects));
  }

  /** The outer loop of `render_as_markdown`, over the items of all three kinds. */
  method RenderItems(items: seq<ConcreteItem>) returns (markdown: string)
    ensures markdown == MarkdownOf(items)
  {
    markdown := "";
    var i := 0;
    while i < |items|
      invariant 0 <= i <= |items|
      invariant markdown == MarkdownOf(items[..i])
    {
      var section := RenderSection(items[i]);
      MarkdownStep(items, i);
      markdown := markdown + section;
      i := i + 1;
    }
    assert items[..i] == items;
  }
}
