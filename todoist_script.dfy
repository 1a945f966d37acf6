/**
 * The stand-alone script todoist.py: a fixed list of GTD contexts, one
 * `filter_add` command per context, each with a title, a query and two
 * fresh tokens.
 */
module TodoistScript {
  import opened Strings
  import opened Environment
  import ProtoGtdGenerator

  /** The `GTDContextLabel` dataclass; its colour is a plain Todoist colour name. */
  datatype GTDContextLabel = GTDContextLabel(name: string, emojis: string, color: string)

  /** `generate_title`: the emojis, one space, then the title-cased name. */
  function GenerateTitle(context: GTDContextLabel): (title: string)
    ensures |title| == |context.emojis| + 1 + |context.name|
    ensures title[..|context.emojis|] == context.emojis && title[|context.emojis|] == ' '
    ensures title[|context.emojis| + 1..] == Title(context.name)
  {
    context.emojis + " " + Title(context.name)
  }

  /** The name in a title starts with a capital letter and keeps its other letters in lower case where they follow a letter. */
  lemma TitleCapitalisesName(context: GTDContextLabel, i: nat)
    requires i < |context.name|
    ensures var title := GenerateTitle(context);
      var at := |context.emojis| + 1 + i;
      title[at] == if i > 0 && IsCased(context.name[i - 1]) then ToLower(context.name[i]) else ToUpper(context.name[i])
  {
    TitleAt(context.name, i);
    var title := GenerateTitle(context);
    assert title[|context.emojis| + 1..] == Title(context.name);
  }

  /** The query's pad: 40 spaces, where the prototype generator uses 60. */
  const FilterPad: nat := 40

  /** `generate_filter`: `#n`, the pad, then `| (@n & !#NotNow)`. */
  function GenerateFilter(context: GTDContextLabel): string {
    "#" + context.name + Repeat(' ', FilterPad) + "| (@" + context.name + " & !#NotNow)"
  }

  /**
   * The script's query is the prototype generator's clause with 20 fewer
   * spaces between the project selector and the context selector.
   */
  lemma FilterIsShorterClause(context: GTDContextLabel)
    ensures var f := GenerateFilter(context);
      var head := 1 + |context.name|;
      && |ProtoGtdGenerator.Clause(context.name)| == |f| + 20
      && ProtoGtdGenerator.Clause(context.name) == f[..head] + Repeat(' ', 20) + f[head..]
  {
    var n := context.name;
    var tail := "| (@" + n + " & !#NotNow)";
    var head := "#" + n;
    assert GenerateFilter(context) == head + (Repeat(' ', 40) + tail);
    assert ProtoGtdGenerator.Clause(n) == head + (Repeat(' ', 60) + tail);
    assert Repeat(' ', 60) == Repeat(' ', 20) + Repeat(' ', 40);
    var f := GenerateFilter(context);
    assert f[..|head|] == head;
    assert f[|head|..] == Repeat(' ', 40) + tail;
  }

  /** The `args` of a `filter_add` command. */
  datatype FilterArgs = FilterArgs(name: string, query: string, isFavorite: bool, color: string)

  /** The command dictionary `create_filter_add_request` returns. */
  datatype FilterAddRequest = FilterAddRequest(commandType: string, tempId: string, uuid: string, args: FilterArgs)

  /**
   * `create_filter_add_request`: `tempId` and `uuid` are the two fresh
   * tokens, drawn in that order.
   */
  function CreateFilterAddRequest(name: string, query: string, color: string, tempId: string, uuid: string): (r: FilterAddRequest)
    ensures r.commandType == "filter_add" && r.args.isFavorite
  {
    FilterAddRequest("filter_add", tempId, uuid, FilterArgs(name, query, true, color))
  }

  /** The nine contexts of the script, in its order. */
  const Contexts: seq<GTDContextLabel> := [
    GTDContextLabel("home", "🏠🧺🧹🛠️", "orange"),
    GTDContextLabel("yard", "🏡🌳🍃", "lime_green"),
    GTDContextLabel("errand", "🚴💼🎒🛍️", "red"),
    GTDContextLabel("call", "📞🗣️📲", "mint_green"),
    GTDContextLabel("iphone", "✨ 🤳 👀", "yellow"),
    GTDContextLabel("computer", "📝📊📑", "sky_blue"),
    GTDContextLabel("schedule", "🗓️🧱⏰⏲️", "berry_red"),
    GTDContextLabel("focused", "🎧🧠💻", "charcoal"),
    GTDContextLabel("quick", "⚡️💻✨", "charcoal")
  ]

  /**
   * `filter_add_requests`: one request per context, in order; the request
   * at position `i` draws the tokens at `start + 2i` (its temp_id) and
   * `start + 2i + 1` (its uuid).
   */
  function FilterAddRequests(contexts: seq<GTDContextLabel>, tokenAt: nat -> string, start: nat): (requests: seq<FilterAddRequest>)
    ensures |requests| == |contexts|
    ensures forall i :: 0 <= i < |contexts| ==>
      && requests[i].commandType == "filter_add"
      && requests[i].args == FilterArgs(GenerateTitle(contexts[i]), GenerateFilter(contexts[i]), true, contexts[i].color)
  {
    seq(|contexts|, i requires 0 <= i < |contexts| =>
      var c := contexts[i];
      CreateFilterAddRequest(GenerateTitle(c), GenerateFilter(c), c.color, tokenAt(start + 2 * i), tokenAt(start + 2 * i + 1)))
  }

  /** With a supply that never repeats a token, no two tokens of the requests are the same. */
  lemma RequestTokensDistinct(contexts: seq<GTDContextLabel>, tokenAt: nat -> string, start: nat, i: nat, j: nat)
    requires Injective(tokenAt)
    requires i < |contexts| && j < |contexts|
    ensures var rs := FilterAddRequests(contexts, tokenAt, start);
      && rs[i].tempId != rs[j].uuid
      && (i != j ==> rs[i].tempId != rs[j].tempId && rs[i].uuid != rs[j].uuid)
  {
    var rs := FilterAddRequests(contexts, tokenAt, start);
    assert rs[i].tempId == tokenAt(start + 2 * i) && rs[i].uuid == tokenAt(start + 2 * i + 1);
    assert rs[j].tempId == tokenAt(start + 2 * j) && rs[j].uuid == tokenAt(start + 2 * j + 1);
    assert start + 2 * i != start + 2 * j + 1;
  }

  /** The script sends nine commands, the first for `home` and the last for `quick`, all with a favourite filter. */
  lemma ScriptRequests(tokenAt: nat -> string)
    ensures var rs := FilterAddRequests(Contexts, tokenAt, 0);
      && |rs| == 9
      && rs[0].args.color == "orange" && rs[0].args.query == GenerateFilter(GTDContextLabel("home", "🏠🧺🧹🛠️", "orange"))
      && rs[8].args.color == "charcoal"
      && forall i :: 0 <= i < 9 ==> rs[i].args.isFavorite
  {
  }
}
