/**
 * The prompt sections of the standalone agent service
 * (server/neuro_simulator/neuro_sama/context_builder.py): core memory,
 * init memory, temp memory, the recent user messages and the tool list,
 * each rendered as lines joined by newlines, or a fixed placeholder when
 * there is nothing to show.
 *
 * Python's `str()` of a non-string value is the parameter `show`; a string
 * renders as itself.
 */
module ContextBuilder {
  import opened Json
  import opened Wrappers
  import Text
  import opened MemoryManager
  import opened ToolSchema
  import NeuroSamaApi

  /** `str(value)`: a string is itself, anything else is what `show` renders. */
  function PyStr(j: Json, show: Json -> string): (s: string)
    ensures j.JStr? ==> s == j.s
    ensures !j.JStr? ==> s == show(j)
  {
    if j.JStr? then j.s else show(j)
  }


  /* ---------- core memory ---------- */

  /** One content item: `  - item`. */
  function ItemLines(content: seq<Json>, show: Json -> string): (lines: seq<string>)
    ensures |lines| == |content|
    ensures forall i :: 0 <= i < |content| ==> lines[i] == "  - " + PyStr(content[i], show)
  {
    seq(|content|, i requires 0 <= i < |content| => "  - " + PyStr(content[i], show))
  }

  /**
   * The lines of one block's section: an empty line, the title with the
   * id, the description, `Content:`, then one line per item (a single
   * empty line when there are none).
   */
  function BlockLines(blockId: string, b: Block, show: Json -> string): (lines: seq<string>)
    ensures |lines| >= 5 && lines[0] == ""
    ensures lines[1] == "Block: " + b.title + " (" + blockId + ")"
    ensures lines[2] == "Description: " + b.description
    ensures lines[3] == "Content:"
    ensures b.content != [] ==> lines[4..] == ItemLines(b.content, show)
    ensures b.content == [] ==> lines[4..] == [""]
  {
    ["", "Block: " + b.title + " (" + blockId + ")", "Description: " + b.description, "Content:"]
      + (if b.content == [] then [""] else ItemLines(b.content, show))
  }

  /** One block's part of `format_core_memory`. */
  function BlockSection(blockId: string, b: Block, show: Json -> string): (section: string)
    ensures |section| > 0 && section[0] == '\n'
  {
    var section := "\nBlock: " + b.title + " (" + blockId + ")\nDescription: " + b.description + "\nContent:\n"
      + Text.Join(ItemLines(b.content, show), "\n");
    assert section[0] == "\nBlock: "[0];
    section
  }

  /** The sections of all blocks, in the dict's order. */
  function Sections(blocks: seq<(string, Block)>, show: Json -> string): (parts: seq<string>)
    ensures |parts| == |blocks|
    ensures forall i :: 0 <= i < |blocks| ==> parts[i] == BlockSection(blocks[i].0, blocks[i].1, show)
  {
    seq(|blocks|, i requires 0 <= i < |blocks| => BlockSection(blocks[i].0, blocks[i].1, show))
  }

  /** `format_core_memory`: `Not set.` exactly when there are no blocks. */
  function FormatCoreMemory(blocks: seq<(string, Block)>, show: Json -> string): (text: string)
    ensures blocks == [] ==> text == "Not set."
    ensures blocks != [] ==> |text| > 0 && text[0] == '\n'
    ensures text == "Not set." <==> blocks == []
  {
    if blocks == [] then "Not set."
    else
      var parts := Sections(blocks, show);
      JoinStartsWith(parts, "\n");
      Text.Join(parts, "\n")
  }

  /** A join starts with its first piece's first character. */
  lemma JoinStartsWith(parts: seq<string>, sep: string)
    requires parts != [] && |parts[0]| > 0
    ensures |Text.Join(parts, sep)| > 0 && Text.Join(parts, sep)[0] == parts[0][0]
  {
  }

  /** The lines of every block, one block after another. */
  function CoreLines(blocks: seq<(string, Block)>, show: Json -> string): (lines: seq<string>)
  {
    if blocks == [] then [] else BlockLines(blocks[0].0, blocks[0].1, show) + CoreLines(blocks[1..], show)
  }

  /** A block's section is its lines joined by newlines. */
  lemma BlockSectionIsLines(blockId: string, b: Block, show: Json -> string)
    ensures BlockSection(blockId, b, show) == Text.Join(BlockLines(blockId, b, show), "\n")
  {
    var t := "Block: " + b.title + " (" + blockId + ")";
    var d := "Description: " + b.description;
    var items := if b.content == [] then [""] else ItemLines(b.content, show);
    var body := Text.Join(ItemLines(b.content, show), "\n");
    assert Text.Join(items, "\n") == body;
    assert BlockLines(blockId, b, show) == [""] + ([t] + ([d] + (["Content:"] + items)));
    Text.JoinCons("Content:", items, "\n");
    Text.JoinCons(d, ["Content:"] + items, "\n");
    Text.JoinCons(t, [d] + (["Content:"] + items), "\n");
    Text.JoinCons("", [t] + ([d] + (["Content:"] + items)), "\n");
    SectionText(b.title, blockId, b.description, body);
  }

  /** The section's text regrouped around its line breaks. */
  lemma SectionText(title: string, blockId: string, description: string, body: string)
    ensures "\nBlock: " + title + " (" + blockId + ")\nDescription: " + description + "\nContent:\n" + body
      == "" + "\n" + (("Block: " + title + " (" + blockId + ")") + "\n"
           + (("Description: " + description) + "\n" + ("Content:" + "\n" + body)))
  {
  }

  /** The sections joined by newlines are all the blocks' lines joined by newlines. */
  lemma {:induction false} SectionsAreLines(blocks: seq<(string, Block)>, show: Json -> string)
    requires blocks != []
    ensures Text.Join(Sections(blocks, show), "\n") == Text.Join(CoreLines(blocks, show), "\n")
  {
    var parts := Sections(blocks, show);
    var first := BlockLines(blocks[0].0, blocks[0].1, show);
    BlockSectionIsLines(blocks[0].0, blocks[0].1, show);
    if |blocks| == 1 {
      assert CoreLines(blocks[1..], show) == [];
      assert CoreLines(blocks, show) == first;
    } else {
      var rest := blocks[1..];
      SectionsAreLines(rest, show);
      assert parts == [parts[0]] + Sections(rest, show);
      Text.JoinCons(parts[0], Sections(rest, show), "\n");
      Text.JoinAppend(first, CoreLines(rest, show), "\n");
    }
  }

  /** No id, title, description or rendered item holds a newline. */
  predicate SingleLineBlocks(blocks: seq<(string, Block)>, show: Json -> string) {
    forall i :: 0 <= i < |blocks| ==> SingleLineBlock(blocks[i].0, blocks[i].1, show)
  }

  /** A block whose id, title, description and items are single lines. */
  predicate SingleLineBlock(blockId: string, b: Block, show: Json -> string) {
    && '\n' !in blockId && '\n' !in b.title && '\n' !in b.description
    && forall k :: 0 <= k < |b.content| ==> '\n' !in PyStr(b.content[k], show)
  }

  /** The lines of one block whose id, title, description and items are single lines hold no newline. */
  lemma BlockLinesSingle(blockId: string, b: Block, show: Json -> string)
    requires SingleLineBlock(blockId, b, show)
    ensures forall i :: 0 <= i < |BlockLines(blockId, b, show)| ==> '\n' !in BlockLines(blockId, b, show)[i]
  {
    var lines := BlockLines(blockId, b, show);
    forall i | 0 <= i < |lines| ensures '\n' !in lines[i] {
      if i >= 4 {
        assert lines[i] == lines[4..][i - 4];
      }
    }
  }

  /** The lines of single-line blocks hold no newline. */
  lemma {:induction false} CoreLinesSingle(blocks: seq<(string, Block)>, show: Json -> string)
    requires SingleLineBlocks(blocks, show)
    ensures forall i :: 0 <= i < |CoreLines(blocks, show)| ==> '\n' !in CoreLines(blocks, show)[i]
  {
    if blocks != [] {
      assert SingleLineBlocks(blocks[1..], show) by {
        forall i | 0 <= i < |blocks[1..]| ensures SingleLineBlock(blocks[1..][i].0, blocks[1..][i].1, show) {
          assert blocks[1..][i] == blocks[i + 1];
        }
      }
      CoreLinesSingle(blocks[1..], show);
      BlockLinesSingle(blocks[0].0, blocks[0].1, show);
      AppendSingle(BlockLines(blocks[0].0, blocks[0].1, show), CoreLines(blocks[1..], show));
    }
  }

  /** Two runs of newline-free lines, one after the other. */
  lemma AppendSingle(first: seq<string>, rest: seq<string>)
    requires forall i :: 0 <= i < |first| ==> '\n' !in first[i]
    requires forall i :: 0 <= i < |rest| ==> '\n' !in rest[i]
    ensures forall i :: 0 <= i < |first + rest| ==> '\n' !in (first + rest)[i]
  {
    forall i | 0 <= i < |first + rest| ensures '\n' !in (first + rest)[i] {
      if i >= |first| {
        assert (first + rest)[i] == rest[i - |first|];
      }
    }
  }

  /**
   * Read back line by line, the core-memory section is, for each block in
   * order, a blank line, `Block: title (id)`, `Description: ...`,
   * `Content:` and one `  - item` line per item.
   */
  lemma CoreMemoryReadBack(blocks: seq<(string, Block)>, show: Json -> string)
    requires blocks != [] && SingleLineBlocks(blocks, show)
    ensures Text.Split(FormatCoreMemory(blocks, show), '\n') == CoreLines(blocks, show)
  {
    SectionsAreLines(blocks, show);
    CoreLinesSingle(blocks, show);
    assert CoreLines(blocks, show) != [] by {
      assert |CoreLines(blocks, show)| >= |BlockLines(blocks[0].0, blocks[0].1, show)|;
    }
    Text.SplitJoin(CoreLines(blocks, show), '\n');
  }

  /* ---------- init memory ---------- */

  /** `key: value`, one per key of the init memory. */
  function InitLines(init: seq<(string, Json)>, show: Json -> string): (lines: seq<string>)
    ensures |lines| == |init|
    ensures forall i :: 0 <= i < |init| ==> lines[i] == init[i].0 + ": " + PyStr(init[i].1, show)
  {
    seq(|init|, i requires 0 <= i < |init| => init[i].0 + ": " + PyStr(init[i].1, show))
  }

  /** `format_init_memory`: `Not set.` exactly when the init memory is empty. */
  function FormatInitMemory(init: seq<(string, Json)>, show: Json -> string): (text: string)
    ensures init == [] ==> text == "Not set."
    ensures init != [] ==> ':' in text
    ensures text == "Not set." <==> init == []
  {
    if init == [] then "Not set."
    else
      var lines := InitLines(init, show);
      assert lines[0][|init[0].0|] == ':';
      JoinHasFirst(lines, "\n");
      Text.Join(lines, "\n")
  }

  /** A join begins with its first piece. */
  lemma JoinHasFirst(parts: seq<string>, sep: string)
    requires parts != []
    ensures |parts[0]| <= |Text.Join(parts, sep)| && Text.Join(parts, sep)[..|parts[0]|] == parts[0]
  {
    if |parts| > 1 {
      assert Text.Join(parts, sep) == parts[0] + (sep + Text.Join(parts[1..], sep));
    }
  }

  /** With one-line keys and values, the init section reads back as one `key: value` line per key, in order. */
  lemma InitMemoryReadBack(init: seq<(string, Json)>, show: Json -> string)
    requires init != []
    requires forall i :: 0 <= i < |init| ==> '\n' !in init[i].0 && '\n' !in PyStr(init[i].1, show)
    ensures Text.Split(FormatInitMemory(init, show), '\n') == InitLines(init, show)
  {
    Text.SplitJoin(InitLines(init, show), '\n');
  }

  /* ---------- temp memory ---------- */

  /** `[role | ID: id] content`; an entry without an id shows `N/A`. */
  function TempLine(e: TempEntry, show: Json -> string): (line: string)
    ensures |line| > 0 && line[0] == '['
  {
    "[" + PyStr(e.role, show) + " | ID: " + e.id.GetOr("N/A") + "] " + PyStr(e.content, show)
  }

  function TempLines(temp: seq<TempEntry>, show: Json -> string): (lines: seq<string>)
    ensures |lines| == |temp|
    ensures forall i :: 0 <= i < |temp| ==> lines[i] == TempLine(temp[i], show)
  {
    seq(|temp|, i requires 0 <= i < |temp| => TempLine(temp[i], show))
  }

  /** `format_temp_memory`: `Empty.` exactly when there are no entries. */
  function FormatTempMemory(temp: seq<TempEntry>, show: Json -> string): (text: string)
    ensures temp == [] ==> text == "Empty."
    ensures temp != [] ==> |text| > 0 && text[0] == '['
    ensures text == "Empty." <==> temp == []
  {
    if temp == [] then "Empty."
    else
      var lines := TempLines(temp, show);
      JoinStartsWith(lines, "\n");
      Text.Join(lines, "\n")
  }

  /** With one-line roles, ids and contents, the temp section reads back as one line per entry, in order. */
  lemma TempMemoryReadBack(temp: seq<TempEntry>, show: Json -> string)
    requires temp != []
    requires forall i :: 0 <= i < |temp| ==> '\n' !in TempLine(temp[i], show)
    ensures Text.Split(FormatTempMemory(temp, show), '\n') == TempLines(temp, show)
  {
    Text.SplitJoin(TempLines(temp, show), '\n');
  }

  /** An entry without an id is shown with `N/A` in its id slot. */
  lemma MissingIdShown(e: TempEntry, show: Json -> string)
    requires e.id.None?
    ensures var head := "[" + PyStr(e.role, show) + " | ID: N/A] ";
      && |head| <= |TempLine(e, show)|
      && TempLine(e, show)[..|head|] == head
      && TempLine(e, show)[|head|..] == PyStr(e.content, show)
  {
  }

  /* ---------- recent messages ---------- */

  /** `user: content`. */
  function MessageLines(messages: seq<NeuroSamaApi.UserMessage>, show: Json -> string): (lines: seq<string>)
    ensures |lines| == |messages|
    ensures forall i :: 0 <= i < |messages| ==>
      lines[i] == PyStr(messages[i].user, show) + ": " + PyStr(messages[i].content, show)
  {
    seq(|messages|, i requires 0 <= i < |messages| =>
      PyStr(messages[i].user, show) + ": " + PyStr(messages[i].content, show))
  }

  /** `format_user_messages`: `No recent messages.` exactly when there are none. */
  function FormatUserMessages(messages: seq<NeuroSamaApi.UserMessage>, show: Json -> string): (text: string)
    ensures messages == [] ==> text == "No recent messages."
    ensures messages != [] ==> ':' in text
    ensures text == "No recent messages." <==> messages == []
  {
    if messages == [] then "No recent messages."
    else
      var lines := MessageLines(messages, show);
      assert lines[0][|PyStr(messages[0].user, show)|] == ':';
      JoinHasFirst(lines, "\n");
      Text.Join(lines, "\n")
  }

  /** With one-line names and contents, the messages read back one per line, oldest first. */
  lemma UserMessagesReadBack(messages: seq<NeuroSamaApi.UserMessage>, show: Json -> string)
    requires messages != []
    requires forall i :: 0 <= i < |messages| ==>
      '\n' !in PyStr(messages[i].user, show) && '\n' !in PyStr(messages[i].content, show)
    ensures Text.Split(FormatUserMessages(messages, show), '\n') == MessageLines(messages, show)
  {
    Text.SplitJoin(MessageLines(messages, show), '\n');
  }

  /* ---------- tool descriptions ---------- */

  /** `name: type (required)` or `name: type (optional)`. */
  function ParamEntries(ps: seq<Param>): (entries: seq<string>)
    ensures |entries| == |ps|
    ensures forall i :: 0 <= i < |ps| ==>
      entries[i] == ps[i].name + ": " + ps[i].typ + " (" + (if ps[i].required then "required" else "optional") + ")"
  {
    seq(|ps|, i requires 0 <= i < |ps| =>
      ps[i].name + ": " + ps[i].typ + " (" + (if ps[i].required then "required" else "optional") + ")")
  }

  /** The `i`-th tool (from 0), numbered from 1. */
  function ToolEntry(i: nat, s: Schema): (line: string)
    ensures |line| >= |Text.NatToString(i + 1)| + 2
    ensures line[..|Text.NatToString(i + 1)| + 2] == Text.NatToString(i + 1) + ". "
  {
    var line := Text.NatToString(i + 1) + ". " + s.name + "(" + Text.Join(ParamEntries(s.parameters), ", ") + ") - "
      + s.description;
    assert line == (Text.NatToString(i + 1) + ". ")
      + (s.name + "(" + Text.Join(ParamEntries(s.parameters), ", ") + ") - " + s.description);
    line
  }

  function ToolEntries(schemas: seq<Schema>): (lines: seq<string>)
    ensures |lines| == |schemas|
    ensures forall i :: 0 <= i < |schemas| ==> lines[i] == ToolEntry(i, schemas[i])
  {
    seq(|schemas|, i requires 0 <= i < |schemas| => ToolEntry(i, schemas[i]))
  }

  /** `format_tool_descriptions`: `No tools available.` exactly when there are no tools. */
  function FormatToolDescriptions(schemas: seq<Schema>): (text: string)
    ensures schemas == [] ==> text == "No tools available."
    ensures schemas != [] ==> |text| >= 16 && text[..16] == "Available tools:"
    ensures text == "No tools available." <==> schemas == []
  {
    if schemas == [] then "No tools available."
    else
      var lines := ["Available tools:"] + ToolEntries(schemas);
      JoinHasFirst(lines, "\n");
      Text.Join(lines, "\n")
  }

  /** No newline in a tool's name, description, or its parameters' names and types. */
  predicate OneLineSchema(s: Schema) {
    '\n' !in s.name && '\n' !in s.description
    && forall i :: 0 <= i < |s.parameters| ==> '\n' !in s.parameters[i].name && '\n' !in s.parameters[i].typ
  }

  /** A tool entry built from one-line parts is one line. */
  lemma ToolEntryOneLine(i: nat, s: Schema)
    requires OneLineSchema(s)
    ensures '\n' !in ToolEntry(i, s)
  {
    Text.JoinKeepsOut(ParamEntries(s.parameters), ", ", '\n');
    var number := Text.NatToString(i + 1);
    assert '\n' !in number by {
      forall j | 0 <= j < |number| ensures number[j] != '\n' {
        assert '0' <= number[j] <= '9';
      }
    }
  }

  /**
   * The tool section reads back as the header and then one line per tool,
   * numbered from 1 in the registry's order.
   */
  lemma ToolDescriptionsReadBack(schemas: seq<Schema>)
    requires schemas != [] && forall i :: 0 <= i < |schemas| ==> OneLineSchema(schemas[i])
    ensures var lines := Text.Split(FormatToolDescriptions(schemas), '\n');
      && |lines| == |schemas| + 1 && lines[0] == "Available tools:"
      && forall i :: 0 <= i < |schemas| ==> lines[i + 1] == ToolEntry(i, schemas[i])
  {
    forall i | 0 <= i < |schemas| ensures '\n' !in ToolEntry(i, schemas[i]) {
      ToolEntryOneLine(i, schemas[i]);
    }
    Text.SplitJoin(["Available tools:"] + ToolEntries(schemas), '\n');
  }
}
