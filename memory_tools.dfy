/**
 * The four memory tools the agent can call
 * (the files under server/neuro_simulator/neuro_sama/tools).  Each tool reads its
 * arguments from the keyword dict the model supplied, raises `ValueError`
 * on a missing argument, calls the memory manager and reports a status
 * dict.  A status message is kept as the template it was built from.
 */
module MemoryTools {
  import opened Wrappers
  import opened Json
  import Dict
  import opened MemoryManager
  import opened ToolSchema

  /** The message templates the tools report. */
  datatype Message =
    | BlockNotFound(blockId: Json)
    | ContentUpdated(blockId: Json)
    | UpdateFailed(blockId: Json)
    | ContentNotFound(content: Json, blockId: Json)
    | ContentAdded(blockId: Json)
    | AddFailed(blockId: Json)
    | TempAdded
    | TempAddFailed
    | TempDeleted(itemId: Json)
    | TempDeleteFailed(itemId: Json)

  /** What a call of `execute` ends in: an exception, or a `{"status", "message"}` dict. */
  datatype ToolResult =
    | Raised(error: string)
    | Status(success: bool, message: Message)

  /** Python raises `TypeError` when a list or dict is looked up as a dict key. */
  predicate Hashable(j: Json) {
    !j.JArr? && !j.JObj?
  }

  /** `kwargs.get(name)`, with `None` for a missing argument. */
  function Arg(kwargs: seq<(string, Json)>, name: string): (j: Json)
    ensures Dict.HasKey(kwargs, name) || j == JNull
  {
    Dict.Get(kwargs, name).GetOr(JNull)
  }

  /**
   * The block stored under a tool's `block_id` argument: a string id is
   * looked up, any other hashable value is an absent key (the keys are
   * strings), and an unhashable one raises.
   */
  function LookupBlock(blocks: seq<(string, Block)>, blockId: Json): (r: Option<Block>)
    requires Hashable(blockId)
    ensures r.Some? <==> blockId.JStr? && Dict.HasKey(blocks, blockId.s)
  {
    if blockId.JStr? then Dict.Get(blocks, blockId.s) else None
  }

  /**
   * `EditCoreMemoryBlockContentTool.execute`: replace the first item equal
   * to `old_content` in the block with `new_content`.
   */
  method EditCoreMemoryBlockContent(mm: MemoryManager, kwargs: seq<(string, Json)>, saveOk: bool)
    returns (r: ToolResult)
    modifies mm
    ensures var blockId := Arg(kwargs, "block_id");
      var oldContent := Arg(kwargs, "old_content");
      var newContent := Arg(kwargs, "new_content");
      var missing := !Truthy(blockId) || oldContent == JNull || newContent == JNull;
      && (r == Raised("ValueError") <==> missing)
      && (r == Raised("TypeError") <==> !missing && !Hashable(blockId))
      && (r.Raised? ==> mm.blocks == old(mm.blocks))
      && (r.Status? ==>
            var found := LookupBlock(old(mm.blocks), blockId);
            && (found.None? ==> r == Status(false, BlockNotFound(blockId)) && mm.blocks == old(mm.blocks))
            && (found.Some? && !PyIn(oldContent, found.value.content) ==>
                  r == Status(false, ContentNotFound(oldContent, blockId)) && mm.blocks == old(mm.blocks))
            && (found.Some? && PyIn(oldContent, found.value.content) ==>
                  var b := found.value;
                  var i := PyIndex(b.content, oldContent);
                  && r == Status(true, ContentUpdated(blockId))
                  && (saveOk ==> mm.blocks == Dict.Set(old(mm.blocks), blockId.s, b.(id := blockId.s, content := b.content[i := newContent])))
                  && (saveOk ==> Dict.Get(mm.blocks, blockId.s) == Some(b.(id := blockId.s, content := b.content[i := newContent])))
                  && (!saveOk ==> mm.blocks == old(mm.blocks))))
    ensures mm.init == old(mm.init) && mm.temp == old(mm.temp)
  {
    var blockId := Arg(kwargs, "block_id");
    var oldContent := Arg(kwargs, "old_content");
    var newContent := Arg(kwargs, "new_content");
    if !Truthy(blockId) {
      return Raised("ValueError");
    }
    if oldContent == JNull {
      return Raised("ValueError");
    }
    if newContent == JNull {
      return Raised("ValueError");
    }
    if !Hashable(blockId) {
      return Raised("TypeError");
    }
    var block := LookupBlock(mm.blocks, blockId);
    if block.None? {
      return Status(false, BlockNotFound(blockId));
    }
    var contentList := block.value.content;
    if PyIn(oldContent, contentList) {
      var idx := PyIndex(contentList, oldContent);
      contentList := contentList[idx := newContent];
      var success := mm.UpdateCoreMemoryBlock(blockId.s, None, None, Some(contentList), saveOk);
      if success {
        return Status(true, ContentUpdated(blockId));
      } else {
        return Status(false, UpdateFailed(blockId));
      }
    } else {
      return Status(false, ContentNotFound(oldContent, blockId));
    }
  }

  /** `AddToCoreMemoryBlockTool.execute`. */
  method AddToCoreMemoryBlock(mm: MemoryManager, kwargs: seq<(string, Json)>, saveOk: bool)
    returns (r: ToolResult)
    modifies mm
    ensures var blockId := Arg(kwargs, "block_id");
      var content := Arg(kwargs, "content");
      && (r == Raised("ValueError") <==> !Truthy(blockId) || !Truthy(content))
      && (r == Raised("TypeError") <==> Truthy(blockId) && Truthy(content) && !Hashable(blockId))
      && (r.Status? ==>
            var found := LookupBlock(old(mm.blocks), blockId);
            var added := found.Some? && !PyIn(content, found.value.content);
            && r == Status(added, if added then ContentAdded(blockId) else AddFailed(blockId))
            && (added && saveOk ==>
                  && mm.blocks == Dict.Set(old(mm.blocks), blockId.s, found.value.(content := found.value.content + [content]))
                  && Dict.Get(mm.blocks, blockId.s) == Some(found.value.(content := found.value.content + [content]))))
      && (!(r.Status? && r.success && saveOk) ==> mm.blocks == old(mm.blocks))
    ensures mm.init == old(mm.init) && mm.temp == old(mm.temp)
  {
    var blockId := Arg(kwargs, "block_id");
    var content := Arg(kwargs, "content");
    if !Truthy(blockId) {
      return Raised("ValueError");
    }
    if !Truthy(content) {
      return Raised("ValueError");
    }
    if !Hashable(blockId) {
      return Raised("TypeError");
    }
    var success := false;
    if blockId.JStr? {
      success := mm.AddToCoreMemoryBlock(blockId.s, content, saveOk);
    }
    if success {
      return Status(true, ContentAdded(blockId));
    } else {
      return Status(false, AddFailed(blockId));
    }
  }

  /** `AddTempMemoryTool.execute`: the role defaults to "assistant". */
  method AddTempMemory(mm: MemoryManager, kwargs: seq<(string, Json)>, idRolls: seq<nat>, timestamp: string,
                       saveOk: bool) returns (r: ToolResult)
    modifies mm
    ensures var content := Arg(kwargs, "content");
      var role := Dict.Get(kwargs, "role").GetOr(JStr("assistant"));
      && (r.Raised? <==> !(content.JStr? && content.s != ""))
      && (r.Raised? ==> mm.temp == old(mm.temp))
      && (r.Status? ==>
            && r == Status(saveOk, if saveOk then TempAdded else TempAddFailed)
            && mm.temp == if saveOk
                          then KeepLast(old(mm.temp) + [TempEntry(Some(RandomId(idRolls)), content, role, timestamp)])
                          else old(mm.temp))
    ensures mm.init == old(mm.init) && mm.blocks == old(mm.blocks)
  {
    var content := Arg(kwargs, "content");
    var role := Dict.Get(kwargs, "role").GetOr(JStr("assistant"));
    if !(content.JStr? && content.s != "") {
      return Raised("ValueError");
    }
    var success := mm.AddTempMemory(content, role, idRolls, timestamp, saveOk);
    if success {
      return Status(true, TempAdded);
    } else {
      return Status(false, TempAddFailed);
    }
  }

  /**
   * `DeleteTempMemoryItemTool.execute`.  A non-string id equals no stored
   * id, so nothing is deleted and the failure message is reported.
   */
  method DeleteTempMemoryItem(mm: MemoryManager, kwargs: seq<(string, Json)>, saveOk: bool)
    returns (r: ToolResult)
    modifies mm
    ensures var itemId := Arg(kwargs, "item_id");
      && (r.Raised? <==> !Truthy(itemId))
      && (r.Status? ==>
            var deleted := saveOk && itemId.JStr?
              && exists i :: 0 <= i < |old(mm.temp)| && old(mm.temp)[i].id == Some(itemId.s);
            && r == Status(deleted, if deleted then TempDeleted(itemId) else TempDeleteFailed(itemId))
            && mm.temp == if deleted then WithoutId(old(mm.temp), itemId.s) else old(mm.temp))
      && (r.Raised? ==> mm.temp == old(mm.temp))
    ensures mm.init == old(mm.init) && mm.blocks == old(mm.blocks)
  {
    var itemId := Arg(kwargs, "item_id");
    if !Truthy(itemId) {
      return Raised("ValueError");
    }
    var success := false;
    if itemId.JStr? {
      success := mm.DeleteTempMemoryItem(itemId.s, saveOk);
    }
    if success {
      return Status(true, TempDeleted(itemId));
    } else {
      return Status(false, TempDeleteFailed(itemId));
    }
  }

  /* ---------- declared parameters ---------- */

  /** `EditCoreMemoryBlockContentTool.parameters`: three required strings. */
  function EditCoreMemoryBlockContentParameters(): (ps: seq<Param>)
    ensures RequiredNames(ps) == ["block_id", "old_content", "new_content"]
    ensures forall i :: 0 <= i < |ps| ==> ps[i].typ == "string" && ps[i].required
  {
    [Param("block_id", "string", "The ID of the memory block to edit content in.", true),
     Param("old_content", "string", "The content to be replaced.", true),
     Param("new_content", "string", "The new content to replace the old content with.", true)]
  }

  /** `AddToCoreMemoryBlockTool.parameters`: both parameters are required. */
  function AddToCoreMemoryBlockParameters(): (ps: seq<Param>)
    ensures RequiredNames(ps) == ["block_id", "content"]
    ensures forall i :: 0 <= i < |ps| ==> ps[i].required
  {
    [Param("block_id", "string", "The ID of the memory block to add content to.", true),
     Param("content", "string", "The content to add to the memory block.", true)]
  }

  /** `AddTempMemoryTool.parameters`: `content` is required, `role` optional. */
  function AddTempMemoryParameters(): (ps: seq<Param>)
    ensures RequiredNames(ps) == ["content"]
    ensures |ps| == 2 && ps[1].name == "role" && !ps[1].required
  {
    [Param("content", "string", "The content to store in temporary memory.", true),
     Param("role", "string", "The role associated with this memory entry (e.g., 'assistant', 'user', 'system').", false)]
  }

  /** `DeleteTempMemoryItemTool.parameters`: exactly one, required. */
  function DeleteTempMemoryItemParameters(): (ps: seq<Param>)
    ensures |ps| == 1 && RequiredNames(ps) == ["item_id"]
  {
    [Param("item_id", "string", "The ID of the temporary memory item to delete.", true)]
  }
}
