/**
 * The agent's memory store (server/neuro_simulator/neuro_sama/memory_manager.py).
 *
 * Three memories live in three JSON files: init memory (a dict of facts),
 * core memory (a dict of titled blocks, each with a list of items) and temp
 * memory (a list of recent entries, at most 20).  The model keeps the file
 * contents as fields; every write takes `saveOk`, whether writing the file
 * succeeded, and a failed write leaves the field as it was.
 */
module MemoryManager {
  import opened Wrappers
  import opened Json
  import Dict
  import Text

  /** A core memory block as stored under its id. */
  datatype Block = Block(id: string, title: string, description: string, content: seq<Json>)

  /** A temp memory entry; an entry read back from disk may lack its `id`. */
  datatype TempEntry = TempEntry(id: Option<string>, content: Json, role: Json, timestamp: string)

  /** At most this many temp entries are kept. */
  const TempLimit: nat := 20

  /* ---------- Python list operations on JSON items ---------- */

  /** Python's `x in xs`, which compares with `==`. */
  predicate PyIn(x: Json, xs: seq<Json>) {
    exists i :: 0 <= i < |xs| && PyEq(xs[i], x)
  }

  /** Python's `xs.index(x)`: the first position holding a value equal to `x`. */
  function PyIndex(xs: seq<Json>, x: Json): (i: nat)
    requires PyIn(x, xs)
    ensures i < |xs| && PyEq(xs[i], x)
    ensures forall j :: 0 <= j < i ==> !PyEq(xs[j], x)
  {
    if PyEq(xs[0], x) then 0
    else
      assert PyIn(x, xs[1..]) by {
        var i :| 0 <= i < |xs| && PyEq(xs[i], x);
        assert i > 0 && xs[1..][i - 1] == xs[i];
      }
      1 + PyIndex(xs[1..], x)
  }

  /* ---------- block ids ---------- */

  /** `title.lower().replace(' ', '_').replace('-', '_')`. */
  function BaseId(title: string): (id: string)
    ensures |id| == |title|
    ensures forall i :: 0 <= i < |id| ==> id[i] != ' ' && id[i] != '-' && !('A' <= id[i] <= 'Z')
  {
    Text.ReplaceChar(Text.ReplaceChar(Text.Lower(title), ' ', '_'), '-', '_')
  }

  /** The `n`-th id tried for a block: the base itself, then `base_1`, `base_2`, ... */
  function Candidate(base: string, n: nat): string {
    if n == 0 then base else base + "_" + Text.NatToString(n)
  }

  /** Different counters give different ids, so the search meets a new id at every step. */
  lemma CandidateInjective(base: string, n: nat, m: nat)
    requires Candidate(base, n) == Candidate(base, m)
    ensures n == m
  {
    if n != 0 && m != 0 {
      assert Candidate(base, n)[|base| + 1..] == Text.NatToString(n);
      assert Candidate(base, m)[|base| + 1..] == Text.NatToString(m);
      Text.NatToStringInjective(n, m);
    }
  }

  /**
   * The `while block_id in blocks` loop of `create_core_memory_block`: the
   * first candidate id not yet used.  It ends because the candidates tried
   * are distinct keys of a finite dict.
   */
  method UniqueBlockId(base: string, blocks: seq<(string, Block)>) returns (id: string)
    ensures !Dict.HasKey(blocks, id)
    ensures exists n: nat :: (id == Candidate(base, n)
      && forall m: nat :: m < n ==> Dict.HasKey(blocks, Candidate(base, m)))
  {
    id := base;
    var counter: nat := 1;
    ghost var seen: set<string> := {};
    ghost var keys := Dict.KeySet(blocks);
    while Dict.HasKey(blocks, id)
      invariant id == Candidate(base, counter - 1)
      invariant forall m: nat :: m < counter - 1 ==> Dict.HasKey(blocks, Candidate(base, m))
      invariant forall k, j: nat :: k in seen && j >= counter - 1 ==> k != Candidate(base, j)
      invariant seen <= keys
      decreases keys - seen
    {
      Dict.KeysHasKey(blocks, id);
      SeenGrows(base, seen, counter);
      seen := seen + {id};
      id := base + "_" + Text.NatToString(counter);
      counter := counter + 1;
    }
  }

  /** Adding the current candidate keeps the tried ids apart from all later candidates. */
  lemma SeenGrows(base: string, seen: set<string>, counter: nat)
    requires counter >= 1
    requires forall k, j: nat :: k in seen && j >= counter - 1 ==> k != Candidate(base, j)
    ensures Candidate(base, counter - 1) !in seen
    ensures forall j: nat :: j >= counter ==> Candidate(base, counter - 1) != Candidate(base, j)
  {
    forall j: nat | j >= counter ensures Candidate(base, counter - 1) != Candidate(base, j) {
      if Candidate(base, counter - 1) == Candidate(base, j) {
        CandidateInjective(base, counter - 1, j);
      }
    }
  }

  /* ---------- temp memory helpers ---------- */

  /** The characters of a random temp id (`string.ascii_lowercase + string.digits`). */
  const IdAlphabet: string := "abcdefghijklmnopqrstuvwxyz0123456789"

  /** `''.join(random.choices(IdAlphabet, k=6))`, one roll per character. */
  function RandomId(rolls: seq<nat>): (id: string)
    ensures |id| == 6
    ensures forall i :: 0 <= i < 6 ==> id[i] in IdAlphabet
  {
    seq(6, i requires 0 <= i < 6 => IdAlphabet[(if i < |rolls| then rolls[i] else 0) % |IdAlphabet|])
  }

  /** `xs[-20:]` when the list is longer than 20: the newest 20 entries. */
  function KeepLast(xs: seq<TempEntry>): (r: seq<TempEntry>)
    ensures |r| <= TempLimit
    ensures |r| == if |xs| > TempLimit then TempLimit else |xs|
    ensures r == xs[|xs| - |r|..]
  {
    if |xs| > TempLimit then xs[|xs| - TempLimit..] else xs
  }

  /** `[item for item in temp if item.get('id') != item_id]`. */
  function WithoutId(temp: seq<TempEntry>, itemId: string): (r: seq<TempEntry>)
    ensures |r| <= |temp|
    ensures forall i :: 0 <= i < |r| ==> r[i].id != Some(itemId)
    ensures forall e :: e in temp && e.id != Some(itemId) ==> e in r
    ensures forall e :: e in r ==> e in temp
    ensures |r| == |temp| <==> forall i :: 0 <= i < |temp| ==> temp[i].id != Some(itemId)
    ensures IsSubsequence(r, temp)
  {
    if temp == [] then []
    else
      var rest := WithoutId(temp[1..], itemId);
      assert forall e :: e in temp[1..] ==> e in temp;
      if temp[0].id == Some(itemId) then
        assert |rest| < |temp|;
        rest
      else
        var r := [temp[0]] + rest;
        assert r[1..] == rest;
        assert forall i :: 1 <= i < |temp| ==> temp[i] == temp[1..][i - 1];
        r
  }

  /** The filter works entry by entry: it distributes over concatenation. */
  lemma {:induction false} WithoutIdAppend(xs: seq<TempEntry>, ys: seq<TempEntry>, itemId: string)
    ensures WithoutId(xs + ys, itemId) == WithoutId(xs, itemId) + WithoutId(ys, itemId)
  {
    if xs == [] {
      assert xs + ys == ys;
    } else {
      assert (xs + ys)[1..] == xs[1..] + ys;
      WithoutIdAppend(xs[1..], ys, itemId);
    }
  }

  /** Every entry without the id is kept as often as it occurs; entries with the id are all gone. */
  lemma {:induction false} WithoutIdCount(temp: seq<TempEntry>, itemId: string, e: TempEntry)
    ensures multiset(WithoutId(temp, itemId))[e] == if e.id == Some(itemId) then 0 else multiset(temp)[e]
  {
    if temp != [] {
      var rest := WithoutId(temp[1..], itemId);
      WithoutIdCount(temp[1..], itemId, e);
      assert temp == [temp[0]] + temp[1..];
      assert multiset(temp) == multiset{temp[0]} + multiset(temp[1..]);
      if temp[0].id == Some(itemId) {
        assert WithoutId(temp, itemId) == rest;
      } else {
        assert WithoutId(temp, itemId) == [temp[0]] + rest;
        assert multiset([temp[0]] + rest) == multiset{temp[0]} + multiset(rest);
      }
    }
  }

  /** One entry is dropped exactly when it carries the id. */
  lemma WithoutIdSingle(e: TempEntry, itemId: string)
    ensures WithoutId([e], itemId) == if e.id == Some(itemId) then [] else [e]
  {
    assert [e][1..] == [];
  }

  /** `sub` keeps some of the entries of `xs`, in their order. */
  predicate IsSubsequence(sub: seq<TempEntry>, xs: seq<TempEntry>) {
    if sub == [] then true
    else if xs == [] then false
    else if sub[0] == xs[0] then IsSubsequence(sub[1..], xs[1..])
    else IsSubsequence(sub, xs[1..])
  }

  class MemoryManager {
    /** The init memory file: a dict. */
    var init: seq<(string, Json)>
    /** The core memory file's `blocks` dict. */
    var blocks: seq<(string, Block)>
    /** The temp memory file: a list of entries. */
    var temp: seq<TempEntry>

    /** A manager over missing files: every memory reads as empty. */
    constructor ()
      ensures init == [] && blocks == [] && temp == []
    {
      init, blocks, temp := [], [], [];
    }

    /* --- init memory --- */

    /** `update_init_memory`: replace the whole dict; true iff the write succeeded. */
    method UpdateInitMemory(memory: seq<(string, Json)>, saveOk: bool) returns (ok: bool)
      modifies this
      ensures ok == saveOk
      ensures init == if saveOk then memory else old(init)
      ensures blocks == old(blocks) && temp == old(temp)
    {
      if saveOk {
        init := memory;
      }
      return saveOk;
    }

    /** `update_init_memory_item`: set exactly one key. */
    method UpdateInitMemoryItem(key: string, value: Json, saveOk: bool) returns (ok: bool)
      modifies this
      ensures ok == saveOk
      ensures saveOk ==> (Dict.Get(init, key) == Some(value)
        && forall k :: k != key ==> Dict.Get(init, k) == Dict.Get(old(init), k))
      ensures saveOk ==> init == Dict.Set(old(init), key, value)
      ensures !saveOk ==> init == old(init)
      ensures blocks == old(blocks) && temp == old(temp)
    {
      var memory := Dict.Set(init, key, value);
      ok := UpdateInitMemory(memory, saveOk);
    }

    /** `delete_init_memory_key`: false, with nothing written, when the key is absent. */
    method DeleteInitMemoryKey(key: string, saveOk: bool) returns (ok: bool)
      modifies this
      ensures !Dict.HasKey(old(init), key) ==> !ok && init == old(init)
      ensures Dict.HasKey(old(init), key) ==> ok == saveOk
      ensures Dict.HasKey(old(init), key) && saveOk ==>
        !Dict.HasKey(init, key) && forall k :: k != key ==> Dict.Get(init, k) == Dict.Get(old(init), k)
      ensures ok ==> init == Dict.Remove(old(init), key)
      ensures !saveOk ==> init == old(init)
      ensures blocks == old(blocks) && temp == old(temp)
    {
      if Dict.HasKey(init, key) {
        var memory := Dict.Remove(init, key);
        ok := UpdateInitMemory(memory, saveOk);
      } else {
        ok := false;
      }
    }

    /* --- core memory --- */

    /** `get_core_memory_block`. */
    function GetCoreMemoryBlock(blockId: string): (b: Option<Block>)
      reads this
      ensures b.Some? <==> Dict.HasKey(blocks, blockId)
    {
      Dict.Get(blocks, blockId)
    }

    /**
     * `create_core_memory_block`: store the block under the first free id
     * derived from its title and return that id (whether or not the write succeeded).
     */
    method CreateCoreMemoryBlock(title: string, description: string, content: seq<Json>, saveOk: bool)
      returns (blockId: string)
      modifies this
      ensures !Dict.HasKey(old(blocks), blockId)
      ensures exists n: nat :: (blockId == Candidate(BaseId(title), n)
        && forall m: nat :: m < n ==> Dict.HasKey(old(blocks), Candidate(BaseId(title), m)))
      ensures saveOk ==>
        && Dict.Get(blocks, blockId) == Some(Block(blockId, title, description, content))
        && Dict.Keys(blocks) == Dict.Keys(old(blocks)) + [blockId]
        && forall k :: k != blockId ==> Dict.Get(blocks, k) == Dict.Get(old(blocks), k)
      ensures !saveOk ==> blocks == old(blocks)
      ensures init == old(init) && temp == old(temp)
    {
      var base := BaseId(title);
      blockId := UniqueBlockId(base, blocks);
      var newBlock := Block(blockId, title, description, content);
      if saveOk {
        blocks := Dict.Set(blocks, blockId, newBlock);
      }
    }

    /**
     * `update_core_memory_block`: false with no change for an unknown id;
     * otherwise replace the given fields, set `id` to the key, and return
     * true (the outcome of the write is not reported).
     */
    method UpdateCoreMemoryBlock(blockId: string, title: Option<string>, description: Option<string>,
                                 content: Option<seq<Json>>, saveOk: bool) returns (ok: bool)
      modifies this
      ensures ok <==> Dict.HasKey(old(blocks), blockId)
      ensures !ok || !saveOk ==> blocks == old(blocks)
      ensures ok && saveOk ==>
        var b := Dict.Get(old(blocks), blockId).value;
        && Dict.Get(blocks, blockId) == Some(Block(blockId, title.GetOr(b.title),
                                                   description.GetOr(b.description), content.GetOr(b.content)))
        && blocks == Dict.Set(old(blocks), blockId, Block(blockId, title.GetOr(b.title),
                                                         description.GetOr(b.description), content.GetOr(b.content)))
        && Dict.Keys(blocks) == Dict.Keys(old(blocks))
        && forall k :: k != blockId ==> Dict.Get(blocks, k) == Dict.Get(old(blocks), k)
      ensures init == old(init) && temp == old(temp)
    {
      var found := Dict.Get(blocks, blockId);
      if found.None? {
        return false;
      }
      var block := found.value;
      if title.Some? {
        block := block.(title := title.value);
      }
      if description.Some? {
        block := block.(description := description.value);
      }
      if content.Some? {
        block := block.(content := content.value);
      }
      block := block.(id := blockId);
      if saveOk {
        blocks := Dict.Set(blocks, blockId, block);
      }
      return true;
    }

    /** `delete_core_memory_block`: true iff the block existed; it is gone afterwards and the rest stay. */
    method DeleteCoreMemoryBlock(blockId: string, saveOk: bool) returns (ok: bool)
      modifies this
      ensures ok <==> Dict.HasKey(old(blocks), blockId)
      ensures ok && saveOk ==>
        !Dict.HasKey(blocks, blockId)
        && forall k :: k != blockId ==> Dict.Get(blocks, k) == Dict.Get(old(blocks), k)
      ensures ok && saveOk ==> blocks == Dict.Remove(old(blocks), blockId)
      ensures !ok || !saveOk ==> blocks == old(blocks)
      ensures init == old(init) && temp == old(temp)
    {
      if Dict.HasKey(blocks, blockId) {
        if saveOk {
          blocks := Dict.Remove(blocks, blockId);
        }
        return true;
      }
      return false;
    }

    /** `add_to_core_memory_block`: append an item the block does not hold yet. */
    method AddToCoreMemoryBlock(blockId: string, item: Json, saveOk: bool) returns (ok: bool)
      modifies this
      ensures ok <==> Dict.HasKey(old(blocks), blockId) && !PyIn(item, Dict.Get(old(blocks), blockId).value.content)
      ensures ok && saveOk ==>
        var b := Dict.Get(old(blocks), blockId).value;
        && Dict.Get(blocks, blockId) == Some(b.(content := b.content + [item]))
        && blocks == Dict.Set(old(blocks), blockId, b.(content := b.content + [item]))
        && forall k :: k != blockId ==> Dict.Get(blocks, k) == Dict.Get(old(blocks), k)
      ensures !ok || !saveOk ==> blocks == old(blocks)
      ensures init == old(init) && temp == old(temp)
    {
      var found := Dict.Get(blocks, blockId);
      if found.None? {
        return false;
      }
      var block := found.value;
      if !PyIn(item, block.content) {
        if saveOk {
          blocks := Dict.Set(blocks, blockId, block.(content := block.content + [item]));
        }
        return true;
      }
      return false;
    }

    /** `remove_from_core_memory_block`: remove the first item equal to `item`. */
    method RemoveFromCoreMemoryBlock(blockId: string, item: Json, saveOk: bool) returns (ok: bool)
      modifies this
      ensures ok <==> Dict.HasKey(old(blocks), blockId) && PyIn(item, Dict.Get(old(blocks), blockId).value.content)
      ensures ok && saveOk ==>
        var b := Dict.Get(old(blocks), blockId).value;
        var i := PyIndex(b.content, item);
        && Dict.Get(blocks, blockId) == Some(b.(content := b.content[..i] + b.content[i + 1..]))
        && blocks == Dict.Set(old(blocks), blockId, b.(content := b.content[..i] + b.content[i + 1..]))
        && forall k :: k != blockId ==> Dict.Get(blocks, k) == Dict.Get(old(blocks), k)
      ensures !ok || !saveOk ==> blocks == old(blocks)
      ensures init == old(init) && temp == old(temp)
    {
      var found := Dict.Get(blocks, blockId);
      if found.None? {
        return false;
      }
      var block := found.value;
      if PyIn(item, block.content) {
        var i := PyIndex(block.content, item);
        if saveOk {
          blocks := Dict.Set(blocks, blockId, block.(content := block.content[..i] + block.content[i + 1..]));
        }
        return true;
      }
      return false;
    }

    /* --- temp memory --- */

    /** `add_temp_memory`: append a new entry, keep the newest 20, and report the write. */
    method AddTempMemory(content: Json, role: Json, idRolls: seq<nat>, timestamp: string, saveOk: bool)
      returns (ok: bool)
      modifies this
      ensures ok == saveOk
      ensures saveOk ==>
        && temp == KeepLast(old(temp) + [TempEntry(Some(RandomId(idRolls)), content, role, timestamp)])
        && |temp| <= TempLimit
        && temp[|temp| - 1] == TempEntry(Some(RandomId(idRolls)), content, role, timestamp)
      ensures !saveOk ==> temp == old(temp)
      ensures init == old(init) && blocks == old(blocks)
    {
      var randomId := RandomId(idRolls);
      var newEntry := TempEntry(Some(randomId), content, role, timestamp);
      var tempMemory := temp + [newEntry];
      if |tempMemory| > TempLimit {
        tempMemory := tempMemory[|tempMemory| - TempLimit..];
      }
      ok := SaveTempMemory(tempMemory, saveOk);
    }

    /** `delete_temp_memory_item`: drop every entry with that id; true iff one was dropped and the write succeeded. */
    method DeleteTempMemoryItem(itemId: string, saveOk: bool) returns (ok: bool)
      modifies this
      ensures ok <==> saveOk && exists i :: 0 <= i < |old(temp)| && old(temp)[i].id == Some(itemId)
      ensures ok ==> temp == WithoutId(old(temp), itemId)
      ensures !ok ==> temp == old(temp)
      ensures init == old(init) && blocks == old(blocks)
    {
      var originalLength := |temp|;
      var tempMemory := WithoutId(temp, itemId);
      if |tempMemory| < originalLength {
        ok := SaveTempMemory(tempMemory, saveOk);
      } else {
        ok := false;
      }
    }

    /** `clear_temp_memory`. */
    method ClearTempMemory(saveOk: bool) returns (ok: bool)
      modifies this
      ensures ok == saveOk
      ensures temp == if saveOk then [] else old(temp)
      ensures init == old(init) && blocks == old(blocks)
    {
      ok := SaveTempMemory([], saveOk);
    }

    /** `_save_temp_memory`. */
    method SaveTempMemory(entries: seq<TempEntry>, saveOk: bool) returns (ok: bool)
      modifies this
      ensures ok == saveOk
      ensures temp == if saveOk then entries else old(temp)
      ensures init == old(init) && blocks == old(blocks)
    {
      if saveOk {
        temp := entries;
      }
      return saveOk;
    }
  }
}
