/**
 * The three-tier chat queue of the stream service
 * (server/neuro_simulator/services/stream/queue_manager.py).
 *
 * Ordinary chats, highlight messages and highlighted messages wait in three
 * deques.  `get_content` serves a highlighted message when its 10-second
 * cooldown has passed, otherwise one highlight message, otherwise a random
 * sample of the ordinary chats, which it removes from the queue.
 *
 * The clock reading is the parameter `now`.  `random.sample` is the function
 * `Sample`, driven by `rolls`: whatever the rolls, the result is a selection
 * without replacement, and every such selection is what some rolls give.
 */
module ChatQueue {
  import opened Wrappers
  import opened Json

  /** A queued message dict: its `username` and `text` values, and any further keys it carries. */
  datatype Chat = Chat(username: Json, text: Json, extra: seq<(string, Json)>)

  /** The `{username, text}` dict a highlighted message is served as. */
  function Brief(c: Chat): (b: Chat)
    ensures b.username == c.username && b.text == c.text && b.extra == []
  {
    Chat(c.username, c.text, [])
  }

  /** What `get_content` gives back: the chats, or the ValueError of `random.sample` for a negative size. */
  datatype Fetch = Fetched(items: seq<Chat>) | SampleError

  /** Seconds that must pass between two highlighted messages (strictly more than this). */
  const HighlightCooldown: real := 10.0

  /** The sample size used when neither the caller nor the configuration gives one. */
  const DefaultSampleSize: int := 10

  function Min(a: int, b: int): int { if a <= b then a else b }

  /**
   * The sample size `get_content` draws: the requested size, or the
   * configured `input_chat_sample_size`, or 10 without a configuration,
   * capped at the number of chats available.
   */
  function SampleSize(requested: Option<int>, configured: Option<int>, available: nat): (k: int)
    ensures k <= available
    ensures var wanted := requested.GetOr(configured.GetOr(DefaultSampleSize));
      k <= wanted && (k == wanted || k == available)
  {
    var size :=
      if requested.Some? then requested.value
      else if configured.None? then Min(DefaultSampleSize, available)
      else Min(configured.value, available);
    Min(size, available)
  }

  /** The roll used for the next draw (0 when the rolls run out). */
  function Head(rolls: seq<nat>): nat { if rolls == [] then 0 else rolls[0] }

  function Tail(rolls: seq<nat>): seq<nat> { if rolls == [] then [] else rolls[1..] }

  /** `pool` without its element at position `i`. */
  function Without<T>(pool: seq<T>, i: nat): (r: seq<T>)
    requires i < |pool|
    ensures |r| == |pool| - 1
    ensures multiset(r) + multiset{pool[i]} == multiset(pool)
  {
    assert pool == pool[..i] + [pool[i]] + pool[i + 1..];
    pool[..i] + pool[i + 1..]
  }

  /**
   * `random.sample(pool, k)`: `k` draws without replacement, each roll
   * choosing among the elements not drawn yet.
   */
  function Sample(pool: seq<Chat>, k: nat, rolls: seq<nat>): (sel: seq<Chat>)
    requires k <= |pool|
    ensures |sel| == k
    ensures multiset(sel) <= multiset(pool)
    decreases k
  {
    if k == 0 then []
    else
      var i := Head(rolls) % |pool|;
      var rest := Sample(Without(pool, i), k - 1, Tail(rolls));
      [pool[i]] + rest
  }

  /** Rolls that make `Sample` draw the given positions, in order. */
  function RollsFor(positions: seq<nat>): (rolls: seq<nat>)
    ensures |rolls| == |positions|
    decreases |positions|
  {
    if positions == [] then []
    else [positions[0]] + RollsFor(Shift(positions[1..], positions[0]))
  }

  /** Every ordered choice of distinct positions of `pool` is the sample of some rolls. */
  lemma {:induction false} SampleReachesEverySelection(pool: seq<Chat>, positions: seq<nat>)
    requires |positions| <= |pool|
    requires forall j :: 0 <= j < |positions| ==> positions[j] < |pool|
    requires forall j, l :: 0 <= j < l < |positions| ==> positions[j] != positions[l]
    ensures Sample(pool, |positions|, RollsFor(positions)) == Pick(pool, positions)
    decreases |positions|
  {
    if positions != [] {
      var i := positions[0];
      var shifted := Shift(positions[1..], i);
      var smaller := Without(pool, i);
      PickShift(pool, positions[1..], i);
      ShiftDistinct(positions[1..], i);
      SampleReachesEverySelection(smaller, shifted);
      calc {
        Sample(pool, |positions|, RollsFor(positions));
        { SampleFirst(pool, |positions|, i, RollsFor(shifted)); }
        [pool[i]] + Sample(smaller, |shifted|, RollsFor(shifted));
        [pool[i]] + Pick(pool, positions[1..]);
        { PickCons(pool, positions); }
        Pick(pool, positions);
      }
    }
  }

  lemma PickCons(pool: seq<Chat>, positions: seq<nat>)
    requires positions != []
    requires forall j :: 0 <= j < |positions| ==> positions[j] < |pool|
    ensures Pick(pool, positions) == [pool[positions[0]]] + Pick(pool, positions[1..])
  {
  }

  /** A first roll of `i` draws `pool[i]` first, and the remaining rolls sample what is left. */
  lemma SampleFirst(pool: seq<Chat>, k: nat, i: nat, rolls: seq<nat>)
    requires 0 < k <= |pool| && i < |pool|
    ensures Sample(pool, k, [i] + rolls) == [pool[i]] + Sample(Without(pool, i), k - 1, rolls)
  {
    assert Head([i] + rolls) % |pool| == i;
    assert Tail([i] + rolls) == rolls;
  }

  /** Renumbering keeps distinct positions distinct when none of them is `i`. */
  lemma ShiftDistinct(positions: seq<nat>, i: nat)
    requires forall j :: 0 <= j < |positions| ==> positions[j] != i
    requires forall j, l :: 0 <= j < l < |positions| ==> positions[j] != positions[l]
    ensures forall j, l :: 0 <= j < l < |positions| ==> Shift(positions, i)[j] != Shift(positions, i)[l]
  {
  }

  /** The elements of `pool` at `positions`, in that order. */
  function Pick(pool: seq<Chat>, positions: seq<nat>): (r: seq<Chat>)
    requires forall j :: 0 <= j < |positions| ==> positions[j] < |pool|
    ensures |r| == |positions|
    ensures forall j :: 0 <= j < |positions| ==> r[j] == pool[positions[j]]
  {
    seq(|positions|, j requires 0 <= j < |positions| => pool[positions[j]])
  }

  /** Positions after removing position `i`: those beyond `i` move down by one. */
  function Shift(positions: seq<nat>, i: nat): (r: seq<nat>)
    ensures |r| == |positions|
    ensures forall j :: 0 <= j < |positions| ==>
      r[j] == if positions[j] > i then positions[j] - 1 else positions[j]
  {
    seq(|positions|, j requires 0 <= j < |positions| =>
      if positions[j] > i then positions[j] - 1 else positions[j])
  }

  /** Removing position `i` from the pool and renumbering the other positions picks the same elements. */
  lemma PickShift(pool: seq<Chat>, positions: seq<nat>, i: nat)
    requires i < |pool|
    requires forall j :: 0 <= j < |positions| ==> positions[j] < |pool| && positions[j] != i
    ensures forall j :: 0 <= j < |positions| ==> Shift(positions, i)[j] < |Without(pool, i)|
    ensures Pick(Without(pool, i), Shift(positions, i)) == Pick(pool, positions)
  {
  }

  /** The position of the first `x` in `s`, or `|s|`. */
  function FirstIndex(s: seq<Chat>, x: Chat): (i: nat)
    ensures i <= |s| && x !in s[..i]
    ensures i < |s| ==> s[i] == x
    ensures i == |s| ==> x !in s
  {
    if s == [] then 0
    else if s[0] == x then 0
    else
      var i := FirstIndex(s[1..], x);
      assert s[..i + 1] == [s[0]] + s[1..][..i];
      assert s == [s[0]] + s[1..];
      i + 1
  }

  /** `deque.remove(x)`: the first element equal to `x` goes, the others keep their order. */
  function RemoveFirst(s: seq<Chat>, x: Chat): (r: seq<Chat>)
    ensures x !in s ==> r == s
    ensures x in s ==>
      exists i :: 0 <= i < |s| && s[i] == x && x !in s[..i] && r == s[..i] + s[i + 1..]
    ensures x in s ==> multiset(r) + multiset{x} == multiset(s) && |r| == |s| - 1
  {
    var i := FirstIndex(s, x);
    if i == |s| then s else Without(s, i)
  }

  /** The chats left after `deque.remove` of each chat of `sel` in turn; a chat no longer present is skipped. */
  function RemoveAll(s: seq<Chat>, sel: seq<Chat>): (r: seq<Chat>)
    ensures |r| <= |s|
    decreases |sel|
  {
    if sel == [] then s else RemoveFirst(RemoveAll(s, sel[..|sel| - 1]), sel[|sel| - 1])
  }

  /** Removing chats that are all present takes exactly those chats out. */
  lemma {:induction false} RemoveAllTakesSelection(s: seq<Chat>, sel: seq<Chat>)
    requires multiset(sel) <= multiset(s)
    ensures multiset(RemoveAll(s, sel)) + multiset(sel) == multiset(s)
    ensures |RemoveAll(s, sel)| == |s| - |sel|
    decreases |sel|
  {
    if sel != [] {
      var front, x := sel[..|sel| - 1], sel[|sel| - 1];
      assert sel == front + [x];
      var ms, mf := multiset(sel), multiset(front);
      assert ms == mf + multiset{x};
      assert mf <= ms;
      RemoveAllTakesSelection(s, front);
      var before := RemoveAll(s, front);
      var mb := multiset(before);
      assert mb[x] >= 1 by {
        assert ms[x] == mf[x] + 1;
        assert multiset(s)[x] == mb[x] + mf[x];
      }
      assert x in before;
      var after := RemoveFirst(before, x);
      assert RemoveAll(s, sel) == after;
      assert multiset(after) + multiset{x} == mb;
    }
  }

  /** The state of the three tiers and the highlighted-message clock. */
  datatype Tiers = Tiers(chats: seq<Chat>, highlights: seq<Chat>, highlighted: seq<Chat>, lastHighlightedTime: real)

  /** The highlighted tier may be served at time `now`. */
  predicate Ready(q: Tiers, now: real) {
    q.highlighted != [] && now - q.lastHighlightedTime > HighlightCooldown
  }

  /**
   * What `get_content` serves from the tiers `q` at time `now`, and the tiers
   * it leaves: the highest tier that can serve gives its content and no
   * other tier changes.
   */
  function Serve(q: Tiers, now: real, sampleSize: Option<int>, configured: Option<int>, rolls: seq<nat>): (out: (Fetch, Tiers))
    ensures Ready(q, now) ==>
      && out.0 == Fetched([Brief(q.highlighted[0])])
      && out.1 == q.(highlighted := q.highlighted[1..], lastHighlightedTime := now)
    ensures !Ready(q, now) ==>
      out.1.highlighted == q.highlighted && out.1.lastHighlightedTime == q.lastHighlightedTime
    ensures !Ready(q, now) && q.highlights != [] ==>
      out.0 == Fetched([q.highlights[0]]) && out.1 == q.(highlights := q.highlights[1..])
    ensures !Ready(q, now) && q.highlights == [] && q.chats == [] ==>
      out == (Fetched([]), q)
    ensures !Ready(q, now) && q.highlights == [] && q.chats != [] ==>
      var k := SampleSize(sampleSize, configured, |q.chats|);
      && (k < 0 <==> out.0.SampleError?)
      && (k < 0 ==> out.1 == q)
      && (k >= 0 ==>
            && out.0 == Fetched(Sample(q.chats, k, rolls))
            && out.1 == q.(chats := RemoveAll(q.chats, out.0.items))
            && multiset(out.1.chats) + multiset(out.0.items) == multiset(q.chats)
            && |out.1.chats| == |q.chats| - k)
  {
    if Ready(q, now) then
      (Fetched([Brief(q.highlighted[0])]), q.(highlighted := q.highlighted[1..], lastHighlightedTime := now))
    else if q.highlights != [] then
      (Fetched([q.highlights[0]]), q.(highlights := q.highlights[1..]))
    else if q.chats == [] then
      (Fetched([]), q)
    else
      var k := SampleSize(sampleSize, configured, |q.chats|);
      if k < 0 then (SampleError, q)
      else
        var selected := Sample(q.chats, k, rolls);
        RemoveAllTakesSelection(q.chats, selected);
        (Fetched(selected), q.(chats := RemoveAll(q.chats, selected)))
  }

  class QueueManager {
    /** The ordinary chat deque. */
    var chats: seq<Chat>
    /** The highlight message deque. */
    var highlights: seq<Chat>
    /** The highlighted message deque. */
    var highlighted: seq<Chat>
    /** When the last highlighted message was served. */
    var lastHighlightedTime: real

    constructor ()
      ensures chats == [] && highlights == [] && highlighted == []
      ensures lastHighlightedTime == 0.0
    {
      chats, highlights, highlighted := [], [], [];
      lastHighlightedTime := 0.0;
    }

    /** `add_chat`: the chat joins the back of the ordinary tier. */
    method AddChat(chat: Chat)
      modifies this
      ensures chats == old(chats) + [chat]
      ensures highlights == old(highlights) && highlighted == old(highlighted)
      ensures lastHighlightedTime == old(lastHighlightedTime)
    {
      chats := chats + [chat];
    }

    /** `add_highlight_message`: the message joins the back of the highlight tier. */
    method AddHighlightMessage(highlight: Chat)
      modifies this
      ensures highlights == old(highlights) + [highlight]
      ensures chats == old(chats) && highlighted == old(highlighted)
      ensures lastHighlightedTime == old(lastHighlightedTime)
    {
      highlights := highlights + [highlight];
    }

    /** `add_highlighted_message`: the message joins the back of the highlighted tier. */
    method AddHighlightedMessage(message: Chat)
      modifies this
      ensures highlighted == old(highlighted) + [message]
      ensures chats == old(chats) && highlights == old(highlights)
      ensures lastHighlightedTime == old(lastHighlightedTime)
    {
      highlighted := highlighted + [message];
    }

    /** The tiers and the clock as one value. */
    function Snapshot(): (q: Tiers)
      reads this
      ensures q.chats == chats && q.highlights == highlights && q.highlighted == highlighted
      ensures q.lastHighlightedTime == lastHighlightedTime
    {
      Tiers(chats, highlights, highlighted, lastHighlightedTime)
    }

    /** `get_content`: serve from the highest tier that can serve; touch no other tier. */
    method GetContent(now: real, sampleSize: Option<int>, configured: Option<int>, rolls: seq<nat>)
      returns (r: Fetch)
      modifies this
      ensures (r, Snapshot()) == Serve(old(Snapshot()), now, sampleSize, configured, rolls)
    {
      if highlighted != [] && now - lastHighlightedTime > HighlightCooldown {
        var hl := highlighted[0];
        highlighted := highlighted[1..];
        lastHighlightedTime := now;
        return Fetched([Chat(hl.username, hl.text, [])]);
      }
      if highlights != [] {
        var highlight := highlights[0];
        highlights := highlights[1..];
        return Fetched([highlight]);
      }
      if chats == [] {
        return Fetched([]);
      }
      var k := SampleSize(sampleSize, configured, |chats|);
      if k < 0 {
        return SampleError;
      }
      var selected := Sample(chats, k, rolls);
      RemoveSelected(selected);
      return Fetched(selected);
    }

    /** The loop of `get_content` that removes each sampled chat from the ordinary tier. */
    method RemoveSelected(selected: seq<Chat>)
      requires multiset(selected) <= multiset(chats)
      modifies this
      ensures chats == RemoveAll(old(chats), selected)
      ensures multiset(chats) + multiset(selected) == multiset(old(chats))
      ensures |chats| == |old(chats)| - |selected|
      ensures highlights == old(highlights) && highlighted == old(highlighted)
      ensures lastHighlightedTime == old(lastHighlightedTime)
    {
      var j := 0;
      while j < |selected|
        invariant 0 <= j <= |selected|
        invariant chats == RemoveAll(old(chats), selected[..j])
        invariant highlights == old(highlights) && highlighted == old(highlighted)
        invariant lastHighlightedTime == old(lastHighlightedTime)
      {
        var chat := selected[j];
        if chat in chats {
          chats := RemoveFirst(chats, chat);
        }
        assert selected[..j + 1][..j] == selected[..j];
        j := j + 1;
      }
      assert selected[..j] == selected;
      RemoveAllTakesSelection(old(chats), selected);
    }

    /** `clear_chat_queue`: only the ordinary tier empties. */
    method ClearChatQueue()
      modifies this
      ensures chats == [] && highlights == old(highlights) && highlighted == old(highlighted)
      ensures lastHighlightedTime == old(lastHighlightedTime)
    {
      chats := [];
    }

    /** `clear_highlight_queue`: only the highlight tier empties. */
    method ClearHighlightQueue()
      modifies this
      ensures highlights == [] && chats == old(chats) && highlighted == old(highlighted)
      ensures lastHighlightedTime == old(lastHighlightedTime)
    {
      highlights := [];
    }

    /** `clear_highlighted_message_queue`: only the highlighted tier empties. */
    method ClearHighlightedMessageQueue()
      modifies this
      ensures highlighted == [] && chats == old(chats) && highlights == old(highlights)
      ensures lastHighlightedTime == old(lastHighlightedTime)
    {
      highlighted := [];
    }

    /** `get_chat_queue_size`. */
    method GetChatQueueSize() returns (n: nat)
      ensures n == |chats|
    {
      return |chats|;
    }

    /** `get_highlight_queue_size`. */
    method GetHighlightQueueSize() returns (n: nat)
      ensures n == |highlights|
    {
      return |highlights|;
    }

    /** `get_highlighted_message_queue_size`. */
    method GetHighlightedMessageQueueSize() returns (n: nat)
      ensures n == |highlighted|
    {
      return |highlighted|;
    }
  }
}
