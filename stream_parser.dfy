/**
 * The streaming JSON object extractor
 * (server/neuro_simulator/neuro_sama/json_stream_parser.py).
 *
 * LLM output arrives in chunks.  The parser keeps the text it has not yet
 * consumed in a buffer; each `Feed` appends a chunk and then repeatedly
 *   - finds the first `{` that is not inside a quoted segment,
 *   - finds the `}` where the brace depth counted from it returns to zero,
 *   - hands the text between them to `json.loads`,
 * emitting the object and dropping everything up to the `}` on success,
 * dropping only up to the `{` on a parse failure, and stopping (keeping the
 * buffer) when no start or no matching end exists yet.
 *
 * `json.loads` is a parameter `loads` (None = JSONDecodeError): the model
 * is about the scanning, not about JSON syntax.
 */
module StreamParser {
  import opened Wrappers
  import opened Json

  /* ---------- _find_next_json_start ---------- */

  /** The flags `in_string` and `escape_next` of `_find_next_json_start`. */
  datatype StartState = StartState(inString: bool, escapeNext: bool)

  const StartInit := StartState(false, false)

  /** How one character moves the flags when it is not a returned `{`. */
  function StartStep(st: StartState, ch: char): StartState {
    if st.escapeNext then StartState(st.inString, false)
    else if ch == '\\' then StartState(st.inString, true)
    else if ch == '"' then StartState(!st.inString, false)
    else st
  }

  /** The flags after scanning `text[..k]`. */
  function StartStateAt(text: string, k: nat): StartState
    requires k <= |text|
  {
    if k == 0 then StartInit else StartStep(StartStateAt(text, k - 1), text[k - 1])
  }

  /** Position `i` holds a `{` that is outside every quoted segment and not escaped. */
  predicate IsStartAt(text: string, i: int) {
    0 <= i < |text| && text[i] == '{' && StartStateAt(text, i) == StartInit
  }

  function FirstStartFrom(text: string, k: nat): (r: int)
    requires k <= |text|
    ensures r == -1 || (k <= r < |text| && IsStartAt(text, r))
    ensures forall j :: k <= j < |text| && (r == -1 || j < r) ==> !IsStartAt(text, j)
    decreases |text| - k
  {
    if k == |text| then -1
    else if IsStartAt(text, k) then k
    else FirstStartFrom(text, k + 1)
  }

  /** The index `_find_next_json_start` returns: the first unquoted, unescaped `{`, or -1. */
  function NextStart(text: string): (r: int)
    ensures r == -1 || IsStartAt(text, r)
    ensures forall j :: 0 <= j < |text| && (r == -1 || j < r) ==> !IsStartAt(text, j)
  {
    FirstStartFrom(text, 0)
  }

  /** `_find_next_json_start`, as the Python loop runs it. */
  method FindNextJsonStart(text: string) returns (r: int)
    ensures r == NextStart(text)
    ensures r != -1 ==> 0 <= r < |text| && text[r] == '{'
  {
    var inString, escapeNext := false, false;
    var i := 0;
    while i < |text|
      invariant 0 <= i <= |text|
      invariant StartStateAt(text, i) == StartState(inString, escapeNext)
      invariant forall j :: 0 <= j < i ==> !IsStartAt(text, j)
    {
      var ch := text[i];
      if escapeNext {
        escapeNext := false;
      } else if ch == '\\' {
        escapeNext := true;
      } else if ch == '"' {
        inString := !inString;
      } else if !inString && ch == '{' {
        assert IsStartAt(text, i);
        return i;
      }
      i := i + 1;
    }
    return -1;
  }

  /* ---------- _find_matching_bracket_end ---------- */

  /** The variables `nested_level`, `in_string` and `escape_next` of `_find_matching_bracket_end`. */
  datatype MatchState = MatchState(level: int, inString: bool, escapeNext: bool)

  const MatchInit := MatchState(0, false, false)

  /** How one character moves the state when it is not the returned `}`. */
  function MatchStep(st: MatchState, ch: char): MatchState {
    if st.escapeNext then st.(escapeNext := false)
    else if ch == '\\' then st.(escapeNext := true)
    else if !st.inString then
      if ch == '{' then st.(level := st.level + 1)
      else if ch == '}' then st.(level := st.level - 1)
      else if ch == '"' then st.(inString := true)
      else st
    else if ch == '"' then st.(inString := false)
    else st
  }

  /** The state after scanning `text[start..k]`. */
  function MatchStateAt(text: string, start: nat, k: nat): MatchState
    requires start <= k <= |text|
    decreases k - start
  {
    if k == start then MatchInit else MatchStep(MatchStateAt(text, start, k - 1), text[k - 1])
  }

  /** Position `i` holds an unquoted, unescaped `}` that brings the depth counted from `start` back to zero. */
  predicate IsEndAt(text: string, start: nat, i: int) {
    && start <= i < |text| && text[i] == '}'
    && var st := MatchStateAt(text, start, i);
       !st.escapeNext && !st.inString && st.level == 1
  }

  function FirstEndFrom(text: string, start: nat, k: nat): (r: int)
    requires start <= k <= |text|
    ensures r == -1 || (k <= r < |text| && IsEndAt(text, start, r))
    ensures forall j :: k <= j < |text| && (r == -1 || j < r) ==> !IsEndAt(text, start, j)
    decreases |text| - k
  {
    if k == |text| then -1
    else if IsEndAt(text, start, k) then k
    else FirstEndFrom(text, start, k + 1)
  }

  /** The index `_find_matching_bracket_end` returns: the first closing `}` at or after `start`, or -1. */
  function MatchEnd(text: string, start: nat): (r: int)
    ensures r == -1 || IsEndAt(text, start, r)
    ensures forall j :: start <= j < |text| && (r == -1 || j < r) ==> !IsEndAt(text, start, j)
  {
    if start > |text| then -1 else FirstEndFrom(text, start, start)
  }

  /** `_find_matching_bracket_end`, as the Python loop runs it. */
  method FindMatchingBracketEnd(text: string, start: nat) returns (r: int)
    ensures r == MatchEnd(text, start)
    ensures r != -1 ==> start <= r < |text| && text[r] == '}'
  {
    if start > |text| {
      return -1;
    }
    var nestedLevel, inString, escapeNext := 0, false, false;
    var i := start;
    while i < |text|
      invariant start <= i <= |text|
      invariant MatchStateAt(text, start, i) == MatchState(nestedLevel, inString, escapeNext)
      invariant forall j :: start <= j < i ==> !IsEndAt(text, start, j)
    {
      var ch := text[i];
      if escapeNext {
        escapeNext := false;
      } else if ch == '\\' {
        escapeNext := true;
      } else if !inString {
        if ch == '{' {
          nestedLevel := nestedLevel + 1;
        } else if ch == '}' {
          nestedLevel := nestedLevel - 1;
          if nestedLevel == 0 {
            assert IsEndAt(text, start, i);
            return i;
          }
        } else if ch == '"' {
          inString := true;
        }
      } else if ch == '"' {
        inString := false;
      }
      i := i + 1;
    }
    return -1;
  }

  /* ---------- one round of the feed loop, and the whole loop ---------- */

  /** What one iteration of the `while True` loop in `feed` does. */
  datatype Round =
    | Stop                             // no start, or no matching end yet: break
    | Emit(obj: Json, rest: string)    // parsed: emit and keep the text after the `}`
    | Skip(rest: string)               // JSONDecodeError: drop up to and including the `{`

  function Step(buf: string, loads: string -> Option<Json>): (r: Round)
    ensures r.Emit? ==>
      var s := NextStart(buf);
      0 <= s && var e := MatchEnd(buf, s);
      s < e < |buf| && loads(buf[s..e + 1]) == Some(r.obj) && r.rest == buf[e + 1..]
    ensures r.Skip? ==>
      var s := NextStart(buf);
      0 <= s && var e := MatchEnd(buf, s);
      s < e < |buf| && loads(buf[s..e + 1]).None? && r.rest == buf[s + 1..]
    ensures r.Stop? <==> NextStart(buf) == -1 || MatchEnd(buf, NextStart(buf)) == -1
    ensures !r.Stop? ==> |r.rest| < |buf|
  {
    var s := NextStart(buf);
    if s == -1 then Stop
    else
      var e := MatchEnd(buf, s);
      if e == -1 then Stop
      else
        match loads(buf[s..e + 1])
        case Some(obj) => Emit(obj, buf[e + 1..])
        case None => Skip(buf[s + 1..])
  }

  /** Everything one `feed` call returns, and the buffer it leaves. */
  datatype Scanned = Scanned(objects: seq<Json>, rest: string)

  /** The `while True` loop of `feed` run on a buffer until it breaks; it ends because every round that does not break shortens the buffer. */
  function Scan(buf: string, loads: string -> Option<Json>): Scanned
    decreases |buf|
  {
    match Step(buf, loads)
    case Stop => Scanned([], buf)
    case Emit(obj, rest) =>
      var more := Scan(rest, loads);
      Scanned([obj] + more.objects, more.rest)
    case Skip(rest) => Scan(rest, loads)
  }

  /** The parser keeps text only by dropping a prefix of it: what is left is always a suffix of what was there. */
  lemma {:induction false} ScanLeavesSuffix(buf: string, loads: string -> Option<Json>)
    ensures var r := Scan(buf, loads).rest;
      |r| <= |buf| && r == buf[|buf| - |r|..]
    decreases |buf|
  {
    match Step(buf, loads)
    case Stop =>
    case Emit(obj, rest) =>
      ScanLeavesSuffix(rest, loads);
      var e :| e == MatchEnd(buf, NextStart(buf)) && 0 <= e < |buf| && rest == buf[e + 1..];
      var r := Scan(rest, loads).rest;
      assert rest[|rest| - |r|..] == buf[|buf| - |r|..];
    case Skip(rest) =>
      ScanLeavesSuffix(rest, loads);
      var s := NextStart(buf);
      var r := Scan(rest, loads).rest;
      assert rest[|rest| - |r|..] == buf[|buf| - |r|..];
  }

  /** When the loop stops, the buffer left holds no complete candidate object. */
  lemma {:induction false} ScanStopsAtIncomplete(buf: string, loads: string -> Option<Json>)
    ensures var r := Scan(buf, loads).rest;
      NextStart(r) == -1 || MatchEnd(r, NextStart(r)) == -1
    decreases |buf|
  {
    match Step(buf, loads)
    case Stop =>
    case Emit(_, rest) => ScanStopsAtIncomplete(rest, loads);
    case Skip(rest) => ScanStopsAtIncomplete(rest, loads);
  }

  /** One chunk holding a complete object followed by an incomplete one: the first is returned and the second stays buffered. */
  lemma CompleteThenIncomplete(loads: string -> Option<Json>, obj: Json)
    requires loads("{\"a\":1}") == Some(obj)
    ensures Scan("{\"a\":1}{\"b\":2", loads) == Scanned([obj], "{\"b\":2")
  {
    var text := "{\"a\":1}{\"b\":2";
    assert IsStartAt(text, 0);
    assert MatchStateAt(text, 0, 6) == MatchState(1, false, false);
    assert IsEndAt(text, 0, 6);
    assert text[0..7] == "{\"a\":1}";
    assert text[7..] == "{\"b\":2";
    var rest := "{\"b\":2";
    assert IsStartAt(rest, 0);
    assert MatchStateAt(rest, 0, 2) == MatchState(1, true, false);
    assert MatchStateAt(rest, 0, 5) == MatchState(1, false, false);
    assert MatchEnd(rest, 0) == -1;
  }

  /* ---------- chunk boundaries do not matter ---------- */

  lemma {:induction false} StartStateAppend(s: string, t: string, k: nat)
    requires k <= |s|
    ensures StartStateAt(s + t, k) == StartStateAt(s, k)
  {
    if k > 0 {
      StartStateAppend(s, t, k - 1);
      assert (s + t)[k - 1] == s[k - 1];
    }
  }

  lemma {:induction false} MatchStateAppend(s: string, t: string, start: nat, k: nat)
    requires start <= k <= |s|
    ensures MatchStateAt(s + t, start, k) == MatchStateAt(s, start, k)
    decreases k - start
  {
    if k > start {
      MatchStateAppend(s, t, start, k - 1);
      assert (s + t)[k - 1] == s[k - 1];
    }
  }

  /** A start found in a prefix is still the first start once more text arrives. */
  lemma NextStartAppend(s: string, t: string)
    requires NextStart(s) != -1
    ensures NextStart(s + t) == NextStart(s)
  {
    var r := NextStart(s);
    StartStateAppend(s, t, r);
    assert IsStartAt(s + t, r);
    forall j | 0 <= j < r ensures !IsStartAt(s + t, j) {
      StartStateAppend(s, t, j);
      assert !IsStartAt(s, j);
    }
  }

  /** A matching end found in a prefix is still the matching end once more text arrives. */
  lemma MatchEndAppend(s: string, t: string, start: nat)
    requires MatchEnd(s, start) != -1
    ensures MatchEnd(s + t, start) == MatchEnd(s, start)
  {
    var r := MatchEnd(s, start);
    MatchStateAppend(s, t, start, r);
    assert IsEndAt(s + t, start, r);
    forall j | start <= j < r ensures !IsEndAt(s + t, start, j) {
      MatchStateAppend(s, t, start, j);
      assert !IsEndAt(s, start, j);
    }
  }

  /** A round that does not break on `a` does the same on `a + b`, and the extra text stays at the end of the buffer. */
  lemma StepAppend(a: string, b: string, loads: string -> Option<Json>)
    requires !Step(a, loads).Stop?
    ensures Step(a, loads).Emit? ==> Step(a + b, loads) == Emit(Step(a, loads).obj, Step(a, loads).rest + b)
    ensures Step(a, loads).Skip? ==> Step(a + b, loads) == Skip(Step(a, loads).rest + b)
  {
    var s := NextStart(a);
    var e := MatchEnd(a, s);
    NextStartAppend(a, b);
    MatchEndAppend(a, b, s);
    assert (a + b)[s..e + 1] == a[s..e + 1];
    assert (a + b)[e + 1..] == a[e + 1..] + b;
    assert (a + b)[s + 1..] == a[s + 1..] + b;
  }

  /**
   * Feeding `a` and then `b` emits, in total, exactly what feeding `a + b`
   * at once emits, in the same order, and leaves the same buffer: the chunk
   * boundaries of the LLM stream never change the extracted objects.
   */
  lemma {:induction false} ScanSplit(a: string, b: string, loads: string -> Option<Json>)
    ensures var first := Scan(a, loads);
      var second := Scan(first.rest + b, loads);
      Scan(a + b, loads) == Scanned(first.objects + second.objects, second.rest)
    decreases |a|
  {
    match Step(a, loads)
    case Stop =>
      assert Scan(a, loads) == Scanned([], a);
    case Emit(obj, rest) =>
      StepAppend(a, b, loads);
      ScanSplit(rest, b, loads);
      var more := Scan(rest, loads);
      var second := Scan(more.rest + b, loads);
      assert [obj] + (more.objects + second.objects) == ([obj] + more.objects) + second.objects;
    case Skip(rest) =>
      StepAppend(a, b, loads);
      ScanSplit(rest, b, loads);
  }

  /* ---------- the parser object ---------- */

  class StreamingJsonParser {
    /** Text received but not yet consumed. */
    var buffer: string

    constructor ()
      ensures buffer == []
    {
      buffer := [];
    }

    /** `feed`: append the chunk, then extract complete objects until the loop breaks. */
    method Feed(text: string, loads: string -> Option<Json>) returns (objects: seq<Json>)
      modifies this
      ensures objects == Scan(old(buffer) + text, loads).objects
      ensures buffer == Scan(old(buffer) + text, loads).rest
    {
      buffer := buffer + text;
      ghost var whole := Scan(buffer, loads);
      objects := [];
      while true
        invariant objects + Scan(buffer, loads).objects == whole.objects
        invariant Scan(buffer, loads).rest == whole.rest
        decreases |buffer|
      {
        var startIdx := FindNextJsonStart(buffer);
        if startIdx == -1 {
          break;
        }
        var endIdx := FindMatchingBracketEnd(buffer, startIdx);
        if endIdx == -1 {
          break;
        }
        var jsonStr := buffer[startIdx..endIdx + 1];
        match loads(jsonStr)
        case Some(obj) =>
          assert Step(buffer, loads) == Emit(obj, buffer[endIdx + 1..]);
          objects := objects + [obj];
          buffer := buffer[endIdx + 1..];
        case None =>
          assert Step(buffer, loads) == Skip(buffer[startIdx + 1..]);
          buffer := buffer[startIdx + 1..];
      }
    }

    /** `get_remaining_buffer`: the unconsumed text, read without changing it. */
    function RemainingBuffer(): string
      reads this
    {
      buffer
    }

    /** `reset`: forget all unconsumed text. */
    method Reset()
      modifies this
      ensures buffer == []
    {
      buffer := [];
    }
  }

  /** Two `feed` calls on one parser return what one call with the concatenated chunks would. */
  method FeedTwiceIsFeedOnce(a: string, b: string, loads: string -> Option<Json>)
    returns (split: seq<Json>, whole: seq<Json>)
    ensures split == whole
  {
    var p := new StreamingJsonParser();
    var first := p.Feed(a, loads);
    var second := p.Feed(b, loads);
    split := first + second;
    var q := new StreamingJsonParser();
    whole := q.Feed(a + b, loads);
    ScanSplit(a, b, loads);
    assert [] + a == a && [] + (a + b) == a + b;
  }
}
