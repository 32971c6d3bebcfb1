/**
 * The tolerant document scanners of the catalog loader: extract_array_objects and
 * extract_object_field.  Both locate `"key"`, then a ':' after it, then the opening
 * bracket or brace, and from there walk the text one character at a time keeping a
 * quote flag, an escape flag, a brace depth and the start of the current top-level
 * object.  They never fail: a missing piece yields an empty result.
 */
module DocumentScanner {
  import opened Wrappers
  import opened Text

  /** The scanner's mutable locals: in_string, escape, depth and obj_start (npos is None). */
  datatype ScanState = ScanState(inString: bool, escape: bool, depth: nat, objStart: Option<nat>)

  const Start := ScanState(false, false, 0, None)

  /** The effect of the character `ch` at position `pos` on the scanner's locals. */
  function Step(st: ScanState, ch: char, pos: nat): ScanState {
    if st.inString then
      if st.escape then st.(escape := false)
      else if ch == '\\' then st.(escape := true)
      else if ch == '"' then st.(inString := false)
      else st
    else if ch == '"' then st.(inString := true)
    else if ch == '{' then
      st.(depth := st.depth + 1, objStart := if st.depth == 0 then Some(pos) else st.objStart)
    else if ch == '}' then
      if st.depth == 0 then st
      else if st.depth == 1 && st.objStart.Some? then st.(depth := 0, objStart := None)
      else st.(depth := st.depth - 1)
    else st
  }

  /** The character `ch` closes a top-level object, which is then collected. */
  predicate Closes(st: ScanState, ch: char) {
    !st.inString && ch == '}' && st.depth == 1 && st.objStart.Some?
  }

  /** The character `ch` ends the array scan (a ']' outside strings and objects). */
  predicate StopsArray(st: ScanState, ch: char) {
    !st.inString && ch == ']' && st.depth == 0
  }

  /** What the loop keeps true: a recorded object start lies before `pos` and holds a '{'. */
  predicate Inv(content: string, pos: nat, st: ScanState) {
    pos <= |content| &&
    (st.objStart.Some? ==> st.objStart.value < pos && content[st.objStart.value] == '{')
  }

  /** No collected object can start before this position. */
  function Floor(pos: nat, st: ScanState): nat {
    if st.objStart.Some? then st.objStart.value else pos
  }

  /** A span (start, end) delimits a brace-enclosed substring of `content`. */
  predicate IsBraceSpan(content: string, sp: (nat, nat)) {
    sp.0 < sp.1 <= |content| && content[sp.0] == '{' && content[sp.1 - 1] == '}'
  }

  /**
   * The objects collected from position `pos` on, as (start, end) spans with `end`
   * exclusive, when the scan is in state `st`; `stopAtBracket` selects the array
   * scanner's rule of ending at a ']' outside every object.  The spans are brace
   * spans, in document order and pairwise disjoint.
   */
  function Spans(content: string, pos: nat, st: ScanState, stopAtBracket: bool): (r: seq<(nat, nat)>)
    requires Inv(content, pos, st)
    ensures forall k :: 0 <= k < |r| ==> IsBraceSpan(content, r[k]) && Floor(pos, st) <= r[k].0
    ensures forall i, j :: 0 <= i < j < |r| ==> r[i].1 <= r[j].0
    decreases |content| - pos
  {
    if pos == |content| then []
    else if stopAtBracket && StopsArray(st, content[pos]) then []
    else
      var next := Step(st, content[pos], pos);
      var rest := Spans(content, pos + 1, next, stopAtBracket);
      if Closes(st, content[pos]) then [(st.objStart.value, pos + 1)] + rest else rest
  }

  /** The substrings a sequence of spans delimits. */
  function Slices(content: string, spans: seq<(nat, nat)>): (r: seq<string>)
    requires forall k :: 0 <= k < |spans| ==> spans[k].0 <= spans[k].1 <= |content|
    ensures |r| == |spans|
    ensures forall k :: 0 <= k < |r| ==> r[k] == content[spans[k].0..spans[k].1]
  {
    seq(|spans|, k requires 0 <= k < |spans| => content[spans[k].0..spans[k].1])
  }

  /** content[i..j] is `t`, i.e. `t` is a contiguous substring of `content`. */
  predicate SubstringAt(content: string, t: string, i: nat) {
    i + |t| <= |content| && content[i..i + |t|] == t
  }

  /** `t` is a brace-delimited substring of `content` that starts at or after `lo`. */
  ghost predicate IsObjectFrom(content: string, t: string, lo: nat) {
    |t| >= 2 && t[0] == '{' && t[|t| - 1] == '}' &&
    exists i :: lo <= i && SubstringAt(content, t, i)
  }

  /** The substrings of brace spans that start at or after `lo` are objects from `lo`. */
  lemma SlicesAreObjects(content: string, spans: seq<(nat, nat)>, lo: nat)
    requires forall k :: 0 <= k < |spans| ==> spans[k].0 < spans[k].1 <= |content|
    requires forall k :: 0 <= k < |spans| ==> IsBraceSpan(content, spans[k]) && lo <= spans[k].0
    ensures forall k :: 0 <= k < |spans| ==> IsObjectFrom(content, Slices(content, spans)[k], lo)
  {
    var r := Slices(content, spans);
    forall k | 0 <= k < |spans|
      ensures IsObjectFrom(content, r[k], lo)
    {
      assert SubstringAt(content, r[k], spans[k].0);
    }
  }

  lemma SlicesCons(content: string, sp: (nat, nat), rest: seq<(nat, nat)>)
    requires sp.0 <= sp.1 <= |content|
    requires forall k :: 0 <= k < |rest| ==> rest[k].0 <= rest[k].1 <= |content|
    ensures Slices(content, [sp] + rest) == [content[sp.0..sp.1]] + Slices(content, rest)
  {
  }

  /** One step of the array scan, on the collected substrings. */
  lemma SlicesStep(content: string, pos: nat, st: ScanState)
    requires Inv(content, pos, st) && pos < |content| && !StopsArray(st, content[pos])
    ensures Inv(content, pos + 1, Step(st, content[pos], pos))
    ensures Slices(content, Spans(content, pos, st, true))
         == (if Closes(st, content[pos]) then [content[st.objStart.value..pos + 1]] else [])
            + Slices(content, Spans(content, pos + 1, Step(st, content[pos], pos), true))
  {
    var rest := Spans(content, pos + 1, Step(st, content[pos], pos), true);
    if Closes(st, content[pos]) {
      assert Spans(content, pos, st, true) == [(st.objStart.value, pos + 1)] + rest;
      SlicesCons(content, (st.objStart.value, pos + 1), rest);
    } else {
      assert Spans(content, pos, st, true) == rest;
      assert [] + Slices(content, rest) == Slices(content, rest);
    }
  }

  /** The position of '[' that opens the array under `key`, if the key, colon and bracket exist. */
  function ArrayStart(content: string, key: string): (r: Option<nat>)
    ensures r.Some? ==> r.value < |content| && content[r.value] == '['
  {
    var needle := "\"" + key + "\"";
    match Find(content, needle, 0)
    case None => None
    case Some(keyPos) =>
      match Find(content, ":", keyPos + |needle|)
      case None => None
      case Some(colonPos) =>
        match Find(content, "[", colonPos + 1)
        case None => None
        case Some(arrayPos) =>
          assert content[arrayPos] == content[arrayPos..arrayPos + 1][0] == '[';
          Some(arrayPos)
  }

  /** The position of the '{' that opens the object under `key`, if the key, colon and brace exist. */
  function ObjectStart(content: string, key: string): (r: Option<nat>)
    ensures r.Some? ==> r.value < |content| && content[r.value] == '{'
  {
    var needle := "\"" + key + "\"";
    match Find(content, needle, 0)
    case None => None
    case Some(keyPos) =>
      match Find(content, ":", keyPos + |needle|)
      case None => None
      case Some(colonPos) =>
        match Find(content, "{", colonPos + 1)
        case None => None
        case Some(objPos) =>
          assert content[objPos] == content[objPos..objPos + 1][0] == '{';
          Some(objPos)
  }

  /**
   * extract_array_objects as a value: every top-level object of the array under `key`;
   * each is a substring of `content` after the opening '[' that starts with '{' and ends
   * with '}', and a missing key, colon or bracket gives no objects.
   */
  function ArrayObjects(content: string, key: string): (r: seq<string>)
    ensures ArrayStart(content, key).None? ==> r == []
    ensures forall k :: 0 <= k < |r| ==> IsObjectFrom(content, r[k], ArrayStart(content, key).value + 1)
  {
    match ArrayStart(content, key)
    case None => []
    case Some(arrayPos) =>
      var spans := Spans(content, arrayPos + 1, Start, true);
      SlicesAreObjects(content, spans, arrayPos + 1);
      Slices(content, spans)
  }

  /**
   * extract_object_field as a value: the first complete object that begins at the first
   * '{' after the key's colon, as a substring of `content` starting with '{' and ending
   * with '}'; None when the key, colon or brace is missing or the object never closes.
   */
  function ObjectField(content: string, key: string): (r: Option<string>)
    ensures ObjectStart(content, key).None? ==> r.None?
    ensures r.Some? ==>
      |r.value| >= 2 && r.value[0] == '{' && r.value[|r.value| - 1] == '}' &&
      SubstringAt(content, r.value, ObjectStart(content, key).value)
  {
    match ObjectStart(content, key)
    case None => None
    case Some(objPos) =>
      var spans := Spans(content, objPos, Start, false);
      if spans == [] then None
      else
        FirstSpanStartsAtBrace(content, objPos);
        Some(content[spans[0].0..spans[0].1])
  }

  /** The first object collected from a '{' at depth zero is the one that '{' opens. */
  lemma FirstSpanStartsAtBrace(content: string, objPos: nat)
    requires objPos < |content| && content[objPos] == '{'
    ensures var spans := Spans(content, objPos, Start, false);
      spans != [] ==> spans[0].0 == objPos
  {
    var st := Step(Start, '{', objPos);
    assert Spans(content, objPos, Start, false) == Spans(content, objPos + 1, st, false);
    OpenObjectClosesFirst(content, objPos + 1, st);
  }

  /** While an object is open, the next collected span is that object. */
  lemma {:induction false} OpenObjectClosesFirst(content: string, pos: nat, st: ScanState)
    requires Inv(content, pos, st) && st.objStart.Some? && st.depth >= 1
    ensures var spans := Spans(content, pos, st, false);
      spans != [] ==> spans[0].0 == st.objStart.value
    decreases |content| - pos
  {
    if pos < |content| && !Closes(st, content[pos]) {
      var next := Step(st, content[pos], pos);
      assert next.objStart == st.objStart && next.depth >= 1;
      OpenObjectClosesFirst(content, pos + 1, next);
    }
  }

  /** The body of a string literal: no unescaped '"', and no dangling backslash. */
  predicate StringBody(s: string)
    decreases |s|
  {
    s == [] ||
    (s[0] == '\\' && |s| >= 2 && StringBody(s[2..])) ||
    (s[0] != '\\' && s[0] != '"' && StringBody(s[1..]))
  }

  /** Inside a string, the scan skips the rest of a literal body and its closing quote unchanged. */
  lemma {:induction false} StringBodyIsSkipped(content: string, p: nat, body: string, st: ScanState, stop: bool)
    requires st.inString && !st.escape && Inv(content, p, st)
    requires p + |body| < |content| && content[p..p + |body|] == body && content[p + |body|] == '"'
    requires StringBody(body)
    ensures Inv(content, p + |body| + 1, st.(inString := false))
    ensures Spans(content, p, st, stop) == Spans(content, p + |body| + 1, st.(inString := false), stop)
    decreases |body|
  {
    if body == [] {
      assert content[p] == '"';
    } else if body[0] == '\\' && |body| >= 2 && StringBody(body[2..]) {
      assert content[p] == '\\' && content[p + 1] == body[1];
      var escaped := Step(st, '\\', p);
      assert Spans(content, p, st, stop) == Spans(content, p + 1, escaped, stop);
      assert Spans(content, p + 1, escaped, stop) == Spans(content, p + 2, st, stop);
      assert content[p + 2..p + 2 + |body[2..]|] == body[2..];
      StringBodyIsSkipped(content, p + 2, body[2..], st, stop);
    } else {
      assert content[p] == body[0];
      assert Spans(content, p, st, stop) == Spans(content, p + 1, st, stop);
      assert content[p + 1..p + 1 + |body[1..]|] == body[1..];
      StringBodyIsSkipped(content, p + 1, body[1..], st, stop);
    }
  }

  /**
   * A quoted literal outside strings leaves the scan exactly as it was: braces and
   * brackets inside it, including escaped quotes, change neither depth nor what is collected.
   */
  lemma QuotedLiteralIsTransparent(content: string, i: nat, body: string, st: ScanState, stop: bool)
    requires !st.inString && !st.escape && Inv(content, i, st)
    requires SubstringAt(content, "\"" + body + "\"", i) && StringBody(body)
    ensures Inv(content, i + |body| + 2, st)
    ensures Spans(content, i, st, stop) == Spans(content, i + |body| + 2, st, stop)
  {
    var lit := "\"" + body + "\"";
    var window := content[i..i + |lit|];
    assert window == lit && |lit| == |body| + 2;
    assert content[i] == window[0] == '"';
    assert content[i + 1..i + 1 + |body|] == window[1..1 + |body|] == body;
    assert content[i + 1 + |body|] == window[1 + |body|] == '"';
    var inside := st.(inString := true);
    assert Spans(content, i, st, stop) == Spans(content, i + 1, inside, stop);
    StringBodyIsSkipped(content, i + 1, body, inside, stop);
  }

  lemma ArrayObjectsAt(content: string, key: string, arrayPos: nat)
    requires ArrayStart(content, key) == Some(arrayPos)
    ensures ArrayObjects(content, key) == Slices(content, Spans(content, arrayPos + 1, Start, true))
  {
  }

  /** At the array's closing ']' nothing more is collected. */
  lemma SlicesStop(content: string, pos: nat, st: ScanState, objects: seq<string>, all: seq<string>)
    requires Inv(content, pos, st) && pos < |content| && StopsArray(st, content[pos])
    requires objects + Slices(content, Spans(content, pos, st, true)) == all
    ensures objects == all
  {
    assert Spans(content, pos, st, true) == [];
    assert objects + [] == objects;
  }

  /** The array scan's invariant after one more character that is not its closing ']'. */
  lemma ArrayScanStep(content: string, pos: nat, st: ScanState, objects: seq<string>, found: seq<string>)
    requires Inv(content, pos, st) && pos < |content| && !StopsArray(st, content[pos])
    requires objects + Slices(content, Spans(content, pos, st, true)) == found
    ensures Inv(content, pos + 1, Step(st, content[pos], pos))
    ensures Closes(st, content[pos]) ==> st.objStart.value <= pos + 1
    ensures (if Closes(st, content[pos]) then objects + [content[st.objStart.value..pos + 1]] else objects)
          + Slices(content, Spans(content, pos + 1, Step(st, content[pos], pos), true)) == found
  {
    SlicesStep(content, pos, st);
    var rest := Slices(content, Spans(content, pos + 1, Step(st, content[pos], pos), true));
    if Closes(st, content[pos]) {
      var x := content[st.objStart.value..pos + 1];
      assert objects + ([x] + rest) == objects + [x] + rest;
    } else {
      assert [] + rest == rest;
    }
  }

  /** The object scan's invariant after one more character that closes nothing. */
  lemma FieldScanStep(content: string, pos: nat, st: ScanState)
    requires Inv(content, pos, st) && pos < |content| && !Closes(st, content[pos])
    ensures Inv(content, pos + 1, Step(st, content[pos], pos))
    ensures Spans(content, pos, st, false) == Spans(content, pos + 1, Step(st, content[pos], pos), false)
  {
  }

  /** The character that closes the object makes it the first span collected from here. */
  lemma FieldScanClose(content: string, pos: nat, st: ScanState)
    requires Inv(content, pos, st) && pos < |content| && Closes(st, content[pos])
    ensures var spans := Spans(content, pos, st, false);
      spans != [] && spans[0] == (st.objStart.value, pos + 1)
  {
  }

  lemma ObjectFieldAt(content: string, key: string, objPos: nat)
    requires ObjectStart(content, key) == Some(objPos)
    ensures var spans := Spans(content, objPos, Start, false);
      ObjectField(content, key) == if spans == [] then None else Some(content[spans[0].0..spans[0].1])
  {
  }

  /** At the end of the text nothing more is collected. */
  lemma SlicesEnd(content: string, st: ScanState, objects: seq<string>, all: seq<string>)
    requires Inv(content, |content|, st)
    requires objects + Slices(content, Spans(content, |content|, st, true)) == all
    ensures objects == all
  {
    assert objects + [] == objects;
  }

  /**
   * The if-chain of both scan loops on one character: the new locals, whether the
   * character closes a top-level object and whether it is the array scan's ']'.
   */
  method ScanChar(st: ScanState, ch: char, pos: nat) returns (next: ScanState, closed: bool, stop: bool)
    ensures next == Step(st, ch, pos)
    ensures closed == Closes(st, ch)
    ensures stop == StopsArray(st, ch)
  {
    next, closed, stop := st, false, false;
    if st.inString {
      if st.escape {
        next := next.(escape := false);
      } else if ch == '\\' {
        next := next.(escape := true);
      } else if ch == '"' {
        next := next.(inString := false);
      }
    } else if ch == '"' {
      next := next.(inString := true);
    } else if ch == '{' {
      if st.depth == 0 {
        next := next.(objStart := Some(pos));
      }
      next := next.(depth := st.depth + 1);
    } else if ch == '}' {
      if st.depth > 0 {
        next := next.(depth := st.depth - 1);
        if next.depth == 0 && st.objStart.Some? {
          closed := true;
          next := next.(objStart := None);
        }
      }
    } else if ch == ']' && st.depth == 0 {
      stop := true;
    }
  }

  /** extract_array_objects: the scan loop over the text after the opening '['. */
  method ExtractArrayObjects(content: string, key: string) returns (objects: seq<string>)
    ensures objects == ArrayObjects(content, key)
  {
    objects := [];
    var start := ArrayStart(content, key);
    if start.None? {
      return;
    }
    var arrayPos := start.value;
    ghost var all := Spans(content, arrayPos + 1, Start, true);
    ArrayObjectsAt(content, key, arrayPos);
    var st := Start;
    var pos := arrayPos + 1;
    while pos < |content|
      invariant arrayPos + 1 <= pos <= |content|
      invariant Inv(content, pos, st)
      invariant objects + Slices(content, Spans(content, pos, st, true)) == Slices(content, all)
      decreases |content| - pos
    {
      var next, closed, stop := ScanChar(st, content[pos], pos);
      if stop {
        SlicesStop(content, pos, st, objects, Slices(content, all));
        return;
      }
      ArrayScanStep(content, pos, st, objects, Slices(content, all));
      if closed {
        objects := objects + [content[st.objStart.value..pos + 1]];
      }
      st := next;
      pos := pos + 1;
    }
    SlicesEnd(content, st, objects, Slices(content, all));
  }

  /** extract_object_field: the scan loop from the opening '{', returning at the first close. */
  method ExtractObjectField(content: string, key: string) returns (r: Option<string>)
    ensures r == ObjectField(content, key)
  {
    var start := ObjectStart(content, key);
    if start.None? {
      return None;
    }
    var objPos := start.value;
    ghost var all := Spans(content, objPos, Start, false);
    ObjectFieldAt(content, key, objPos);
    var st := Start;
    var pos := objPos;
    while pos < |content|
      invariant objPos <= pos <= |content|
      invariant Inv(content, pos, st)
      invariant Spans(content, pos, st, false) == all
      decreases |content| - pos
    {
      var next, closed, _ := ScanChar(st, content[pos], pos);
      if closed {
        FieldScanClose(content, pos, st);
        return Some(content[st.objStart.value..pos + 1]);
      }
      FieldScanStep(content, pos, st);
      st := next;
      pos := pos + 1;
    }
    return None;
  }
}
