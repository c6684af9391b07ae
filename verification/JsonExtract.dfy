/** Finding the JSON value in a model's answer: the bracket scanner and the search around it. */
module JsonExtract {
  import opened Common
  import opened JsonText

  // ----- The scanner

  datatype Scanner = Scanner(depth: int, inString: bool, escaped: bool)

  datatype Fed = Closed(at: nat) | Going(state: Scanner)

  function Closing(open: char): char {
    if open == '{' then '}' else ']'
  }

  /** The scanner after one character; `Closed` is the bracket that matches the first one. */
  function Next(open: char, st: Scanner, ch: char): Fed {
    if st.escaped then Going(st.(escaped := false))
    else if ch == '\\' && st.inString then Going(st.(escaped := true))
    else if ch == '"' then Going(st.(inString := !st.inString))
    else if st.inString then Going(st)
    else if ch == open then Going(st.(depth := st.depth + 1))
    else if ch == Closing(open) then
      if st.depth == 1 then Closed(0) else Going(st.(depth := st.depth - 1))
    else Going(st)
  }

  function Shift(f: Fed, n: nat): Fed {
    if f.Closed? then Closed(f.at + n) else f
  }

  /** Feeding a text to the scanner: where the first bracket is closed, or the state at the end. */
  function Feed(open: char, st: Scanner, text: string): Fed
    decreases text
  {
    if text == [] then Going(st)
    else
      var next := Next(open, st, text[0]);
      if next.Closed? then next else Shift(Feed(open, next.state, text[1..]), 1)
  }

  const START: Scanner := Scanner(0, false, false)

  /** The balanced text at the start of `s`, or nothing. */
  function Balanced(s: string): string {
    if s == [] || s[0] !in {'{', '['} then ""
    else
      var f := Feed(s[0], START, s);
      if f.Closed? && f.at < |s| then s[..f.at + 1] else ""
  }

  method ExtractBalanced(s: string) returns (r: string)
    ensures r == Balanced(s)
  {
    if |s| == 0 {
      return "";
    }
    var open := s[0];
    var close;
    if open == '{' {
      close := '}';
    } else if open == '[' {
      close := ']';
    } else {
      return "";
    }
    var depth, inString, escaped := 0, false, false;
    var i := 0;
    assert s[0..] == s;
    while i < |s|
      invariant 0 <= i <= |s|
      invariant Feed(open, START, s) == Shift(Feed(open, Scanner(depth, inString, escaped), s[i..]), i)
    {
      var ch := s[i];
      assert s[i..][1..] == s[i + 1..];
      i := i + 1;
      if escaped {
        escaped := false;
        continue;
      }
      if ch == '\\' && inString {
        escaped := true;
        continue;
      }
      if ch == '"' {
        inString := !inString;
        continue;
      }
      if inString {
        continue;
      }
      if ch == open {
        depth := depth + 1;
      } else if ch == close {
        depth := depth - 1;
        if depth == 0 {
          return s[..i];
        }
      }
    }
    return "";
  }

  // ----- Scanning a printed value

  lemma {:induction false} FeedConcat(open: char, st: Scanner, a: string, b: string)
    ensures Feed(open, st, a + b) ==
              var f := Feed(open, st, a);
              if f.Closed? then f else Shift(Feed(open, f.state, b), |a|)
    decreases a
  {
    if a == [] {
      assert a + b == b;
    } else {
      assert (a + b)[1..] == a[1..] + b;
      var next := Next(open, st, a[0]);
      if next.Going? {
        FeedConcat(open, next.state, a[1..], b);
      }
    }
  }

  /** Outside strings, at depth `d`, the text leaves the scanner where it was. */
  ghost predicate Neutral(open: char, d: int, text: string) {
    Feed(open, Scanner(d, false, false), text) == Going(Scanner(d, false, false))
  }

  lemma NeutralConcat(open: char, d: int, a: string, b: string)
    requires Neutral(open, d, a) && Neutral(open, d, b)
    ensures Neutral(open, d, a + b)
  {
    FeedConcat(open, Scanner(d, false, false), a, b);
  }

  /** Characters the scanner takes no notice of. */
  predicate Idle(c: char) {
    c !in {'"', '{', '}', '[', ']'}
  }

  lemma {:induction false} IdleIsNeutral(open: char, d: int, text: string)
    requires open in {'{', '['} && forall i :: 0 <= i < |text| ==> Idle(text[i])
    ensures Neutral(open, d, text)
  {
    if text != [] {
      IdleIsNeutral(open, d, text[1..]);
    }
  }

  lemma UnitStaysInString(open: char, d: int, u: Unit)
    ensures Feed(open, Scanner(d, true, false), PrintUnit(u)) == Going(Scanner(d, true, false))
  {
    var inside := Scanner(d, true, false);
    match u {
      case Plain(c) =>
        assert [c][1..] == [];
      case Escape(c) =>
        assert ['\\', c][1..] == [c];
        assert [c][1..] == [];
        assert Feed(open, Scanner(d, true, true), [c]) == Going(inside);
      case Unicode(hex) =>
        var text := ['\\', 'u'] + hex;
        assert text[1..] == ['u'] + hex;
        assert text[1..][1..] == hex;
        HexStaysInString(open, d, hex);
    }
  }

  lemma {:induction false} HexStaysInString(open: char, d: int, hex: string)
    requires forall i :: 0 <= i < |hex| ==> IsHex(hex[i])
    ensures Feed(open, Scanner(d, true, false), hex) == Going(Scanner(d, true, false))
  {
    if hex != [] {
      HexStaysInString(open, d, hex[1..]);
    }
  }

  lemma {:induction false} UnitsStayInString(open: char, d: int, chars: seq<Unit>)
    ensures Feed(open, Scanner(d, true, false), PrintUnits(chars)) == Going(Scanner(d, true, false))
  {
    if chars != [] {
      UnitStaysInString(open, d, chars[0]);
      UnitsStayInString(open, d, chars[1..]);
      FeedConcat(open, Scanner(d, true, false), PrintUnit(chars[0]), PrintUnits(chars[1..]));
    }
  }

  /** A string, whatever brackets and quotes it contains, leaves the scanner where it was. */
  lemma TextIsNeutral(open: char, d: int, chars: seq<Unit>)
    requires open in {'{', '['}
    ensures Neutral(open, d, PrintText(chars))
  {
    var quote := "\"";
    assert quote[1..] == [];
    FeedConcat(open, Scanner(d, false, false), quote, PrintUnits(chars));
    UnitsStayInString(open, d, chars);
    FeedConcat(open, Scanner(d, false, false), quote + PrintUnits(chars), quote);
  }

  /** Brackets around a text that is neutral one level deeper. */
  lemma BracketsAreNeutral(open: char, d: int, left: char, inside: string, right: char)
    requires open in {'{', '['} && d >= 1
    requires (left == '{' && right == '}') || (left == '[' && right == ']')
    requires Neutral(open, if left == open then d + 1 else d, inside)
    ensures Neutral(open, d, [left] + inside + [right])
  {
    var at := Scanner(d, false, false);
    var deep := Scanner(if left == open then d + 1 else d, false, false);
    assert [left][1..] == [] && [right][1..] == [];
    assert Feed(open, at, [left]) == Going(deep);
    FeedConcat(open, at, [left], inside);
    FeedConcat(open, at, [left] + inside, [right]);
  }

  /** A nested value never brings the count of either bracket below where it started. */
  lemma {:induction false} ValueIsNeutral(open: char, d: int, v: Json)
    requires open in {'{', '['} && d >= 1
    ensures Neutral(open, d, Print(v))
    decreases v, 1
  {
    match v {
      case Null => IdleIsNeutral(open, d, "null");
      case True => IdleIsNeutral(open, d, "true");
      case False => IdleIsNeutral(open, d, "false");
      case Number(text) => IdleIsNeutral(open, d, text);
      case Text(chars) => TextIsNeutral(open, d, chars);
      case _ =>
        InsideIsNeutral(open, if Open(v) == open then d + 1 else d, v);
        BracketsAreNeutral(open, d, Open(v), PrintInside(v), Close(v));
    }
  }

  lemma {:induction false} InsideIsNeutral(open: char, d: int, v: Json)
    requires open in {'{', '['} && d >= 1 && IsContainer(v)
    ensures Neutral(open, d, PrintInside(v))
    decreases v, 0
  {
    match v {
      case Array(blank, items) =>
        if items == [] {
          IdleIsNeutral(open, d, blank);
        } else {
          ItemsAreNeutral(open, d, items);
        }
      case Object(blank, members) =>
        if members == [] {
          IdleIsNeutral(open, d, blank);
        } else {
          MembersAreNeutral(open, d, members);
        }
    }
  }

  lemma {:induction false} ItemsAreNeutral(open: char, d: int, items: seq<Item>)
    requires open in {'{', '['} && d >= 1 && items != []
    ensures Neutral(open, d, PrintItems(items))
    decreases items
  {
    var item := items[0];
    ValueIsNeutral(open, d, item.value);
    IdleIsNeutral(open, d, item.before);
    IdleIsNeutral(open, d, item.after);
    NeutralConcat(open, d, item.before, Print(item.value));
    NeutralConcat(open, d, item.before + Print(item.value), item.after);
    if |items| > 1 {
      IdleIsNeutral(open, d, ",");
      NeutralConcat(open, d, PrintItem(item), ",");
      ItemsAreNeutral(open, d, items[1..]);
      NeutralConcat(open, d, PrintItem(item) + ",", PrintItems(items[1..]));
    }
  }

  lemma {:induction false} MembersAreNeutral(open: char, d: int, members: seq<Member>)
    requires open in {'{', '['} && d >= 1 && members != []
    ensures Neutral(open, d, PrintMembers(members))
    decreases members
  {
    var m := members[0];
    ValueIsNeutral(open, d, m.value);
    TextIsNeutral(open, d, m.key);
    IdleIsNeutral(open, d, m.before);
    IdleIsNeutral(open, d, m.gap);
    IdleIsNeutral(open, d, ":");
    IdleIsNeutral(open, d, m.gap2);
    IdleIsNeutral(open, d, m.after);
    NeutralConcat(open, d, m.before, PrintText(m.key));
    NeutralConcat(open, d, m.before + PrintText(m.key), m.gap);
    NeutralConcat(open, d, m.before + PrintText(m.key) + m.gap, ":");
    NeutralConcat(open, d, m.before + PrintText(m.key) + m.gap + ":", m.gap2);
    NeutralConcat(open, d, m.before + PrintText(m.key) + m.gap + ":" + m.gap2, Print(m.value));
    NeutralConcat(open, d, m.before + PrintText(m.key) + m.gap + ":" + m.gap2 + Print(m.value), m.after);
    if |members| > 1 {
      IdleIsNeutral(open, d, ",");
      NeutralConcat(open, d, PrintMember(m), ",");
      MembersAreNeutral(open, d, members[1..]);
      NeutralConcat(open, d, PrintMember(m) + ",", PrintMembers(members[1..]));
    }
  }

  /**
   * Whatever follows it, the scanner cuts out exactly the object or array at the start of the text,
   * although it counts only one kind of bracket.
   */
  lemma BalancedRecoversValue(v: Json, rest: string)
    requires IsContainer(v)
    ensures Balanced(Print(v) + rest) == Print(v)
  {
    var open, inside, close := Open(v), PrintInside(v), Close(v);
    var text := Print(v) + rest;
    assert text == [open] + (inside + ([close] + rest));
    var deep := Scanner(1, false, false);
    assert [open][1..] == [];
    assert Feed(open, START, [open]) == Going(deep);
    FeedConcat(open, START, [open], inside + ([close] + rest));
    InsideIsNeutral(open, 1, v);
    FeedConcat(open, deep, inside, [close] + rest);
    assert ([close] + rest)[0] == close;
    assert Feed(open, deep, [close] + rest) == Closed(0);
    assert Feed(open, START, text) == Closed(|inside| + 1);
    assert text[..|inside| + 2] == Print(v);
  }

  // ----- The search around the scanner

  /** `pat` stands in `text` at position `i`. */
  predicate Occurs(text: string, pat: string, i: nat) {
    i + |pat| <= |text| && text[i..i + |pat|] == pat
  }

  /** The first position at or after `i` where `pat` stands, or -1. */
  function IndexFrom(text: string, pat: string, i: nat): (r: int)
    requires i <= |text|
    ensures r >= 0 ==> i <= r && Occurs(text, pat, r)
    ensures forall k :: i <= k < (if r < 0 then |text| + 1 else r) ==> !Occurs(text, pat, k)
    decreases |text| - i
  {
    if Occurs(text, pat, i) then i
    else if i == |text| then -1
    else IndexFrom(text, pat, i + 1)
  }

  predicate IsBlank(c: char) {
    IsSpace(c) || c == '\U{000B}' || c == '\U{000C}'
  }

  function TrimLeft(s: string): string {
    if s != [] && IsBlank(s[0]) then TrimLeft(s[1..]) else s
  }

  function TrimRight(s: string): string {
    if s != [] && IsBlank(s[|s| - 1]) then TrimRight(s[..|s| - 1]) else s
  }

  function Trim(s: string): string {
    TrimRight(TrimLeft(s))
  }

  const JSON_FENCE: string := "```json"
  const BARE_FENCE: string := "```\n"
  const FENCE: string := "```"

  /** The trimmed text from `start` up to the next fence, if there is one. */
  function UpToFence(text: string, start: nat): Option<string>
    requires start <= |text|
  {
    var end := IndexFrom(text, FENCE, start);
    if end < 0 then None else Some(Trim(text[start..end]))
  }

  /** Where the content of a block that opens with ```json at `idx` begins: a newline is skipped. */
  function ContentStart(text: string, idx: nat): (start: nat)
    requires Occurs(text, JSON_FENCE, idx)
    ensures idx + 7 <= start <= |text|
  {
    if idx + 7 < |text| && text[idx + 7] == '\n' then idx + 8 else idx + 7
  }

  /** The content of the first ```json block, trimmed. */
  function JsonBlock(text: string): Option<string> {
    var idx := IndexFrom(text, JSON_FENCE, 0);
    if idx < 0 then None else UpToFence(text, ContentStart(text, idx))
  }

  /** The content of the first bare block, trimmed. */
  function BareBlock(text: string): Option<string> {
    var idx := IndexFrom(text, BARE_FENCE, 0);
    if idx < 0 then None else UpToFence(text, idx + 4)
  }

  /** The balanced text at the first position from `i` on where there is one that is JSON. */
  function FirstBalanced(text: string, isJson: string -> bool, i: nat): string
    requires i <= |text|
    decreases |text| - i
  {
    if i == |text| then ""
    else
      var candidate := Balanced(text[i..]);
      if candidate != "" && isJson(candidate) then candidate else FirstBalanced(text, isJson, i + 1)
  }

  /** What is extracted from an answer; `isJson` is the parser of the JSON library. */
  function Extract(text: string, isJson: string -> bool): string {
    var tagged, bare := JsonBlock(text), BareBlock(text);
    if tagged.Some? && tagged.value != "" then tagged.value
    else if bare.Some? && isJson(bare.value) then bare.value
    else FirstBalanced(text, isJson, 0)
  }

  /** The search over start positions, when no fenced block was accepted. */
  method SearchBalanced(text: string, isJson: string -> bool) returns (r: string)
    ensures r == FirstBalanced(text, isJson, 0)
  {
    var i := 0;
    while i < |text|
      invariant 0 <= i <= |text|
      invariant FirstBalanced(text, isJson, 0) == FirstBalanced(text, isJson, i)
    {
      if text[i] == '{' || text[i] == '[' {
        var candidate := ExtractBalanced(text[i..]);
        if candidate != "" && isJson(candidate) {
          return candidate;
        }
      }
      i := i + 1;
    }
    return "";
  }

  method TaggedBlock(text: string) returns (candidate: Option<string>)
    ensures candidate == JsonBlock(text)
  {
    var idx := IndexFrom(text, JSON_FENCE, 0);
    if idx < 0 {
      return None;
    }
    var start := idx + 7;
    if start < |text| && text[start] == '\n' {
      start := start + 1;
    }
    var end := IndexFrom(text, FENCE, start);
    if end < 0 {
      return None;
    }
    return Some(Trim(text[start..end]));
  }

  method UntaggedBlock(text: string) returns (candidate: Option<string>)
    ensures candidate == BareBlock(text)
  {
    var idx := IndexFrom(text, BARE_FENCE, 0);
    if idx < 0 {
      return None;
    }
    var start := idx + 4;
    var end := IndexFrom(text, FENCE, start);
    if end < 0 {
      return None;
    }
    return Some(Trim(text[start..end]));
  }

  method ExtractJSON(text: string, isJson: string -> bool) returns (r: string)
    ensures r == Extract(text, isJson)
  {
    var candidate := TaggedBlock(text);
    if candidate.Some? && candidate.value != "" {
      return candidate.value;
    }
    candidate := UntaggedBlock(text);
    if candidate.Some? && isJson(candidate.value) {
      return candidate.value;
    }
    r := SearchBalanced(text, isJson);
  }

  /** A text with no bracket in it gives the search nothing to stop at. */
  lemma {:induction false} ProseIsSkipped(text: string, isJson: string -> bool, i: nat, j: nat)
    requires i <= j <= |text| && forall k :: i <= k < j ==> text[k] !in {'{', '['}
    ensures FirstBalanced(text, isJson, i) == FirstBalanced(text, isJson, j)
    decreases j - i
  {
    if i < j {
      assert text[i..][0] == text[i];
      ProseIsSkipped(text, isJson, i + 1, j);
    }
  }

  /**
   * From an answer without code fences, the extraction returns exactly the printed object or array
   * that follows prose without brackets, whatever comes after it.
   */
  lemma ExtractsValueFromProse(prose: string, v: Json, rest: string, isJson: string -> bool)
    requires IsContainer(v) && isJson(Print(v))
    requires forall k :: 0 <= k < |prose| ==> prose[k] !in {'{', '['}
    requires IndexFrom(prose + Print(v) + rest, JSON_FENCE, 0) < 0
    requires IndexFrom(prose + Print(v) + rest, BARE_FENCE, 0) < 0
    ensures Extract(prose + Print(v) + rest, isJson) == Print(v)
  {
    var text := prose + Print(v) + rest;
    SearchFindsValue(prose, v, rest, isJson);
    assert JsonBlock(text) == None && BareBlock(text) == None;
  }

  lemma SearchFindsValue(prose: string, v: Json, rest: string, isJson: string -> bool)
    requires IsContainer(v) && isJson(Print(v))
    requires forall k :: 0 <= k < |prose| ==> prose[k] !in {'{', '['}
    ensures FirstBalanced(prose + Print(v) + rest, isJson, 0) == Print(v)
  {
    var text := prose + Print(v) + rest;
    assert forall k :: 0 <= k < |prose| ==> text[k] == prose[k];
    ProseIsSkipped(text, isJson, 0, |prose|);
    assert text[|prose|..] == Print(v) + rest;
    BalancedRecoversValue(v, rest);
  }

  /** No printed object or array is the beginning of another: where one ends does not depend on what follows. */
  lemma PrintedContainersArePrefixFree(v: Json, w: Json, after: string, after': string)
    requires IsContainer(v) && IsContainer(w) && Print(v) + after == Print(w) + after'
    ensures Print(v) == Print(w) && after == after'
  {
    BalancedRecoversValue(v, after);
    BalancedRecoversValue(w, after');
    assert (Print(v) + after)[|Print(v)|..] == after && (Print(w) + after')[|Print(w)|..] == after';
  }

  // ----- Fenced answers

  lemma TrimKeepsBrackets(s: string)
    requires s != "" && !IsBlank(s[0]) && !IsBlank(s[|s| - 1])
    ensures Trim(s) == s && Trim(s + "\n") == s
  {
    assert (s + "\n")[..|s|] == s;
  }

  lemma {:induction false} TrimShortens(s: string)
    ensures |TrimRight(s)| <= |s| && (s != "" && !IsBlank(s[0]) ==> TrimRight(s) != "")
  {
    if s != "" && IsBlank(s[|s| - 1]) {
      TrimShortens(s[..|s| - 1]);
    }
  }

  /** Three backticks in a row. */
  predicate FenceAt(text: string, i: nat) {
    i + 3 <= |text| && text[i] == '`' && text[i + 1] == '`' && text[i + 2] == '`'
  }

  predicate NoFence(text: string) {
    forall i :: 0 <= i < |text| ==> !FenceAt(text, i)
  }

  lemma OccursFence(text: string, i: nat)
    ensures Occurs(text, FENCE, i) <==> FenceAt(text, i)
  {
    if Occurs(text, FENCE, i) {
      assert text[i..i + 3][0] == '`' && text[i..i + 3][1] == '`' && text[i..i + 3][2] == '`';
    }
    if FenceAt(text, i) {
      assert text[i..i + 3] == FENCE;
    }
  }

  lemma FirstFence(text: string, from: nat)
    requires from <= |text|
    ensures var r := IndexFrom(text, FENCE, from);
            && (r >= 0 ==> FenceAt(text, r))
            && forall k :: from <= k < (if r < 0 then |text| + 1 else r) ==> !FenceAt(text, k)
  {
    var r := IndexFrom(text, FENCE, from);
    if r >= 0 {
      OccursFence(text, r);
    }
    forall k | from <= k < (if r < 0 then |text| + 1 else r)
      ensures !FenceAt(text, k)
    {
      OccursFence(text, k);
    }
  }

  /** The text `p` stands at `o`, with a newline and a fence after it. */
  ghost predicate StandsAt(text: string, o: nat, p: string) {
    && |text| >= o + |p| + 4
    && (forall k :: 0 <= k < |p| ==> text[o + k] == p[k])
    && text[o + |p|] == '\n' && FenceAt(text, o + |p| + 1)
  }

  /** Then the first fence from there on ends the block or cuts `p`. */
  lemma FirstFenceAfterValue(text: string, o: nat, p: string)
    requires StandsAt(text, o, p) && |p| > 0 && p[0] != '`' && p[|p| - 1] != '`'
    ensures var end := IndexFrom(text, FENCE, o);
            if NoFence(p) then end == o + |p| + 1 else o < end < o + |p|
  {
    var end := IndexFrom(text, FENCE, o);
    FirstFence(text, o);
    assert end >= 0 && FenceAt(text, end) && end <= o + |p| + 1;
    assert text[o] == p[0];
    if end < o + |p| {
      assert text[end] == p[end - o];
      assert end + 1 < o + |p| && text[end + 1] == p[end + 1 - o];
      assert end + 2 < o + |p| && text[end + 2] == p[end + 2 - o];
      assert FenceAt(p, end - o);
    } else {
      forall k | 0 <= k < |p|
        ensures !FenceAt(p, k)
      {
        if FenceAt(p, k) {
          assert text[o + k] == p[k] && text[o + (k + 1)] == p[k + 1] && text[o + (k + 2)] == p[k + 2];
          assert FenceAt(text, o + k);
        }
      }
    }
  }

  /** An answer: prose, then `p` in a tagged block, then anything. */
  function Fenced(prose: string, p: string, rest: string): string {
    prose + "```json\n" + p + "\n```" + rest
  }

  lemma FencedShape(prose: string, p: string, rest: string)
    ensures var text, o := Fenced(prose, p, rest), |prose| + 8;
            && StandsAt(text, o, p)
            && Occurs(text, JSON_FENCE, |prose|) && ContentStart(text, |prose|) == o
            && text[o..o + |p| + 1] == p + "\n"
            && (forall end :: o <= end <= o + |p| ==> text[o..end] == p[..end - o])
  {
    var text := Fenced(prose, p, rest);
    assert text[|prose|..|prose| + 7] == JSON_FENCE;
  }

  lemma TagLetters(text: string, k: nat)
    requires Occurs(text, JSON_FENCE, k)
    ensures |text| >= k + 7 && FenceAt(text, k)
    ensures text[k + 3] == 'j' && text[k + 4] == 's' && text[k + 5] == 'o' && text[k + 6] == 'n'
  {
    var tag := text[k..k + 7];
    assert tag[0] == text[k] && tag[1] == text[k + 1] && tag[2] == text[k + 2] && tag[3] == text[k + 3];
    assert tag[4] == text[k + 4] && tag[5] == text[k + 5] && tag[6] == text[k + 6];
  }

  /** The tag cannot begin in the prose and end in the fence that follows it. */
  lemma TagDoesNotStraddle(prose: string, p: string, rest: string, k: nat)
    requires k < |prose| && Occurs(Fenced(prose, p, rest), JSON_FENCE, k)
    ensures Occurs(prose, JSON_FENCE, k)
  {
    var text := Fenced(prose, p, rest);
    FencedShape(prose, p, rest);
    TagLetters(text, k);
    TagLetters(text, |prose|);
    assert k + 7 <= |prose|;
    assert prose[k..k + 7] == text[k..k + 7];
  }

  /** So the block is found where it is, unless the prose itself holds a tagged fence. */
  lemma TagIsFound(prose: string, p: string, rest: string)
    requires IndexFrom(prose, JSON_FENCE, 0) < 0
    ensures IndexFrom(Fenced(prose, p, rest), JSON_FENCE, 0) == |prose|
  {
    var text := Fenced(prose, p, rest);
    FencedShape(prose, p, rest);
    var idx := IndexFrom(text, JSON_FENCE, 0);
    if 0 <= idx < |prose| {
      TagDoesNotStraddle(prose, p, rest, idx);
      assert false;
    }
  }

  /** What is left of a text that is cut at its first fence, trimmed. */
  function CutAtFence(p: string): string {
    var end := IndexFrom(p, FENCE, 0);
    if end < 0 then p else Trim(p[..end])
  }

  lemma {:induction false} TrimRightIsPrefix(s: string)
    ensures TrimRight(s) <= s
  {
    if s != "" && IsBlank(s[|s| - 1]) {
      TrimRightIsPrefix(s[..|s| - 1]);
    }
  }

  /** A text that has a fence is cut to a shorter one that begins like it. */
  lemma CutIsShorter(p: string)
    requires |p| > 0 && !IsBlank(p[0]) && p[0] != '`' && !NoFence(p)
    ensures CutAtFence(p) < p && CutAtFence(p) != "" && CutAtFence(p)[0] == p[0]
  {
    FirstFence(p, 0);
    var end := IndexFrom(p, FENCE, 0);
    assert end > 0;
    var front := p[..end];
    assert front[0] == p[0];
    assert TrimLeft(front) == front;
    TrimRightIsPrefix(front);
    TrimShortens(front);
  }

  lemma FirstFenceAtMost(text: string, from: nat, k: nat)
    requires from <= k && FenceAt(text, k)
    ensures from <= IndexFrom(text, FENCE, from) <= k && FenceAt(text, IndexFrom(text, FENCE, from))
  {
    OccursFence(text, k);
    OccursFence(text, IndexFrom(text, FENCE, from));
  }

  lemma FenceMoves(text: string, o: nat, p: string, f: nat)
    requires StandsAt(text, o, p) && FenceAt(p, f)
    ensures FenceAt(text, o + f)
  {
    assert text[o + f] == p[f] && text[o + (f + 1)] == p[f + 1] && text[o + (f + 2)] == p[f + 2];
  }

  lemma SameFirstFence(text: string, o: nat, p: string)
    requires StandsAt(text, o, p) && |p| > 0 && p[|p| - 1] != '`' && !NoFence(p)
    ensures 0 <= IndexFrom(p, FENCE, 0) < |p| && IndexFrom(text, FENCE, o) == o + IndexFrom(p, FENCE, 0)
  {
    var k :| 0 <= k < |p| && FenceAt(p, k);
    FirstFenceAtMost(p, 0, k);
    var f := IndexFrom(p, FENCE, 0);
    FenceMoves(text, o, p, f);
    FirstFenceAtMost(text, o, o + f);
    var e := IndexFrom(text, FENCE, o);
    FencesInside(text, o, p, e);
    FirstFenceAtMost(p, 0, e - o);
  }

  /** A fence of the text that begins inside `p` lies inside `p`. */
  lemma FencesInside(text: string, o: nat, p: string, e: nat)
    requires StandsAt(text, o, p) && |p| > 0 && p[|p| - 1] != '`' && o <= e < o + |p| && FenceAt(text, e)
    ensures FenceAt(p, e - o)
  {
    assert text[o + (|p| - 1)] == p[|p| - 1];
    assert text[e] == p[e - o];
    assert e + 1 < o + |p| && text[e + 1] == p[e + 1 - o];
    assert e + 2 < o + |p| && text[e + 2] == p[e + 2 - o];
  }

  /** A text that a block can hold: not empty, and no blank or backtick at its ends. */
  predicate Solid(p: string) {
    |p| > 0 && p[0] != '`' && p[|p| - 1] != '`' && !IsBlank(p[0]) && !IsBlank(p[|p| - 1])
  }

  lemma WholeBlock(text: string, o: nat, p: string)
    requires StandsAt(text, o, p) && Solid(p) && NoFence(p)
    ensures UpToFence(text, o) == Some(p)
  {
    FirstFenceAfterValue(text, o, p);
    assert text[o..o + |p| + 1] == p + "\n";
    TrimKeepsBrackets(p);
  }

  lemma CutBlock(text: string, o: nat, p: string)
    requires StandsAt(text, o, p) && Solid(p) && !NoFence(p)
    ensures UpToFence(text, o) == Some(CutAtFence(p))
  {
    SameFirstFence(text, o, p);
    var end := IndexFrom(p, FENCE, 0);
    assert text[o..o + end] == p[..end];
  }

  /** What a block gives that opens before `p`. */
  lemma BlockIs(text: string, o: nat, p: string)
    requires StandsAt(text, o, p) && Solid(p)
    ensures UpToFence(text, o) == Some(if NoFence(p) then p else CutAtFence(p))
  {
    if NoFence(p) {
      WholeBlock(text, o, p);
    } else {
      CutBlock(text, o, p);
    }
  }

  /** The block of a fenced text is the text itself, or a shorter one that is not empty. */
  lemma FencedBlock(prose: string, p: string, rest: string)
    requires IndexFrom(prose, JSON_FENCE, 0) < 0 && Solid(p)
    ensures var block := JsonBlock(Fenced(prose, p, rest));
            block.Some? && block.value != "" && (block.value == p <==> NoFence(p))
  {
    FencedShape(prose, p, rest);
    TagIsFound(prose, p, rest);
    BlockIs(Fenced(prose, p, rest), |prose| + 8, p);
    if !NoFence(p) {
      CutIsShorter(p);
    }
  }

  /**
   * An answer with a printed value in a ```json block, after any prose without such a block, gives back the
   * value exactly when its text does not itself contain a fence: a string in it with three backticks cuts
   * it short.
   */
  lemma FencedValueRecoveredExactlyWhen(prose: string, v: Json, rest: string, isJson: string -> bool)
    requires IsContainer(v) && IndexFrom(prose, JSON_FENCE, 0) < 0
    ensures Extract(Fenced(prose, Print(v), rest), isJson) == Print(v) <==> NoFence(Print(v))
  {
    FencedBlock(prose, Print(v), rest);
  }

  /** Such a value: an array of one string of three backticks. */
  lemma BackticksCutAnswerShort(rest: string, isJson: string -> bool)
    ensures var v := Array("", [Item("", Text([Plain('`'), Plain('`'), Plain('`')]), "")]);
            Extract(Fenced("", Print(v), rest), isJson) != Print(v)
  {
    var ticks: seq<Unit> := [Plain('`'), Plain('`'), Plain('`')];
    var item := Item("", Text(ticks), "");
    var v := Array("", [item]);
    assert ticks[1..][1..] == [Plain('`')] && ticks[1..] == [Plain('`'), Plain('`')] && ticks[1..][1..][1..] == [];
    assert PrintUnits(ticks) == "```";
    assert Print(item.value) == "\"```\"";
    assert PrintInside(v) == PrintItem(item) == "\"```\"";
    assert FenceAt(Print(v), 2);
    FencedValueRecoveredExactlyWhen("", v, rest, isJson);
  }

  // ----- Blocks without a tag

  /** An answer: prose, then `p` in a block without a tag, then anything. */
  function Bare(prose: string, p: string, rest: string): string {
    prose + "```\n" + p + "\n```" + rest
  }

  lemma BareLetters(text: string, k: nat)
    requires Occurs(text, BARE_FENCE, k)
    ensures |text| >= k + 4 && FenceAt(text, k) && text[k + 3] == '\n'
  {
    var mark := text[k..k + 4];
    assert mark[0] == text[k] && mark[1] == text[k + 1] && mark[2] == text[k + 2] && mark[3] == text[k + 3];
  }

  lemma BareShape(prose: string, p: string, rest: string)
    ensures var text, o := Bare(prose, p, rest), |prose| + 4;
            && StandsAt(text, o, p) && Occurs(text, BARE_FENCE, |prose|)
            && text[o..o + |p| + 1] == p + "\n"
            && (forall end :: o <= end <= o + |p| ==> text[o..end] == p[..end - o])
            && text[o..] == p + ("\n```" + rest)
  {
    var text := Bare(prose, p, rest);
    assert text[|prose|..|prose| + 4] == BARE_FENCE;
  }

  /** The fence cannot begin in the prose and end in the one that follows it. */
  lemma BareDoesNotStraddle(prose: string, p: string, rest: string, k: nat)
    requires k < |prose| && Occurs(Bare(prose, p, rest), BARE_FENCE, k)
    ensures Occurs(prose, BARE_FENCE, k)
  {
    var text := Bare(prose, p, rest);
    BareShape(prose, p, rest);
    BareLetters(text, k);
    BareLetters(text, |prose|);
    assert k + 4 <= |prose|;
    assert prose[k..k + 4] == text[k..k + 4];
  }

  lemma BareIsFound(prose: string, p: string, rest: string)
    requires IndexFrom(prose, BARE_FENCE, 0) < 0
    ensures IndexFrom(Bare(prose, p, rest), BARE_FENCE, 0) == |prose|
  {
    BareShape(prose, p, rest);
    var idx := IndexFrom(Bare(prose, p, rest), BARE_FENCE, 0);
    if 0 <= idx < |prose| {
      BareDoesNotStraddle(prose, p, rest, idx);
      assert false;
    }
  }

  lemma BareBlockIs(prose: string, p: string, rest: string)
    requires IndexFrom(prose, BARE_FENCE, 0) < 0 && Solid(p)
    ensures BareBlock(Bare(prose, p, rest)) == Some(if NoFence(p) then p else CutAtFence(p))
  {
    BareShape(prose, p, rest);
    BareIsFound(prose, p, rest);
    BlockIs(Bare(prose, p, rest), |prose| + 4, p);
  }

  /**
   * An answer with a printed value in a block without a tag, after bracket-free prose: the value is given
   * back exactly when its text contains no fence, or the parser rejects what the fence leaves of it, since
   * the search for a balanced text then finds the whole value.
   */
  lemma BareValueRecoveredExactlyWhen(prose: string, v: Json, rest: string, isJson: string -> bool)
    requires IsContainer(v) && isJson(Print(v))
    requires forall k :: 0 <= k < |prose| ==> prose[k] !in {'{', '['}
    requires IndexFrom(prose, BARE_FENCE, 0) < 0 && IndexFrom(Bare(prose, Print(v), rest), JSON_FENCE, 0) < 0
    ensures Extract(Bare(prose, Print(v), rest), isJson) == Print(v) <==>
            NoFence(Print(v)) || !isJson(CutAtFence(Print(v)))
  {
    var p, text := Print(v), Bare(prose, Print(v), rest);
    BareBlockIs(prose, p, rest);
    assert JsonBlock(text) == None;
    if !NoFence(p) {
      CutIsShorter(p);
      SearchFindsBareValue(prose, v, rest, isJson);
    }
  }

  lemma SearchFindsBareValue(prose: string, v: Json, rest: string, isJson: string -> bool)
    requires IsContainer(v) && isJson(Print(v))
    requires forall k :: 0 <= k < |prose| ==> prose[k] !in {'{', '['}
    ensures FirstBalanced(Bare(prose, Print(v), rest), isJson, 0) == Print(v)
  {
    var text, o := Bare(prose, Print(v), rest), |prose| + 4;
    BareShape(prose, Print(v), rest);
    BareLetters(text, |prose|);
    assert forall k :: 0 <= k < |prose| ==> text[k] == prose[k];
    ProseIsSkipped(text, isJson, 0, o);
    BalancedRecoversValue(v, "\n```" + rest);
  }

  /** A parser that takes a text that begins like an object or an array only if it is one. */
  ghost predicate Sound(isJson: string -> bool) {
    forall t :: isJson(t) && t != "" && t[0] in {'{', '['} ==> exists w :: IsContainer(w) && t == Print(w)
  }

  /** With such a parser the value is always recovered: no part of it that a fence leaves is a value. */
  lemma BareValueAlwaysRecovered(prose: string, v: Json, rest: string, isJson: string -> bool)
    requires IsContainer(v) && isJson(Print(v)) && Sound(isJson)
    requires forall k :: 0 <= k < |prose| ==> prose[k] !in {'{', '['}
    requires IndexFrom(prose, BARE_FENCE, 0) < 0 && IndexFrom(Bare(prose, Print(v), rest), JSON_FENCE, 0) < 0
    ensures Extract(Bare(prose, Print(v), rest), isJson) == Print(v)
  {
    if !NoFence(Print(v)) {
      CutIsRejected(v, isJson);
    }
    BareValueRecoveredExactlyWhen(prose, v, rest, isJson);
  }

  lemma CutIsRejected(v: Json, isJson: string -> bool)
    requires IsContainer(v) && Sound(isJson) && !NoFence(Print(v))
    ensures !isJson(CutAtFence(Print(v)))
  {
    var p := Print(v);
    var cut := CutAtFence(p);
    CutIsShorter(p);
    if isJson(cut) {
      var w :| IsContainer(w) && cut == Print(w);
      assert Print(w) + p[|cut|..] == p + "";
      PrintedContainersArePrefixFree(w, v, p[|cut|..], "");
    }
  }
}
