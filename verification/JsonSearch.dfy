/** The search for a value among other brackets: which text is taken, and when nothing is found. */
module JsonSearch {
  import opened Common
  import opened JsonText
  import opened JsonExtract

  /** A balanced text that the parser accepts stands at `i`. */
  predicate AcceptedAt(text: string, isJson: string -> bool, i: nat)
    requires i <= |text|
  {
    Balanced(text[i..]) != "" && isJson(Balanced(text[i..]))
  }

  predicate NoneBefore(text: string, isJson: string -> bool, from: nat, i: nat)
    requires i <= |text|
  {
    forall k :: from <= k < i ==> !AcceptedAt(text, isJson, k)
  }

  /** The search goes on after every text the parser rejects: it finds nothing only if nothing is accepted. */
  lemma {:induction false} NothingFoundExactlyWhen(text: string, isJson: string -> bool, from: nat)
    requires from <= |text|
    ensures FirstBalanced(text, isJson, from) == "" <==> NoneBefore(text, isJson, from, |text|)
    decreases |text| - from
  {
    if from < |text| && !AcceptedAt(text, isJson, from) {
      NothingFoundExactlyWhen(text, isJson, from + 1);
    }
  }

  /** And it takes the first text that is accepted. */
  lemma {:induction false} FirstAcceptedIsTaken(text: string, isJson: string -> bool, from: nat, i: nat)
    requires from <= i < |text| && AcceptedAt(text, isJson, i) && NoneBefore(text, isJson, from, i)
    ensures FirstBalanced(text, isJson, from) == Balanced(text[i..])
    decreases i - from
  {
    if from < i {
      assert !AcceptedAt(text, isJson, from);
      FirstAcceptedIsTaken(text, isJson, from + 1, i);
    }
  }

  lemma ValueIsAccepted(text: string, isJson: string -> bool, i: nat, v: Json)
    requires i <= |text| && IsContainer(v) && isJson(Print(v)) && Print(v) <= text[i..]
    ensures i < |text| && AcceptedAt(text, isJson, i) && Balanced(text[i..]) == Print(v)
  {
    BalancedRecoversValue(v, text[i..][|Print(v)|..]);
    assert text[i..] == Print(v) + text[i..][|Print(v)|..];
  }

  predicate Unfenced(text: string) {
    IndexFrom(text, JSON_FENCE, 0) < 0 && IndexFrom(text, BARE_FENCE, 0) < 0
  }

  /**
   * From an answer without code fences, whatever brackets it holds, the printed object or array at `i` is
   * extracted if the parser accepts it and no balanced text that begins before.
   */
  lemma ExtractsFirstAcceptedValue(text: string, isJson: string -> bool, i: nat, v: Json)
    requires Unfenced(text) && i <= |text| && IsContainer(v) && isJson(Print(v)) && Print(v) <= text[i..]
    requires NoneBefore(text, isJson, 0, i)
    ensures Extract(text, isJson) == Print(v)
  {
    ValueIsAccepted(text, isJson, i, v);
    FirstAcceptedIsTaken(text, isJson, 0, i);
    assert JsonBlock(text) == None && BareBlock(text) == None;
  }

  /**
   * From any answer, with fences or without, nothing is extracted only if no object or array that the
   * parser accepts stands anywhere in it.
   */
  lemma NothingExtractedMeansNothingThere(text: string, isJson: string -> bool, i: nat, v: Json)
    requires Extract(text, isJson) == "" && !isJson("")
    requires i <= |text| && IsContainer(v) && isJson(Print(v))
    ensures !(Print(v) <= text[i..])
  {
    assert FirstBalanced(text, isJson, 0) == "";
    NothingFoundExactlyWhen(text, isJson, 0);
    if Print(v) <= text[i..] {
      ValueIsAccepted(text, isJson, i, v);
      assert false;
    }
  }

  // ----- Placeholders before the value

  /** No bracket or quote. */
  predicate Unbracketed(w: string) {
    forall k :: 0 <= k < |w| ==> w[k] !in {'{', '}', '[', ']', '"'}
  }

  /** No brace or quote; the other brackets may stand anywhere. */
  predicate Unbraced(w: string) {
    forall k :: 0 <= k < |w| ==> w[k] !in {'{', '}', '"'}
  }

  lemma {:induction false} PlainTextIsPassed(w: string, after: string)
    requires Unbraced(w)
    ensures Feed('{', Scanner(1, false, false), w + ("}" + after)) == Closed(|w|)
  {
    var text := w + ("}" + after);
    if w == "" {
      assert text[0] == '}';
    } else {
      assert text[0] == w[0] && text[1..] == w[1..] + ("}" + after);
      PlainTextIsPassed(w[1..], after);
    }
  }

  /** After a brace only braces count: whatever other brackets stand between, the next closing brace ends it. */
  lemma PlaceholderIsBalanced(w: string, after: string)
    requires Unbraced(w)
    ensures Balanced("{" + w + "}" + after) == "{" + w + "}"
  {
    var s := "{" + w + "}" + after;
    assert s[0] == '{' && s[1..] == w + ("}" + after);
    PlainTextIsPassed(w, after);
    assert Next('{', START, '{') == Going(Scanner(1, false, false));
    assert s[..|w| + 2] == "{" + w + "}";
  }

  /** For instance: a placeholder in braces before the value does not end the search. */
  lemma PlaceholderIsPassedOver(before: string, name: string, between: string, v: Json, rest: string,
                                isJson: string -> bool)
    requires Unbracketed(before) && Unbracketed(name) && Unbracketed(between) && !isJson("{" + name + "}")
    requires IsContainer(v) && isJson(Print(v))
    requires Unfenced(before + ("{" + name + "}" + (between + (Print(v) + rest))))
    ensures Extract(before + ("{" + name + "}" + (between + (Print(v) + rest))), isJson) == Print(v)
  {
    var tail := between + (Print(v) + rest);
    var text := before + ("{" + name + "}" + tail);
    var i := |before| + |name| + 2 + |between|;
    assert text[i..] == Print(v) + rest;
    forall k | 0 <= k < i
      ensures !AcceptedAt(text, isJson, k)
    {
      if k == |before| {
        assert text[k..] == "{" + name + "}" + tail;
        PlaceholderIsBalanced(name, tail);
      } else {
        BracketFree(before, name, between, Print(v) + rest, k);
        assert text[k..][0] == text[k];
      }
    }
    ExtractsFirstAcceptedValue(text, isJson, i, v);
  }

  lemma BracketFree(before: string, name: string, between: string, rest: string, k: nat)
    requires Unbracketed(before) && Unbracketed(name) && Unbracketed(between)
    requires k < |before| + |name| + 2 + |between| && k != |before|
    ensures (before + ("{" + name + "}" + (between + rest)))[k] !in {'{', '['}
  {
    var text := before + ("{" + name + "}" + (between + rest));
    var n := |before| + 1;
    if k < |before| {
      assert text[k] == before[k];
    } else if k < n + |name| {
      assert text[k] == name[k - n];
    } else if k == n + |name| {
      assert text[k] == '}';
    } else {
      assert text[k] == between[k - n - |name| - 1];
    }
  }
}
