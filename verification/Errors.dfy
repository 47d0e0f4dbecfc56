/**
 Error texts and their classification. `IsNotFoundErr` decides by matching the text of an error
 against `^key\s+(\S+)\s+not\sfound$`; the listener reports `FsmNotFound` on its word.
 */
module Errors {
  import opened Keys

  predicate IsSpace(c: char) {
    c == '\t' || c == '\n' || c == '\U{000C}' || c == '\r' || c == ' '
  }

  predicate AllSpace(s: string) {
    forall i :: 0 <= i < |s| ==> IsSpace(s[i])
  }

  predicate NoSpace(s: string) {
    forall i :: 0 <= i < |s| ==> !IsSpace(s[i])
  }

  /** A match of the pattern: one or more spaces, the key, one or more spaces, one space. */
  predicate Match(text: string, a: string, w: string, b: string, c: char) {
    && text == "key" + a + w + b + "not" + [c] + "found"
    && a != "" && AllSpace(a) && w != "" && NoSpace(w) && b != "" && AllSpace(b) && IsSpace(c)
  }

  ghost predicate IsNotFoundErr(text: string) {
    exists a, w, b, c :: Match(text, a, w, b, c)
  }

  function NotFoundError(key: string): string {
    "key " + key + " not found"
  }

  function GenericStoreError(msg: string): string {
    "store error: " + msg
  }

  /** `fmt.Errorf` reports the argument that the format has no verb for. */
  const TOO_MANY_ATTEMPTS := "retries exceeded%!(EXTRA string=)"
  const UNEXPECTED_TRANSITION := "unexpected event transition"

  /** The texts, on an example of each. */
  lemma ErrorsAreWorded()
    ensures NotFoundError("fsm:orders#42") == "key fsm:orders#42 not found"
    ensures GenericStoreError("EOF") == "store error: EOF"
    ensures TOO_MANY_ATTEMPTS == "retries exceeded%!(EXTRA string=)"
    ensures UNEXPECTED_TRANSITION == "unexpected event transition"
  {
  }

  // ---------------------------------------------------------------- trimming

  function TrimLeft(s: string): string {
    if s != "" && IsSpace(s[0]) then TrimLeft(s[1..]) else s
  }

  function TrimRight(s: string): string {
    if s != "" && IsSpace(s[|s| - 1]) then TrimRight(s[..|s| - 1]) else s
  }

  function Trim(s: string): string {
    TrimRight(TrimLeft(s))
  }

  lemma {:induction false} TrimLeftParts(s: string)
    ensures exists a :: AllSpace(a) && s == a + TrimLeft(s)
    ensures TrimLeft(s) != "" ==> !IsSpace(TrimLeft(s)[0])
  {
    if s != "" && IsSpace(s[0]) {
      TrimLeftParts(s[1..]);
      var a :| AllSpace(a) && s[1..] == a + TrimLeft(s[1..]);
      assert s == ([s[0]] + a) + TrimLeft(s) && AllSpace([s[0]] + a);
    } else {
      assert s == "" + TrimLeft(s) && AllSpace("");
    }
  }

  lemma {:induction false} TrimRightParts(s: string)
    ensures exists b :: AllSpace(b) && s == TrimRight(s) + b
  {
    if s != "" && IsSpace(s[|s| - 1]) {
      var t, c := s[..|s| - 1], s[|s| - 1];
      TrimRightParts(t);
      var b :| AllSpace(b) && t == TrimRight(t) + b;
      assert s == TrimRight(s) + (b + [c]) && AllSpace(b + [c]);
    } else {
      assert s == TrimRight(s) + "" && AllSpace("");
    }
  }

  lemma {:induction false} TrimLeftOf(a: string, w: string)
    requires AllSpace(a) && w != "" && !IsSpace(w[0])
    ensures TrimLeft(a + w) == w
  {
    if a == "" {
      assert a + w == w;
    } else {
      assert (a + w)[1..] == a[1..] + w;
      TrimLeftOf(a[1..], w);
    }
  }

  lemma {:induction false} TrimRightOf(w: string, b: string)
    requires AllSpace(b) && w != "" && !IsSpace(w[|w| - 1])
    ensures TrimRight(w + b) == w
  {
    if b == "" {
      assert w + b == w;
    } else {
      assert (w + b)[..|w + b| - 1] == w + b[..|b| - 1];
      TrimRightOf(w, b[..|b| - 1]);
    }
  }

  lemma TrimOf(a: string, w: string, b: string)
    requires AllSpace(a) && AllSpace(b) && w != "" && NoSpace(w)
    ensures Trim(a + w + b) == w
  {
    assert a + w + b == a + (w + b);
    TrimLeftOf(a, w + b);
    TrimRightOf(w, b);
  }

  // ---------------------------------------------------------------- classification

  lemma MatchTrims(key: string, a: string, w: string, b: string, c: char)
    requires Match(NotFoundError(key), a, w, b, c)
    ensures Trim(key) == w
  {
    var text := NotFoundError(key);
    assert |text| == |a| + |w| + |b| + 12 == |key| + 14;
    assert text[3..|text| - 9] == a + w + b;
    assert text[3..|text| - 9] == " " + key + " ";
    var mid := a + w + b;
    assert mid[1..|mid| - 1] == key;
    assert mid[1..|mid| - 1] == a[1..] + w + b[..|b| - 1];
    TrimOf(a[1..], w, b[..|b| - 1]);
  }

  lemma TrimmedKeyMatches(key: string)
    requires Trim(key) != "" && NoSpace(Trim(key))
    ensures IsNotFoundErr(NotFoundError(key))
  {
    TrimLeftParts(key);
    TrimRightParts(TrimLeft(key));
    var a :| AllSpace(a) && key == a + TrimLeft(key);
    var b :| AllSpace(b) && TrimLeft(key) == TrimRight(TrimLeft(key)) + b;
    var w := Trim(key);
    assert NotFoundError(key) == "key" + (" " + a) + w + (b + " ") + "not" + [' '] + "found";
    assert Match(NotFoundError(key), " " + a, w, b + " ", ' ');
  }

  /** A "not found" error is recognised exactly when its key, trimmed, is one non-empty word. */
  lemma RecognisedIffTrimmedKeyIsOneWord(key: string)
    ensures IsNotFoundErr(NotFoundError(key)) <==> Trim(key) != "" && NoSpace(Trim(key))
  {
    if IsNotFoundErr(NotFoundError(key)) {
      var a, w, b, c :| Match(NotFoundError(key), a, w, b, c);
      MatchTrims(key, a, w, b, c);
    }
    if Trim(key) != "" && NoSpace(Trim(key)) {
      TrimmedKeyMatches(key);
    }
  }

  /** Whitespace is what the pattern's `\s` stands for: tab, newline, form feed, carriage return and space. */
  lemma WhitespaceSplitsKeys(c: char)
    ensures IsNotFoundErr(NotFoundError("a" + [c] + "b")) <==> c !in {'\t', '\n', '\U{000C}', '\r', ' '}
  {
    var key := "a" + [c] + "b";
    assert key[0] == 'a' && key[1] == c && key[2] == 'b' && Trim(key) == key;
    RecognisedIffTrimmedKeyIsOneWord(key);
  }

  /** The pattern as a program: fixed prefix and suffix, and a padded word between them. */
  predicate MatchesNotFound(text: string) {
    && |text| >= 15
    && text[..3] == "key" && text[|text| - 9..|text| - 6] == "not" && text[|text| - 5..] == "found"
    && IsSpace(text[|text| - 6])
    && var mid := text[3..|text| - 9];
       IsSpace(mid[0]) && IsSpace(mid[|mid| - 1]) && Trim(mid) != "" && NoSpace(Trim(mid))
  }

  lemma PaddedWord(mid: string)
    requires |mid| >= 2 && IsSpace(mid[0]) && IsSpace(mid[|mid| - 1]) && Trim(mid) != "" && NoSpace(Trim(mid))
    ensures exists a, b :: mid == a + Trim(mid) + b && a != "" && AllSpace(a) && b != "" && AllSpace(b)
  {
    TrimLeftParts(mid);
    TrimRightParts(TrimLeft(mid));
    var w := Trim(mid);
    var a :| AllSpace(a) && mid == a + TrimLeft(mid);
    var b :| AllSpace(b) && TrimLeft(mid) == w + b;
    assert mid == a + w + b;
  }

  lemma AcceptedTextMatches(text: string)
    requires MatchesNotFound(text)
    ensures IsNotFoundErr(text)
  {
    var mid, c := text[3..|text| - 9], text[|text| - 6];
    PaddedWord(mid);
    var a, b :| mid == a + Trim(mid) + b && a != "" && AllSpace(a) && b != "" && AllSpace(b);
    assert text == "key" + mid + "not" + [c] + "found";
    assert Match(text, a, Trim(mid), b, c);
  }

  lemma MatchingTextIsAccepted(text: string)
    requires IsNotFoundErr(text)
    ensures MatchesNotFound(text)
  {
    var a, w, b, c :| Match(text, a, w, b, c);
    var mid := a + w + b;
    TrimOf(a, w, b);
    assert text == "key" + mid + "not" + [c] + "found";
    assert text[3..|text| - 9] == mid;
  }

  /** The program decides the pattern. */
  lemma MatcherDecidesPattern(text: string)
    ensures MatchesNotFound(text) <==> IsNotFoundErr(text)
  {
    if MatchesNotFound(text) {
      AcceptedTextMatches(text);
    }
    if IsNotFoundErr(text) {
      MatchingTextIsAccepted(text);
    }
  }

  /** A text with a space inside it, wrapped as a missing key, is not recognised. */
  lemma WrappedTextIsNotRecognised(s: string, i: nat)
    requires 0 < i < |s| - 1 && IsSpace(s[i]) && !IsSpace(s[0]) && !IsSpace(s[|s| - 1])
    ensures !IsNotFoundErr(NotFoundError(s))
  {
    assert Trim(s) == s;
    RecognisedIffTrimmedKeyIsOneWord(s);
  }

  lemma {:induction false} TrimRightKeeps(s: string, j: nat)
    requires j < |s| && !IsSpace(s[j])
    ensures TrimRight(s) <= s && j < |TrimRight(s)|
  {
    if IsSpace(s[|s| - 1]) {
      TrimRightKeeps(s[..|s| - 1], j);
    }
  }

  /** A lookup that broke, wrapped as a store error and again as a missing key, is not recognised, whatever its text. */
  lemma BrokenLookupIsNotRecognised(text: string)
    ensures !IsNotFoundErr(NotFoundError(GenericStoreError(text)))
  {
    var s := GenericStoreError(text);
    assert s[0] == 's' && s[5] == ' ' && s[11] == ':';
    TrimRightKeeps(s, 11);
    assert Trim(s)[5] == ' ';
    RecognisedIffTrimmedKeyIsOneWord(s);
  }

  lemma OnlyKeyTextsMatch(text: string)
    requires IsNotFoundErr(text)
    ensures "key" <= text
  {
    var a, w, b, c :| Match(text, a, w, b, c);
  }

  /**
   How the errors of an event call are classified: a failed machine lookup is recognised for every
   key without spaces; a missing configuration, whose own "not found" text is wrapped a second time, a
   configuration lookup that broke, a refused transition and exhausted retries never are.
   */
  lemma EventErrorClassification(id: string, cfg: string, configId: string, text: string)
    ensures NoSpace(cfg) && NoSpace(id) ==> IsNotFoundErr(NotFoundError(NewKeyForMachine(id, cfg)))
    ensures !IsNotFoundErr(NotFoundError(NotFoundError(NewKeyForConfig(configId))))
    ensures !IsNotFoundErr(NotFoundError(GenericStoreError(text)))
    ensures !IsNotFoundErr(UNEXPECTED_TRANSITION) && !IsNotFoundErr(TOO_MANY_ATTEMPTS)
  {
    var key := NewKeyForMachine(id, cfg);
    RecognisedIffTrimmedKeyIsOneWord(key);
    if NoSpace(cfg) && NoSpace(id) {
      assert NoSpace(key) && Trim(key) == key;
    }
    var inner := NotFoundError(NewKeyForConfig(configId));
    assert inner[0] == 'k' && inner[3] == ' ' && inner[|inner| - 1] == 'd';
    WrappedTextIsNotRecognised(inner, 3);
    BrokenLookupIsNotRecognised(text);
    if IsNotFoundErr(UNEXPECTED_TRANSITION) {
      OnlyKeyTextsMatch(UNEXPECTED_TRANSITION);
    }
    if IsNotFoundErr(TOO_MANY_ATTEMPTS) {
      OnlyKeyTextsMatch(TOO_MANY_ATTEMPTS);
    }
  }
}
