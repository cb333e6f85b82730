/**
 The brace scanner that cuts a JSON object out of a log, related to the grammar: on every text the
 parser accepts, scanner and parser agree on where the object ends.
 */
module JsonScan {
  import opened Text
  import opened Json

  /** How many characters of s the scanner loop consumes before the one at which it returns, from
      the given loop state; None when the text ends first. */
  function Close(depth: int, inString: bool, escaped: bool, s: string): Option<nat>
    decreases |s|
  {
    if s == "" then None
    else if inString then
      if escaped then Shift(1, Close(depth, true, false, s[1..]))
      else if s[0] == '\\' then Shift(1, Close(depth, true, true, s[1..]))
      else Shift(1, Close(depth, s[0] != '"', false, s[1..]))
    else if s[0] == '"' then Shift(1, Close(depth, true, escaped, s[1..]))
    else if s[0] == '{' then Shift(1, Close(depth + 1, false, escaped, s[1..]))
    else if s[0] == '}' then
      if depth == 1 then Some(0) else Shift(1, Close(depth - 1, false, escaped, s[1..]))
    else Shift(1, Close(depth, false, escaped, s[1..]))
  }

  function Shift(k: nat, o: Option<nat>): Option<nat> {
    match o
    case None => None
    case Some(n) => Some(n + k)
  }

  /** The loop shared by `findJsonObjectEnd` and its copies. */
  method FindJsonObjectEnd(text: string, start: nat) returns (end: Option<nat>)
    requires start <= |text|
    ensures end == Shift(start, Close(0, false, false, text[start..]))
  {
    var depth, inString, escaped := 0, false, false;
    var index := start;
    while index < |text|
      invariant start <= index <= |text|
      invariant Close(0, false, false, text[start..]) ==
                Shift(index - start, Close(depth, inString, escaped, text[index..]))
    {
      var character := text[index];
      assert text[index..][1..] == text[index + 1..];
      index := index + 1;
      if inString {
        if escaped {
          escaped := false;
        } else if character == '\\' {
          escaped := true;
        } else if character == '"' {
          inString := false;
        }
        continue;
      }
      if character == '"' {
        inString := true;
        continue;
      }
      if character == '{' {
        depth := depth + 1;
        continue;
      }
      if character == '}' {
        depth := depth - 1;
        if depth == 0 {
          return Some(index - 1);
        }
      }
    }
    return None;
  }

  /** The text from start to the brace that closes it. */
  function Candidate(s: string): (r: Option<string>)
    ensures r.Some? ==> |r.value| <= |s| && r.value == s[..|r.value|]
  {
    match Close(0, false, false, s)
    case None => None
    case Some(k) => CloseInRange(0, false, false, s); Some(s[..k + 1])
  }

  lemma {:induction false} CloseInRange(depth: int, inString: bool, escaped: bool, s: string)
    ensures Close(depth, inString, escaped, s).Some? ==> Close(depth, inString, escaped, s).value < |s|
    decreases |s|
  {
    if s != "" {
      CloseInRange(depth, true, false, s[1..]);
      CloseInRange(depth, true, true, s[1..]);
      CloseInRange(depth, false, false, s[1..]);
      CloseInRange(depth, true, escaped, s[1..]);
      CloseInRange(depth + 1, false, escaped, s[1..]);
      CloseInRange(depth - 1, false, escaped, s[1..]);
      CloseInRange(depth, false, escaped, s[1..]);
    }
  }

  /** `readJsonObjectCandidate` and `extractJsonObjectFromStart`. */
  method ReadJsonObjectCandidate(text: string, start: nat) returns (candidate: Option<string>)
    requires start <= |text|
    ensures candidate == Candidate(text[start..])
  {
    var end := FindJsonObjectEnd(text, start);
    match end
    case None => candidate := None;
    case Some(k) =>
      CloseInRange(0, false, false, text[start..]);
      candidate := Some(text[start..k + 1]);
      assert text[start..][..k - start + 1] == text[start..k + 1];
  }

  // --- scanning against parsing --------------------------------------------------------------

  predicate Tail(t: string, s: string) {
    |t| <= |s| && t == s[|s| - |t|..]
  }

  /** From depth d outside a string, scanning s comes to its tail t at depth e outside a string,
      without returning on the way. */
  ghost predicate Passes(d: int, s: string, e: int, t: string) {
    Tail(t, s) && Close(d, false, false, s) == Shift(|s| - |t|, Close(e, false, false, t))
  }

  lemma {:induction false} PassesTransitive(d: int, s: string, e: int, t: string, f: int, u: string)
    requires Passes(d, s, e, t) && Passes(e, t, f, u)
    ensures Passes(d, s, f, u)
  {
    hide Close;
  }

  lemma {:induction false} PassChar(d: int, s: string)
    requires s != ""
    ensures s[0] != '"' && s[0] != '{' && s[0] != '}' ==> Passes(d, s, d, s[1..])
    ensures s[0] == '{' ==> Passes(d, s, d + 1, s[1..])
    ensures s[0] == '}' && d != 1 ==> Passes(d, s, d - 1, s[1..])
    ensures s[0] == '}' && d == 1 ==> Close(d, false, false, s) == Some(0)
  {
  }

  lemma {:induction false} PassPlain(d: int, s: string, k: nat)
    requires k <= |s|
    requires forall i | 0 <= i < k :: s[i] != '"' && s[i] != '{' && s[i] != '}'
    ensures Passes(d, s, d, s[k..])
  {
    hide Close;
    if k == 0 {
      assert s[0..] == s;
    } else {
      PassChar(d, s);
      PassPlain(d, s[1..], k - 1);
      assert s[1..][k - 1..] == s[k..];
      PassesTransitive(d, s, d, s[1..], d, s[k..]);
    }
  }

  lemma {:induction false} PassBlanks(d: int, s: string)
    ensures Passes(d, s, d, SkipBlanks(s))
  {
    PassPlain(d, s, |s| - |SkipBlanks(s)|);
  }

  /** Inside a string: from s the scanner reaches its tail t, still inside. */
  ghost predicate Inside(d: int, s: string, t: string) {
    Tail(t, s) && Close(d, true, false, s) == Shift(|s| - |t|, Close(d, true, false, t))
  }

  lemma {:induction false} InsideStep(d: int, s: string)
    requires s != ""
    ensures s[0] != '"' && s[0] != '\\' ==> Inside(d, s, s[1..])
    ensures s[0] == '\\' && |s| >= 2 ==> Inside(d, s, s[2..])
    ensures s[0] == '"' ==> Close(d, true, false, s) == Shift(1, Close(d, false, false, s[1..]))
  {
    if s[0] == '\\' && |s| >= 2 {
      assert Close(d, true, false, s) == Shift(1, Close(d, true, true, s[1..]));
      assert s[1..][1..] == s[2..];
    }
  }

  lemma {:induction false} TailTransitive(u: string, t: string, s: string)
    requires Tail(u, t) && Tail(t, s)
    ensures Tail(u, s) && |u| <= |t| <= |s|
  {
  }

  /** From s inside a string, the scanner comes out of the string at its tail u. */
  ghost predicate Leaves(d: int, s: string, u: string) {
    Tail(u, s) && Close(d, true, false, s) == Shift(|s| - |u|, Close(d, false, false, u))
  }

  lemma {:induction false} InsideThenLeaves(d: int, s: string, t: string, u: string)
    requires Inside(d, s, t) && Leaves(d, t, u)
    ensures Leaves(d, s, u)
  {
    hide Close;
  }

  /** Scanning a string from just after its opening quote comes out just after its closing one. */
  lemma {:induction false} ScanChars(d: int, s: string)
    requires ParseChars(s).Parsed?
    ensures Leaves(d, s, ParseChars(s).rest)
    decreases |s|
  {
    hide UnicodeEscape, SimpleEscape, Close, Inside, Leaves;
    if s[0] == '"' {
      QuoteLeaves(d, s);
    } else {
      var t := if s[0] != '\\' then s[1..] else if s[1] == 'u' then s[6..] else s[2..];
      StepInside(d, s, t);
      ScanChars(d, t);
      InsideThenLeaves(d, s, t, ParseChars(t).rest);
    }
  }

  lemma {:induction false} QuoteLeaves(d: int, s: string)
    requires s != "" && s[0] == '"'
    ensures Leaves(d, s, s[1..])
  {
    InsideStep(d, s);
  }

  lemma {:induction false} StepInside(d: int, s: string, t: string)
    requires ParseChars(s).Parsed? && s[0] != '"'
    requires t == if s[0] != '\\' then s[1..] else if s[1] == 'u' then s[6..] else s[2..]
    ensures Inside(d, s, t)
  {
    hide UnicodeEscape, SimpleEscape, Close;
    if s[0] == '\\' && s[1] == 'u' {
      HexEscape(s[2..6]);
      assert forall i | 2 <= i < 6 :: s[i] == s[2..6][i - 2];
      ScanEscapedUnit(d, s);
    } else {
      InsideStep(d, s);
    }
  }

  lemma {:induction false} HexEscape(s: string)
    requires |s| == 4 && UnicodeEscape(s).Some?
    ensures forall i | 0 <= i < 4 :: s[i] != '"' && s[i] != '\\'
  {
    assert forall i | 0 <= i < 4 :: HexValue(s[i]).Some?;
  }

  lemma {:induction false} ScanEscapedUnit(d: int, s: string)
    requires |s| >= 6 && s[0] == '\\' && s[1] == 'u'
    requires forall i | 2 <= i < 6 :: s[i] != '"' && s[i] != '\\'
    ensures Inside(d, s, s[6..])
  {
    hide Close;
    InsideStep(d, s);
    assert s[2..][1..] == s[3..] && s[3..][1..] == s[4..] && s[4..][1..] == s[5..] && s[5..][1..] == s[6..];
    InsideStep(d, s[2..]);
    InsideStep(d, s[3..]);
    InsideStep(d, s[4..]);
    InsideStep(d, s[5..]);
  }

  lemma {:induction false} ScanString(d: int, s: string)
    requires s != "" && s[0] == '"' && ParseChars(s[1..]).Parsed?
    ensures Passes(d, s, d, ParseChars(s[1..]).rest)
  {
    hide ParseChars;
    ScanChars(d, s[1..]);
  }

  lemma {:induction false} ScanColon(d: int, s: string)
    requires SkipColon(s).Some?
    ensures Passes(d, s, d, SkipColon(s).value)
  {
    hide SkipBlanks, Close, Passes;
    var colon := SkipBlanks(s);
    PassBlanks(d, s);
    PassChar(d, colon);
    PassesTransitive(d, s, d, colon, d, colon[1..]);
    PassBlanks(d, colon[1..]);
    PassesTransitive(d, s, d, colon[1..], d, SkipBlanks(colon[1..]));
  }

  lemma {:induction false} ScanKey(d: int, s: string)
    requires ParseKey(s).Parsed?
    ensures Passes(d, s, d, ParseKey(s).rest)
  {
    hide ParseChars, SkipColon, Close, Passes;
    var afterKey := ParseChars(s[1..]).rest;
    ScanString(d, s);
    ScanColon(d, afterKey);
    PassesTransitive(d, s, d, afterKey, d, SkipColon(afterKey).value);
  }

  lemma {:induction false} ScanNumber(d: int, s: string)
    requires ParseNumber(s).Parsed?
    ensures Passes(d, s, d, ParseNumber(s).rest)
  {
    hide Number, Close;
    PassPlain(d, s, NumberRun(s));
  }

  lemma {:induction false} ScanWord(d: int, s: string, word: string, v: Json)
    requires word in {"null", "true", "false"} && ParseLiteral(s, word, v).Parsed?
    ensures Passes(d, s, d, ParseLiteral(s, word, v).rest)
  {
    hide Close;
    assert forall i | 0 <= i < |word| :: s[i] == s[..|word|][i] && word[i] != '"' && word[i] != '{' && word[i] != '}';
    PassPlain(d, s, |word|);
  }

  /** Inside braces, a value leaves the scanner's state as it found it. */
  lemma {:induction false} ScanValue(d: int, s: string)
    requires d >= 1 && ParseValue(s).Parsed?
    ensures Passes(d, s, d, ParseValue(s).rest)
    decreases |s|, 3
  {
    hide ParseChars, ParseNumber, ParseMembers, ParseItems, ParseLiteral, SkipBlanks, Close;
    match s[0]
    case '{' => ScanObject(d, s);
    case '[' => ScanArray(d, s);
    case '"' => ScanString(d, s);
    case 'n' => ScanWord(d, s, "null", Null);
    case 't' => ScanWord(d, s, "true", Bool(true));
    case 'f' => ScanWord(d, s, "false", Bool(false));
    case _ => ScanNumber(d, s);
  }

  /** Inside braces, the scanner passes a whole object; started on one, it returns on its end. */
  lemma {:induction false} ScanObject(d: int, s: string)
    requires d >= 0 && s != "" && s[0] == '{' && ParseValue(s).Parsed?
    ensures d >= 1 ==> Passes(d, s, d, ParseValue(s).rest)
    ensures d == 0 ==> Tail(ParseValue(s).rest, s) && Close(0, false, false, s) == Some(|s| - |ParseValue(s).rest| - 1)
    decreases |s|, 2
  {
    hide ParseMembers, SkipBlanks, Close, Passes, Ends;
    PassChar(d, s);
    PassBlanks(d + 1, s[1..]);
    var t := SkipBlanks(s[1..]);
    PassesTransitive(d, s, d + 1, s[1..], d + 1, t);
    if t != "" && t[0] == '}' {
      BraceEnds(d + 1, t);
      OpenThenEnds(d, s, t, t[1..]);
    } else {
      ScanMembers(d + 1, t);
      OpenThenEnds(d, s, t, ParseMembers(t).rest);
    }
  }

  lemma {:induction false} OpenThenEnds(d: int, s: string, t: string, u: string)
    requires d >= 0 && Passes(d, s, d + 1, t) && Ends(d + 1, t, u)
    ensures d >= 1 ==> Passes(d, s, d, u)
    ensures d == 0 ==> Tail(u, s) && Close(0, false, false, s) == Some(|s| - |u| - 1)
  {
    hide Close, Tail;
    if d >= 1 {
      PassesTransitive(d, s, d + 1, t, d, u);
    } else {
      TailTransitive(u, t, s);
    }
  }

  /** From d, inside braces, the scanner passes the brace that ends s's part before t, or returns on
      it when it is the outermost one. */
  ghost predicate Ends(d: int, s: string, t: string) {
    if d == 1 then Tail(t, s) && Close(1, false, false, s) == Some(|s| - |t| - 1)
    else Passes(d, s, d - 1, t)
  }

  lemma {:induction false} PassThenEnds(d: int, s: string, t: string, u: string)
    requires Passes(d, s, d, t) && Ends(d, t, u)
    ensures Ends(d, s, u)
  {
    hide Close, Tail;
    if d != 1 {
      PassesTransitive(d, s, d, t, d - 1, u);
    } else {
      TailTransitive(u, t, s);
    }
  }

  lemma {:induction false} BraceEnds(d: int, s: string)
    requires s != "" && s[0] == '}'
    ensures Ends(d, s, s[1..])
  {
    PassChar(d, s);
  }

  lemma {:induction false} ScanMembers(d: int, s: string)
    requires d >= 1 && ParseMembers(s).Parsed?
    ensures Ends(d, s, ParseMembers(s).rest)
    decreases |s|, 1
  {
    hide ParseKey, ParseValue, Separator, Close, Passes, Ends;
    var text := ParseKey(s).rest;
    ScanKey(d, s);
    ScanValue(d, text);
    var afterValue := ParseValue(text).rest;
    PassesTransitive(d, s, d, text, d, afterValue);
    ScanSeparator(d, afterValue, '}');
    match Separator(afterValue, '}')
    case Last(rest) => PassThenEnds(d, s, afterValue, rest);
    case Another(next) =>
      PassesTransitive(d, s, d, afterValue, d, next);
      ScanMembers(d, next);
      PassThenEnds(d, s, next, ParseMembers(next).rest);
  }

  lemma {:induction false} ScanSeparator(d: int, s: string, close: char)
    requires !Separator(s, close).Bad? && close in {']', '}'}
    ensures Separator(s, close).Last? && close == ']' ==> Passes(d, s, d, Separator(s, close).rest)
    ensures Separator(s, close).Last? && close == '}' ==> Ends(d, s, Separator(s, close).rest)
    ensures Separator(s, close).Another? ==> Passes(d, s, d, Separator(s, close).rest)
  {
    hide SkipBlanks, Close, Passes, Ends;
    var t := SkipBlanks(s);
    PassBlanks(d, s);
    if t[0] == '}' && close == '}' {
      BraceEnds(d, t);
      PassThenEnds(d, s, t, t[1..]);
    } else {
      PassChar(d, t);
      PassesTransitive(d, s, d, t, d, t[1..]);
      if t[0] != close {
        PassBlanks(d, t[1..]);
        PassesTransitive(d, s, d, t[1..], d, SkipBlanks(t[1..]));
      }
    }
  }

  lemma {:induction false} ScanArray(d: int, s: string)
    requires d >= 1 && s != "" && s[0] == '[' && ParseValue(s).Parsed?
    ensures Passes(d, s, d, ParseValue(s).rest)
    decreases |s|, 2
  {
    hide ParseItems, SkipBlanks, Close;
    PassChar(d, s);
    PassBlanks(d, s[1..]);
    var t := SkipBlanks(s[1..]);
    PassesTransitive(d, s, d, s[1..], d, t);
    if t != "" && t[0] == ']' {
      PassChar(d, t);
      PassesTransitive(d, s, d, t, d, t[1..]);
    } else {
      ScanItems(d, t);
      PassesTransitive(d, s, d, t, d, ParseItems(t).rest);
    }
  }

  lemma {:induction false} ScanItems(d: int, s: string)
    requires d >= 1 && ParseItems(s).Parsed?
    ensures Passes(d, s, d, ParseItems(s).rest)
    decreases |s|, 4
  {
    hide ParseValue, Separator, Close, Passes;
    ScanValue(d, s);
    var afterValue := ParseValue(s).rest;
    ScanSeparator(d, afterValue, ']');
    var next := Separator(afterValue, ']').rest;
    PassesTransitive(d, s, d, afterValue, d, next);
    if Separator(afterValue, ']').Another? {
      ScanItems(d, next);
      PassesTransitive(d, s, d, next, d, ParseItems(next).rest);
    }
  }
}
