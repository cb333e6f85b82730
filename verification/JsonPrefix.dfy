/**
 The grammar is decided by the text of a value alone: what follows a complete value does not change
 how it parses, and cutting off what follows does not either.
 */
module JsonPrefix {
  import opened Text
  import opened Json

  function Extend<T>(p: Parsed<T>, t: string): Parsed<T> {
    match p
    case Failed => Failed
    case Parsed(v, rest) => Parsed(v, rest + t)
  }

  /** The parse q of s + t stayed inside s. */
  ghost predicate Inside<T(!new)>(q: Parsed<T>, t: string) {
    q.Parsed? && |q.rest| >= |t|
  }

  lemma TailOf(s: string, t: string)
    ensures s == "" ==> s + t == t
    ensures s != "" ==> (s + t)[0] == s[0] && (s + t)[1..] == s[1..] + t
  {
  }

  lemma {:induction false} SkipBlanksStep(s: string)
    ensures SkipBlanks(s) == if s == "" || !IsBlankChar(s[0]) then s else SkipBlanks(s[1..])
  {
  }

  lemma {:induction false} BlanksAgree(s: string, t: string)
    requires SkipBlanks(s) != "" || |SkipBlanks(s + t)| > |t|
    ensures SkipBlanks(s) != "" && SkipBlanks(s + t) == SkipBlanks(s) + t
  {
    hide SkipBlanks, IsBlankChar;
    SkipBlanksStep(s);
    SkipBlanksStep(s + t);
    TailOf(s, t);
    if IsBlankChar(s[0]) { BlanksAgree(s[1..], t); }
  }

  lemma {:induction false} CharsAgree(s: string, t: string)
    requires ParseChars(s).Parsed? || Inside(ParseChars(s + t), t)
    ensures ParseChars(s).Parsed? && ParseChars(s + t) == Extend(ParseChars(s), t)
    decreases |s|
  {
    hide UnicodeEscape, SimpleEscape;
    assert s == "" ==> s + t == t;
    if s[0] == '"' {
      assert (s + t)[1..] == s[1..] + t;
    } else if s[0] != '\\' {
      assert (s + t)[1..] == s[1..] + t;
      CharsAgree(s[1..], t);
    } else if (s + t)[1] == 'u' {
      assert |s| >= 6;
      assert (s + t)[6..] == s[6..] + t;
      assert (s + t)[2..6] == s[2..6];
      CharsAgree(s[6..], t);
    } else {
      assert |s| >= 2;
      assert (s + t)[2..] == s[2..] + t;
      CharsAgree(s[2..], t);
    }
  }

  lemma {:induction false} ColonAgrees(s: string, t: string)
    requires SkipColon(s) !in {None, Some("")} || (SkipColon(s + t).Some? && |SkipColon(s + t).value| > |t|)
    ensures SkipColon(s).Some? && SkipColon(s + t) == Some(SkipColon(s).value + t)
  {
    hide SkipBlanks, IsBlankChar;
    BlanksAgree(s, t);
    var colon := SkipBlanks(s);
    TailOf(colon, t);
    BlanksAgree(colon[1..], t);
  }

  lemma {:induction false} KeyAgrees(s: string, t: string)
    requires (ParseKey(s).Parsed? && ParseKey(s).rest != "") || (Inside(ParseKey(s + t), t) && |ParseKey(s + t).rest| > |t|)
    ensures ParseKey(s).Parsed? && ParseKey(s + t) == Extend(ParseKey(s), t)
  {
    hide ParseChars, SkipColon;
    TailOf(s, t);
    CharsAgree(s[1..], t);
    ColonAgrees(ParseChars(s[1..]).rest, t);
  }

  lemma {:induction false} NumberRunAgrees(s: string, t: string)
    requires NumberRun(s) < |s| || NumberRun(s + t) <= |s|
    ensures NumberRun(s + t) == NumberRun(s)
  {
    if s == "" {
      assert s + t == t;
    } else {
      assert (s + t)[1..] == s[1..] + t;
      if IsNumberChar(s[0]) { NumberRunAgrees(s[1..], t); }
    }
  }

  lemma {:induction false} NumberAgrees(s: string, t: string)
    requires (ParseNumber(s).Parsed? && ParseNumber(s).rest != "") || Inside(ParseNumber(s + t), t)
    ensures ParseNumber(s).Parsed? && ParseNumber(s + t) == Extend(ParseNumber(s), t)
  {
    hide Number;
    NumberRunAgrees(s, t);
    var k := NumberRun(s);
    assert (s + t)[..k] == s[..k] && (s + t)[k..] == s[k..] + t;
  }

  lemma {:induction false} LiteralAgrees(s: string, t: string, word: string, v: Json)
    requires word != ""
    requires ParseLiteral(s, word, v).Parsed? || Inside(ParseLiteral(s + t, word, v), t)
    ensures ParseLiteral(s, word, v).Parsed? && ParseLiteral(s + t, word, v) == Extend(ParseLiteral(s, word, v), t)
  {
    assert |word| <= |s|;
    assert (s + t)[..|word|] == s[..|word|] && (s + t)[|word|..] == s[|word|..] + t;
  }

  /** A number at the end of s could go on in t; every other value says where it ends. */
  ghost predicate Complete(s: string) {
    ParseValue(s).Parsed? && (ParseValue(s).rest == "" ==> !IsNumberChar(s[0]))
  }

  lemma {:induction false} ValueAgrees(s: string, t: string)
    requires Complete(s) || Inside(ParseValue(s + t), t)
    ensures ParseValue(s).Parsed? && ParseValue(s + t) == Extend(ParseValue(s), t)
    decreases |s|, 1
  {
    hide ParseChars, ParseNumber, ParseItems, ParseMembers, ParseLiteral, SkipBlanks;
    TailOf(s, t);
    match s[0]
    case '{' => ObjectAgrees(s, t);
    case '[' => ArrayAgrees(s, t);
    case '"' => CharsAgree(s[1..], t);
    case 'n' => LiteralAgrees(s, t, "null", Null);
    case 't' => LiteralAgrees(s, t, "true", Bool(true));
    case 'f' => LiteralAgrees(s, t, "false", Bool(false));
    case _ =>
      assert ParseValue(s) == ParseNumber(s) && ParseValue(s + t) == ParseNumber(s + t);
      NumberStart(s);
      NumberAgrees(s, t);
  }

  lemma {:induction false} NumberStart(s: string)
    ensures ParseNumber(s).Parsed? ==> s != "" && IsNumberChar(s[0])
  {
    hide Number;
    if s != "" && !IsNumberChar(s[0]) { EmptyToken(); assert s[..0] == ""; }
  }

  lemma {:induction false} EmptyToken()
    ensures Number("").None?
  {
  }

  lemma {:induction false} ObjectAgrees(s: string, t: string)
    requires s != "" && s[0] == '{'
    requires ParseValue(s).Parsed? || Inside(ParseValue(s + t), t)
    ensures ParseValue(s).Parsed? && ParseValue(s + t) == Extend(ParseValue(s), t)
    decreases |s|, 0
  {
    hide ParseItems, ParseMembers, ParseChars, ParseNumber, ParseLiteral, SkipBlanks;
    TailOf(s, t);
    BlanksAgree(s[1..], t);
    var u := SkipBlanks(s[1..]);
    TailOf(u, t);
    if u[0] != '}' { MembersAgree(u, t); }
  }

  lemma {:induction false} ArrayAgrees(s: string, t: string)
    requires s != "" && s[0] == '['
    requires ParseValue(s).Parsed? || Inside(ParseValue(s + t), t)
    ensures ParseValue(s).Parsed? && ParseValue(s + t) == Extend(ParseValue(s), t)
    decreases |s|, 0
  {
    hide ParseItems, ParseMembers, ParseChars, ParseNumber, ParseLiteral, SkipBlanks;
    TailOf(s, t);
    BlanksAgree(s[1..], t);
    var u := SkipBlanks(s[1..]);
    TailOf(u, t);
    if u[0] != ']' { ItemsAgree(u, t); }
  }

  function ExtendNext(n: Next, t: string): Next {
    match n
    case Bad => Bad
    case Last(rest) => Last(rest + t)
    case Another(rest) => Another(rest + t)
  }

  lemma {:induction false} SeparatorReach(s: string, close: char)
    ensures !Separator(s, close).Bad? ==> |Separator(s, close).rest| < |SkipBlanks(s)|
  {
    hide SkipBlanks;
  }

  lemma {:induction false} SeparatorUnfolds(s: string, close: char)
    ensures var u := SkipBlanks(s);
            Separator(s, close) == if u == "" then Bad
                                   else if u[0] == close then Last(u[1..])
                                   else if u[0] == ',' then Another(SkipBlanks(u[1..]))
                                   else Bad
  {
    hide SkipBlanks;
  }

  lemma {:induction false} SeparatorAgrees(s: string, t: string, close: char)
    requires
      || Separator(s, close).Last?
      || (Separator(s, close).Another? && Separator(s, close).rest != "")
      || (Separator(s + t, close).Last? && |Separator(s + t, close).rest| >= |t|)
      || (Separator(s + t, close).Another? && |Separator(s + t, close).rest| > |t|)
    ensures !Separator(s, close).Bad? && Separator(s + t, close) == ExtendNext(Separator(s, close), t)
  {
    hide SkipBlanks, Separator;
    SeparatorReach(s, close);
    SeparatorReach(s + t, close);
    BlanksAgree(s, t);
    SeparatorUnfolds(s, close);
    SeparatorUnfolds(s + t, close);
    var u := SkipBlanks(s);
    TailOf(u, t);
    if u[0] != close {
      BlanksAgree(u[1..], t);
    }
  }

  lemma {:induction false} NothingInEmpty()
    ensures ParseValue("").Failed? && ParseItems("").Failed? && ParseMembers("").Failed?
    ensures Separator("", ']').Bad? && Separator("", '}').Bad?
  {
  }

  lemma {:induction false} ItemsAgree(s: string, t: string)
    requires ParseItems(s).Parsed? || Inside(ParseItems(s + t), t)
    ensures ParseItems(s).Parsed? && ParseItems(s + t) == Extend(ParseItems(s), t)
    decreases |s|, 2
  {
    hide ParseValue, Separator;
    NothingInEmpty();
    ValueAgrees(s, t);
    var afterValue := ParseValue(s).rest;
    SeparatorAgrees(afterValue, t, ']');
    if Separator(afterValue, ']').Another? {
      ItemsAgree(Separator(afterValue, ']').rest, t);
    }
  }

  lemma {:induction false} MembersAgree(s: string, t: string)
    requires ParseMembers(s).Parsed? || Inside(ParseMembers(s + t), t)
    ensures ParseMembers(s).Parsed? && ParseMembers(s + t) == Extend(ParseMembers(s), t)
    decreases |s|, 0
  {
    hide ParseKey, ParseValue, Separator;
    NothingInEmpty();
    KeyAgrees(s, t);
    var text := ParseKey(s).rest;
    ValueAgrees(text, t);
    var afterValue := ParseValue(text).rest;
    SeparatorAgrees(afterValue, t, '}');
    if Separator(afterValue, '}').Another? {
      MembersAgree(Separator(afterValue, '}').rest, t);
    }
  }
}
