/** `JSON.parse` reads back exactly what `JSON.stringify` printed, whatever follows it. */
module JsonRoundTrip {
  import opened Text
  import opened Json

  lemma {:induction false} EscapedControl(c: char, t: string)
    requires c < ' ' && |EscapeChar(c)| == 6
    ensures ParseChars(EscapeChar(c) + t) == Prepend(c, ParseChars(t))
  {
    var s := EscapeChar(c) + t;
    var a, b := HexDigit(c as int / 16), HexDigit(c as int % 16);
    HexDigitValue(c as int / 16);
    HexDigitValue(c as int % 16);
    assert s[2..6] == ['0', '0', a, b] && s[6..] == t;
  }

  lemma HexDigitValue(d: nat)
    requires d < 16
    ensures HexValue(HexDigit(d)) == Some(d)
  {
  }

  lemma {:induction false} EscapedPair(c: char, t: string)
    requires |EscapeChar(c)| == 2
    ensures ParseChars(EscapeChar(c) + t) == Prepend(c, ParseChars(t))
  {
    hide UnicodeEscape;
    var s := EscapeChar(c) + t;
    assert s[0] == '\\' && s[1] == EscapeChar(c)[1] && s[2..] == t;
  }

  lemma {:induction false} EscapedChar(c: char, t: string)
    ensures ParseChars(EscapeChar(c) + t) == Prepend(c, ParseChars(t))
  {
    hide UnicodeEscape;
    if |EscapeChar(c)| == 6 {
      EscapedControl(c, t);
    } else if |EscapeChar(c)| == 2 {
      EscapedPair(c, t);
    } else {
      assert (EscapeChar(c) + t)[1..] == t;
    }
  }

  lemma {:induction false} EscapedString(s: string, t: string)
    ensures ParseChars(Escape(s) + "\"" + t) == Parsed(s, t)
  {
    if s == "" {
      assert Escape(s) + "\"" + t == "\"" + t;
    } else {
      var tail := Escape(s[1..]) + "\"" + t;
      assert Escape(s) + "\"" + t == EscapeChar(s[0]) + tail;
      EscapedChar(s[0], tail);
      EscapedString(s[1..], t);
      assert [s[0]] + s[1..] == s;
    }
  }

  lemma {:induction false} DigitRunOfAll(s: string)
    requires AllDigits(s)
    ensures DigitRun(s) == |s|
  {
  }

  lemma {:induction false} NumberOfInt(n: int)
    requires FitsDouble(n)
    ensures Number(IntText(n)) == Some(Int(n))
  {
    var magnitude := if n < 0 then -n else n;
    var whole := Digits(magnitude);
    DigitRunOfAll(whole);
    NatOfDigits(magnitude);
    assert whole[..|whole|] + "" == whole;
    if n < 0 {
      assert ("-" + whole)[1..] == whole;
    }
    assert Pow10(0) == 1;
  }

  predicate NotNumeric(t: string) {
    t == "" || !IsNumberChar(t[0])
  }

  lemma {:induction false} NumberRunOfToken(token: string, t: string)
    requires forall i | 0 <= i < |token| :: IsNumberChar(token[i])
    requires NotNumeric(t)
    ensures NumberRun(token + t) == |token|
  {
    if token != "" {
      assert (token + t)[1..] == token[1..] + t;
      NumberRunOfToken(token[1..], t);
    } else {
      assert token + t == t;
    }
  }

  lemma {:induction false} NumberIsNonEmpty(token: string)
    ensures Number(token).Some? ==> token != ""
  {
  }

  lemma {:induction false} UnfoldNumber(s: string)
    requires s != "" && IsNumberChar(s[0])
    ensures ParseValue(s) == ParseNumber(s)
  {
    hide Number;
  }

  lemma {:induction false} ParseToken(token: string, v: Json, t: string)
    requires forall i | 0 <= i < |token| :: IsNumberChar(token[i])
    requires token != "" && Number(token) == Some(v)
    requires NotNumeric(t)
    ensures ParseValue(token + t) == Parsed(v, t)
  {
    var s := token + t;
    UnfoldNumber(s);
    NumberRunOfToken(token, t);
    assert s[..|token|] == token;
    assert s[|token|..] == t;
  }

  lemma {:induction false} IntTextChars(n: int)
    ensures IntText(n) != "" && forall i | 0 <= i < |IntText(n)| :: IsNumberChar(IntText(n)[i])
  {
  }

  /** What a printed value starts with: never white space. */
  lemma {:induction false} PrintStart(v: Json, gap: string, indent: string)
    requires Valid(v)
    ensures Print(v, gap, indent) != "" && !IsBlankChar(Print(v, gap, indent)[0])
    ensures Print(v, gap, indent)[0] != ']' && Print(v, gap, indent)[0] != '}'
  {
    match v
    case Frac(token) => assert token != "";
    case Int(n) => assert IntText(n)[0] == '-' || IsDigit(IntText(n)[0]);
    case _ =>
  }

  lemma {:induction false} SkipOver(blank: string, t: string)
    requires Blank(blank)
    requires t == "" || !IsBlankChar(t[0])
    ensures SkipBlanks(blank + t) == t
  {
    if blank == "" {
      assert blank + t == t;
    } else {
      assert (blank + t)[1..] == blank[1..] + t;
      SkipOver(blank[1..], t);
    }
  }

  lemma {:induction false} ParseString(x: string, t: string)
    ensures ParseValue(Quote(x) + t) == Parsed(Str(x), t)
  {
    hide Number, ParseChars, Escape;
    assert (Quote(x) + t)[1..] == Escape(x) + "\"" + t;
    EscapedString(x, t);
  }

  lemma {:induction false} ParseWord(word: string, v: Json, t: string)
    requires (word == "null" && v == Null) || (word == "true" && v == Bool(true)) || (word == "false" && v == Bool(false))
    ensures ParseValue(word + t) == Parsed(v, t)
  {
    hide Number, ParseChars;
    assert (word + t)[..|word|] == word && (word + t)[|word|..] == t;
  }

  lemma {:induction false} ParseLeaf(v: Json, gap: string, indent: string, t: string)
    requires Valid(v) && !v.Arr? && !v.Obj? && NotNumeric(t)
    ensures ParseValue(Print(v, gap, indent) + t) == Parsed(v, t)
  {
    hide Number, ParseValue;
    match v
    case Null => ParseWord("null", v, t);
    case Bool(b) => ParseWord(if b then "true" else "false", v, t);
    case Int(n) =>
      NumberOfInt(n);
      IntTextChars(n);
      ParseToken(IntText(n), v, t);
    case Frac(token) =>
      NumberIsNonEmpty(token);
      ParseToken(token, v, t);
    case Str(x) => ParseString(x, t);
    case _ =>
  }

  lemma {:induction false} ParseArray(open: string, body: string)
    requires Blank(open) && body != "" && !IsBlankChar(body[0]) && body[0] != ']'
    ensures ParseValue("[" + open + body) ==
            match ParseItems(body)
            case Failed => Failed
            case Parsed(items, rest) => Parsed(Arr(items), rest)
  {
    hide Number, ParseChars, ParseMembers, ParseItems;
    assert ("[" + open + body)[1..] == open + body;
    SkipOver(open, body);
  }

  lemma {:induction false} ParseObject(open: string, body: string)
    requires Blank(open) && body != "" && !IsBlankChar(body[0]) && body[0] != '}'
    ensures ParseValue("{" + open + body) ==
            match ParseMembers(body)
            case Failed => Failed
            case Parsed(members, rest) => Parsed(Obj(members), rest)
  {
    hide Number, ParseChars, ParseMembers, ParseItems;
    assert ("{" + open + body)[1..] == open + body;
    SkipOver(open, body);
  }

  lemma {:induction false} ParseEmpty(t: string)
    ensures ParseValue("[]" + t) == Parsed(Arr([]), t)
    ensures ParseValue("{}" + t) == Parsed(Obj([]), t)
  {
    hide ParseValue;
    ParseEmptyBody("]" + t);
    ParseEmptyBody("}" + t);
    assert "[" + ("]" + t) == "[]" + t && "{" + ("}" + t) == "{}" + t;
    assert ("]" + t)[1..] == t && ("}" + t)[1..] == t;
  }

  lemma {:induction false} ParseEmptyBody(u: string)
    requires u != ""
    ensures u[0] == ']' ==> ParseValue("[" + u) == Parsed(Arr([]), u[1..])
    ensures u[0] == '}' ==> ParseValue("{" + u) == Parsed(Obj([]), u[1..])
  {
    hide Number, ParseChars, ParseNumber, ParseMembers, ParseItems;
    assert ("[" + u)[1..] == u && ("{" + u)[1..] == u;
  }

  lemma {:induction false} SeparatorAfter(blank: string, t: string, close: char)
    requires Blank(blank) && t != "" && !IsBlankChar(t[0])
    ensures t[0] == close ==> Separator(blank + t, close) == Last(t[1..])
    ensures t[0] == ',' && close != ',' ==> Separator(blank + t, close) == Another(SkipBlanks(t[1..]))
  {
    SkipOver(blank, t);
  }

  lemma {:induction false} Regroup(a: string, b: string, c: string, d: string, e: string, t: string)
    ensures a + b + c + d + e + t == a + b + (c + (d + (e + t)))
    ensures a + b + c + d + t == a + (b + (c + (d + t)))
  {
  }

  lemma {:induction false} RoundTripValue(v: Json, gap: string, indent: string, t: string)
    requires Valid(v) && Blank(gap) && Blank(indent) && NotNumeric(t)
    ensures ParseValue(Print(v, gap, indent) + t) == Parsed(v, t)
    decreases v, 3
  {
    hide Number, ParseValue, Print;
    match v
    case Arr(items) => RoundTripArray(v, items, gap, indent, t);
    case Obj(members) => RoundTripObject(v, members, gap, indent, t);
    case _ => ParseLeaf(v, gap, indent, t);
  }

  lemma {:induction false} RoundTripArray(v: Json, items: seq<Json>, gap: string, indent: string, t: string)
    requires v == Arr(items) && Valid(v) && Blank(gap) && Blank(indent)
    ensures ParseValue(Print(v, gap, indent) + t) == Parsed(v, t)
    decreases v, 2
  {
    hide Number, ParseValue, ParseItems, PrintItems, SkipBlanks;
    if items == [] {
      ParseEmpty(t);
    } else {
      var inner := indent + gap;
      var open, close := Break(gap, inner), Break(gap, indent);
      var body := PrintItems(items, gap, inner) + (close + ("]" + t));
      RoundTripItems(items, gap, inner, close, t);
      ItemsStart(items, gap, inner);
      ParseArray(open, body);
      Regroup("[", open, PrintItems(items, gap, inner), close, "]", t);
    }
  }

  lemma {:induction false} RoundTripObject(v: Json, members: seq<Member>, gap: string, indent: string, t: string)
    requires v == Obj(members) && Valid(v) && Blank(gap) && Blank(indent)
    ensures ParseValue(Print(v, gap, indent) + t) == Parsed(v, t)
    decreases v, 2
  {
    hide Number, ParseValue, ParseMembers, PrintMembers, SkipBlanks;
    if members == [] {
      ParseEmpty(t);
    } else {
      var inner := indent + gap;
      var open, close := Break(gap, inner), Break(gap, indent);
      var body := PrintMembers(members, gap, inner) + (close + ("}" + t));
      RoundTripMembers(members, gap, inner, close, t);
      MembersStart(members, gap, inner);
      ParseObject(open, body);
      Regroup("{", open, PrintMembers(members, gap, inner), close, "}", t);
    }
  }

  lemma {:induction false} ItemsStart(items: seq<Json>, gap: string, indent: string)
    requires items != [] && Valid(items[0])
    ensures PrintItems(items, gap, indent) != ""
    ensures !IsBlankChar(PrintItems(items, gap, indent)[0]) && PrintItems(items, gap, indent)[0] != ']'
  {
    hide Number, Print;
    PrintStart(items[0], gap, indent);
  }

  lemma {:induction false} MembersStart(members: seq<Member>, gap: string, indent: string)
    requires members != []
    ensures PrintMembers(members, gap, indent) != "" && PrintMembers(members, gap, indent)[0] == '"'
  {
    hide Print;
  }

  lemma {:induction false} BreakIsBlank(gap: string, indent: string)
    requires Blank(indent)
    ensures Blank(Break(gap, indent))
  {
  }

  // --- one element, and the elements after it ---------------------------------------------------------------

  /** What the parser makes of an element and what follows it. */
  lemma {:induction false} ItemsStep(s: string, v: Json, after: string)
    requires ParseValue(s) == Parsed(v, after)
    ensures Separator(after, ']').Last? ==> ParseItems(s) == Parsed([v], Separator(after, ']').rest)
    ensures Separator(after, ']').Another? && ParseItems(Separator(after, ']').rest).Parsed? ==>
              var more := ParseItems(Separator(after, ']').rest);
              ParseItems(s) == Parsed([v] + more.value, more.rest)
  {
    hide ParseValue, Separator;
  }

  lemma {:induction false} MembersStep(s: string, key: string, text: string, v: Json, after: string)
    requires ParseKey(s) == Parsed(key, text) && ParseValue(text) == Parsed(v, after)
    ensures Separator(after, '}').Last? ==> ParseMembers(s) == Parsed([Member(key, v)], Separator(after, '}').rest)
    ensures Separator(after, '}').Another? && ParseMembers(Separator(after, '}').rest).Parsed? ==>
              var more := ParseMembers(Separator(after, '}').rest);
              ParseMembers(s) == Parsed([Member(key, v)] + more.value, more.rest)
  {
    hide ParseKey, ParseValue, Separator;
  }

  /** The text from a comma on: a break, and the next element. */
  function Onwards(gap: string, indent: string, more: string): string {
    "," + (Break(gap, indent) + more)
  }

  lemma {:induction false} CommaThenMore(gap: string, indent: string, more: string, close: char)
    requires Blank(indent) && close != ',' && more != "" && !IsBlankChar(more[0])
    ensures Separator(Onwards(gap, indent, more), close) == Another(more)
  {
    hide SkipBlanks, Break, Separator;
    BreakIsBlank(gap, indent);
    var tail := Onwards(gap, indent, more);
    assert "" + tail == tail && tail[1..] == Break(gap, indent) + more;
    SeparatorAfter("", tail, close);
    SkipOver(Break(gap, indent), more);
  }

  lemma {:induction false} CloseThenRest(close: string, c: char, t: string)
    requires Blank(close) && !IsBlankChar(c) && c != ','
    ensures Separator(close + ([c] + t), c) == Last(t)
  {
    hide Separator;
    SeparatorAfter(close, [c] + t, c);
    assert ([c] + t)[1..] == t;
  }

  lemma {:induction false} PrintItemsSplit(items: seq<Json>, gap: string, indent: string, end: string)
    requires |items| > 1
    ensures PrintItems(items, gap, indent) + end ==
            Print(items[0], gap, indent) + Onwards(gap, indent, PrintItems(items[1..], gap, indent) + end)
  {
    hide Print, Break;
    Regroup(Print(items[0], gap, indent), ",", Break(gap, indent), PrintItems(items[1..], gap, indent), "", end);
    var printed := PrintItems(items, gap, indent);
    assert printed == Print(items[0], gap, indent) + "," + Break(gap, indent) + PrintItems(items[1..], gap, indent);
  }

  lemma {:induction false} PrintMembersSplit(members: seq<Member>, gap: string, indent: string, end: string)
    requires |members| > 1
    ensures PrintMembers(members, gap, indent) + end ==
            PrintMember(members[0], gap, indent) + Onwards(gap, indent, PrintMembers(members[1..], gap, indent) + end)
  {
    hide PrintMember, Break;
    Regroup(PrintMember(members[0], gap, indent), ",", Break(gap, indent), PrintMembers(members[1..], gap, indent), "", end);
    var printed := PrintMembers(members, gap, indent);
    assert printed == PrintMember(members[0], gap, indent) + "," + Break(gap, indent) + PrintMembers(members[1..], gap, indent);
  }

  lemma {:induction false} RoundTripItems(items: seq<Json>, gap: string, indent: string, close: string, t: string)
    requires items != [] && Blank(gap) && Blank(indent) && Blank(close)
    requires forall i | 0 <= i < |items| :: Valid(items[i])
    ensures ParseItems(PrintItems(items, gap, indent) + (close + ("]" + t))) == Parsed(items, t)
    decreases items, 1
  {
    hide ParseValue, ParseItems, Separator, Print, PrintItems, Break, Valid;
    var v, end := items[0], close + ("]" + t);
    var s := PrintItems(items, gap, indent) + end;
    if |items| == 1 {
      LastItem(items, gap, indent, close, t);
    } else {
      var more := PrintItems(items[1..], gap, indent) + end;
      var tail := Onwards(gap, indent, more);
      PrintItemsSplit(items, gap, indent, end);
      RoundTripValue(v, gap, indent, tail);
      ItemsStart(items[1..], gap, indent);
      CommaThenMore(gap, indent, more, ']');
      RoundTripItems(items[1..], gap, indent, close, t);
      ItemsStep(s, v, tail);
      assert items == [v] + items[1..];
    }
  }

  lemma {:induction false} LastItem(items: seq<Json>, gap: string, indent: string, close: string, t: string)
    requires |items| == 1 && Valid(items[0]) && Blank(gap) && Blank(indent) && Blank(close)
    ensures ParseItems(PrintItems(items, gap, indent) + (close + ("]" + t))) == Parsed(items, t)
    decreases items, 0
  {
    hide ParseValue, ParseItems, Separator, Print, Valid;
    var v := items[0];
    var end := close + ("]" + t);
    EndIsNotNumeric(close, ']', t);
    RoundTripValue(v, gap, indent, end);
    CloseThenRest(close, ']', t);
    ItemsStep(Print(v, gap, indent) + end, v, end);
    assert items == [v];
  }

  lemma EndIsNotNumeric(close: string, c: char, t: string)
    requires Blank(close) && !IsNumberChar(c)
    ensures NotNumeric(close + ([c] + t))
  {
  }

  lemma {:induction false} RoundTripKey(m: Member, gap: string, indent: string, t: string)
    requires Valid(m.value)
    ensures ParseKey(PrintMember(m, gap, indent) + t) == Parsed(m.key, Print(m.value, gap, indent) + t)
  {
    hide Number, ParseKey, Escape, Print;
    var value := Print(m.value, gap, indent) + t;
    PrintStart(m.value, gap, indent);
    ColonAfterKey(m.key, Space(gap), value);
    var e := Escape(m.key);
    assert PrintMember(m, gap, indent) + t == "\"" + (e + "\"" + (":" + (Space(gap) + value)));
  }

  lemma {:induction false} ColonAfterKey(key: string, space: string, value: string)
    requires Blank(space) && value != "" && !IsBlankChar(value[0])
    ensures ParseKey("\"" + (Escape(key) + "\"" + (":" + (space + value)))) == Parsed(key, value)
  {
    hide Number, ParseNumber, ParseChars, Escape, Print;
    var afterKey := ":" + (space + value);
    var chars := Escape(key) + "\"" + afterKey;
    EscapedString(key, afterKey);
    assert ("\"" + chars)[1..] == chars;
    assert afterKey[1..] == space + value;
    SkipOver(space, value);
  }

  lemma {:induction false} RoundTripMembers(members: seq<Member>, gap: string, indent: string, close: string, t: string)
    requires members != [] && Blank(gap) && Blank(indent) && Blank(close)
    requires forall i | 0 <= i < |members| :: Valid(members[i].value)
    ensures ParseMembers(PrintMembers(members, gap, indent) + (close + ("}" + t))) == Parsed(members, t)
    decreases members, 1
  {
    hide ParseKey, ParseValue, ParseMembers, Separator, Print, PrintMember, PrintMembers, Break, Valid;
    var m, end := members[0], close + ("}" + t);
    var s := PrintMembers(members, gap, indent) + end;
    if |members| == 1 {
      LastMember(members, gap, indent, close, t);
    } else {
      var more := PrintMembers(members[1..], gap, indent) + end;
      var tail := Onwards(gap, indent, more);
      PrintMembersSplit(members, gap, indent, end);
      RoundTripKey(m, gap, indent, tail);
      RoundTripValue(m.value, gap, indent, tail);
      MembersStart(members[1..], gap, indent);
      CommaThenMore(gap, indent, more, '}');
      RoundTripMembers(members[1..], gap, indent, close, t);
      MembersStep(s, m.key, Print(m.value, gap, indent) + tail, m.value, tail);
      assert members == [m] + members[1..];
    }
  }

  lemma {:induction false} LastMember(members: seq<Member>, gap: string, indent: string, close: string, t: string)
    requires |members| == 1 && Valid(members[0].value) && Blank(gap) && Blank(indent) && Blank(close)
    ensures ParseMembers(PrintMembers(members, gap, indent) + (close + ("}" + t))) == Parsed(members, t)
    decreases members, 0
  {
    hide ParseKey, ParseValue, ParseMembers, Separator, Print, PrintMember, Valid;
    var m := members[0];
    var end := close + ("}" + t);
    EndIsNotNumeric(close, '}', t);
    RoundTripKey(m, gap, indent, end);
    RoundTripValue(m.value, gap, indent, end);
    CloseThenRest(close, '}', t);
    MembersStep(PrintMember(m, gap, indent) + end, m.key, Print(m.value, gap, indent) + end, m.value, end);
    assert members == [m];
  }

  /** `JSON.parse(JSON.stringify(v, null, gap) + blank)` is v, for the compact and the indented form. */
  lemma {:induction false} ParsePrinted(v: Json, gap: string, blank: string)
    requires Valid(v) && Blank(gap) && Blank(blank)
    ensures Parse(Print(v, gap, "") + blank) == Some(v)
  {
    hide ParseValue, Print, Valid, SkipBlanks;
    var s := Print(v, gap, "") + blank;
    PrintStart(v, gap, "");
    NothingToSkip(s);
    RoundTripValue(v, gap, "", blank);
    SkipOver(blank, "");
    assert blank + "" == blank;
  }

  lemma NothingToSkip(s: string)
    requires s != "" && !IsBlankChar(s[0])
    ensures SkipBlanks(s) == s
  {
  }
}
