/** Printing a parsed text again: every value the parser makes is kept, except that a number too large for a
    double, which the parser reads as Infinity, is written as null. */
module JsonReformat {
  import opened Text
  import opened Json
  import opened JsonRoundTrip

  /** A value with null for every number that is too large. */
  function Nulled(v: Json): (r: Json)
    decreases v, 1
  {
    match v
    case Infinite(_) => Null
    case Arr(items) => Arr(NulledItems(items))
    case Obj(members) => Obj(NulledMembers(members))
    case _ => v
  }

  function NulledItems(items: seq<Json>): (r: seq<Json>)
    ensures |r| == |items| && forall i | 0 <= i < |r| :: r[i] == Nulled(items[i])
    decreases items, 0
  {
    if items == [] then [] else [Nulled(items[0])] + NulledItems(items[1..])
  }

  function NulledMembers(members: seq<Member>): (r: seq<Member>)
    ensures |r| == |members|
    ensures forall i | 0 <= i < |r| :: r[i] == Member(members[i].key, Nulled(members[i].value))
    decreases members, 0
  {
    if members == [] then [] else [Member(members[0].key, Nulled(members[0].value))] + NulledMembers(members[1..])
  }

  /** No number in the value is too large. */
  predicate Finite(v: Json)
    decreases v
  {
    match v
    case Infinite(_) => false
    case Arr(items) => forall i | 0 <= i < |items| :: Finite(items[i])
    case Obj(members) => forall i | 0 <= i < |members| :: Finite(members[i].value)
    case _ => true
  }

  lemma {:induction false} NulledIff(v: Json)
    ensures Nulled(v) == v <==> Finite(v)
    decreases v
  {
    match v
    case Arr(items) =>
      forall i | 0 <= i < |items| ensures Nulled(items[i]) == items[i] <==> Finite(items[i]) { NulledIff(items[i]); }
      if Finite(v) { assert NulledItems(items) == items; }
    case Obj(members) =>
      forall i | 0 <= i < |members| ensures Nulled(members[i].value) == members[i].value <==> Finite(members[i].value) {
        NulledIff(members[i].value);
      }
      if Finite(v) { assert NulledMembers(members) == members; }
    case _ =>
  }

  /** The printer writes both alike. */
  lemma {:induction false} PrintNulled(v: Json, gap: string, indent: string)
    ensures Print(v, gap, indent) == Print(Nulled(v), gap, indent)
    decreases v, 1
  {
    hide PrintItems, PrintMembers;
    match v
    case Arr(items) => if items != [] { PrintNulledItems(items, gap, indent + gap); }
    case Obj(members) => if members != [] { PrintNulledMembers(members, gap, indent + gap); }
    case _ =>
  }

  lemma {:induction false} PrintNulledItems(items: seq<Json>, gap: string, indent: string)
    requires items != []
    ensures PrintItems(items, gap, indent) == PrintItems(NulledItems(items), gap, indent)
    decreases items, 0
  {
    hide Print, Break, Nulled;
    PrintNulled(items[0], gap, indent);
    if |items| > 1 {
      assert NulledItems(items)[1..] == NulledItems(items[1..]);
      PrintNulledItems(items[1..], gap, indent);
    }
  }

  lemma {:induction false} PrintNulledMembers(members: seq<Member>, gap: string, indent: string)
    requires members != []
    ensures PrintMembers(members, gap, indent) == PrintMembers(NulledMembers(members), gap, indent)
    decreases members, 0
  {
    hide Print, Break, Nulled, Quote;
    PrintNulled(members[0].value, gap, indent);
    if |members| > 1 {
      assert NulledMembers(members)[1..] == NulledMembers(members[1..]);
      PrintNulledMembers(members[1..], gap, indent);
    }
  }

  // --- what the parser makes --------------------------------------------------------------------------------

  lemma TimesKeepsOrder(a: int, b: int, unit: int)
    requires a <= b && unit > 0
    ensures a * unit <= b * unit
  {
  }

  /** A quotient is as small as its dividend says. */
  lemma QuotientFits(c: int, unit: int, limit: int)
    requires unit > 0 && c % unit == 0 && -limit * unit < c < limit * unit
    ensures -limit < c / unit < limit
  {
    var q := c / unit;
    assert c == q * unit;
    if q >= limit {
      TimesKeepsOrder(limit, q, unit);
    } else if q <= -limit {
      TimesKeepsOrder(q, -limit, unit);
    }
  }

  lemma {:induction false} ScaledIsValid(token: string, coefficient: int, exponent: int)
    ensures var v := Scaled(token, coefficient, exponent);
            && (v.Int? || v.Frac? || v.Infinite?) && (v.Frac? ==> v == Frac(token)) && (v.Int? ==> FitsDouble(v.n))
  {
    hide Pow10;
    if exponent < 0 {
      var unit := Pow10(-exponent);
      if -DOUBLE_LIMIT * unit < coefficient < DOUBLE_LIMIT * unit && coefficient % unit == 0 {
        QuotientFits(coefficient, unit, DOUBLE_LIMIT);
      }
    }
  }

  lemma {:induction false} NumberKind(token: string)
    requires Number(token).Some?
    ensures var v := Number(token).value;
            && (v.Int? || v.Frac? || v.Infinite?) && (v.Frac? ==> v == Frac(token)) && (v.Int? ==> FitsDouble(v.n))
  {
    hide NatOf, DigitRun, Scaled;
    forall c: int, e: int
      ensures var v := Scaled(token, c, e);
              && (v.Int? || v.Frac? || v.Infinite?) && (v.Frac? ==> v == Frac(token)) && (v.Int? ==> FitsDouble(v.n))
    {
      ScaledIsValid(token, c, e);
    }
  }

  lemma {:induction false} NumberIsValid(s: string)
    ensures ParseNumber(s).Parsed? ==> Valid(Nulled(ParseNumber(s).value))
  {
    hide Number;
    var k := NumberRun(s);
    if Number(s[..k]).Some? { NumberKind(s[..k]); }
  }

  lemma {:induction false} ParsedValueIsValid(s: string)
    ensures ParseValue(s).Parsed? ==> Valid(Nulled(ParseValue(s).value))
    decreases |s|, 3
  {
    hide ParseValue;
    if s == "" {
      NothingParses();
    } else if s[0] == '{' {
      ParsedObjectIsValid(s);
    } else if s[0] == '[' {
      ParsedArrayIsValid(s);
    } else {
      ParsedLeafIsValid(s);
    }
  }

  lemma NothingParses()
    ensures ParseValue("").Failed?
  {
  }

  lemma {:induction false} ParsedLeafIsValid(s: string)
    requires s != "" && s[0] != '{' && s[0] != '['
    ensures ParseValue(s).Parsed? ==> Valid(Nulled(ParseValue(s).value))
  {
    hide ParseNumber, ParseChars, ParseMembers, ParseItems, Number, ParseLiteral;
    NumberIsValid(s);
    LiteralParses(s, "null", Null);
    LiteralParses(s, "true", Bool(true));
    LiteralParses(s, "false", Bool(false));
  }

  lemma LiteralParses(s: string, word: string, v: Json)
    requires word != ""
    ensures ParseLiteral(s, word, v).Parsed? ==> ParseLiteral(s, word, v).value == v
  {
  }

  lemma {:induction false} ParsedObjectIsValid(s: string)
    requires s != "" && s[0] == '{'
    ensures ParseValue(s).Parsed? ==> Valid(Nulled(ParseValue(s).value))
    decreases |s|, 2
  {
    hide ParseNumber, ParseChars, ParseMembers, ParseItems, SkipBlanks, MembersValid, NulledMembers;
    NoneValid();
    ParsedMembersAreValid(SkipBlanks(s[1..]));
    var p := ParseValue(s);
    if p.Parsed? { ObjectIsValid(p.value.members); }
  }

  lemma {:induction false} ParsedArrayIsValid(s: string)
    requires s != "" && s[0] == '['
    ensures ParseValue(s).Parsed? ==> Valid(Nulled(ParseValue(s).value))
    decreases |s|, 2
  {
    hide ParseNumber, ParseChars, ParseMembers, ParseItems, SkipBlanks, ItemsValid, NulledItems;
    NoneValid();
    ParsedItemsAreValid(SkipBlanks(s[1..]));
    var p := ParseValue(s);
    if p.Parsed? { ArrayIsValid(p.value.items); }
  }

  lemma ObjectIsValid(members: seq<Member>)
    ensures MembersValid(members) ==> Valid(Nulled(Obj(members)))
  {
  }

  lemma ArrayIsValid(items: seq<Json>)
    ensures ItemsValid(items) ==> Valid(Nulled(Arr(items)))
  {
  }

  predicate MembersValid(members: seq<Member>) {
    forall i | 0 <= i < |members| :: Valid(Nulled(members[i].value))
  }

  predicate ItemsValid(items: seq<Json>) {
    forall i | 0 <= i < |items| :: Valid(Nulled(items[i]))
  }

  lemma PrependMember(m: Member, more: seq<Member>)
    requires Valid(Nulled(m.value)) && MembersValid(more)
    ensures MembersValid([m] + more) && MembersValid([m])
  {
    hide Valid, Nulled;
  }

  lemma PrependItem(v: Json, more: seq<Json>)
    requires Valid(Nulled(v)) && ItemsValid(more)
    ensures ItemsValid([v] + more) && ItemsValid([v])
  {
    hide Valid, Nulled;
  }

  lemma NoneValid()
    ensures MembersValid([]) && ItemsValid([])
  {
  }

  lemma {:induction false} ParsedMembersAreValid(s: string)
    ensures ParseMembers(s).Parsed? ==> MembersValid(ParseMembers(s).value)
    decreases |s|, 0
  {
    hide ParseValue, ParseKey, Valid, Nulled, Separator, MembersValid;
    if ParseMembers(s).Parsed? {
      var key := ParseKey(s);
      var value := ParseValue(key.rest);
      ParsedValueIsValid(key.rest);
      NoneValid();
      PrependMember(Member(key.value, value.value), []);
      var next := Separator(value.rest, '}');
      if next.Another? {
        ParsedMembersAreValid(next.rest);
        PrependMember(Member(key.value, value.value), ParseMembers(next.rest).value);
      }
    }
  }

  lemma {:induction false} ParsedItemsAreValid(s: string)
    ensures ParseItems(s).Parsed? ==> ItemsValid(ParseItems(s).value)
    decreases |s|, 4
  {
    hide ParseValue, Valid, Nulled, Separator, ItemsValid;
    if ParseItems(s).Parsed? {
      var value := ParseValue(s);
      ParsedValueIsValid(s);
      NoneValid();
      PrependItem(value.value, []);
      var next := Separator(value.rest, ']');
      if next.Another? {
        ParsedItemsAreValid(next.rest);
        PrependItem(value.value, ParseItems(next.rest).value);
      }
    }
  }

  /** Whatever the parser accepts can be printed, up to numbers that are too large. */
  lemma {:induction false} ParsedIsValid(text: string)
    ensures Parse(text).Some? ==> Valid(Nulled(Parse(text).value))
  {
    hide ParseValue, Valid, Nulled;
    ParsedValueIsValid(SkipBlanks(text));
  }

  /** Reformatting a JSON text gives its value with null for every number that is too large. */
  lemma {:induction false} ReformatNulls(text: string, gap: string, blank: string)
    requires Parse(text).Some? && Blank(gap) && Blank(blank)
    ensures Parse(Print(Parse(text).value, gap, "") + blank) == Some(Nulled(Parse(text).value))
  {
    hide Parse, Print, Valid, Nulled;
    var v := Parse(text).value;
    ParsedIsValid(text);
    PrintNulled(v, gap, "");
    ParsePrinted(Nulled(v), gap, blank);
  }

  /** Reformatting a JSON text keeps its value if and only if no number in it is too large for a double. */
  lemma {:induction false} ReformatKeepsValueIff(text: string, gap: string, blank: string)
    requires Parse(text).Some? && Blank(gap) && Blank(blank)
    ensures Parse(Print(Parse(text).value, gap, "") + blank) == Parse(text) <==> Finite(Parse(text).value)
  {
    hide Parse, Print, Valid, Nulled;
    ReformatNulls(text, gap, blank);
    NulledIff(Parse(text).value);
  }

  // --- a number that is not kept -----------------------------------------------------------------------------

  lemma {:induction false} Pow10Twice(k: nat, p: nat)
    requires Pow10(k) >= p
    ensures Pow10(2 * k) >= p * p
  {
    hide Pow10;
    Pow10Sum(k, k);
    TimesKeepsOrder(p, Pow10(k), Pow10(k));
    if p > 0 { TimesKeepsOrder(p, Pow10(k), p); }
  }

  lemma {:induction false} Pow10Sum(a: nat, b: nat)
    ensures Pow10(a + b) == Pow10(a) * Pow10(b)
  {
    if a > 0 { Pow10Sum(a - 1, b); }
  }

  lemma Pow10Of320()
    ensures Pow10(320) >= DOUBLE_LIMIT
  {
    assert Pow10(5) >= 100000;
    hide Pow10;
    Pow10Twice(5, 100000);
    Pow10Twice(10, 10000000000);
    Pow10Twice(20, 100000000000000000000);
    Pow10Twice(40, 10000000000000000000000000000000000000000);
    Pow10Twice(80, 100000000000000000000000000000000000000000000000000000000000000000000000000000000);
    Pow10Twice(160, 10000000000000000000000000000000000000000000000000000000000000000000000000000000000000000000000000000000000000000000000000000000000000000000000000000000000000000);
  }

  lemma RunOfHuge()
    ensures NumberRun("1e320") == 5
  {
    NumberRunOfToken("1e320", "");
    assert "1e320" + "" == "1e320";
  }

  lemma ParseHuge()
    ensures ParseValue("1e320") == Parsed(Infinite(false), "")
  {
    hide Number, NumberRun, ParseValue;
    var s := "1e320";
    UnfoldNumber(s);
    RunOfHuge();
    NumberOfHuge();
    assert s[..5] == s && s[5..] == "";
  }

  lemma HugeIsRead()
    ensures Parse("1e320") == Some(Infinite(false))
  {
    hide ParseValue, SkipBlanks;
    ParseHuge();
    NothingToSkip("1e320");
    assert SkipBlanks("") == "" by { SkipOver("", ""); }
  }

  /** `1e320` is read as Infinity, and written as null. */
  lemma HugeNumber()
    ensures Parse("1e320") == Some(Infinite(false))
    ensures Parse(Print(Infinite(false), "  ", "") + "\n") == Some(Null)
  {
    hide Parse, Print;
    HugeIsRead();
    assert Blank("  ") && Blank("\n");
    ReformatNulls("1e320", "  ", "\n");
  }

  lemma NumberOfHuge()
    ensures Number("1e320") == Some(Infinite(false))
  {
    hide Pow10;
    var s := "1e320";
    assert DigitRun(s) == 1 && s[..1] == "1" && s[1..] == "e320" && s[1..][1..] == "320";
    assert s[..1] + "" == "1" && NatOf("1") == 1 by { assert "1"[..0] == ""; }
    assert NatOf("320") == 320 by { assert "320"[..2] == "32" && "32"[..1] == "3" && "3"[..0] == ""; }
    Pow10Of320();
  }
}
