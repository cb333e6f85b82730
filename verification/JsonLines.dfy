/** One JSON value a line: the compact text of a value stays on its line. */
module JsonLines {
  import opened Text
  import opened Json
  import opened JsonRoundTrip

  predicate OneLine(s: string) {
    forall i | 0 <= i < |s| :: s[i] != '\n' && s[i] != '\r'
  }

  lemma {:induction false} OneLineConcat(a: string, b: string)
    requires OneLine(a) && OneLine(b)
    ensures OneLine(a + b)
  {
  }

  lemma {:induction false} EscapeIsOneLine(s: string)
    ensures OneLine(Escape(s))
  {
    if s != "" {
      EscapeIsOneLine(s[1..]);
      EscapeCharIsOneLine(s[0]);
      OneLineConcat(EscapeChar(s[0]), Escape(s[1..]));
    }
  }

  lemma {:induction false} EscapeCharIsOneLine(c: char)
    ensures OneLine(EscapeChar(c))
  {
    if |EscapeChar(c)| == 6 {
      OneLineConcat("\\u00", [HexDigit(c as int / 16), HexDigit(c as int % 16)]);
    }
  }

  lemma {:induction false} QuoteIsOneLine(s: string)
    ensures OneLine(Quote(s))
  {
    hide Escape;
    EscapeIsOneLine(s);
    OneLineConcat("\"", Escape(s));
    OneLineConcat("\"" + Escape(s), "\"");
  }

  /** The compact text of a value has no line break. */
  lemma {:induction false} StringifyIsOneLine(v: Json)
    requires Valid(v)
    ensures OneLine(Print(v, "", ""))
    decreases v, 1
  {
    hide Number, Quote;
    match v
    case Str(s) => QuoteIsOneLine(s);
    case Int(n) => IntTextChars(n);
    case Frac(token) => FracIsOneLine(token);
    case Arr(items) => if items != [] { ArrIsOneLine(items); }
    case Obj(members) => if members != [] { ObjIsOneLine(members); }
    case _ =>
  }

  lemma {:induction false} ArrIsOneLine(items: seq<Json>)
    requires items != [] && forall i | 0 <= i < |items| :: Valid(items[i])
    ensures OneLine(Print(Arr(items), "", ""))
    decreases items, 1
  {
    hide Valid, PrintItems;
    ItemsAreOneLine(items);
    Wrapped("[", PrintItems(items, "", ""), "]");
    assert Print(Arr(items), "", "") == "[" + PrintItems(items, "", "") + "]" by { assert "" + "" == ""; }
  }

  lemma {:induction false} ObjIsOneLine(members: seq<Member>)
    requires members != [] && forall i | 0 <= i < |members| :: Valid(members[i].value)
    ensures OneLine(Print(Obj(members), "", ""))
    decreases members, 1
  {
    hide Valid, PrintMembers;
    MembersAreOneLine(members);
    Wrapped("{", PrintMembers(members, "", ""), "}");
    assert Print(Obj(members), "", "") == "{" + PrintMembers(members, "", "") + "}" by { assert "" + "" == ""; }
  }

  lemma {:induction false} FracIsOneLine(token: string)
    requires forall i | 0 <= i < |token| :: IsNumberChar(token[i])
    ensures OneLine(token)
  {
  }

  lemma {:induction false} Wrapped(a: string, b: string, c: string)
    requires OneLine(a) && OneLine(b) && OneLine(c)
    ensures OneLine(a + b + c)
  {
  }

  lemma {:induction false} ItemsAreOneLine(items: seq<Json>)
    requires items != [] && forall i | 0 <= i < |items| :: Valid(items[i])
    ensures OneLine(PrintItems(items, "", ""))
    decreases items, 0
  {
    hide Number, Valid, Print;
    StringifyIsOneLine(items[0]);
    if |items| > 1 {
      ItemsAreOneLine(items[1..]);
      Wrapped(Print(items[0], "", ""), ",", PrintItems(items[1..], "", ""));
    }
  }

  lemma {:induction false} MembersAreOneLine(members: seq<Member>)
    requires members != [] && forall i | 0 <= i < |members| :: Valid(members[i].value)
    ensures OneLine(PrintMembers(members, "", ""))
    decreases members, 0
  {
    hide Number, Valid, Print, Quote;
    var m := members[0];
    StringifyIsOneLine(m.value);
    QuoteIsOneLine(m.key);
    Wrapped(Quote(m.key), ":", Print(m.value, "", ""));
    var first := PrintMember(m, "", "");
    assert first == Quote(m.key) + ":" + Print(m.value, "", "");
    if |members| > 1 {
      MembersAreOneLine(members[1..]);
      Wrapped(first, ",", PrintMembers(members[1..], "", ""));
    }
  }

  // --- looking members up --------------------------------------------------------------------------------

  lemma {:induction false} LookupConcat(a: seq<Member>, b: seq<Member>, key: string)
    ensures Lookup(a + b, key) == if Lookup(b, key).Some? then Lookup(b, key) else Lookup(a, key)
  {
    if b == [] {
      assert a + b == a;
    } else {
      assert (a + b)[..|a + b| - 1] == a + b[..|b| - 1];
      LookupConcat(a, b[..|b| - 1], key);
    }
  }

  lemma {:induction false} LookupAbsent(members: seq<Member>, key: string)
    requires forall i | 0 <= i < |members| :: members[i].key != key
    ensures Lookup(members, key).None?
  {
    if members != [] { LookupAbsent(members[..|members| - 1], key); }
  }

  /** The last member with its key is found. */
  lemma {:induction false} LookupLast(members: seq<Member>, k: nat)
    requires k < |members|
    requires forall j | k < j < |members| :: members[j].key != members[k].key
    ensures Lookup(members, members[k].key) == Some(members[k].value)
    decreases |members|
  {
    if k < |members| - 1 { LookupLast(members[..|members| - 1], k); }
  }

  /** No key twice. */
  ghost predicate DistinctKeys(members: seq<Member>) {
    forall i, j | 0 <= i < j < |members| :: members[i].key != members[j].key
  }

  lemma {:induction false} LookupDistinct(members: seq<Member>, k: nat)
    requires DistinctKeys(members) && k < |members|
    ensures Lookup(members, members[k].key) == Some(members[k].value)
  {
    LookupLast(members, k);
  }

  /** The length of a key, and whether it has this letter there. */
  function Mark(key: string, k: nat, letter: char): nat {
    if k < |key| && key[k] == letter then 100 + |key| else |key|
  }

  /** Keys with distinct marks are distinct. */
  lemma {:induction false} ByMark(members: seq<Member>, k: nat, letter: char, marks: seq<nat>)
    requires |marks| == |members| && forall i | 0 <= i < |members| :: Mark(members[i].key, k, letter) == marks[i]
    requires forall i, j | 0 <= i < j < |marks| :: marks[i] != marks[j]
    ensures DistinctKeys(members)
  {
    hide Mark;
    forall i, j | 0 <= i < j < |members| ensures members[i].key != members[j].key {
      assert marks[i] != marks[j];
    }
  }

  /** Keys that differ in length or first letter are distinct. */
  lemma {:induction false} ByShape(members: seq<Member>, shapes: seq<(nat, char)>)
    requires |shapes| == |members|
    requires forall i | 0 <= i < |members| :: members[i].key != "" && (|members[i].key|, members[i].key[0]) == shapes[i]
    requires forall i, j | 0 <= i < j < |shapes| :: shapes[i] != shapes[j]
    ensures DistinctKeys(members)
  {
    forall i, j | 0 <= i < j < |members| ensures members[i].key != members[j].key {
      assert shapes[i] != shapes[j];
    }
  }
}
