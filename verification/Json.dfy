/**
 JSON values, the text `JSON.stringify` prints and the text `JSON.parse` accepts.
 The grammar is RFC 8259, sections 2 to 7.
 */
module Json {
  import opened Text

  /** Numbers whose value is an integer are `Int`; the others keep their token; a number too large for a
      double is `Infinite`.  Objects keep every
      member of the text; looking a key up finds its last occurrence, as `JSON.parse` does. */
  datatype Json =
    | Null
    | Bool(b: bool)
    | Int(n: int)
    | Frac(token: string)
    | Infinite(negative: bool)
    | Str(s: string)
    | Arr(items: seq<Json>)
    | Obj(members: seq<Member>)

  datatype Member = Member(key: string, value: Json)

  /** A parse of a prefix of a text, and the text that is left. */
  datatype Parsed<+T> = Failed | Parsed(value: T, rest: string)

  function Lookup(members: seq<Member>, key: string): Option<Json> {
    if members == [] then None
    else if members[|members| - 1].key == key then Some(members[|members| - 1].value)
    else Lookup(members[..|members| - 1], key)
  }

  // --- parsing -------------------------------------------------------------------------------

  /** Section 2: the four white space characters. */
  predicate IsBlankChar(c: char) {
    c == ' ' || c == '\t' || c == '\n' || c == '\r'
  }

  predicate Blank(s: string) {
    forall i | 0 <= i < |s| :: IsBlankChar(s[i])
  }

  function SkipBlanks(s: string): (t: string)
    ensures |t| <= |s| && t == s[|s| - |t|..] && Blank(s[..|s| - |t|])
    ensures t == "" || !IsBlankChar(t[0])
  {
    if s == "" || !IsBlankChar(s[0]) then s else SkipBlanks(s[1..])
  }

  /** How many digits s starts with. */
  function DigitRun(s: string): (k: nat)
    ensures k <= |s| && AllDigits(s[..k])
    ensures k == |s| || !IsDigit(s[k])
  {
    if s == "" || !IsDigit(s[0]) then 0 else 1 + DigitRun(s[1..])
  }

  predicate IsNumberChar(c: char) {
    IsDigit(c) || c == '-' || c == '+' || c == '.' || c == 'e' || c == 'E'
  }

  function NumberRun(s: string): (k: nat)
    ensures k <= |s| && forall i | 0 <= i < k :: IsNumberChar(s[i])
    ensures k == |s| || !IsNumberChar(s[k])
  {
    if s == "" || !IsNumberChar(s[0]) then 0 else 1 + NumberRun(s[1..])
  }

  /** 2^1024 - 2^970: from here on a decimal is rounded to Infinity (ECMA-262 section 6.1.6.1). */
  const DOUBLE_LIMIT: int :=
    179769313486231580793728971405303415079934132710037826936173778980444968292764750946649017977587207096330286416692887910946555547851940402630657488671505820681908902000708383676273854845817711531764475730270069855571366959622842914819860834936475292719074168444365510704342711559699508093042880177904174497792

  predicate FitsDouble(n: int) {
    -DOUBLE_LIMIT < n < DOUBLE_LIMIT
  }

  /** The number that coefficient * 10^exponent is, read from token. */
  function Scaled(token: string, coefficient: int, exponent: int): Json {
    if exponent >= 0 then
      var value := coefficient * Pow10(exponent);
      if FitsDouble(value) then Int(value) else Infinite(value < 0)
    else
      var unit := Pow10(-exponent);
      if !(-DOUBLE_LIMIT * unit < coefficient < DOUBLE_LIMIT * unit) then Infinite(coefficient < 0)
      else if coefficient % unit == 0 then Int(coefficient / unit)
      else Frac(token)
  }

  /** Section 6: `[ minus ] int [ frac ] [ exp ]`. */
  function Number(token: string): Option<Json> {
    var negative := token != "" && token[0] == '-';
    var whole := if negative then token[1..] else token;
    var w := DigitRun(whole);
    if w == 0 || (w > 1 && whole[0] == '0') then None else
    var afterWhole := whole[w..];
    var f := if afterWhole != "" && afterWhole[0] == '.' then DigitRun(afterWhole[1..]) else 0;
    if afterWhole != "" && afterWhole[0] == '.' && f == 0 then None else
    var fraction := if f == 0 then "" else afterWhole[1..f + 1];
    var afterFraction := if f == 0 then afterWhole else afterWhole[f + 1..];
    assert AllDigits(fraction) by { assert f > 0 ==> fraction == afterWhole[1..][..f]; }
    var coefficient: int := NatOf(whole[..w] + fraction);
    var signed := if negative then -coefficient else coefficient;
    if afterFraction == "" then Some(Scaled(token, signed, -f))
    else if afterFraction[0] != 'e' && afterFraction[0] != 'E' then None
    else
      var e := afterFraction[1..];
      var hasSign := e != "" && (e[0] == '-' || e[0] == '+');
      var digits := if hasSign then e[1..] else e;
      if digits == "" || !AllDigits(digits) then None
      else
        var magnitude: int := NatOf(digits);
        Some(Scaled(token, signed, (if hasSign && e[0] == '-' then -magnitude else magnitude) - f))
  }

  function HexValue(c: char): Option<nat> {
    if IsDigit(c) then Some(DigitValue(c))
    else if 'a' <= c <= 'f' then Some(c as int - 'a' as int + 10)
    else if 'A' <= c <= 'F' then Some(c as int - 'A' as int + 10)
    else None
  }

  /** The character a `\u` escape with these four digits stands for.  A surrogate has no character
      of its own in this model and reads as U+FFFD. */
  function UnicodeEscape(s: string): Option<char>
    requires |s| == 4
  {
    var a, b, c, d := HexValue(s[0]), HexValue(s[1]), HexValue(s[2]), HexValue(s[3]);
    if a.None? || b.None? || c.None? || d.None? then None
    else
      var code := ((a.value * 16 + b.value) * 16 + c.value) * 16 + d.value;
      Some(if code < 0xD800 || 0xE000 <= code < 0x10000 then code as char else '\U{FFFD}')
  }

  /** Section 7: the two-character escapes. */
  function SimpleEscape(c: char): Option<char> {
    match c
    case '"' => Some('"')
    case '\\' => Some('\\')
    case '/' => Some('/')
    case 'b' => Some('\U{0008}')
    case 'f' => Some('\U{000C}')
    case 'n' => Some('\n')
    case 'r' => Some('\r')
    case 't' => Some('\t')
    case _ => None
  }

  function Prepend(c: char, p: Parsed<string>): Parsed<string> {
    match p
    case Failed => Failed
    case Parsed(t, rest) => Parsed([c] + t, rest)
  }

  /** The contents of a string, from just after its opening quote to just after its closing one. */
  function ParseChars(s: string): (r: Parsed<string>)
    ensures r.Parsed? ==> |r.rest| < |s|
  {
    if s == "" || s[0] < ' ' then Failed
    else if s[0] == '"' then Parsed("", s[1..])
    else if s[0] != '\\' then Prepend(s[0], ParseChars(s[1..]))
    else if |s| < 2 then Failed
    else if s[1] == 'u' then
      if |s| < 6 then Failed
      else match UnicodeEscape(s[2..6])
           case None => Failed
           case Some(c) => Prepend(c, ParseChars(s[6..]))
    else match SimpleEscape(s[1])
         case None => Failed
         case Some(c) => Prepend(c, ParseChars(s[2..]))
  }

  function ParseLiteral(s: string, word: string, value: Json): (r: Parsed<Json>)
    requires word != ""
    ensures r.Parsed? ==> |r.rest| < |s|
  {
    if |word| <= |s| && s[..|word|] == word then Parsed(value, s[|word|..]) else Failed
  }

  function ParseNumber(s: string): (r: Parsed<Json>)
    ensures r.Parsed? ==> |r.rest| < |s|
  {
    var k := NumberRun(s);
    match Number(s[..k])
    case None => Failed
    case Some(n) => assert k > 0; Parsed(n, s[k..])
  }

  /** A value at the very start of s (section 3). */
  function ParseValue(s: string): (r: Parsed<Json>)
    ensures r.Parsed? ==> |r.rest| < |s|
    decreases |s|, 1
  {
    if s == "" then Failed
    else match s[0]
      case '{' =>
        var t := SkipBlanks(s[1..]);
        if t != "" && t[0] == '}' then Parsed(Obj([]), t[1..])
        else (match ParseMembers(t)
              case Failed => Failed
              case Parsed(members, rest) => Parsed(Obj(members), rest))
      case '[' =>
        var t := SkipBlanks(s[1..]);
        if t != "" && t[0] == ']' then Parsed(Arr([]), t[1..])
        else (match ParseItems(t)
              case Failed => Failed
              case Parsed(items, rest) => Parsed(Arr(items), rest))
      case '"' =>
        (match ParseChars(s[1..])
         case Failed => Failed
         case Parsed(t, rest) => Parsed(Str(t), rest))
      case 'n' => ParseLiteral(s, "null", Null)
      case 't' => ParseLiteral(s, "true", Bool(true))
      case 'f' => ParseLiteral(s, "false", Bool(false))
      case _ => ParseNumber(s)
  }

  /** A colon with blanks around it, leaving the text after it. */
  function SkipColon(s: string): (r: Option<string>)
    ensures r.Some? ==> |r.value| < |s|
  {
    var colon := SkipBlanks(s);
    if colon == "" || colon[0] != ':' then None else Some(SkipBlanks(colon[1..]))
  }

  /** The name and the colon of a member (section 4), leaving the text of its value. */
  function ParseKey(s: string): (r: Parsed<string>)
    ensures r.Parsed? ==> |r.rest| < |s|
  {
    if s == "" || s[0] != '"' then Failed
    else match ParseChars(s[1..])
      case Failed => Failed
      case Parsed(key, afterKey) =>
        match SkipColon(afterKey)
        case None => Failed
        case Some(text) => Parsed(key, text)
  }

  /** What follows an element of an array or object: its closing character, or a comma and another
      element. */
  datatype Next = Bad | Last(rest: string) | Another(rest: string)

  function Separator(s: string, close: char): (r: Next)
    ensures !r.Bad? ==> |r.rest| < |s|
  {
    var t := SkipBlanks(s);
    if t == "" then Bad
    else if t[0] == close then Last(t[1..])
    else if t[0] == ',' then Another(SkipBlanks(t[1..]))
    else Bad
  }

  /** One or more members and the closing brace. */
  function ParseMembers(s: string): (r: Parsed<seq<Member>>)
    ensures r.Parsed? ==> |r.rest| < |s|
    decreases |s|, 0
  {
    match ParseKey(s)
    case Failed => Failed
    case Parsed(key, text) =>
      match ParseValue(text)
      case Failed => Failed
      case Parsed(value, afterValue) =>
        match Separator(afterValue, '}')
        case Bad => Failed
        case Last(rest) => Parsed([Member(key, value)], rest)
        case Another(next) =>
          match ParseMembers(next)
          case Failed => Failed
          case Parsed(more, rest) => Parsed([Member(key, value)] + more, rest)
  }

  /** One or more array elements and the closing bracket (section 5). */
  function ParseItems(s: string): (r: Parsed<seq<Json>>)
    ensures r.Parsed? ==> |r.rest| < |s|
    decreases |s|, 2
  {
    match ParseValue(s)
    case Failed => Failed
    case Parsed(value, afterValue) =>
      match Separator(afterValue, ']')
      case Bad => Failed
      case Last(rest) => Parsed([value], rest)
      case Another(next) =>
        match ParseItems(next)
        case Failed => Failed
        case Parsed(more, rest) => Parsed([value] + more, rest)
  }

  /** `JSON.parse`; None where it throws. */
  function Parse(text: string): Option<Json> {
    match ParseValue(SkipBlanks(text))
    case Failed => None
    case Parsed(value, rest) => if SkipBlanks(rest) == "" then Some(value) else None
  }

  // --- printing ------------------------------------------------------------------------------

  function HexDigit(d: nat): char
    requires d < 16
  {
    if d < 10 then DigitChar(d) else (d - 10 + 'a' as int) as char
  }

  /** How `JSON.stringify` writes one character of a string. */
  function EscapeChar(c: char): string {
    match c
    case '"' => "\\\""
    case '\\' => "\\\\"
    case '\U{0008}' => "\\b"
    case '\U{000C}' => "\\f"
    case '\n' => "\\n"
    case '\r' => "\\r"
    case '\t' => "\\t"
    case _ => if c < ' ' then "\\u00" + [HexDigit(c as int / 16), HexDigit(c as int % 16)] else [c]
  }

  function Escape(s: string): string {
    if s == "" then "" else EscapeChar(s[0]) + Escape(s[1..])
  }

  function Quote(s: string): string {
    "\"" + Escape(s) + "\""
  }

  function IntText(n: int): string {
    if n < 0 then "-" + Digits(-n) else Digits(n)
  }

  function Break(gap: string, indent: string): string {
    if gap == "" then "" else "\n" + indent
  }

  function Space(gap: string): string {
    if gap == "" then "" else " "
  }

  /** `JSON.stringify(v, null, gap)` for a value nested behind indent; gap "" is the compact form. */
  function Print(v: Json, gap: string, indent: string): string
    decreases v, 1
  {
    match v
    case Null => "null"
    case Bool(b) => if b then "true" else "false"
    case Int(n) => IntText(n)
    case Frac(token) => token
    case Infinite(_) => "null"
    case Str(s) => Quote(s)
    case Arr(items) =>
      if items == [] then "[]"
      else "[" + Break(gap, indent + gap) + PrintItems(items, gap, indent + gap) + Break(gap, indent) + "]"
    case Obj(members) =>
      if members == [] then "{}"
      else "{" + Break(gap, indent + gap) + PrintMembers(members, gap, indent + gap) + Break(gap, indent) + "}"
  }

  function PrintItems(items: seq<Json>, gap: string, indent: string): string
    requires items != []
    decreases items, 0
  {
    var first := Print(items[0], gap, indent);
    if |items| == 1 then first
    else first + "," + Break(gap, indent) + PrintItems(items[1..], gap, indent)
  }

  function PrintMember(m: Member, gap: string, indent: string): string
    decreases m, 0
  {
    Quote(m.key) + ":" + Space(gap) + Print(m.value, gap, indent)
  }

  function PrintMembers(members: seq<Member>, gap: string, indent: string): string
    requires members != []
    decreases members, 0
  {
    var first := PrintMember(members[0], gap, indent);
    if |members| == 1 then first
    else first + "," + Break(gap, indent) + PrintMembers(members[1..], gap, indent)
  }

  /** `JSON.stringify(v)`. */
  function Stringify(v: Json): string {
    Print(v, "", "")
  }

  /** The values of this datatype that are JSON values: no number is too large, and a `Frac` holds the token
      of a number that is not an integer. */
  predicate Valid(v: Json) {
    match v
    case Int(n) => FitsDouble(n)
    case Infinite(_) => false
    case Frac(token) => Number(token) == Some(v) && forall i | 0 <= i < |token| :: IsNumberChar(token[i])
    case Arr(items) => forall i | 0 <= i < |items| :: Valid(items[i])
    case Obj(members) => forall i | 0 <= i < |members| :: Valid(members[i].value)
    case _ => true
  }
}
