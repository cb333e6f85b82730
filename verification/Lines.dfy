/** Texts as lines: `text.split(/\r?\n/)` and `lines.join("\n")`. */
module Lines {
  import opened Text

  /** `text.split(/\r?\n/u)`. */
  function Split(text: string): (lines: seq<string>)
    ensures lines != []
  {
    if text == "" then [""]
    else if text[0] == '\n' then [""] + Split(text[1..])
    else if text[0] == '\r' && |text| > 1 && text[1] == '\n' then [""] + Split(text[2..])
    else
      var rest := Split(text[1..]);
      [[text[0]] + rest[0]] + rest[1..]
  }

  /** `lines.join("\n")`. */
  function Join(lines: seq<string>): string {
    if lines == [] then ""
    else if |lines| == 1 then lines[0]
    else lines[0] + "\n" + Join(lines[1..])
  }

  predicate IsLine(s: string) {
    forall i | 0 <= i < |s| :: s[i] != '\n'
  }

  lemma LineConcat(a: string, b: string)
    requires IsLine(a) && IsLine(b)
    ensures IsLine(a + b)
  {
  }

  predicate AllLines(lines: seq<string>) {
    forall i | 0 <= i < |lines| :: IsLine(lines[i])
  }

  predicate EndsWithCr(s: string) {
    s != "" && s[|s| - 1] == '\r'
  }

  /** A line feed after this line would swallow its last character. */
  function DropCr(s: string): string {
    if EndsWithCr(s) then s[..|s| - 1] else s
  }

  lemma {:induction false} SplitIsLines(text: string)
    ensures AllLines(Split(text))
  {
    if text == "" {
    } else if text[0] == '\n' {
      SplitIsLines(text[1..]);
    } else if text[0] == '\r' && |text| > 1 && text[1] == '\n' {
      SplitIsLines(text[2..]);
    } else {
      SplitIsLines(text[1..]);
    }
  }

  lemma {:induction false} SplitLine(line: string)
    requires IsLine(line)
    ensures Split(line) == [line]
  {
    if line != "" {
      SplitLine(line[1..]);
      assert [line[0]] + line[1..] == line;
    }
  }

  /** Splitting a text at a line feed of one's own splits the two sides, except that a carriage return
      just before that line feed is lost. */
  lemma {:induction false} SplitAtFeed(a: string, b: string)
    ensures !EndsWithCr(a) ==> Split(a + "\n" + b) == Split(a) + Split(b)
    ensures IsLine(a) ==> Split(a + "\n" + b) == [DropCr(a)] + Split(b)
  {
    var text := a + "\n" + b;
    if a == "" {
      assert text == "\n" + b;
      assert text[1..] == b;
    } else if a == "\r" {
      assert text == "\r\n" + b;
      assert text[2..] == b;
    } else {
      var k := if a[0] == '\r' && a[1] == '\n' then 2 else 1;
      SplitAtFeed(a[k..], b);
      SplitStep(a, k);
      assert text[k..] == a[k..] + "\n" + b;
      assert |a| > 1 ==> text[1] == a[1];
      SplitStep(text, k);
      assert EndsWithCr(a[k..]) ==> EndsWithCr(a);
      FrontAppend(a, k, Split(a[k..]), Split(b));
      if IsLine(a) { FrontLine(a, Split(b)); }
    }
  }

  /** The first line of s, given the split of what follows its first k characters. */
  function Front(s: string, k: nat, rest: seq<string>): seq<string>
    requires s != "" && rest != []
  {
    if s[0] == '\n' || k == 2 then [""] + rest else [[s[0]] + rest[0]] + rest[1..]
  }

  lemma {:induction false} SplitStep(s: string, k: nat)
    requires s != "" && k == if s[0] == '\r' && |s| > 1 && s[1] == '\n' then 2 else 1
    ensures Split(s) == Front(s, k, Split(s[k..]))
  {
  }

  lemma {:induction false} FrontAppend(a: string, k: nat, ra: seq<string>, rb: seq<string>)
    requires a != "" && ra != []
    ensures Front(a, k, ra + rb) == Front(a, k, ra) + rb
  {
    assert (ra + rb)[1..] == ra[1..] + rb;
  }

  lemma {:induction false} FrontLine(a: string, rb: seq<string>)
    requires a != "" && a != "\r" && IsLine(a)
    ensures Front(a, 1, [DropCr(a[1..])] + rb) == [DropCr(a)] + rb
  {
    assert [a[0]] + DropCr(a[1..]) == DropCr(a);
    assert ([DropCr(a[1..])] + rb)[1..] == rb;
  }

  /** What a reader sees of lines that were joined: all but the last lose a final carriage return. */
  function Resplit(lines: seq<string>): seq<string>
    requires lines != []
  {
    if |lines| == 1 then lines else [DropCr(lines[0])] + Resplit(lines[1..])
  }

  lemma {:induction false} SplitJoin(lines: seq<string>)
    requires lines != [] && AllLines(lines)
    ensures Split(Join(lines)) == Resplit(lines)
  {
    if |lines| == 1 {
      SplitLine(lines[0]);
    } else {
      SplitJoin(lines[1..]);
      SplitAtFeed(lines[0], Join(lines[1..]));
    }
  }

  lemma {:induction false} ResplitAt(lines: seq<string>)
    requires lines != []
    ensures |Resplit(lines)| == |lines|
    ensures forall i | 0 <= i < |lines| ::
              Resplit(lines)[i] == if i == |lines| - 1 then lines[i] else DropCr(lines[i])
  {
    if |lines| > 1 { ResplitAt(lines[1..]); }
  }

  /** No line but the last ends with a carriage return. */
  predicate Stable(lines: seq<string>) {
    forall i | 0 <= i < |lines| - 1 :: !EndsWithCr(lines[i])
  }

  /** Joining and splitting gives the same lines back exactly when they are stable. */
  lemma {:induction false} SplitJoinIff(lines: seq<string>)
    requires lines != [] && AllLines(lines)
    ensures Split(Join(lines)) == lines <==> Stable(lines)
  {
    SplitJoin(lines);
    ResplitAt(lines);
    if Stable(lines) {
      assert Resplit(lines) == lines;
    }
    if Resplit(lines) == lines {
      forall i | 0 <= i < |lines| - 1
        ensures !EndsWithCr(lines[i])
      {
        assert lines[i] == DropCr(lines[i]);
      }
    }
  }

  /** Two texts joined from lines are equal only when the lines are. */
  lemma {:induction false} JoinInjective(a: seq<string>, b: seq<string>)
    requires |a| == |b| && AllLines(a) && AllLines(b)
    requires Join(a) == Join(b)
    ensures a == b
  {
    if |a| > 1 {
      var ra, rb := a[0] + "\n" + Join(a[1..]), b[0] + "\n" + Join(b[1..]);
      assert ra[|a[0]|] == '\n' && rb[|b[0]|] == '\n';
      assert a[0] == ra[..|a[0]|] == b[0];
      assert Join(a[1..]) == ra[|a[0]| + 1..] == rb[|b[0]| + 1..] == Join(b[1..]);
      JoinInjective(a[1..], b[1..]);
      assert a == [a[0]] + a[1..] && b == [b[0]] + b[1..];
    }
  }

  /** A carriage return that is not half of a single CRLF. */
  predicate StrayCr(text: string) {
    || EndsWithCr(text)
    || exists i | 0 <= i < |text| - 1 :: text[i] == '\r' && text[i + 1] != '\n'
  }

  /** In a text without stray carriage returns, no line holds one. */
  lemma {:induction false} SplitWithoutStrayCr(text: string)
    requires !StrayCr(text)
    ensures forall i | 0 <= i < |Split(text)| :: '\r' !in Split(text)[i]
  {
    if text == "" {
    } else {
      var k := if text[0] == '\r' then 2 else 1;
      assert text[0] == '\r' ==> |text| > 1 && text[1] == '\n';
      assert forall i | 0 <= i < |text[k..]| :: text[k..][i] == text[i + k];
      assert !StrayCr(text[k..]);
      SplitWithoutStrayCr(text[k..]);
    }
  }

  /** Splitting lines that were joined and ended with a line feed. */
  lemma {:induction false} SplitEnded(lines: seq<string>)
    requires lines != [] && AllLines(lines) && forall i | 0 <= i < |lines| :: '\r' !in lines[i]
    ensures Split(Join(lines) + "\n") == lines + [""]
  {
    hide Split;
    var rest := if |lines| == 1 then "" else Join(lines[1..]) + "\n";
    SplitAtFeed(lines[0], rest);
    assert DropCr(lines[0]) == lines[0];
    if |lines| == 1 {
      SplitLine("");
      assert Join(lines) + "\n" == lines[0] + "\n" + rest;
      assert lines + [""] == [lines[0]] + [""];
    } else {
      SplitEnded(lines[1..]);
      assert Join(lines) + "\n" == lines[0] + "\n" + rest;
      assert lines + [""] == [lines[0]] + (lines[1..] + [""]);
    }
  }
}
