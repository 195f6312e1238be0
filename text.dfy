/**
  String helpers the Markdown serialiser and the collection lookups rely on:
  indentation by `ONE_INDENTATION_LEVEL`, Ruby's `String#each_line`,
  joining attributes with ", ", and `String#downcase`.
 */
module Text {

  /** `BlueprintNode::ONE_INDENTATION_LEVEL`: four spaces. */
  const IndentUnit: string := "    "

  /** `level` copies of the indentation unit. */
  function Indent(level: nat): (r: string)
    ensures |r| == 4 * level
    ensures forall i | 0 <= i < |r| :: r[i] == ' '
  {
    if level == 0 then "" else Indent(level - 1) + IndentUnit
  }

  /** `level.times { buffer << ONE_INDENTATION_LEVEL }` */
  method AppendIndent(buffer: string, level: nat) returns (r: string)
    ensures r == buffer + Indent(level)
  {
    r := buffer;
    var n := 0;
    while n < level
      invariant 0 <= n <= level
      invariant r == buffer + Indent(n)
    {
      r := r + IndentUnit;
      n := n + 1;
    }
  }

  /** Appending to a buffer piece by piece or all at once gives the same text. */
  lemma AppendAssoc(a: string, b: string, c: string)
    ensures a + (b + c) == (a + b) + c
  {
  }

  function Concat(ss: seq<string>): string {
    if ss == [] then "" else ss[0] + Concat(ss[1..])
  }

  lemma {:induction false} ConcatSnoc(ss: seq<string>, s: string)
    ensures Concat(ss + [s]) == Concat(ss) + s
  {
    if ss != [] {
      assert (ss + [s])[1..] == ss[1..] + [s];
      ConcatSnoc(ss[1..], s);
    }
  }

  predicate EndsWithNewline(s: string) {
    s != "" && s[|s| - 1] == '\n'
  }

  /** A line as `each_line` yields it: non-empty, with a newline at most at its end. */
  predicate IsLine(l: string) {
    l != "" && forall j | 0 <= j < |l| - 1 :: l[j] != '\n'
  }

  /** The index of the first newline of `s`, or `|s|` if there is none. */
  function NewlineIndex(s: string): (n: nat)
    ensures n <= |s|
    ensures forall j | 0 <= j < n :: s[j] != '\n'
    ensures n < |s| ==> s[n] == '\n'
  {
    if s == "" || s[0] == '\n' then 0 else 1 + NewlineIndex(s[1..])
  }

  /**
    `String#each_line` (and `String#lines`): the pieces of `s` that end just
    after each newline, and a last piece without one if `s` does not end in a
    newline.  Gluing the lines back together gives `s`.
   */
  function Lines(s: string): seq<string>
    decreases |s|
  {
    if s == "" then []
    else
      var n := NewlineIndex(s);
      if n == |s| then [s] else [s[..n + 1]] + Lines(s[n + 1..])
  }

  /**
    The lines of `s` glue back together to `s`; there are none only for the
    empty text; each is a line, every one but the last ends with a newline,
    and the last ends with one exactly when `s` does.
   */
  lemma LinesSplit(s: string)
    ensures Concat(Lines(s)) == s
    ensures Lines(s) == [] <==> s == ""
    ensures forall i | 0 <= i < |Lines(s)| :: IsLine(Lines(s)[i])
    ensures forall i | 0 <= i < |Lines(s)| - 1 :: EndsWithNewline(Lines(s)[i])
    ensures Lines(s) != [] ==> (EndsWithNewline(Lines(s)[|Lines(s)| - 1]) <==> EndsWithNewline(s))
  {
    LinesConcat(s);
    LinesAreLines(s);
    LinesLast(s);
  }

  lemma {:induction false} LinesConcat(s: string)
    ensures Concat(Lines(s)) == s
    ensures Lines(s) == [] <==> s == ""
    decreases |s|
  {
    if s != "" {
      var n := NewlineIndex(s);
      if n == |s| {
        assert Concat([s]) == s + Concat([]);
      } else {
        var rest := s[n + 1..];
        LinesConcat(rest);
        var r := Lines(s);
        assert r[1..] == Lines(rest);
        assert s[..n + 1] + rest == s;
      }
    }
  }

  lemma {:induction false} LinesAreLines(s: string)
    ensures forall i | 0 <= i < |Lines(s)| :: IsLine(Lines(s)[i])
    ensures forall i | 0 <= i < |Lines(s)| - 1 :: EndsWithNewline(Lines(s)[i])
    decreases |s|
  {
    if s != "" {
      var n := NewlineIndex(s);
      if n < |s| {
        var rest := s[n + 1..];
        LinesAreLines(rest);
        var r := Lines(s);
        assert IsLine(r[0]) && EndsWithNewline(r[0]);
        forall i | 1 <= i < |r| ensures r[i] == Lines(rest)[i - 1] { }
      }
    }
  }

  lemma {:induction false} LinesLast(s: string)
    ensures Lines(s) != [] ==> (EndsWithNewline(Lines(s)[|Lines(s)| - 1]) <==> EndsWithNewline(s))
    decreases |s|
  {
    if s != "" {
      var n := NewlineIndex(s);
      if n < |s| {
        var rest := s[n + 1..];
        LinesLast(rest);
        LinesConcat(rest);
        var r := Lines(s);
        if rest == "" {
          assert |r| == 1;
        } else {
          assert r[|r| - 1] == Lines(rest)[|Lines(rest)| - 1];
          assert s[|s| - 1] == rest[|rest| - 1];
        }
      }
    }
  }

  predicate NoNewline(s: string) {
    forall j | 0 <= j < |s| :: s[j] != '\n'
  }

  /** Text without a newline, ended by one, is a whole line. */
  lemma LineOf(l: string)
    requires NoNewline(l)
    ensures IsLine(l + "\n") && EndsWithNewline(l + "\n")
  {
    var h := l + "\n";
    forall j | 0 <= j < |h| - 1 ensures h[j] != '\n' {
      assert h[j] == l[j];
    }
  }

  /** A text that starts with a whole line has that line as its first line. */
  lemma FirstLine(h: string, s: string)
    requires IsLine(h) && EndsWithNewline(h)
    requires |h| <= |s| && s[..|h|] == h
    ensures Lines(s) != [] && Lines(s)[0] == h
  {
    assert h + s[|h|..] == s;
    LinesCons(h, s[|h|..]);
  }

  /** A line-prefixed piece followed by more text splits into that line and the lines of the rest. */
  lemma LinesCons(l: string, t: string)
    requires IsLine(l) && EndsWithNewline(l)
    ensures Lines(l + t) == [l] + Lines(t)
  {
    var s := l + t;
    var n := NewlineIndex(s);
    assert n == |l| - 1 by {
      assert s[|l| - 1] == '\n';
      forall j | 0 <= j < |l| - 1 ensures s[j] != '\n' { assert s[j] == l[j]; }
    }
    assert s[..n + 1] == l;
    assert s[n + 1..] == t;
  }

  /** The text of `ls`, each line prefixed by `level` indentation units (the loops over `each_line`). */
  function IndentLines(level: nat, ls: seq<string>): string {
    if ls == [] then "" else IndentLines(level, ls[..|ls| - 1]) + Indent(level) + ls[|ls| - 1]
  }

  /** `s.each_line { |line| level.times { buffer << ONE_INDENTATION_LEVEL }; buffer << line }` */
  function IndentBlock(level: nat, s: string): string {
    IndentLines(level, Lines(s))
  }

  lemma {:induction false} IndentLinesCons(level: nat, l: string, ls: seq<string>)
    ensures IndentLines(level, [l] + ls) == Indent(level) + l + IndentLines(level, ls)
    decreases |ls|
  {
    if ls != [] {
      var init := ls[..|ls| - 1];
      assert ([l] + ls)[..|[l] + ls| - 1] == [l] + init;
      IndentLinesCons(level, l, init);
    } else {
      assert ([l] + ls)[..0] == [];
    }
  }

  /** An indented block ends with a newline exactly when the text does. */
  lemma IndentBlockEnds(level: nat, s: string)
    requires s != ""
    ensures EndsWithNewline(IndentBlock(level, s)) <==> EndsWithNewline(s)
  {
    LinesSplit(s);
    var ls := Lines(s);
    var last := ls[|ls| - 1];
    var b := IndentBlock(level, s);
    assert b == IndentLines(level, ls[..|ls| - 1]) + Indent(level) + last;
    assert IsLine(last);
    assert b[|b| - 1] == last[|last| - 1];
  }

  /** Strips `4 * level` leading characters from every line of `t` (those that have them). */
  function Unindent(level: nat, t: string): string {
    UnindentLines(level, Lines(t))
  }

  function UnindentLines(level: nat, ls: seq<string>): string {
    if ls == [] then ""
    else (if |ls[0]| >= 4 * level then ls[0][4 * level..] else ls[0]) + UnindentLines(level, ls[1..])
  }

  /**
    Indenting a block is lossless: removing `level` indentation units from the
    start of every line of the indented text gives the original text back.
   */
  lemma IndentBlockRoundTrip(level: nat, s: string)
    ensures Unindent(level, IndentBlock(level, s)) == s
  {
    LinesSplit(s);
    IndentedLinesRoundTrip(level, Lines(s));
  }

  lemma {:induction false} IndentedLinesRoundTrip(level: nat, ls: seq<string>)
    requires forall i | 0 <= i < |ls| :: IsLine(ls[i])
    requires forall i | 0 <= i < |ls| - 1 :: EndsWithNewline(ls[i])
    ensures Unindent(level, IndentLines(level, ls)) == Concat(ls)
  {
    if ls != [] {
      var l := ls[0];
      var head := Indent(level) + l;
      assert IsLine(head) by {
        forall j | 0 <= j < |head| - 1 ensures head[j] != '\n' {
          if j >= |Indent(level)| { assert head[j] == l[j - |Indent(level)|]; }
        }
      }
      IndentLinesCons(level, l, ls[1..]);
      assert [l] + ls[1..] == ls;
      IndentedLinesRoundTrip(level, ls[1..]);
      if |ls| == 1 {
        assert IndentLines(level, ls) == head;
        assert Lines(head) == [head] by {
          if EndsWithNewline(head) {
            LinesCons(head, "");
            assert head + "" == head;
          }
        }
        assert head[4 * level..] == l;
        assert [head][1..] == [];
        assert Unindent(level, head) == l + UnindentLines(level, []);
        assert Concat(ls) == l + Concat([]);
      } else {
        assert EndsWithNewline(head);
        LinesCons(head, IndentLines(level, ls[1..]));
        assert head[4 * level..] == l;
      }
    }
  }

  /** `parts` separated by `sep`. */
  function Join(parts: seq<string>, sep: string): string {
    if parts == [] then "" else if |parts| == 1 then parts[0] else parts[0] + sep + Join(parts[1..], sep)
  }

  lemma {:induction false} JoinSnoc(parts: seq<string>, last: string, sep: string)
    ensures Join(parts + [last], sep) == if parts == [] then last else Join(parts, sep) + sep + last
  {
    if |parts| > 1 {
      assert (parts + [last])[1..] == parts[1..] + [last];
      JoinSnoc(parts[1..], last, sep);
    } else if |parts| == 1 {
      assert (parts + [last])[1..] == [last];
    }
  }

  /** A join of non-empty pieces is empty only when there are no pieces. */
  lemma JoinEmpty(parts: seq<string>, sep: string)
    requires forall i | 0 <= i < |parts| :: parts[i] != ""
    ensures Join(parts, sep) == "" <==> parts == []
  {
    if parts != [] {
      assert |Join(parts, sep)| >= |parts[0]| by { JoinHead(parts, sep); }
    }
  }

  lemma JoinHead(parts: seq<string>, sep: string)
    requires parts != []
    ensures Join(parts, sep)[..|parts[0]|] == parts[0]
  {
  }

  /** `String#downcase` on ASCII letters. */
  function Downcase(s: string): string {
    seq(|s|, i requires 0 <= i < |s| => LowerChar(s[i]))
  }

  function LowerChar(c: char): char {
    if 'A' <= c <= 'Z' then (c as int - 'A' as int + 'a' as int) as char else c
  }

  /**
    The index of the first element whose key, as `keyOf` reads it, is `key`,
    or `|xs|` when no element has it.
   */
  function FirstKeyed<T>(xs: seq<T>, keyOf: T -> string, key: string): (i: nat)
    ensures i <= |xs|
    ensures forall j | 0 <= j < i :: keyOf(xs[j]) != key
    ensures i < |xs| ==> keyOf(xs[i]) == key
  {
    if xs == [] || keyOf(xs[0]) == key then 0 else 1 + FirstKeyed(xs[1..], keyOf, key)
  }
}
