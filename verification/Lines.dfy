/** Texts and their lines, as JavaScript's split, join, trim, startsWith and endsWith see them. */
module Lines {
  datatype Line = Line(text: string)

  const NL := '\n'

  predicate IsSpace(c: char) {
    || '\t' <= c <= '\r' || c == ' ' || c == '\U{00a0}' || c == '\U{1680}' || '\U{2000}' <= c <= '\U{200a}'
    || c == '\U{2028}' || c == '\U{2029}' || c == '\U{202f}' || c == '\U{205f}' || c == '\U{3000}' || c == '\U{feff}'
  }

  /** The 25 characters that are trimmed: tab to carriage return, the spaces, the two separators and the byte order
    * mark. */
  lemma SpaceIff(c: char)
    ensures IsSpace(c) <==> c as int in {
      9, 10, 11, 12, 13, 32, 160, 5760, 8192, 8193, 8194, 8195, 8196, 8197, 8198, 8199, 8200, 8201, 8202,
      8232, 8233, 8239, 8287, 12288, 65279}
  {
  }

  /** A text cut at every line end; there is always at least one line. */
  function Split(text: string): (lines: seq<Line>)
    ensures lines != [] && forall l | l in lines :: NL !in l.text
  {
    if text == [] then [Line([])]
    else
      var rest := Split(text[1..]);
      if text[0] == NL then [Line([])] + rest
      else [Line([text[0]] + rest[0].text)] + rest[1..]
  }

  function Join(lines: seq<Line>): string {
    if lines == [] then []
    else if |lines| == 1 then lines[0].text
    else lines[0].text + [NL] + Join(lines[1..])
  }

  lemma {:induction false} JoinSplit(text: string)
    ensures Join(Split(text)) == text
  {
    if text != [] {
      var rest := Split(text[1..]);
      JoinSplit(text[1..]);
      if text[0] == NL {
        assert ([Line([])] + rest)[1..] == rest;
        assert text == [NL] + text[1..];
      } else {
        JoinFirst(rest, text[0]);
        assert text == [text[0]] + text[1..];
      }
    }
  }

  lemma JoinFirst(lines: seq<Line>, c: char)
    requires lines != []
    ensures Join([Line([c] + lines[0].text)] + lines[1..]) == [c] + Join(lines)
  {
    var more := [Line([c] + lines[0].text)] + lines[1..];
    assert more[1..] == lines[1..];
    if |lines| > 1 {
      assert [c] + lines[0].text + [NL] + Join(lines[1..]) == [c] + (lines[0].text + [NL] + Join(lines[1..]));
    }
  }

  lemma {:induction false} SplitOne(s: string)
    requires NL !in s
    ensures Split(s) == [Line(s)]
  {
    if s != [] {
      SplitOne(s[1..]);
      assert s == [s[0]] + s[1..];
    }
  }

  lemma {:induction false} SplitCons(s: string, text: string)
    requires NL !in s
    ensures Split(s + [NL] + text) == [Line(s)] + Split(text)
  {
    var whole := s + [NL] + text;
    if s == [] {
      assert whole[1..] == text;
    } else {
      SplitCons(s[1..], text);
      assert whole[1..] == s[1..] + [NL] + text;
      assert s == [s[0]] + s[1..];
    }
  }

  lemma {:induction false} SplitJoin(lines: seq<Line>)
    requires lines != [] && forall l | l in lines :: NL !in l.text
    ensures Split(Join(lines)) == lines
  {
    if |lines| == 1 {
      SplitOne(lines[0].text);
    } else {
      SplitJoin(lines[1..]);
      SplitCons(lines[0].text, Join(lines[1..]));
    }
  }

  predicate StartsWith(s: string, prefix: string) { prefix <= s }

  predicate EndsWith(s: string, suffix: string) { |suffix| <= |s| && s[|s| - |suffix|..] == suffix }

  function TrimStart(s: string): string { if s != [] && IsSpace(s[0]) then TrimStart(s[1..]) else s }

  function TrimEnd(s: string): string {
    if s != [] && IsSpace(s[|s| - 1]) then TrimEnd(s[..|s| - 1]) else s
  }

  function Trim(s: string): string { TrimEnd(TrimStart(s)) }

  lemma {:induction false} JoinSnoc(lines: seq<Line>, last: Line)
    requires lines != []
    ensures Join(lines + [last]) == Join(lines) + [NL] + last.text
  {
    var more := lines + [last];
    if |lines| == 1 {
      assert more[1..] == [last];
    } else {
      JoinSnoc(lines[1..], last);
      assert more[1..] == lines[1..] + [last];
      assert lines[0].text + [NL] + (Join(lines[1..]) + [NL] + last.text) == Join(lines) + [NL] + last.text;
    }
  }

  /** Whether the last of the lines is empty, and not the only one. */
  predicate Terminated(lines: seq<Line>) { |lines| > 1 && lines[|lines| - 1].text == [] }

  /** A text ends with a line end just when its last line is empty and not the only one. */
  lemma EndsWithNewline(text: string)
    ensures EndsWith(text, [NL]) <==> Terminated(Split(text))
  {
    var lines := Split(text);
    var front, last := lines[..|lines| - 1], lines[|lines| - 1];
    JoinSplit(text);
    assert lines == front + [last] && last in lines;
    if front != [] {
      JoinSnoc(front, last);
    }
    if text != [] && last.text != [] {
      assert text[|text| - 1] == last.text[|last.text| - 1];
    }
  }

  lemma {:induction false} TrimEndHead(s: string)
    requires s != [] && !IsSpace(s[0])
    ensures TrimEnd(s) != [] && TrimEnd(s)[0] == s[0]
  {
    if IsSpace(s[|s| - 1]) {
      TrimEndHead(s[..|s| - 1]);
    }
  }

  /** No line has a line end inside. */
  predicate Clean(lines: seq<Line>) { forall l | l in lines :: NL !in l.text }

  lemma CleanPlus(a: seq<Line>, b: seq<Line>)
    ensures Clean(a) && Clean(b) ==> Clean(a + b)
  {
  }

  lemma CleanMeans(lines: seq<Line>)
    ensures Clean(lines) ==> forall l | l in lines :: NL !in l.text
  {
  }
}
