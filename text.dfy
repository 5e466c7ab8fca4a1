/** The Python string operations the command reader relies on:
    `str.split(sep)`, `sep.join(parts)`, `str.rstrip()` and the lines
    `readline` returns one after another. */
module Text {

  /** `sep.join(parts)` for a one-character separator. */
  function Join(parts: seq<string>, sep: char): string
  {
    if |parts| == 0 then ""
    else if |parts| == 1 then parts[0]
    else parts[0] + [sep] + Join(parts[1..], sep)
  }

  /** `s.split(sep)`: the maximal separator-free pieces, empty ones
      included, so there is always at least one. */
  function Split(s: string, sep: char): (parts: seq<string>)
    ensures |parts| >= 1
  {
    if s == [] then [""]
    else if s[0] == sep then [""] + Split(s[1..], sep)
    else
      var rest := Split(s[1..], sep);
      [[s[0]] + rest[0]] + rest[1..]
  }

  /** No piece holds the separator. */
  lemma {:induction false} SplitPieces(s: string, sep: char)
    ensures forall k | 0 <= k < |Split(s, sep)| :: sep !in Split(s, sep)[k]
  {
    if s != [] {
      SplitPieces(s[1..], sep);
      var rest := Split(s[1..], sep);
      var parts := Split(s, sep);
      if s[0] == sep {
        assert forall k | 1 <= k < |parts| :: parts[k] == rest[k - 1];
      } else {
        assert forall k | 1 <= k < |parts| :: parts[k] == rest[k];
        assert parts[0] == [s[0]] + rest[0];
      }
    }
  }

  /** Splitting and joining back gives the text itself. */
  lemma {:induction false} SplitJoin(s: string, sep: char)
    ensures Join(Split(s, sep), sep) == s
  {
    if s != [] {
      SplitJoin(s[1..], sep);
      var rest := Split(s[1..], sep);
      if s[0] == sep {
        assert Join([""] + rest, sep) == "" + [sep] + Join(rest, sep) by {
          assert ([""] + rest)[1..] == rest;
        }
      } else if |rest| == 1 {
        assert s == [s[0]] + s[1..];
      } else {
        var parts := [[s[0]] + rest[0]] + rest[1..];
        assert parts[1..] == rest[1..];
        assert Join(rest, sep) == rest[0] + [sep] + Join(rest[1..], sep);
        assert s == [s[0]] + s[1..];
      }
    }
  }

  lemma {:induction false} SplitPiece(w: string, sep: char)
    requires sep !in w
    ensures Split(w, sep) == [w]
  {
    if w != [] {
      SplitPiece(w[1..], sep);
      assert w == [w[0]] + w[1..];
    }
  }

  lemma {:induction false} SplitFirst(w: string, t: string, sep: char)
    requires sep !in w
    ensures Split(w + [sep] + t, sep) == [w] + Split(t, sep)
  {
    if w == [] {
      assert w + [sep] + t == [sep] + t;
      assert ([sep] + t)[1..] == t;
    } else {
      SplitFirst(w[1..], t, sep);
      assert (w + [sep] + t)[1..] == w[1..] + [sep] + t;
      assert w == [w[0]] + w[1..];
    }
  }

  /** Joining separator-free pieces and splitting again gives the pieces. */
  lemma {:induction false} JoinSplit(parts: seq<string>, sep: char)
    requires |parts| >= 1
    requires forall k | 0 <= k < |parts| :: sep !in parts[k]
    ensures Split(Join(parts, sep), sep) == parts
  {
    if |parts| == 1 {
      SplitPiece(parts[0], sep);
    } else {
      JoinSplit(parts[1..], sep);
      SplitFirst(parts[0], Join(parts[1..], sep), sep);
      assert parts == [parts[0]] + parts[1..];
    }
  }

  /** `str.isspace()` for one character: the whitespace `rstrip` removes. */
  predicate IsSpace(c: char)
  {
    var n := c as int;
    n == 0x20 || 0x09 <= n <= 0x0D || 0x1C <= n <= 0x1F || n == 0x85 || n == 0xA0 ||
    n == 0x1680 || 0x2000 <= n <= 0x200A || n == 0x2028 || n == 0x2029 ||
    n == 0x202F || n == 0x205F || n == 0x3000
  }

  /** `s.rstrip()`: the longest prefix of s that does not end in whitespace
      and after which only whitespace follows. */
  function RStrip(s: string): (t: string)
    ensures t <= s
    ensures forall k | |t| <= k < |s| :: IsSpace(s[k])
    ensures t == [] || !IsSpace(t[|t| - 1])
  {
    if s != [] && IsSpace(s[|s| - 1]) then RStrip(s[..|s| - 1]) else s
  }

  function Concat(lines: seq<string>): string
  {
    if lines == [] then "" else lines[0] + Concat(lines[1..])
  }

  /** The successive results of `readline` on a text, up to the first empty
      one. */
  function ReadLines(text: string): seq<string>
  {
    if text == [] then []
    else
      var rest := ReadLines(text[1..]);
      if text[0] == '\n' || rest == [] then [[text[0]]] + rest
      else [[text[0]] + rest[0]] + rest[1..]
  }

  /** Each line is non-empty, holds a newline only as its last character,
      and every line but the last ends in one. */
  predicate LinesShaped(lines: seq<string>)
  {
    (forall k | 0 <= k < |lines| :: lines[k] != [] && '\n' !in lines[k][..|lines[k]| - 1]) &&
    (forall k | 0 <= k < |lines| - 1 :: lines[k][|lines[k]| - 1] == '\n')
  }

  lemma {:induction false} ReadLinesShape(text: string)
    ensures LinesShaped(ReadLines(text))
  {
    if text != [] {
      ReadLinesShape(text[1..]);
      var rest := ReadLines(text[1..]);
      var lines := ReadLines(text);
      if text[0] == '\n' || rest == [] {
        assert lines == [[text[0]]] + rest;
        forall k | 1 <= k < |lines|
          ensures lines[k] != [] && '\n' !in lines[k][..|lines[k]| - 1]
          ensures k < |lines| - 1 ==> lines[k][|lines[k]| - 1] == '\n'
        {
          assert lines[k] == rest[k - 1];
        }
      } else {
        assert lines == [[text[0]] + rest[0]] + rest[1..];
        assert lines[0][..|lines[0]| - 1] == [text[0]] + rest[0][..|rest[0]| - 1];
        forall k | 1 <= k < |lines|
          ensures lines[k] != [] && '\n' !in lines[k][..|lines[k]| - 1]
          ensures k < |lines| - 1 ==> lines[k][|lines[k]| - 1] == '\n'
        {
          assert lines[k] == rest[k];
        }
      }
    }
  }

  /** Reading every line gives back the whole text. */
  lemma {:induction false} ReadLinesConcat(text: string)
    ensures Concat(ReadLines(text)) == text
  {
    if text != [] {
      ReadLinesConcat(text[1..]);
      var rest := ReadLines(text[1..]);
      var lines := ReadLines(text);
      var c := text[0];
      if c == '\n' || rest == [] {
        assert lines == [[c]] + rest;
        assert lines[1..] == rest;
        assert Concat(lines) == [c] + Concat(rest);
      } else {
        assert lines == [[c] + rest[0]] + rest[1..];
        assert lines[1..] == rest[1..];
        assert Concat(rest) == rest[0] + Concat(rest[1..]);
        assert Concat(lines) == ([c] + rest[0]) + Concat(rest[1..]);
      }
      assert text == [c] + text[1..];
    }
  }

  /** A line followed by a newline is read first, up to and with the
      newline; the rest of the text is read after it. */
  lemma {:induction false} ReadLinesFirst(w: string, t: string)
    requires '\n' !in w
    ensures ReadLines(w + "\n" + t) == [w + "\n"] + ReadLines(t)
  {
    if w == [] {
      assert w + "\n" + t == "\n" + t;
      assert ("\n" + t)[1..] == t;
    } else {
      ReadLinesFirst(w[1..], t);
      var text := w + "\n" + t;
      assert text[0] == w[0] && w[0] != '\n';
      assert text[1..] == w[1..] + "\n" + t;
      var rest := ReadLines(text[1..]);
      assert rest[0] == w[1..] + "\n" && rest[1..] == ReadLines(t);
      assert [w[0]] + (w[1..] + "\n") == w + "\n";
    }
  }

  /** A text without a newline is read as one line. */
  lemma {:induction false} ReadLinesLast(w: string)
    requires w != [] && '\n' !in w
    ensures ReadLines(w) == [w]
  {
    assert w[0] != '\n';
    if |w| > 1 {
      ReadLinesLast(w[1..]);
      assert w == [w[0]] + w[1..];
    } else {
      assert w[1..] == [] && w == [w[0]];
    }
  }

  /** Lines without newlines, joined with newlines, are read back one by
      one, each but the last with its newline. */
  lemma {:induction false} ReadLinesJoin(ls: seq<string>)
    requires |ls| >= 1
    requires forall k | 0 <= k < |ls| :: ls[k] != [] && '\n' !in ls[k]
    ensures |ReadLines(Join(ls, '\n'))| == |ls|
    ensures forall k | 0 <= k < |ls| - 1 :: ReadLines(Join(ls, '\n'))[k] == ls[k] + "\n"
    ensures ReadLines(Join(ls, '\n'))[|ls| - 1] == ls[|ls| - 1]
  {
    if |ls| == 1 {
      ReadLinesLast(ls[0]);
    } else {
      ReadLinesJoin(ls[1..]);
      ReadLinesFirst(ls[0], Join(ls[1..], '\n'));
      assert Join(ls, '\n') == ls[0] + "\n" + Join(ls[1..], '\n');
      var lines := ReadLines(Join(ls, '\n'));
      forall k | 1 <= k < |ls| - 1
        ensures lines[k] == ls[k] + "\n"
      {
        assert lines[k] == ReadLines(Join(ls[1..], '\n'))[k - 1] && ls[k] == ls[1..][k - 1];
      }
    }
  }

  /** A line that does not end in whitespace is left alone by `rstrip`, and
      so is it with its newline stripped. */
  lemma RStripLine(l: string)
    requires l == [] || !IsSpace(l[|l| - 1])
    ensures RStrip(l) == l && RStrip(l + "\n") == l
  {
    assert (l + "\n")[..|l|] == l;
  }
}
