/** Splitting text into newline-separated segments the way JavaScript's
    `text.split('\n')` does, joining them back, and the whitespace test behind
    `line.trim()` being empty. */
module Lines {

  /** The code points JavaScript's `String.prototype.trim` removes: the
      WhiteSpace and LineTerminator productions of ECMAScript. */
  predicate IsWhitespace(c: char) {
    || c == '\t' || c == '\n' || c == '\U{000B}' || c == '\U{000C}' || c == '\r' || c == ' '
    || c == '\U{00A0}' || c == '\U{1680}' || ('\U{2000}' <= c <= '\U{200A}')
    || c == '\U{2028}' || c == '\U{2029}' || c == '\U{202F}' || c == '\U{205F}'
    || c == '\U{3000}' || c == '\U{FEFF}'
  }

  /** `s.trim()` is the empty string (falsy) exactly when every character
      is whitespace; the test the decoder applies to each line. */
  function IsBlank(s: string): (b: bool)
    ensures b <==> Trim(s) == []
  {
    TrimAllWhitespace(s);
    forall i | 0 <= i < |s| :: IsWhitespace(s[i])
  }

  /** `s.trimStart()`: leading whitespace removed. */
  function TrimStart(s: string): (r: string)
    ensures r == [] || !IsWhitespace(r[0])
    decreases |s|
  {
    if s != [] && IsWhitespace(s[0]) then TrimStart(s[1..]) else s
  }

  /** `s.trimEnd()`: trailing whitespace removed, a prefix of `s` is left. */
  function TrimEnd(s: string): (r: string)
    ensures |r| <= |s| && r == s[..|r|]
    decreases |s|
  {
    if s != [] && IsWhitespace(s[|s| - 1]) then TrimEnd(s[..|s| - 1]) else s
  }

  /** `s.trim()`: whitespace removed at both ends. */
  function Trim(s: string): string {
    TrimEnd(TrimStart(s))
  }

  /** Only an all-whitespace string trims to nothing. */
  lemma TrimAllWhitespace(s: string)
    ensures Trim(s) == [] <==> forall i | 0 <= i < |s| :: IsWhitespace(s[i])
  {
    TrimStartAllWhitespace(s);
    var t := TrimStart(s);
    if t != [] {
      TrimEndKeepsFirst(t);
    }
  }

  /** Trimming the front leaves nothing exactly when every character is whitespace. */
  lemma {:induction false} TrimStartAllWhitespace(s: string)
    ensures TrimStart(s) == [] <==> forall i | 0 <= i < |s| :: IsWhitespace(s[i])
    decreases |s|
  {
    if s != [] && IsWhitespace(s[0]) {
      TrimStartAllWhitespace(s[1..]);
      assert forall i | 1 <= i < |s| :: s[i] == s[1..][i - 1];
    }
  }

  /** Trimming the end stops at a first character that is not whitespace. */
  lemma {:induction false} TrimEndKeepsFirst(s: string)
    requires s != [] && !IsWhitespace(s[0])
    ensures TrimEnd(s) != []
    decreases |s|
  {
    if IsWhitespace(s[|s| - 1]) {
      TrimEndKeepsFirst(s[..|s| - 1]);
    }
  }

  /** `s.split('\n')`: the maximal newline-free pieces of `s`, in order.
      There is always at least one piece; "" splits into [""]. */
  function Split(s: string): (r: seq<string>)
    ensures |r| >= 1
    decreases |s|
  {
    if s == [] then [[]]
    else if s[0] == '\n' then [[]] + Split(s[1..])
    else
      var t := Split(s[1..]);
      [[s[0]] + t[0]] + t[1..]
  }

  /** No piece of a split contains a newline. */
  lemma {:induction false} SplitPieces(s: string)
    ensures forall i | 0 <= i < |Split(s)| :: '\n' !in Split(s)[i]
    decreases |s|
  {
    if s != [] {
      SplitPieces(s[1..]);
      if s[0] != '\n' {
        var t := Split(s[1..]);
        assert '\n' !in t[0];
        assert Split(s) == [[s[0]] + t[0]] + t[1..];
      }
    }
  }

  /** `lines.join('\n')`. */
  function Join(lines: seq<string>): string
    decreases |lines|
  {
    if |lines| == 0 then []
    else if |lines| == 1 then lines[0]
    else lines[0] + "\n" + Join(lines[1..])
  }

  /** Every piece but the last: the lines a newline has terminated. */
  function Complete(lines: seq<string>): seq<string>
    requires |lines| >= 1
  {
    lines[..|lines| - 1]
  }

  /** The last piece: text after the final newline, not yet terminated. */
  function Partial(lines: seq<string>): string
    requires |lines| >= 1
  {
    lines[|lines| - 1]
  }

  /** Nothing is lost or added by splitting: joining the pieces with '\n'
      gives back the original text. */
  lemma {:induction false} JoinSplit(s: string)
    ensures Join(Split(s)) == s
    decreases |s|
  {
    if s == [] {
    } else if s[0] == '\n' {
      JoinSplit(s[1..]);
      var t := Split(s[1..]);
      assert Split(s) == [[]] + t;
      assert Join(Split(s)) == [] + "\n" + Join(t);
    } else {
      JoinSplit(s[1..]);
      var t := Split(s[1..]);
      if |t| == 1 {
        assert Join(Split(s)) == [s[0]] + t[0];
      } else {
        assert Join(t) == t[0] + "\n" + Join(t[1..]);
        assert Join(Split(s)) == ([s[0]] + t[0]) + "\n" + Join(t[1..]);
      }
    }
  }

  /** How `Split` unfolds on a leading character. */
  lemma SplitCons(c: char, s: string)
    ensures c == '\n' ==> Split([c] + s) == [[]] + Split(s)
    ensures c != '\n' ==> Split([c] + s) == [[c] + Split(s)[0]] + Split(s)[1..]
  {
    assert ([c] + s)[0] == c && ([c] + s)[1..] == s;
  }

  /** A newline-free prefix is glued onto the first piece of what follows it. */
  lemma {:induction false} SplitNewlineFree(a: string, y: string)
    requires '\n' !in a
    ensures Split(a + y) == [a + Split(y)[0]] + Split(y)[1..]
    decreases |a|
  {
    var t := Split(y);
    if a == [] {
      assert a + y == y && a + t[0] == t[0];
      assert t == [t[0]] + t[1..];
    } else {
      assert a + y == [a[0]] + (a[1..] + y);
      assert a[0] != '\n';
      SplitNewlineFree(a[1..], y);
      SplitCons(a[0], a[1..] + y);
      assert [a[0]] + (a[1..] + t[0]) == a + t[0];
    }
  }

  /** Splitting is the inverse of joining, for at least one newline-free piece. */
  lemma {:induction false} SplitJoin(lines: seq<string>)
    requires |lines| >= 1
    requires forall i | 0 <= i < |lines| :: '\n' !in lines[i]
    ensures Split(Join(lines)) == lines
    decreases |lines|
  {
    if |lines| == 1 {
      SplitNewlineFree(lines[0], []);
      assert lines[0] + [] == lines[0];
    } else {
      var rest := Join(lines[1..]);
      SplitJoin(lines[1..]);
      var y := "\n" + rest;
      assert y[0] == '\n' && y[1..] == rest;
      assert Split(y) == [[]] + lines[1..];
      SplitNewlineFree(lines[0], y);
      assert lines[0] + "\n" + rest == lines[0] + y;
      assert lines[0] + [] == lines[0];
    }
  }

  /** Splitting `x + y` equals the complete lines of `x` followed by the
      split of `x`'s pending piece with `y` appended. This is why a decoder
      can keep only the pending piece between reads. */
  lemma {:induction false} SplitAppend(x: string, y: string)
    ensures Split(x + y) == Complete(Split(x)) + Split(Partial(Split(x)) + y)
    decreases |x|
  {
    if x == [] {
      assert x + y == y;
      assert [] + y == y;
    } else {
      var c, x' := x[0], x[1..];
      assert x == [c] + x';
      assert x + y == [c] + (x' + y);
      SplitAppend(x', y);
      SplitAppendStep(c, x', y);
    }
  }

  /** The inductive step of SplitAppend: one leading character `c`. */
  lemma SplitAppendStep(c: char, x': string, y: string)
    requires Split(x' + y) == Complete(Split(x')) + Split(Partial(Split(x')) + y)
    ensures Split([c] + x' + y) == Complete(Split([c] + x')) + Split(Partial(Split([c] + x')) + y)
  {
    assert [c] + x' + y == [c] + (x' + y);
    SplitCons(c, x');
    SplitCons(c, x' + y);
    var t := Split(x');
    if c == '\n' {
      SplitAppendBreak(c, x', y);
    } else if |t| == 1 {
      SplitAppendGlued(c, x', y);
    } else {
      SplitAppendLong(c, x', y);
    }
  }

  /** Putting a piece in front moves only the complete lines. */
  lemma ConsPieces(piece: string, lines: seq<string>)
    requires |lines| >= 1
    ensures Complete([piece] + lines) == [piece] + Complete(lines)
    ensures Partial([piece] + lines) == Partial(lines)
  {
    assert ([piece] + lines)[..|lines|] == [piece] + lines[..|lines| - 1];
  }

  /** An empty piece in front becomes the first complete line. */
  lemma BreakPieces(lines: seq<string>, rest: seq<string>)
    requires |lines| >= 1
    ensures Partial([[]] + lines) == Partial(lines)
    ensures [[]] + (Complete(lines) + rest) == Complete([[]] + lines) + rest
  {
    ConsPieces([], lines);
    assert [[]] + (Complete(lines) + rest) == ([[]] + Complete(lines)) + rest;
  }

  /** Gluing a character onto the first of several pieces changes the first
      complete line and leaves the pending piece alone. */
  lemma GluePieces(c: char, lines: seq<string>, rest: seq<string>)
    requires |lines| > 1
    ensures var glued := [[c] + lines[0]] + lines[1..];
      && Partial(glued) == Partial(lines)
      && [[c] + (Complete(lines) + rest)[0]] + (Complete(lines) + rest)[1..] == Complete(glued) + rest
  {
    var n := |lines|;
    var glued := [[c] + lines[0]] + lines[1..];
    var front := Complete(lines);
    assert (front + rest)[0] == lines[0];
    assert (front + rest)[1..] == front[1..] + rest;
    assert Complete(glued) == [[c] + lines[0]] + front[1..];
  }

  lemma SplitAppendBreak(c: char, x': string, y: string)
    requires c == '\n'
    requires Split(x' + y) == Complete(Split(x')) + Split(Partial(Split(x')) + y)
    requires Split([c] + x') == [[]] + Split(x')
    requires Split([c] + (x' + y)) == [[]] + Split(x' + y)
    ensures Split([c] + (x' + y)) == Complete(Split([c] + x')) + Split(Partial(Split([c] + x')) + y)
  {
    var t := Split(x');
    BreakPieces(t, Split(Partial(t) + y));
  }

  lemma SplitAppendGlued(c: char, x': string, y: string)
    requires c != '\n' && |Split(x')| == 1
    requires Split(x' + y) == Complete(Split(x')) + Split(Partial(Split(x')) + y)
    requires Split([c] + x') == [[c] + Split(x')[0]] + Split(x')[1..]
    ensures Split([c] + (x' + y)) == Complete(Split([c] + x')) + Split(Partial(Split([c] + x')) + y)
  {
    var t := Split(x');
    var p := [c] + t[0];
    assert Split([c] + x') == [p];
    assert Complete(Split([c] + x')) == [] && Partial(Split([c] + x')) == p;
    assert p + y == [c] + (t[0] + y);
    SplitCons(c, t[0] + y);
    SplitCons(c, x' + y);
    assert Split(x' + y) == Split(t[0] + y);
  }

  lemma SplitAppendLong(c: char, x': string, y: string)
    requires c != '\n' && |Split(x')| > 1
    requires Split(x' + y) == Complete(Split(x')) + Split(Partial(Split(x')) + y)
    requires Split([c] + x') == [[c] + Split(x')[0]] + Split(x')[1..]
    requires Split([c] + (x' + y)) == [[c] + Split(x' + y)[0]] + Split(x' + y)[1..]
    ensures Split([c] + (x' + y)) == Complete(Split([c] + x')) + Split(Partial(Split([c] + x')) + y)
  {
    var t := Split(x');
    GluePieces(c, t, Split(Partial(t) + y));
  }

  /** Joining one more line onto a non-empty list puts a '\n' before it. */
  lemma {:induction false} JoinSnoc(lines: seq<string>, last: string)
    requires |lines| >= 1
    ensures Join(lines + [last]) == Join(lines) + "\n" + last
    decreases |lines|
  {
    if |lines| == 1 {
      assert lines + [last] == [lines[0], last];
    } else {
      assert (lines + [last])[1..] == lines[1..] + [last];
      JoinSnoc(lines[1..], last);
    }
  }

  /** After a read, the complete lines joined with '\n', then '\n' and the
      pending piece, are exactly the text that was split; with no complete
      line, the pending piece is all of it. */
  lemma CompleteThenPending(text: string)
    ensures |Split(text)| == 1 ==> Partial(Split(text)) == text
    ensures |Split(text)| > 1 ==> Join(Complete(Split(text))) + "\n" + Partial(Split(text)) == text
  {
    var lines := Split(text);
    JoinSplit(text);
    if |lines| > 1 {
      JoinSnoc(Complete(lines), Partial(lines));
      assert Complete(lines) + [Partial(lines)] == lines;
    }
  }

  /** Reading `chunk` after `text` has been read: the new complete lines are
      those of the pending piece with the chunk appended, and the new
      pending piece comes from there too. */
  lemma SplitFeed(text: string, chunk: string)
    ensures Complete(Split(text + chunk))
         == Complete(Split(text)) + Complete(Split(Partial(Split(text)) + chunk))
    ensures Partial(Split(text + chunk)) == Partial(Split(Partial(Split(text)) + chunk))
  {
    SplitAppend(text, chunk);
    var a, b := Complete(Split(text)), Split(Partial(Split(text)) + chunk);
    assert Split(text + chunk) == a + b;
    assert (a + b)[..|a + b| - 1] == a + b[..|b| - 1];
  }
}
