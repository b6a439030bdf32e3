/** The writer that indents hook output for display (progress.go). */
module IndentWriter {
  import opened Io
  import opened Text

  /** Every character of p, with the indent in front of each that starts a line. */
  function Indented(indent: string, atBOL: bool, p: string): string
    decreases |p|
  {
    if p == "" then ""
    else (if atBOL then indent else "") + [p[0]] + Indented(indent, p[0] == '\n', p[1..])
  }

  function AtBOL(atBOL: bool, p: string): bool {
    if p == "" then atBOL else p[|p| - 1] == '\n'
  }

  /** One write after another is one write of both. */
  lemma {:induction false} WritesCompose(indent: string, atBOL: bool, p: string, q: string)
    ensures Indented(indent, atBOL, p + q) ==
      Indented(indent, atBOL, p) + Indented(indent, AtBOL(atBOL, p), q)
    ensures AtBOL(AtBOL(atBOL, p), q) == AtBOL(atBOL, p + q)
    decreases |p|
  {
    if p == "" {
      assert p + q == q;
    } else {
      assert (p + q)[1..] == p[1..] + q;
      WritesCompose(indent, p[0] == '\n', p[1..], q);
      Associative((if atBOL then indent else "") + [p[0]], Indented(indent, p[0] == '\n', p[1..]),
                  Indented(indent, AtBOL(atBOL, p), q));
    }
  }

  /** Within a line, or within one up to its end, the text is passed on as it is. */
  lemma {:induction false} LineAsIs(indent: string, p: string, q: string)
    requires p != "" && '\n' !in p[..|p| - 1]
    ensures Indented(indent, false, p + q) == p + Indented(indent, p[|p| - 1] == '\n', q)
  {
    assert (p + q)[1..] == p[1..] + q;
    if |p| > 1 {
      assert p[0] != '\n' && p == [p[0]] + p[1..];
      assert forall k :: 0 <= k < |p| - 2 ==> p[1..][k] == p[..|p| - 1][k + 1];
      LineAsIs(indent, p[1..], q);
    } else {
      assert p[1..] + q == q && p == [p[0]];
      assert "" + [p[0]] == p;
    }
  }

  function IndentLines(indent: string, lines: seq<string>): string
    requires |lines| >= 1
  {
    if |lines| == 1 then if lines[0] == "" then "" else indent + lines[0]
    else indent + lines[0] + "\n" + IndentLines(indent, lines[1..])
  }

  lemma OnlyLine(indent: string, p: string)
    requires p != "" && '\n' !in p
    ensures Indented(indent, true, p) == indent + p
  {
    assert p + "" == p && forall c :: c in p[..|p| - 1] ==> c in p;
    LineAsIs(indent, p, "");
    IndentFirst(indent, p);
  }

  lemma FirstLine(indent: string, line: string, rest: string)
    requires '\n' !in line
    ensures Indented(indent, true, line + "\n" + rest) == indent + line + "\n" + Indented(indent, true, rest)
  {
    var first := line + "\n";
    assert first[..|first| - 1] == line;
    LineAsIs(indent, first, rest);
    IndentFirst(indent, first + rest);
    Associative(indent, line, "\n");
    Associative(indent, first, Indented(indent, true, rest));
  }

  /** Seen as lines: each gets the indent, apart from an empty piece after the last newline. */
  lemma {:induction false} EveryLineIndented(indent: string, p: string)
    ensures Indented(indent, true, p) == IndentLines(indent, Split(p, '\n'))
    decreases |p|
  {
    var i := IndexByte(p, '\n');
    if i < 0 {
      if p != "" {
        OnlyLine(indent, p);
      }
    } else {
      EveryLineIndented(indent, p[i + 1..]);
      assert p == p[..i] + "\n" + p[i + 1..];
      FirstLine(indent, p[..i], p[i + 1..]);
    }
  }

  lemma IndentFirst(indent: string, p: string)
    requires p != ""
    ensures Indented(indent, true, p) == indent + Indented(indent, false, p)
  {
    var rest := Indented(indent, p[0] == '\n', p[1..]);
    assert "" + [p[0]] == [p[0]];
    Associative(indent, [p[0]], rest);
  }

  class Writer {
    const w: Sink
    const indent: string
    var atBOL: bool

    constructor (w: Sink, indent: string)
      ensures this.w == w && this.indent == indent && atBOL
    {
      this.w, this.indent, atBOL := w, indent, true;
    }

    /** What will have come out when rest is written too. */
    ghost function Outcome(rest: string): string
      reads this, w
    {
      w.out + Indented(indent, atBOL, rest)
    }

    ghost function Spare(rest: string): int
      reads this, w
    {
      w.room - |Indented(indent, atBOL, rest)|
    }

    /** Writes the indent if rest starts a line. */
    method StartLine(rest: string) returns (ok: bool)
      requires rest != ""
      modifies this, w
      ensures ok ==> Outcome(rest) == old(Outcome(rest)) && Spare(rest) == old(Spare(rest)) && !atBOL
      ensures !ok ==> w.out <= old(Outcome(rest)) && w.room == 0 && old(Spare(rest)) < 0
    {
      if !atBOL {
        return true;
      }
      IndentFirst(indent, rest);
      ghost var out, line := w.out, Indented(indent, false, rest);
      var m, fits := w.Write(indent);
      PutPrefix(out, indent, m, line);
      if fits {
        atBOL := false;
      } else {
        assert w.room == 0;
      }
      return fits;
    }

    /** Writes rest up to the end of its first line. */
    method FinishLine(rest: string) returns (m: nat, ok: bool)
      requires rest != "" && !atBOL
      modifies this, w
      ensures m <= |rest|
      ensures ok ==> 0 < m && Outcome(rest[m..]) == old(Outcome(rest)) && Spare(rest[m..]) == old(Spare(rest))
      ensures ok ==> atBOL == AtBOL(false, rest[..m]) && (atBOL || m == |rest|)
      ensures !ok ==> m < |rest| && w.out <= old(Outcome(rest)) && w.room == 0 && old(Spare(rest)) < 0
    {
      var idx := IndexByte(rest, '\n');
      var piece := if idx < 0 then rest else rest[..idx + 1];
      PieceOf(rest, idx, piece);
      LineAsIs(indent, piece, rest[|piece|..]);
      ghost var out, tail := w.out, Indented(indent, 0 <= idx, rest[|piece|..]);
      var n, fits := w.Write(piece);
      PutPrefix(out, piece, n, tail);
      if fits && 0 <= idx {
        atBOL := true;
      }
      return n, fits;
    }

    /** Without a write error the whole of p comes out indented; with one, a first part of that. */
    method Write(p: string) returns (written: nat, ok: bool)
      modifies this, w
      ensures ok <==> |Indented(indent, old(atBOL), p)| <= old(w.room)
      ensures ok ==> written == |p| && w.out == old(w.out) + Indented(indent, old(atBOL), p)
      ensures ok ==> atBOL == AtBOL(old(atBOL), p)
      ensures !ok ==> written < |p| && w.room == 0
      ensures !ok ==> w.out <= old(w.out) + Indented(indent, old(atBOL), p)
    {
      written := 0;
      var rest := p;
      while |rest| > 0
        invariant Outcome(rest) == old(Outcome(p)) && Spare(rest) == old(Spare(p))
        invariant written + |rest| == |p|
        invariant AtBOL(atBOL, rest) == AtBOL(old(atBOL), p)
        decreases |rest|
      {
        var started := StartLine(rest);
        if !started {
          return written, false;
        }
        var m, finished := FinishLine(rest);
        written := written + m;
        if !finished {
          return written, false;
        }
        rest := rest[m..];
      }
      assert w.out + "" == w.out;
      return written, true;
    }
  }

  lemma PieceOf(rest: string, idx: int, piece: string)
    requires rest != "" && idx == IndexByte(rest, '\n')
    requires piece == if idx < 0 then rest else rest[..idx + 1]
    ensures |piece| <= |rest| && piece != "" && rest == piece + rest[|piece|..] && '\n' !in piece[..|piece| - 1]
    ensures piece[|piece| - 1] == '\n' <==> 0 <= idx
  {
    assert 0 <= idx ==> piece[..|piece| - 1] == rest[..idx];
    assert idx < 0 ==> forall c :: c in piece[..|piece| - 1] ==> c in rest;
  }
}
