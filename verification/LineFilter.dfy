/** A writer that rewrites its input line by line, whatever the rewriting is. */
module LineFilter {
  import opened Text

  type Rewrite = string -> string

  datatype WriterState = WriterState(dest: string, buf: string)

  /** Lines rewritten one by one, each ended by a newline. */
  function Emit(f: Rewrite, lines: seq<string>): string {
    if lines == [] then "" else f(lines[0]) + "\n" + Emit(f, lines[1..])
  }

  /** The lines of a text split at newlines: all pieces but an empty last one. */
  function Lines(pieces: seq<string>): seq<string>
    requires |pieces| >= 1
  {
    if pieces[|pieces| - 1] == "" then pieces[..|pieces| - 1] else pieces
  }

  /** An output rewritten as a whole. */
  function Whole(f: Rewrite, output: string): string {
    Emit(f, Lines(Split(output, '\n')))
  }

  /** The complete lines of the buffer are rewritten; the piece after the last newline stays in it. */
  function Written(f: Rewrite, w: WriterState, p: string): WriterState {
    var lines := Split(w.buf + p, '\n');
    WriterState(w.dest + Emit(f, lines[..|lines| - 1]), lines[|lines| - 1])
  }

  function Flushed(f: Rewrite, w: WriterState): WriterState {
    if w.buf == "" then w else WriterState(w.dest + (f(w.buf) + "\n"), "")
  }

  function AfterWrites(f: Rewrite, w: WriterState, chunks: seq<string>): WriterState
    decreases |chunks|
  {
    if chunks == [] then w else AfterWrites(f, Written(f, w, chunks[0]), chunks[1..])
  }

  lemma EmitFirst(f: Rewrite, dest: string, line: string, more: seq<string>)
    requires |more| >= 1
    ensures var lines := [line] + more;
      dest + Emit(f, lines[..|lines| - 1]) == dest + (f(line) + "\n") + Emit(f, more[..|more| - 1])
  {
    var lines := [line] + more;
    assert lines[..|lines| - 1][1..] == more[..|more| - 1];
    Associative(dest, f(line) + "\n", Emit(f, more[..|more| - 1]));
  }

  /** Taking the first line off the buffer leaves the outcome of a write as it was. */
  lemma NextLine(f: Rewrite, dest: string, buf: string)
    requires '\n' in buf
    ensures var i := IndexByte(buf, '\n');
      Written(f, WriterState(dest, buf), "") == Written(f, WriterState(dest + (f(buf[..i]) + "\n"), buf[i + 1..]), "")
  {
    var i := IndexByte(buf, '\n');
    var rest := buf[i + 1..];
    assert buf + "" == buf && rest + "" == rest;
    EmitFirst(f, dest, buf[..i], Split(rest, '\n'));
  }

  lemma {:induction false} EmitAppends(f: Rewrite, a: seq<string>, b: seq<string>)
    ensures Emit(f, a + b) == Emit(f, a) + Emit(f, b)
  {
    if a == [] {
      assert a + b == b;
    } else {
      EmitAppends(f, a[1..], b);
      assert (a + b)[1..] == a[1..] + b;
      Associative(f(a[0]) + "\n", Emit(f, a[1..]), Emit(f, b));
    }
  }

  lemma InitOfAppend(a: seq<string>, b: seq<string>)
    requires |b| >= 1
    ensures (a + b)[..|a + b| - 1] == a + b[..|b| - 1]
  {
  }

  lemma WriteTwice(f: Rewrite, w: WriterState, p: string, q: string)
    ensures Written(f, Written(f, w, p), q) == Written(f, w, p + q)
  {
    hide Split, Emit;
    var lines := Split(w.buf + p, '\n');
    var last := |lines| - 1;
    var more := Split(lines[last] + q, '\n');
    SplitAppends(w.buf + p, q, '\n');
    Associative(w.buf, p, q);
    InitOfAppend(lines[..last], more);
    EmitAppends(f, lines[..last], more[..|more| - 1]);
    Associative(w.dest, Emit(f, lines[..last]), Emit(f, more[..|more| - 1]));
  }

  lemma {:induction false} WritesAppend(f: Rewrite, w: WriterState, p: string, chunks: seq<string>)
    ensures AfterWrites(f, Written(f, w, p), chunks) == Written(f, w, p + Concat(chunks))
    decreases |chunks|
  {
    if chunks == [] {
      assert p + "" == p;
    } else {
      WriteTwice(f, w, p, chunks[0]);
      WritesAppend(f, w, p + chunks[0], chunks[1..]);
      Associative(p, chunks[0], Concat(chunks[1..]));
    }
  }

  lemma FlushCompletes(f: Rewrite, s: string)
    ensures Flushed(f, Written(f, WriterState("", ""), s)).dest == Whole(f, s)
  {
    assert "" + s == s;
    var lines := Split(s, '\n');
    var last := |lines| - 1;
    assert "" + Emit(f, lines[..last]) == Emit(f, lines[..last]);
    assert lines == lines[..last] + [lines[last]];
    EmitAppends(f, lines[..last], [lines[last]]);
    assert Emit(f, [lines[last]]) == f(lines[last]) + "\n" + "" == f(lines[last]) + "\n";
  }

  /** However the output is cut into writes, what is displayed is the whole output rewritten. */
  lemma ChunkIndependent(f: Rewrite, chunks: seq<string>)
    ensures Flushed(f, AfterWrites(f, WriterState("", ""), chunks)).dest == Whole(f, Concat(chunks))
  {
    var w := WriterState("", "");
    assert Written(f, w, "") == w;
    WritesAppend(f, w, "", chunks);
    assert "" + Concat(chunks) == Concat(chunks);
    FlushCompletes(f, Concat(chunks));
  }
}
