/** What a hook prints: KEY=VALUE lines, parsed for their values and redacted for display
    (hook_executor.go). */
module HookOutput {
  import opened Prelude
  import opened Io
  import opened Text
  import opened LineFilter

  const MASK := "********"

  datatype Pair = Pair(key: string, value: string)

  /** One line of hook output. Blank lines, comments and lines without '=' carry nothing. */
  function ParseLine(line: string): Option<Pair> {
    var trimmed := TrimSpace(line);
    if trimmed == "" || trimmed[0] == '#' then None
    else
      var i := IndexByte(trimmed, '=');
      if i < 0 then None else Some(Pair(TrimSpace(trimmed[..i]), TrimSpace(trimmed[i + 1..])))
  }

  function AddLine(result: map<string, string>, line: string): map<string, string> {
    match ParseLine(line)
    case None => result
    case Some(p) => result[p.key := p.value]
  }

  function ParseLines(lines: seq<string>): map<string, string> {
    if lines == [] then map[] else AddLine(ParseLines(lines[..|lines| - 1]), lines[|lines| - 1])
  }

  function Parse(output: string): map<string, string> {
    ParseLines(Split(output, '\n'))
  }

  method ParseHookOutput(output: string) returns (result: map<string, string>)
    ensures result == Parse(output)
  {
    hide TrimSpace, IndexByte, Split;
    result := map[];
    var lines := Split(output, '\n');
    for n := 0 to |lines|
      invariant result == ParseLines(lines[..n])
    {
      assert lines[..n + 1][..n] == lines[..n];
      var line := TrimSpace(lines[n]);
      if line == "" || line[0] == '#' {
        continue;
      }
      var i := IndexByte(line, '=');
      if i < 0 {
        continue;
      }
      result := result[TrimSpace(line[..i]) := TrimSpace(line[i + 1..])];
    }
    assert lines[..|lines|] == lines;
  }

  /** The outputs of a hook that exited with success, or an error when a declared one is missing. */
  method CollectOutputs(stdout: string, declared: seq<string>) returns (r: Result<map<string, string>>)
    ensures r.Ok? <==> forall key :: key in declared ==> key in Parse(stdout)
    ensures r.Ok? ==> r.value == Parse(stdout)
  {
    var outputs := ParseHookOutput(stdout);
    var missing := [];
    for n := 0 to |declared|
      invariant missing == [] <==> forall key :: key in declared[..n] ==> key in outputs
    {
      assert declared[..n + 1] == declared[..n] + [declared[n]];
      if declared[n] !in outputs {
        missing := missing + [declared[n]];
      }
    }
    assert declared[..|declared|] == declared;
    r := if missing == [] then Ok(outputs) else Err;
  }

  // ---------- What a parsed pair can be ----------

  /** Exactly the pairs that some line parses to. */
  predicate Plain(p: Pair) {
    Trimmed(p.key) && Trimmed(p.value) && '=' !in p.key && (p.key == "" || p.key[0] != '#')
  }

  lemma ParsedIsPlain(line: string)
    ensures ParseLine(line).Some? ==> Plain(ParseLine(line).value)
  {
    if ParseLine(line).Some? {
      var trimmed := TrimSpace(line);
      var i := IndexByte(trimmed, '=');
      var a, b := TrimIsSlice(line);
      var c, d := TrimIsSlice(trimmed[..i]);
      var e, f := TrimIsSlice(trimmed[i + 1..]);
      assert trimmed[..i] != [] ==> trimmed[..i][0] == trimmed[0];
    }
  }

  lemma TrimKeepsOut(s: string, c: char)
    requires c !in s
    ensures c !in TrimSpace(s)
  {
    var a, b := TrimIsSlice(s);
  }

  lemma ParsedIsOnOneLine(line: string)
    requires '\n' !in line && ParseLine(line).Some?
    ensures '\n' !in ParseLine(line).value.key && '\n' !in ParseLine(line).value.value
  {
    var trimmed := TrimSpace(line);
    var i := IndexByte(trimmed, '=');
    TrimKeepsOut(line, '\n');
    TrimKeepsOut(trimmed[..i], '\n');
    TrimKeepsOut(trimmed[i + 1..], '\n');
  }

  lemma LineIsTrimmed(p: Pair)
    requires Plain(p)
    ensures var line := p.key + "=" + p.value; Trimmed(line) && line != "" && line[0] != '#'
  {
    hide IsSpace;
    var line := p.key + "=" + p.value;
    assert !IsSpace('=') by { EqualsIsNoSpace(); }
    assert line[0] == if p.key != "" then p.key[0] else '=';
    assert line[|line| - 1] == if p.value != "" then p.value[|p.value| - 1] else '=';
  }

  lemma EqualsIsNoSpace()
    ensures !IsSpace('=')
  {
  }

  /** A trimmed line that is no comment is parsed at its first '='. */
  lemma ParsedAt(line: string, i: nat)
    requires Trimmed(line) && line != "" && line[0] != '#' && i < |line| && line[i] == '=' && '=' !in line[..i]
    ensures ParseLine(line) == Some(Pair(TrimSpace(line[..i]), TrimSpace(line[i + 1..])))
  {
    hide TrimSpace, IndexByte;
    TrimmedStays(line);
    FirstOccurrence(line, '=', i);
  }

  lemma PlainParses(p: Pair)
    requires Plain(p)
    ensures ParseLine(p.key + "=" + p.value) == Some(p)
  {
    hide ParseLine, TrimSpace, Trimmed;
    var line, i := p.key + "=" + p.value, |p.key|;
    LineIsTrimmed(p);
    TrimmedStays(p.key);
    TrimmedStays(p.value);
    assert line[..i] == p.key && line[i] == '=' && line[i + 1..] == p.value;
    ParsedAt(line, i);
  }

  // ---------- Redaction ----------

  function SanitizeOutputLine(line: string): string {
    var trimmed := TrimSpace(line);
    if trimmed == "" || trimmed[0] == '#' then line
    else
      var i := IndexByte(trimmed, '=');
      if i < 0 then line else TrimSpace(trimmed[..i]) + "=" + MASK
  }

  function MaskPair(p: Option<Pair>): Option<Pair> {
    match p
    case None => None
    case Some(pair) => Some(Pair(pair.key, MASK))
  }

  lemma SanitizedForm(line: string)
    ensures SanitizeOutputLine(line) ==
      if ParseLine(line).None? then line else ParseLine(line).value.key + "=" + MASK
  {
  }

  lemma MaskedKeyParses(key: string, mask: string)
    requires Plain(Pair(key, mask))
    ensures ParseLine(key + "=" + mask) == Some(Pair(key, mask))
    ensures '\n' !in key && '\n' !in mask ==> '\n' !in key + "=" + mask
    ensures key + "=" + mask != ""
  {
    PlainParses(Pair(key, mask));
  }

  /** A redacted line parses to the same key with the value masked, and redacting it again changes nothing. */
  lemma RedactedLineParses(line: string)
    ensures ParseLine(SanitizeOutputLine(line)) == MaskPair(ParseLine(line))
    ensures SanitizeOutputLine(SanitizeOutputLine(line)) == SanitizeOutputLine(line)
    ensures '\n' !in line ==> '\n' !in SanitizeOutputLine(line)
    ensures line != "" ==> SanitizeOutputLine(line) != ""
  {
    SanitizedForm(line);
    if ParseLine(line).Some? {
      ParsedIsPlain(line);
      if '\n' !in line {
        ParsedIsOnOneLine(line);
      }
      MaskedKeyParses(ParseLine(line).value.key, MASK);
      SanitizedForm(SanitizeOutputLine(line));
    }
  }

  lemma CarriesNothing(line: string)
    requires var trimmed := TrimSpace(line); trimmed == "" || trimmed[0] == '#' || '=' !in trimmed
    ensures ParseLine(line) == None
  {
    hide TrimSpace;
  }

  /** A line that sets a key shows the key and eight asterisks. */
  lemma SecretIsHidden(key: string, value: string)
    requires Plain(Pair(key, value))
    ensures SanitizeOutputLine(key + "=" + value) == key + "=********"
  {
    hide SanitizeOutputLine, ParseLine, Plain;
    PlainParses(Pair(key, value));
    SanitizedForm(key + "=" + value);
  }

  /** A blank line, a comment, or a line without '=' is shown as it is. */
  lemma OtherLineIsShown(line: string)
    requires var trimmed := TrimSpace(line); trimmed == "" || trimmed[0] == '#' || '=' !in trimmed
    ensures SanitizeOutputLine(line) == line
  {
    hide SanitizeOutputLine, ParseLine, TrimSpace;
    CarriesNothing(line);
    SanitizedForm(line);
  }

  const REDACT: Rewrite := line => SanitizeOutputLine(line)

  /** A whole output redacted line by line. */
  function Redaction(output: string): string {
    Whole(REDACT, output)
  }

  // ---------- The streaming redactor ----------

  class SanitizingWriter {
    const w: Sink
    var buf: string

    constructor (w: Sink)
      ensures this.w == w && buf == ""
    {
      this.w, buf := w, "";
    }

    function State(): WriterState
      reads this, w
    {
      WriterState(w.out, buf)
    }

    /** The room that is left once rest is written too; negative when it does not fit. */
    ghost function Spare(rest: string): int
      reads this, w
    {
      w.room + |w.out| - |Written(REDACT, State(), rest).dest|
    }

    /** Without a write error the complete lines come out redacted; with one, a first part of that, and the
        line that was being written is dropped from the buffer. */
    method Write(p: string) returns (n: nat, ok: bool)
      modifies this, w
      ensures n == |p| && (ok <==> 0 <= old(Spare(p)))
      ensures ok ==> State() == Written(REDACT, old(State()), p)
      ensures !ok ==> w.out <= Written(REDACT, old(State()), p).dest && w.room == 0
      ensures !ok ==> EndsAfterLine(old(buf) + p, buf)
    {
      buf := buf + p;
      assert buf + "" == buf;
      ghost var all := buf;
      assert all[0..] == all;
      ghost var at := 0;
      while true
        invariant Written(REDACT, State(), "") == Written(REDACT, old(State()), p)
        invariant Spare("") == old(Spare(p))
        invariant at <= |all| && buf == all[at..]
        decreases |buf|
      {
        var idx := IndexByte(buf, '\n');
        if idx < 0 {
          break;
        }
        var line := buf[..idx];
        NextLine(REDACT, w.out, buf);
        ghost var before, rest, more := w.out, buf[idx + 1..], FirstOut(w.out, line, buf[idx + 1..]);
        assert all[at..][idx] == '\n' && all[at..][idx + 1..] == all[at + idx + 1..];
        at := at + idx + 1;
        buf := buf[idx + 1..];
        var sanitized := SanitizeOutputLine(line) + "\n";
        var m, fits := w.Write(sanitized);
        PutPrefix(before, sanitized, m, more);
        if !fits {
          assert all[at - 1] == '\n';
          return |p|, false;
        }
      }
      assert buf + "" == buf && w.out + "" == w.out;
      return |p|, true;
    }

    method Flush() returns (ok: bool)
      modifies this, w
      ensures ok <==> |Flushed(REDACT, old(State())).dest| <= old(w.room + |w.out|)
      ensures ok ==> State() == Flushed(REDACT, old(State()))
      ensures !ok ==> w.out <= Flushed(REDACT, old(State())).dest && w.room == 0 && buf == ""
    {
      ok := true;
      if |buf| > 0 {
        var line := buf;
        buf := "";
        ghost var before := w.out;
        var sanitized := SanitizeOutputLine(line) + "\n";
        var m;
        m, ok := w.Write(sanitized);
        PutPrefix(before, sanitized, m, "");
        assert sanitized + "" == sanitized;
      }
    }
  }

  /** rest is what follows some newline in text. */
  ghost predicate EndsAfterLine(text: string, rest: string) {
    exists i :: 0 < i <= |text| && text[i - 1] == '\n' && rest == text[i..]
  }

  /** What comes out after the first of several lines. */
  ghost function FirstOut(dest: string, line: string, rest: string): (more: string)
    ensures Written(REDACT, WriterState(dest + (SanitizeOutputLine(line) + "\n"), rest), "").dest
         == dest + ((SanitizeOutputLine(line) + "\n") + more)
  {
    var lines := Split(rest + "", '\n');
    var more := Emit(REDACT, lines[..|lines| - 1]);
    Associative(dest, SanitizeOutputLine(line) + "\n", more);
    more
  }

  /** Redaction does not depend on how the output is cut into writes. */
  lemma RedactionIsChunkIndependent(chunks: seq<string>)
    ensures Flushed(REDACT, AfterWrites(REDACT, WriterState("", ""), chunks)).dest == Redaction(Concat(chunks))
  {
    ChunkIndependent(REDACT, chunks);
  }

  // ---------- Redactor and parser agree ----------

  function Sanitized(lines: seq<string>): seq<string> {
    if lines == [] then [] else [SanitizeOutputLine(lines[0])] + Sanitized(lines[1..])
  }

  lemma EmitOfMore(lines: seq<string>)
    requires lines != []
    ensures Emit(REDACT, lines) == SanitizeOutputLine(lines[0]) + "\n" + Emit(REDACT, lines[1..])
    ensures Sanitized(lines) == [SanitizeOutputLine(lines[0])] + Sanitized(lines[1..])
  {
    hide SanitizeOutputLine;
  }

  lemma SplitOfOne(line: string, rest: string)
    requires '\n' !in line
    ensures Split(SanitizeOutputLine(line) + "\n" + rest, '\n') == [SanitizeOutputLine(line)] + Split(rest, '\n')
  {
    hide Split, SanitizeOutputLine, ParseLine;
    RedactedLineParses(line);
    SplitAtSeparator(SanitizeOutputLine(line), '\n', rest);
  }

  lemma {:induction false} SplitOfEmit(lines: seq<string>)
    requires Without(lines, '\n')
    ensures Split(Emit(REDACT, lines), '\n') == Sanitized(lines) + [""]
  {
    if lines == [] {
      SplitWithout("", '\n');
    } else {
      hide Split, Emit, Sanitized, SanitizeOutputLine;
      EmitOfMore(lines);
      SplitOfOne(lines[0], Emit(REDACT, lines[1..]));
      SplitOfEmit(lines[1..]);
      Regroup([SanitizeOutputLine(lines[0])], Sanitized(lines[1..]), [""]);
    }
  }

  lemma Regroup(a: seq<string>, b: seq<string>, c: seq<string>)
    ensures a + (b + c) == a + b + c
  {
  }

  function Masked(m: map<string, string>): map<string, string> {
    map k | k in m :: MASK
  }

  lemma {:induction false} ParseLinesOfCons(line: string, lines: seq<string>)
    ensures ParseLines([line] + lines) == AddLine(map[], line) + ParseLines(lines)
  {
    if lines == [] {
      assert [line] + lines == [line] && [line][..0] == [];
    } else {
      var last := |lines| - 1;
      ParseLinesOfCons(line, lines[..last]);
      assert ([line] + lines)[..last + 1] == [line] + lines[..last];
      AddLineCommutes(AddLine(map[], line), ParseLines(lines[..last]), lines[last]);
    }
  }

  lemma AddLineCommutes(a: map<string, string>, b: map<string, string>, line: string)
    ensures AddLine(a + b, line) == a + AddLine(b, line)
  {
  }

  lemma AddToNothing(line: string)
    ensures AddLine(map[], line) == Single(ParseLine(line))
  {
    hide ParseLine;
  }

  lemma MaskingOne(line: string, first: string, rest: map<string, string>)
    requires ParseLine(first) == MaskPair(ParseLine(line))
    ensures AddLine(map[], first) + Masked(rest) == Masked(AddLine(map[], line) + rest)
  {
    hide ParseLine, AddLine, Single, Masked, MaskPair;
    AddToNothing(line);
    AddToNothing(first);
    MaskingDistributes(ParseLine(line), rest);
  }

  lemma SanitizedParseOne(line: string, rest: seq<string>)
    requires ParseLines(Sanitized(rest)) == Masked(ParseLines(rest))
    ensures ParseLines([SanitizeOutputLine(line)] + Sanitized(rest)) == Masked(ParseLines([line] + rest))
  {
    hide SanitizeOutputLine, ParseLine, ParseLines, AddLine, Sanitized, Masked, MaskPair;
    RedactedLineParses(line);
    ParseLinesOfCons(line, rest);
    ParseLinesOfCons(SanitizeOutputLine(line), Sanitized(rest));
    MaskingOne(line, SanitizeOutputLine(line), ParseLines(rest));
  }

  lemma SanitizedOfMore(line: string, rest: seq<string>)
    ensures Sanitized([line] + rest) == [SanitizeOutputLine(line)] + Sanitized(rest)
  {
    hide SanitizeOutputLine;
    assert ([line] + rest)[1..] == rest;
  }

  lemma {:induction false} SanitizedParse(lines: seq<string>)
    ensures ParseLines(Sanitized(lines)) == Masked(ParseLines(lines))
  {
    if lines != [] {
      hide SanitizeOutputLine, ParseLines, Sanitized, Masked;
      SanitizedParse(lines[1..]);
      SanitizedParseOne(lines[0], lines[1..]);
      SanitizedOfMore(lines[0], lines[1..]);
      assert lines == [lines[0]] + lines[1..];
    }
  }

  function Single(p: Option<Pair>): map<string, string> {
    if p.None? then map[] else map[p.value.key := p.value.value]
  }

  lemma MaskingDistributes(p: Option<Pair>, m: map<string, string>)
    ensures Single(MaskPair(p)) + Masked(m) == Masked(Single(p) + m)
  {
  }

  /** Empty pieces at the end carry nothing. */
  lemma TrailingEmpty(lines: seq<string>)
    ensures ParseLines(lines + [""]) == ParseLines(lines)
  {
    assert (lines + [""])[..|lines|] == lines;
  }

  lemma {:induction false} EmitTwice(lines: seq<string>)
    ensures Emit(REDACT, Sanitized(lines)) == Emit(REDACT, lines)
  {
    if lines != [] {
      RedactedLineParses(lines[0]);
      EmitTwice(lines[1..]);
    }
  }

  lemma LinesParse(pieces: seq<string>)
    requires |pieces| >= 1
    ensures ParseLines(Lines(pieces)) == ParseLines(pieces)
  {
    hide ParseLine;
    var last := |pieces| - 1;
    if pieces[last] == "" {
      TrailingEmpty(pieces[..last]);
      assert pieces == pieces[..last] + [""];
    }
  }

  lemma SplitOfRedaction(output: string)
    ensures Split(Redaction(output), '\n') == Sanitized(Lines(Split(output, '\n'))) + [""]
  {
    JoinSplit(output, '\n');
    SplitOfEmit(Lines(Split(output, '\n')));
  }

  /** The parser sees the same keys in the redacted output, all with the masked value. */
  lemma RedactionKeepsKeys(output: string)
    ensures Parse(Redaction(output)) == Masked(Parse(output))
  {
    var lines := Lines(Split(output, '\n'));
    LinesParse(Split(output, '\n'));
    SplitOfRedaction(output);
    SanitizedParse(lines);
    TrailingEmpty(Sanitized(lines));
  }

  lemma LinesOfTerminated(lines: seq<string>)
    ensures Lines(lines + [""]) == lines
  {
  }

  lemma RedactionIsIdempotent(output: string)
    ensures Redaction(Redaction(output)) == Redaction(output)
  {
    var lines := Lines(Split(output, '\n'));
    SplitOfRedaction(output);
    EmitTwice(lines);
    LinesOfTerminated(Sanitized(lines));
  }

  // ---------- GLOBAL_ outputs ----------

  const GLOBAL := "GLOBAL_"

  /** Outputs named GLOBAL_X, under the name X. No two outputs share the name. */
  method ExtractGlobalOutputs(outputs: map<string, string>) returns (globals: map<string, string>)
    ensures globals == Globals(outputs)
  {
    globals := map[];
    var left := outputs.Keys;
    ghost var done: map<string, string> := map[];
    while left != {}
      invariant left !! done.Keys && left + done.Keys == outputs.Keys
      invariant forall k :: k in done ==> done[k] == outputs[k]
      invariant globals == Globals(done)
    {
      var key :| key in left;
      GlobalsOfOneMore(done, key, outputs[key]);
      if GLOBAL <= key {
        globals := globals[key[|GLOBAL|..] := outputs[key]];
      }
      left, done := left - {key}, done[key := outputs[key]];
    }
    assert done == outputs;
  }

  function GlobalNames(outputs: map<string, string>): (names: set<string>)
    ensures forall k :: k in names <==> GLOBAL + k in outputs
  {
    var names := set o | o in outputs && GLOBAL <= o :: o[|GLOBAL|..];
    assert forall k :: GLOBAL + k in outputs ==> k in names by {
      forall k | GLOBAL + k in outputs ensures k in names {
        assert (GLOBAL + k)[|GLOBAL|..] == k;
      }
    }
    assert forall o :: o in outputs && GLOBAL <= o ==> GLOBAL + o[|GLOBAL|..] == o;
    names
  }

  /** The store entries that the outputs set: k for every output GLOBAL_k. */
  function Globals(outputs: map<string, string>): map<string, string> {
    map k | k in GlobalNames(outputs) :: outputs[GLOBAL + k]
  }

  lemma GlobalsOfOneMore(outputs: map<string, string>, key: string, value: string)
    requires key !in outputs
    ensures Globals(outputs[key := value]) ==
      if GLOBAL <= key then Globals(outputs)[key[|GLOBAL|..] := value] else Globals(outputs)
  {
    var after := outputs[key := value];
    forall k ensures k in GlobalNames(after) <==> k in GlobalNames(outputs) || (GLOBAL <= key && k == key[|GLOBAL|..]) {
      assert (GLOBAL + k)[|GLOBAL|..] == k;
      assert GLOBAL <= key ==> GLOBAL + key[|GLOBAL|..] == key;
    }
    forall k | k in GlobalNames(outputs)
      ensures GLOBAL + k != key ==> Globals(after)[k] == Globals(outputs)[k]
    {
    }
    if GLOBAL <= key {
      assert GLOBAL + key[|GLOBAL|..] == key;
      assert Globals(after) == Globals(outputs)[key[|GLOBAL|..] := value] by {
        forall k | k in GlobalNames(outputs) && GLOBAL + k == key ensures false {
        }
      }
    } else {
      assert Globals(after) == Globals(outputs);
    }
  }
}
