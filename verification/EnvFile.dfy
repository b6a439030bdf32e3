/** The text of an env file (manifest.go), and what parsing it back gives. */
module EnvFile {
  import opened Prelude
  import opened Text
  import opened Order
  import opened HookOutput

  const HEADER := "# Generated by previewctl \U{2014} do not edit"

  function Line(key: string, value: string): string {
    key + "=" + value
  }

  function Body(keys: seq<string>, env: map<string, string>): string
    requires forall k :: k in keys ==> k in env
  {
    if keys == [] then "" else Line(keys[0], env[keys[0]]) + "\n" + Body(keys[1..], env)
  }

  /** One line a variable, in the order of the names. */
  ghost function ContentWith(head: string, env: map<string, string>): string {
    head + "\n" + Body(Listing(env.Keys), env)
  }

  ghost function Content(env: map<string, string>): string {
    ContentWith(HEADER, env)
  }

  lemma {:induction false} BodyAppends(a: seq<string>, k: string, env: map<string, string>)
    requires k in env && forall x :: x in a ==> x in env
    ensures Body(a + [k], env) == Body(a, env) + (Line(k, env[k]) + "\n")
  {
    if a == [] {
      assert [k][1..] == [];
    } else {
      BodyAppends(a[1..], k, env);
      assert (a + [k])[1..] == a[1..] + [k];
      Associative(Line(a[0], env[a[0]]) + "\n", Body(a[1..], env), Line(k, env[k]) + "\n");
    }
  }

  method AppendLines(head: string, keys: seq<string>, env: map<string, string>) returns (content: string)
    requires forall k :: k in keys ==> k in env
    ensures content == head + Body(keys, env)
  {
    content := head;
    for n := 0 to |keys|
      invariant content == head + Body(keys[..n], env)
    {
      var k := keys[n];
      assert keys[..n + 1] == keys[..n] + [k];
      BodyAppends(keys[..n], k, env);
      Associative(head, Body(keys[..n], env), Line(k, env[k]) + "\n");
      content := content + (Line(k, env[k]) + "\n");
    }
    assert keys[..|keys|] == keys;
  }

  method RenderEnvFileContent(env: map<string, string>) returns (content: string)
    ensures content == Content(env)
  {
    var keys := SortedKeys(env.Keys);
    content := AppendLines(HEADER + "\n", keys, env);
  }

  // ---------- Printing, then parsing ----------

  predicate Printable(env: map<string, string>) {
    forall k :: k in env ==> Plain(Pair(k, env[k])) && '\n' !in k && '\n' !in env[k]
  }

  function BodyLines(keys: seq<string>, env: map<string, string>): seq<string>
    requires forall k :: k in keys ==> k in env
  {
    if keys == [] then [""] else [Line(keys[0], env[keys[0]])] + BodyLines(keys[1..], env)
  }

  lemma {:induction false} SplitOfBody(keys: seq<string>, env: map<string, string>)
    requires Printable(env) && forall k :: k in keys ==> k in env
    ensures Split(Body(keys, env), '\n') == BodyLines(keys, env)
  {
    if keys != [] {
      SplitOfBody(keys[1..], env);
      SplitAtSeparator(Line(keys[0], env[keys[0]]), '\n', Body(keys[1..], env));
    }
  }

  lemma PlainLineAdds(k: string, v: string, rest: seq<string>)
    requires Plain(Pair(k, v))
    ensures ParseLines([Line(k, v)] + rest) == map[k := v] + ParseLines(rest)
  {
    PlainParses(Pair(k, v));
    ParseLinesOfCons(Line(k, v), rest);
  }

  function Only(env: map<string, string>, keys: seq<string>): map<string, string>
    requires forall k :: k in keys ==> k in env
  {
    map k | k in keys :: env[k]
  }

  lemma OnlyOfCons(env: map<string, string>, keys: seq<string>)
    requires keys != [] && forall k :: k in keys ==> k in env
    ensures Only(env, keys) == map[keys[0] := env[keys[0]]] + Only(env, keys[1..])
  {
    assert keys == [keys[0]] + keys[1..];
  }

  lemma NoLines()
    ensures ParseLines([""]) == map[]
  {
    assert [""][..0] == [];
  }

  lemma {:induction false} BodyLinesParse(keys: seq<string>, env: map<string, string>)
    requires Printable(env) && forall k :: k in keys ==> k in env
    ensures ParseLines(BodyLines(keys, env)) == Only(env, keys)
  {
    NoLines();
    if keys != [] {
      BodyLinesParse(keys[1..], env);
      PlainLineAdds(keys[0], env[keys[0]], BodyLines(keys[1..], env));
      OnlyOfCons(env, keys);
    }
  }

  lemma HashIsComment(s: string)
    requires s != "" && s[0] == '#' && !IsSpace(s[|s| - 1])
    ensures ParseLine(s) == None
  {
    hide TrimSpace, IndexByte;
    assert !IsSpace('#');
    TrimmedStays(s);
  }

  lemma HeaderEnds()
    ensures HEADER != "" && HEADER[0] == '#' && !IsSpace(HEADER[|HEADER| - 1])
  {
    assert HEADER[|HEADER| - 1] == 't';
  }

  lemma HeaderIsComment()
    ensures ParseLine(HEADER) == None && '\n' !in HEADER
  {
    hide ParseLine;
    HeaderEnds();
    HashIsComment(HEADER);
  }

  lemma CommentFirst(head: string, body: string)
    requires ParseLine(head) == None && '\n' !in head
    ensures Parse(head + "\n" + body) == ParseLines(Split(body, '\n'))
  {
    SplitAtSeparator(head, '\n', body);
    ParseLinesOfCons(head, Split(body, '\n'));
  }

  lemma PrintableParses(head: string, env: map<string, string>)
    requires Printable(env) && ParseLine(head) == None && '\n' !in head
    ensures Parse(ContentWith(head, env)) == env
  {
    hide ParseLine, ParseLines, Split, Body, BodyLines, Listing;
    var keys := Listing(env.Keys);
    CommentFirst(head, Body(keys, env));
    SplitOfBody(keys, env);
    BodyLinesParse(keys, env);
    assert Only(env, keys) == env;
  }

  lemma {:induction false} ParsedArePlain(lines: seq<string>)
    requires forall n :: 0 <= n < |lines| ==> '\n' !in lines[n]
    ensures Printable(ParseLines(lines))
  {
    if lines != [] {
      ParsedArePlain(lines[..|lines| - 1]);
      ParsedIsPlain(lines[|lines| - 1]);
      if ParseLine(lines[|lines| - 1]).Some? {
        ParsedIsOnOneLine(lines[|lines| - 1]);
      }
    }
  }

  /** Parsing an env file gives back the variables it was printed from exactly when they are trimmed,
      on one line, and no name holds '=' or starts like a comment. */
  lemma RoundTrip(env: map<string, string>)
    ensures Parse(Content(env)) == env <==> Printable(env)
  {
    if Printable(env) {
      HeaderIsComment();
      PrintableParses(HEADER, env);
    }
    JoinSplit(Content(env), '\n');
    ParsedArePlain(Split(Content(env), '\n'));
  }

  /** The lines of the text: the header, then each variable on one line, in the order of the names. */
  lemma LinesOfContent(env: map<string, string>) returns (keys: seq<string>)
    requires forall k :: k in env ==> '\n' !in k && '\n' !in env[k]
    ensures (forall i, j :: 0 <= i < j < |keys| ==> Less(keys[i], keys[j])) && forall k :: k in keys <==> k in env
    ensures Split(Content(env), '\n') ==
      ["# Generated by previewctl \U{2014} do not edit"]
      + seq(|keys|, i requires 0 <= i < |keys| => keys[i] + "=" + if keys[i] in env then env[keys[i]] else "")
      + [""]
  {
    hide Split, Body, Listing, Less, ParseLine;
    keys := Listing(env.Keys);
    HeaderIsComment();
    SplitAtSeparator(HEADER, '\n', Body(keys, env));
    SplitOfLines(keys, env);
  }

  lemma {:induction false} SplitOfLines(keys: seq<string>, env: map<string, string>)
    requires (forall k :: k in env ==> '\n' !in k && '\n' !in env[k]) && forall k :: k in keys ==> k in env
    ensures Split(Body(keys, env), '\n') ==
      seq(|keys|, i requires 0 <= i < |keys| => keys[i] + "=" + if keys[i] in env then env[keys[i]] else "") + [""]
  {
    hide Split;
    if keys == [] {
      SplitWithout("", '\n');
    } else {
      SplitOfLines(keys[1..], env);
      SplitAtSeparator(Line(keys[0], env[keys[0]]), '\n', Body(keys[1..], env));
    }
  }
}
