/** Finding and replacing the matches of a pattern (Go's regexp), whatever the pattern is. */
module Regexp {
  import opened Prelude
  import opened Text

  /** The length of the match that begins at the start of a text, zero when none does. */
  type Pattern = string -> nat

  function Taken(s: string, p: Pattern): (n: nat)
    ensures n <= |s|
  {
    if p(s) <= |s| then p(s) else 0
  }

  datatype Piece = Char(c: char) | Match(text: string) {
    function Source(): string {
      match this
      case Char(c) => [c]
      case Match(text) => text
    }
  }

  function Source(ps: seq<Piece>): string {
    if ps == [] then "" else ps[0].Source() + Source(ps[1..])
  }

  /** The leftmost matches that do not overlap, as ReplaceAllStringFunc and FindAllStringSubmatch take them. */
  function Scan(s: string, p: Pattern): seq<Piece> {
    if s == [] then []
    else
      var n := Taken(s, p);
      if n == 0 then [Char(s[0])] + Scan(s[1..], p) else [Match(s[..n])] + Scan(s[n..], p)
  }

  /** Read from left to right, a match of the pattern stands wherever one begins, and nowhere else. */
  ghost predicate IsReading(ps: seq<Piece>, p: Pattern) {
    ps == []
    || (IsReading(ps[1..], p) && ps[0].Source() != ""
        && Taken(Source(ps), p) == if ps[0].Match? then |ps[0].text| else 0)
  }

  lemma ScanOne(s: string, p: Pattern) returns (piece: Piece, cut: nat)
    requires s != ""
    ensures 0 < cut <= |s| && Scan(s, p) == [piece] + Scan(s[cut..], p) && piece.Source() == s[..cut]
    ensures Taken(s, p) == if piece.Match? then |piece.text| else 0
  {
    var n := Taken(s, p);
    piece, cut := if n == 0 then Char(s[0]) else Match(s[..n]), if n == 0 then 1 else n;
  }

  lemma ReadingOfMore(piece: Piece, ps: seq<Piece>, p: Pattern)
    ensures Source([piece] + ps) == piece.Source() + Source(ps)
    ensures IsReading([piece] + ps, p) <==>
      IsReading(ps, p) && piece.Source() != ""
      && Taken(piece.Source() + Source(ps), p) == if piece.Match? then |piece.text| else 0
  {
    assert ([piece] + ps)[1..] == ps && ([piece] + ps)[0] == piece;
  }

  lemma {:induction false} ScanIsReading(s: string, p: Pattern)
    ensures Source(Scan(s, p)) == s && IsReading(Scan(s, p), p)
    decreases |s|
  {
    if s != [] {
      hide Scan, IsReading, Source, Taken;
      var piece, cut := ScanOne(s, p);
      ScanIsReading(s[cut..], p);
      ReadingOfMore(piece, Scan(s[cut..], p), p);
      assert s[..cut] + s[cut..] == s;
    }
  }

  /** There is one such reading of a text. */
  lemma {:induction false} ReadingIsUnique(ps: seq<Piece>, p: Pattern)
    requires IsReading(ps, p)
    ensures ps == Scan(Source(ps), p)
  {
    if ps != [] {
      var s, n := Source(ps), |ps[0].Source()|;
      assert s[..n] == ps[0].Source() && s[n..] == Source(ps[1..]);
      ReadingIsUnique(ps[1..], p);
      assert ps == [ps[0]] + ps[1..];
    }
  }

  // ---------- Replacing ----------

  /** What a match is replaced by, or an error. */
  type Replacer = string -> Result<string>

  function Expand(piece: Piece, f: Replacer): Result<string> {
    match piece
    case Char(c) => Ok([c])
    case Match(text) => f(text)
  }

  predicate AllExpand(ps: seq<Piece>, f: Replacer) {
    forall piece :: piece in ps ==> Expand(piece, f).Ok?
  }

  /** Source with every match replaced in its place and all other text kept. */
  function Expansion(ps: seq<Piece>, f: Replacer): string
    requires AllExpand(ps, f)
  {
    if ps == [] then "" else Expand(ps[0], f).value + Expansion(ps[1..], f)
  }

  /** An error when any match has no replacement. A replacement is never looked at again. */
  function Replace(s: string, p: Pattern, f: Replacer): Result<string> {
    if AllExpand(Scan(s, p), f) then Ok(Expansion(Scan(s, p), f)) else Err
  }

  function Then(first: Result<string>, rest: Result<string>): Result<string> {
    if first.Err? || rest.Err? then Err else Ok(first.value + rest.value)
  }

  /** The first piece is replaced, or kept, and the remaining text by itself. */
  lemma ReplaceNext(s: string, p: Pattern, f: Replacer)
    requires s != ""
    ensures var n := Taken(s, p);
      Replace(s, p, f) ==
        if n == 0 then Then(Ok([s[0]]), Replace(s[1..], p, f)) else Then(f(s[..n]), Replace(s[n..], p, f))
  {
    var n := Taken(s, p);
    var ps, rest := Scan(s, p), Scan(s[if n == 0 then 1 else n..], p);
    assert ps == [ps[0]] + rest && ps[1..] == rest;
    assert AllExpand(ps, f) <==> Expand(ps[0], f).Ok? && AllExpand(rest, f) by {
      assert ps[0] in ps && forall piece :: piece in rest ==> piece in ps;
    }
  }

  /** Replacing succeeds exactly when every match has a replacement. */
  lemma ReplaceSucceeds(s: string, p: Pattern, f: Replacer)
    ensures Replace(s, p, f).Ok? <==> forall m :: Match(m) in Scan(s, p) ==> f(m).Ok?
  {
    var ps := Scan(s, p);
    assert forall m :: Match(m) in ps ==> Expand(Match(m), f) == f(m);
    if forall m :: Match(m) in ps ==> f(m).Ok? {
      forall piece | piece in ps ensures Expand(piece, f).Ok? {
        assert piece.Match? ==> Match(piece.text) in ps;
      }
    }
  }

  /** What is still to be replaced after the pieces already written to result. */
  ghost predicate Continues(all: seq<Piece>, f: Replacer, result: string, ps: seq<Piece>) {
    (AllExpand(ps, f) <==> AllExpand(all, f))
    && (AllExpand(ps, f) ==> Expansion(all, f) == result + Expansion(ps, f))
  }

  lemma ContinuesStep(all: seq<Piece>, f: Replacer, result: string, ps: seq<Piece>)
    requires Continues(all, f, result, ps) && ps != [] && Expand(ps[0], f).Ok?
    ensures Continues(all, f, result + Expand(ps[0], f).value, ps[1..])
  {
    assert ps == [ps[0]] + ps[1..];
    assert AllExpand(ps, f) <==> AllExpand(ps[1..], f);
    if AllExpand(ps, f) {
      Associative(result, Expand(ps[0], f).value, Expansion(ps[1..], f));
    }
  }

  lemma ContinuesFails(all: seq<Piece>, f: Replacer, result: string, ps: seq<Piece>)
    requires Continues(all, f, result, ps) && ps != [] && Expand(ps[0], f).Err?
    ensures !AllExpand(all, f)
  {
    assert ps[0] in ps;
  }

  lemma ContinuesStart(all: seq<Piece>, f: Replacer)
    ensures Continues(all, f, "", all)
  {
    assert AllExpand(all, f) ==> "" + Expansion(all, f) == Expansion(all, f);
  }

  /** ReplaceAllStringFunc with the closure of RenderTemplate: after the first error every match stays. */
  method ReplaceAllStringFunc(s: string, p: Pattern, f: Replacer) returns (r: Result<string>)
    ensures r == Replace(s, p, f)
  {
    var result, renderErr, rest := "", false, s;
    ghost var all, ps := Scan(s, p), Scan(s, p);
    ContinuesStart(all, f);
    while rest != []
      invariant ps == Scan(rest, p)
      invariant if renderErr then !AllExpand(all, f) else Continues(all, f, result, ps)
      decreases |rest|
    {
      if !renderErr {
        if Expand(ps[0], f).Ok? {
          ContinuesStep(all, f, result, ps);
        } else {
          ContinuesFails(all, f, result, ps);
        }
      }
      var n := Taken(rest, p);
      if n == 0 {
        result := result + [rest[0]];
        rest := rest[1..];
      } else {
        var value := if renderErr then Err else f(rest[..n]);
        if value.Err? {
          renderErr := true;
          result := result + rest[..n];
        } else {
          result := result + value.value;
        }
        rest := rest[n..];
      }
      ps := ps[1..];
    }
    assert result + "" == result;
    r := if renderErr then Err else Ok(result);
  }

  lemma {:induction false} ExpansionAgrees(ps: seq<Piece>, f: Replacer, g: Replacer)
    requires AllExpand(ps, f) && forall piece :: piece in ps ==> Expand(piece, g) == Expand(piece, f)
    ensures AllExpand(ps, g) && Expansion(ps, g) == Expansion(ps, f)
  {
    if ps != [] {
      ExpansionAgrees(ps[1..], f, g);
    }
  }

  /** The result depends on the replacements of the matches only. */
  lemma ReplaceAgrees(s: string, p: Pattern, f: Replacer, g: Replacer)
    requires Replace(s, p, f).Ok?
    requires forall m :: Match(m) in Scan(s, p) ==> g(m) == f(m)
    ensures Replace(s, p, g) == Replace(s, p, f)
  {
    forall piece | piece in Scan(s, p) ensures Expand(piece, g) == Expand(piece, f) {
      assert piece.Match? ==> Match(piece.text) in Scan(s, p);
    }
    ExpansionAgrees(Scan(s, p), f, g);
  }

  /** Every match is a stretch of the text, and the pattern takes all of it. */
  lemma {:induction false} MatchOccurs(s: string, p: Pattern, m: string)
    requires Match(m) in Scan(s, p)
    ensures Contains(s, m) && m != ""
    decreases |s|
  {
    var n := Taken(s, p);
    var cut := if n == 0 then 1 else n;
    if n > 0 && s[..n] == m {
      ContainsSlice(s, 0, n);
    } else {
      assert Scan(s, p)[1..] == Scan(s[cut..], p);
      MatchOccurs(s[cut..], p, m);
      ContainsSlice(s, cut, |s|);
      assert s[cut..|s|] == s[cut..];
      ContainsIsTransitive(s, s[cut..], m);
    }
  }
}
