/** The parts of Go's strings package the repository relies on. Text is a sequence of characters. */
module Text {

  /** unicode.IsSpace */
  predicate IsSpace(c: char) {
    '\U{9}' <= c <= '\U{D}' || c == ' ' || c == '\U{85}' || c == '\U{A0}' || c == '\U{1680}'
    || '\U{2000}' <= c <= '\U{200A}' || c == '\U{2028}' || c == '\U{2029}' || c == '\U{202F}'
    || c == '\U{205F}' || c == '\U{3000}'
  }

  predicate Trimmed(s: string) {
    s == [] || (!IsSpace(s[0]) && !IsSpace(s[|s| - 1]))
  }

  predicate IsLeft(s: string, a: int) {
    0 <= a <= |s| && (forall k :: 0 <= k < a ==> IsSpace(s[k])) && (a < |s| ==> !IsSpace(s[a]))
  }

  predicate IsRight(s: string, b: int) {
    0 <= b <= |s| && (forall k :: b <= k < |s| ==> IsSpace(s[k])) && (0 < b ==> !IsSpace(s[b - 1]))
  }

  lemma {:induction false} HasEnds(s: string)
    ensures (exists a :: 0 <= a <= |s| && IsLeft(s, a)) && exists b :: 0 <= b <= |s| && IsRight(s, b)
  {
    if s == [] {
      assert IsLeft(s, 0) && IsRight(s, 0);
    } else {
      HasEnds(s[1..]);
      HasEnds(s[..|s| - 1]);
      var a :| 0 <= a < |s| && IsLeft(s[1..], a);
      var b :| 0 <= b < |s| && IsRight(s[..|s| - 1], b);
      assert IsLeft(s, if IsSpace(s[0]) then a + 1 else 0) by {
        assert forall k :: 0 < k < |s| ==> s[k] == s[1..][k - 1];
      }
      assert IsRight(s, if IsSpace(s[|s| - 1]) then b else |s|) by {
        assert forall k :: 0 <= k < |s| - 1 ==> s[k] == s[..|s| - 1][k];
      }
    }
  }

  /** Where the first character that is not space stands, or the length. */
  function Left(s: string): (a: int)
    ensures IsLeft(s, a)
  {
    HasEnds(s);
    var a :| 0 <= a <= |s| && IsLeft(s, a);
    a
  }

  /** The place after the last character that is not space, or zero. */
  function Right(s: string): (b: int)
    ensures IsRight(s, b)
  {
    HasEnds(s);
    var b :| 0 <= b <= |s| && IsRight(s, b);
    b
  }

  /** strings.TrimSpace */
  function TrimSpace(s: string): (t: string)
    ensures Trimmed(t)
  {
    if Left(s) == |s| then ""
    else
      assert Left(s) < Right(s);
      s[Left(s)..Right(s)]
  }

  /** What remains is a slice with nothing but space around it. */
  lemma TrimIsSlice(s: string) returns (a: nat, b: nat)
    ensures a <= b <= |s| && TrimSpace(s) == s[a..b]
    ensures forall k :: 0 <= k < a || b <= k < |s| ==> IsSpace(s[k])
  {
    if Left(s) == |s| {
      a, b := |s|, |s|;
    } else {
      assert Left(s) < Right(s);
      a, b := Left(s), Right(s);
    }
  }

  lemma TrimmedStays(s: string)
    requires Trimmed(s)
    ensures TrimSpace(s) == s
  {
  }

  lemma Associative(a: string, b: string, c: string)
    ensures a + b + c == a + (b + c)
  {
  }

  // ---------- Searching ----------

  predicate IsFirst(s: string, c: char, i: int) {
    0 <= i < |s| && s[i] == c && c !in s[..i]
  }

  lemma {:induction false} HasFirst(s: string, c: char)
    requires c in s
    ensures exists i :: 0 <= i < |s| && IsFirst(s, c, i)
  {
    if s[0] == c {
      assert IsFirst(s, c, 0);
    } else {
      assert s == [s[0]] + s[1..];
      HasFirst(s[1..], c);
      var i :| 0 <= i < |s[1..]| && IsFirst(s[1..], c, i);
      assert s[..i + 1] == [s[0]] + s[1..][..i];
      assert IsFirst(s, c, i + 1);
    }
  }

  lemma FirstIsUnique(s: string, c: char, i: int, j: int)
    requires IsFirst(s, c, i) && IsFirst(s, c, j)
    ensures i == j
  {
    assert forall k :: 0 <= k < j ==> s[..j][k] == s[k];
    assert forall k :: 0 <= k < i ==> s[..i][k] == s[k];
  }

  /** bytes.IndexByte */
  function IndexByte(s: string, c: char): (i: int)
    ensures -1 <= i < |s|
    ensures i < 0 ==> c !in s
    ensures 0 <= i ==> s[i] == c && c !in s[..i]
  {
    if c !in s then -1
    else
      HasFirst(s, c);
      assert forall i, j :: IsFirst(s, c, i) && IsFirst(s, c, j) ==> i == j by {
        forall i, j | IsFirst(s, c, i) && IsFirst(s, c, j) ensures i == j {
          FirstIsUnique(s, c, i, j);
        }
      }
      var i :| 0 <= i < |s| && IsFirst(s, c, i);
      i
  }

  lemma FirstOccurrence(s: string, c: char, i: nat)
    requires i < |s| && s[i] == c && c !in s[..i]
    ensures IndexByte(s, c) == i
  {
    assert IsFirst(s, c, i) && IsFirst(s, c, IndexByte(s, c));
    FirstIsUnique(s, c, i, IndexByte(s, c));
  }

  predicate OccursAt(s: string, sub: string, i: int) {
    0 <= i && i + |sub| <= |s| && s[i..i + |sub|] == sub
  }

  /** strings.Contains */
  predicate Contains(s: string, sub: string) {
    exists i :: 0 <= i <= |s| && OccursAt(s, sub, i)
  }

  lemma ContainsSlice(s: string, a: nat, b: nat)
    requires a <= b <= |s|
    ensures Contains(s, s[a..b])
  {
    assert OccursAt(s, s[a..b], a);
  }

  lemma ContainsMiddle(a: string, b: string, c: string)
    ensures Contains(a + b + c, b)
  {
    assert OccursAt(a + b + c, b, |a|);
  }

  lemma ContainsIsTransitive(s: string, t: string, u: string)
    requires Contains(s, t) && Contains(t, u)
    ensures Contains(s, u)
  {
    var i :| 0 <= i <= |s| && OccursAt(s, t, i);
    var j :| 0 <= j <= |t| && OccursAt(t, u, j);
    forall k | 0 <= k < |u| ensures s[i + j + k] == u[k] {
      assert t[j..j + |u|][k] == t[j + k] == s[i..i + |t|][j + k];
    }
    assert s[i + j..i + j + |u|] == u;
    assert OccursAt(s, u, i + j);
  }

  // ---------- Splitting ----------

  /** strings.Split with a one-character separator */
  function Split(s: string, sep: char): (parts: seq<string>)
    ensures |parts| >= 1
    decreases |s|
  {
    var i := IndexByte(s, sep);
    if i < 0 then [s] else [s[..i]] + Split(s[i + 1..], sep)
  }

  function Join(parts: seq<string>, sep: char): string
    requires |parts| >= 1
  {
    if |parts| == 1 then parts[0] else parts[0] + [sep] + Join(parts[1..], sep)
  }

  predicate Without(parts: seq<string>, sep: char) {
    forall k :: 0 <= k < |parts| ==> sep !in parts[k]
  }

  lemma {:induction false} JoinSplit(s: string, sep: char)
    ensures Join(Split(s, sep), sep) == s
    ensures Without(Split(s, sep), sep)
    decreases |s|
  {
    var i := IndexByte(s, sep);
    if 0 <= i {
      JoinSplit(s[i + 1..], sep);
      assert ([s[..i]] + Split(s[i + 1..], sep))[1..] == Split(s[i + 1..], sep);
      assert s == s[..i] + [sep] + s[i + 1..];
    }
  }

  lemma SplitWithout(s: string, sep: char)
    requires sep !in s
    ensures Split(s, sep) == [s]
  {
  }

  lemma SplitAt(s: string, sep: char, i: nat)
    requires i < |s| && s[i] == sep && sep !in s[..i]
    ensures Split(s, sep) == [s[..i]] + Split(s[i + 1..], sep)
  {
    FirstOccurrence(s, sep, i);
  }

  /** The pieces before and after the first separator. */
  lemma SplitAtSeparator(a: string, sep: char, b: string)
    requires sep !in a
    ensures Split(a + [sep] + b, sep) == [a] + Split(b, sep)
  {
    hide Split;
    var s := a + [sep] + b;
    assert s[..|a|] == a && s[|a| + 1..] == b && s[|a|] == sep;
    SplitAt(s, sep, |a|);
  }

  /** A text is split in one way: into pieces without the separator that join to it. */
  lemma {:induction false} SplitJoin(parts: seq<string>, sep: char)
    requires |parts| >= 1 && Without(parts, sep)
    ensures Split(Join(parts, sep), sep) == parts
  {
    hide Split;
    if |parts| == 1 {
      SplitWithout(parts[0], sep);
    } else {
      SplitJoin(parts[1..], sep);
      SplitAtSeparator(parts[0], sep, Join(parts[1..], sep));
      assert parts == [parts[0]] + parts[1..];
    }
  }

  lemma {:induction false} JoinAppends(x: seq<string>, y: seq<string>, sep: char)
    requires |x| >= 1 && |y| >= 1
    ensures Join(x + y, sep) == Join(x, sep) + [sep] + Join(y, sep)
  {
    assert (x + y)[1..] == x[1..] + y;
    if |x| > 1 {
      JoinAppends(x[1..], y, sep);
      Associative(x[0] + [sep], Join(x[1..], sep), [sep]);
      Associative(x[0] + [sep], Join(x[1..], sep) + [sep], Join(y, sep));
    } else {
      assert (x + y)[1..] == y;
    }
  }

  lemma {:induction false} JoinOntoLast(front: seq<string>, last: string, b: string, q: seq<string>, sep: char)
    requires |q| >= 1 && Join(q, sep) == last + b
    ensures Join(front + q, sep) == Join(front + [last], sep) + b
  {
    if front == [] {
      assert front + q == q;
    } else {
      JoinAppends(front, q, sep);
      JoinAppends(front, [last], sep);
      Associative(Join(front, sep) + [sep], last, b);
    }
  }

  /** Splitting a longer text only splits the last piece further. */
  lemma SplitAppends(a: string, b: string, sep: char)
    ensures var p := Split(a, sep); var last := |p| - 1;
      Split(a + b, sep) == p[..last] + Split(p[last] + b, sep)
  {
    hide Split, Join;
    JoinSplit(a, sep);
    SplitAfter(Split(a, sep), b, sep);
  }

  lemma SplitAfter(p: seq<string>, b: string, sep: char)
    requires |p| >= 1 && Without(p, sep)
    ensures Split(Join(p, sep) + b, sep) == p[..|p| - 1] + Split(p[|p| - 1] + b, sep)
  {
    var last := |p| - 1;
    var q := Split(p[last] + b, sep);
    JoinSplit(p[last] + b, sep);
    assert p == p[..last] + [p[last]];
    JoinOntoLast(p[..last], p[last], b, q, sep);
    SplitJoin(p[..last] + q, sep);
  }

  function Digit(n: int): char
    requires 0 <= n < 10
  {
    "0123456789"[n]
  }

  /** fmt's %d */
  function Decimal(n: int): string
    decreases n < 0, if n < 0 then -n else n
  {
    if n < 0 then "-" + Decimal(-n)
    else if n < 10 then [Digit(n)]
    else Decimal(n / 10) + [Digit(n % 10)]
  }

  /** The number that decimal digits stand for. */
  function Number(s: string): int {
    if s == "" then 0
    else if s[0] == '-' then -Number(s[1..])
    else 10 * Number(s[..|s| - 1]) + (s[|s| - 1] as int - '0' as int)
  }

  lemma DigitIsTheNumber(n: int)
    requires 0 <= n < 10
    ensures Digit(n) as int - '0' as int == n && Digit(n) != '-'
  {
  }

  lemma NumberOfMore(s: string, c: char)
    requires c != '-' && (s == "" || s[0] != '-')
    ensures Number(s + [c]) == 10 * Number(s) + (c as int - '0' as int) && s + [c] != "" && (s + [c])[0] != '-'
  {
    assert (s + [c])[..|s|] == s && (s + [c])[|s|] == c;
  }

  lemma DecimalOfMore(n: int)
    requires n >= 0
    ensures Decimal(n) == (if n < 10 then "" else Decimal(n / 10)) + [Digit(n % 10)]
  {
    hide Digit;
    assert n < 10 ==> "" + [Digit(n)] == [Digit(n)];
  }

  lemma DecimalOfMinus(n: int)
    requires n < 0
    ensures Decimal(n) == "-" + Decimal(-n)
  {
  }

  /** The digits printed stand for the number. */
  lemma {:induction false} DecimalIsTheNumber(n: int)
    ensures Number(Decimal(n)) == n && Decimal(n) != "" && (n >= 0 ==> Decimal(n)[0] != '-')
    decreases n < 0, if n < 0 then -n else n
  {
    hide Number, Decimal, Digit;
    if n < 0 {
      DecimalIsTheNumber(-n);
      DecimalOfMinus(n);
      NumberOfMinus(Decimal(-n));
    } else {
      DigitIsTheNumber(n % 10);
      DecimalOfMore(n);
      NoNumber();
      if n >= 10 {
        DecimalIsTheNumber(n / 10);
      }
      NumberOfMore(if n < 10 then "" else Decimal(n / 10), Digit(n % 10));
    }
  }

  lemma NumberOfMinus(s: string)
    ensures Number("-" + s) == -Number(s)
  {
    assert ("-" + s)[1..] == s;
  }

  lemma NoNumber()
    ensures Number("") == 0
  {
  }

  function Concat(parts: seq<string>): string {
    if parts == [] then "" else parts[0] + Concat(parts[1..])
  }
}
