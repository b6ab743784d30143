/**
 * The string and path primitives of Go's standard library that the core's
 * decisions rest on: `strings.Index`/`Contains`/`Split`, `strings.ToLower`,
 * `strings.TrimSpace`, `strings.TrimLeft`, `filepath.Base`, `filepath.Ext`
 * (forward-slash paths), and decimal formatting of a non-negative integer.
 * Character classes are restricted to ASCII.
 */
module Text {
  import opened Wrappers

  predicate IsSuffix(r: string, s: string) {
    |r| <= |s| && s[|s| - |r|..] == r
  }

  predicate IsPrefix(r: string, s: string) {
    |r| <= |s| && s[..|r|] == r
  }

  // ---------------------------------------------------------------------------
  // strings.Index, strings.Contains, strings.Split

  predicate OccursAt(s: string, sep: string, j: int) {
    0 <= j && j + |sep| <= |s| && s[j..j + |sep|] == sep
  }

  function IndexFrom(s: string, sep: string, k: nat): (r: Option<nat>)
    ensures r.Some? ==> k <= r.value && OccursAt(s, sep, r.value)
    ensures r.Some? ==> forall j :: k <= j < r.value ==> !OccursAt(s, sep, j)
    ensures r.None? ==> forall j :: k <= j ==> !OccursAt(s, sep, j)
    decreases |s| - k
  {
    if k + |sep| > |s| then None
    else if s[k..k + |sep|] == sep then Some(k)
    else IndexFrom(s, sep, k + 1)
  }

  /** strings.Index: the first position at which `sep` occurs in `s`. */
  function Index(s: string, sep: string): (r: Option<nat>)
    ensures r.Some? ==> OccursAt(s, sep, r.value) && forall j :: 0 <= j < r.value ==> !OccursAt(s, sep, j)
    ensures r.None? ==> forall j :: !OccursAt(s, sep, j)
  {
    IndexFrom(s, sep, 0)
  }

  /** strings.Contains */
  predicate Contains(s: string, sep: string) {
    Index(s, sep).Some?
  }

  /** strings.Split for a non-empty separator: the pieces between successive first occurrences. */
  function Split(s: string, sep: string): (parts: seq<string>)
    requires sep != []
    ensures |parts| >= 1
    ensures Contains(s, sep) <==> |parts| >= 2
    decreases |s|
  {
    match Index(s, sep)
    case None => [s]
    case Some(i) => [s[..i]] + Split(s[i + |sep|..], sep)
  }

  /** No piece of a split contains the separator. */
  lemma {:induction false} SplitPiecesFree(s: string, sep: string)
    requires sep != []
    ensures forall k :: 0 <= k < |Split(s, sep)| ==> !Contains(Split(s, sep)[k], sep)
    decreases |s|
  {
    match Index(s, sep)
    case None =>
    case Some(i) =>
      var rest := s[i + |sep|..];
      SplitPiecesFree(rest, sep);
      var head := s[..i];
      forall j | OccursAt(head, sep, j) ensures false {
        assert s[j..j + |sep|] == head[j..j + |sep|];
        assert OccursAt(s, sep, j);
      }
      assert !Contains(head, sep);
  }

  /** The first piece is the text before the first separator (all of `s` when there is none),
      and the remaining pieces are the split of what follows that separator. */
  lemma SplitHead(s: string, sep: string)
    requires sep != []
    ensures IsPrefix(Split(s, sep)[0], s)
    ensures !Contains(s, sep) ==> Split(s, sep) == [s]
    ensures Contains(s, sep) ==>
      && Split(s, sep)[0] == s[..Index(s, sep).value]
      && Split(s, sep)[1..] == Split(s[Index(s, sep).value + |sep|..], sep)
  {
  }

  /** Splitting `a + sep + b` on a one-character separator absent from `a` peels `a` off. */
  lemma SplitCons(a: string, sep: string, b: string)
    requires |sep| == 1 && !Contains(a, sep)
    ensures Split(a + sep + b, sep) == [a] + Split(b, sep)
  {
    var s := a + sep + b;
    assert OccursAt(s, sep, |a|) by { assert s[|a|..|a| + |sep|] == sep; }
    forall j | 0 <= j < |a| ensures !OccursAt(s, sep, j) {
      assert s[j..j + 1] == a[j..j + 1];
      assert !OccursAt(a, sep, j);
    }
    var i := Index(s, sep).value;
    assert i == |a|;
    assert s[..i] == a;
    assert s[i + |sep|..] == b;
  }

  /** A one-character separator occurs only where that character stands. */
  lemma AbsentCharNotContained(a: string, c: char)
    requires forall i :: 0 <= i < |a| ==> a[i] != c
    ensures !Contains(a, [c])
  {
    forall j | 0 <= j && j + 1 <= |a| ensures !OccursAt(a, [c], j) {
      assert a[j..j + 1][0] == a[j];
    }
  }

  /** The message of errors.Wrap(cause, context): the context, ": ", then the cause. */
  function Wrap(context: string, cause: string): string {
    context + ": " + cause
  }

  // ---------------------------------------------------------------------------
  // strings.ToLower, strings.TrimSpace, strings.TrimLeft (ASCII)

  function LowerChar(c: char): char {
    if 'A' <= c <= 'Z' then (c as int + 32) as char else c
  }

  /** strings.ToLower on ASCII text. */
  function Lower(s: string): (r: string)
    ensures |r| == |s|
    ensures forall i :: 0 <= i < |s| ==> r[i] == LowerChar(s[i])
  {
    seq(|s|, i requires 0 <= i < |s| => LowerChar(s[i]))
  }

  predicate IsSpace(c: char) {
    c == ' ' || c == '\t' || c == '\n' || c == '\r' || c as int == 11 || c as int == 12
  }

  predicate IsV(c: char) {
    c == 'v'
  }

  /** Drops the longest prefix whose characters all satisfy `p`. */
  function DropWhile(s: string, p: char -> bool): (r: string)
    ensures IsSuffix(r, s)
    ensures r == [] || !p(r[0])
    ensures forall i :: 0 <= i < |s| - |r| ==> p(s[i])
  {
    if s != [] && p(s[0]) then DropWhile(s[1..], p) else s
  }

  /** Drops the longest suffix whose characters all satisfy `p`. */
  function DropLastWhile(s: string, p: char -> bool): (r: string)
    ensures IsPrefix(r, s)
    ensures r == [] || !p(r[|r| - 1])
    ensures forall i :: |r| <= i < |s| ==> p(s[i])
  {
    if s != [] && p(s[|s| - 1]) then DropLastWhile(s[..|s| - 1], p) else s
  }

  /** strings.TrimSpace */
  function TrimSpace(s: string): string {
    DropLastWhile(DropWhile(s, IsSpace), IsSpace)
  }

  /** strings.TrimLeft(s, "v") */
  function TrimLeftV(s: string): string {
    DropWhile(s, IsV)
  }

  // ---------------------------------------------------------------------------
  // filepath.Base and filepath.Ext on forward-slash paths

  /** The last path element (the text after the final '/', if any). */
  function LastElement(p: string): (r: string)
    ensures IsSuffix(r, p)
    ensures forall i :: 0 <= i < |r| ==> r[i] != '/'
    ensures |r| < |p| ==> p[|p| - |r| - 1] == '/'
  {
    if p == [] || p[|p| - 1] == '/' then []
    else
      var q := p[..|p| - 1];
      var e := LastElement(q);
      var k := |q| - |e|;
      assert q[k..] == e;
      assert p == q + [p[|p| - 1]];
      assert p[k..] == q[k..] + [p[|p| - 1]];
      assert k > 0 ==> p[k - 1] == q[k - 1];
      e + [p[|p| - 1]]
  }

  /** filepath.Base: "." for the empty path, "/" for a path of slashes only,
      otherwise the last element once trailing slashes are removed. */
  function Base(p: string): (r: string)
    ensures r != []
  {
    if p == [] then "."
    else
      var s := DropLastWhile(p, c => c == '/');
      if s == [] then "/" else LastElement(s)
  }

  /** filepath.Ext: the scan back from the end that stops at a '/' and returns the suffix
      from the first '.' it meets, or "" when it meets none. */
  function Ext(p: string): (r: string)
    ensures r != [] ==> IsSuffix(r, p) && r[0] == '.'
    ensures forall i :: 0 < i < |r| ==> r[i] != '.' && r[i] != '/'
  {
    if p == [] || p[|p| - 1] == '/' then []
    else if p[|p| - 1] == '.' then "."
    else
      var e := Ext(p[..|p| - 1]);
      if e == [] then [] else e + [p[|p| - 1]]
  }

  /** The extension is empty exactly when the last path element holds no '.'. */
  lemma {:induction false} ExtEmptyIff(p: string)
    ensures Ext(p) == [] <==> forall i :: 0 <= i < |LastElement(p)| ==> LastElement(p)[i] != '.'
    decreases |p|
  {
    if p == [] || p[|p| - 1] == '/' {
    } else {
      var q := p[..|p| - 1];
      assert LastElement(p) == LastElement(q) + [p[|p| - 1]];
      if p[|p| - 1] != '.' {
        ExtEmptyIff(q);
        assert forall i :: 0 <= i < |LastElement(q)| ==> LastElement(p)[i] == LastElement(q)[i];
      }
    }
  }

  /** filepath.Dir for forward-slash paths: everything before the last element, with
      trailing slashes removed; "." when there is no '/', "/" when only slashes remain.
      Never empty. */
  function Dir(p: string): (r: string)
    ensures r != []
    ensures (forall i :: 0 <= i < |p| ==> p[i] != '/') ==> r == "."
  {
    var head := p[..|p| - |LastElement(p)|];
    if head == [] then "."
    else
      var s := DropLastWhile(head, c => c == '/');
      if s == [] then "/" else s
  }

  // ---------------------------------------------------------------------------
  // Decimal formatting (fmt "%d", Python str of an int) and its inverse

  predicate IsDigit(c: char) {
    '0' <= c <= '9'
  }

  function DigitChar(d: nat): (c: char)
    requires d < 10
    ensures IsDigit(c)
  {
    ('0' as int + d) as char
  }

  function Decimal(n: nat): (r: string)
    ensures r != []
    ensures forall i :: 0 <= i < |r| ==> IsDigit(r[i])
  {
    if n < 10 then [DigitChar(n)] else Decimal(n / 10) + [DigitChar(n % 10)]
  }

  function ParseDecimal(s: string): nat
    requires forall i :: 0 <= i < |s| ==> IsDigit(s[i])
  {
    if s == [] then 0
    else
      assert IsDigit(s[|s| - 1]);
      ParseDecimal(s[..|s| - 1]) * 10 + (s[|s| - 1] as int - '0' as int)
  }

  /** Formatting a number in decimal and reading it back gives the number. */
  lemma {:induction false} ParseDecimalOfDecimal(n: nat)
    ensures ParseDecimal(Decimal(n)) == n
  {
    if n >= 10 {
      var s := Decimal(n);
      ParseDecimalOfDecimal(n / 10);
      assert s[..|s| - 1] == Decimal(n / 10);
    }
  }
}
