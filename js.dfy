/** JavaScript values and the handful of string operations the routes rely on
    (`String.prototype.trim`, `toLowerCase`, `startsWith`, `includes`, `||`). */
module Js {

  datatype Option<T> = None | Some(value: T)

  /** A row or parameter value as the MySQL driver exchanges it with JavaScript. */
  datatype Value = VNull | VStr(s: string) | VInt(i: int)

  /** JavaScript truthiness of a value: `null`, `""` and `0` are falsy. */
  predicate Truthy(v: Value) {
    match v
    case VNull => false
    case VStr(s) => s != ""
    case VInt(i) => i != 0
  }

  /** Truthiness of an optional string: `undefined`/`null` and `""` are falsy. */
  predicate Present(s: Option<string>) {
    s.Some? && |s.value| > 0
  }

  /** `xs[0] || xs[1] || ... || null`: the first truthy string, else null. */
  function FirstPresent(xs: seq<Option<string>>): (r: Option<string>)
    ensures r.None? <==> forall i :: 0 <= i < |xs| ==> !Present(xs[i])
    ensures r.Some? ==> r.value != "" && exists i :: 0 <= i < |xs| && xs[i] == r && forall j :: 0 <= j < i ==> !Present(xs[j])
  {
    if xs == [] then None
    else if Present(xs[0]) then xs[0]
    else
      var rest := FirstPresent(xs[1..]);
      assert forall i :: 1 <= i < |xs| ==> xs[i] == xs[1..][i - 1];
      rest
  }

  /** One step of the `||` chain. */
  lemma FirstPresentStep(xs: seq<Option<string>>, k: nat)
    requires k < |xs|
    ensures FirstPresent(xs[k..]) == if Present(xs[k]) then xs[k] else FirstPresent(xs[k + 1..])
  {
    assert xs[k..][1..] == xs[k + 1..];
  }

  /** A variable that takes the `k`-th operand of the chain when it holds nothing yet:
      afterwards the chain is the variable or the rest of the chain after `k`. */
  lemma FirstPresentAdvance(xs: seq<Option<string>>, k: nat, before: Option<string>, after: Option<string>)
    requires k < |xs|
    requires FirstPresent(xs) == if Present(before) then before else FirstPresent(xs[k..])
    requires Present(before) ==> after == before
    requires !Present(before) ==> after == xs[k] || (after == before && !Present(xs[k]))
    ensures FirstPresent(xs) == if Present(after) then after else FirstPresent(xs[k + 1..])
  {
    FirstPresentStep(xs, k);
  }

  /** A chain of two: `a || b`. */
  lemma FirstPresentPair(a: Option<string>, b: Option<string>)
    ensures FirstPresent([a, b]) == if Present(a) then a else if Present(b) then b else None
  {
    assert [a, b][1..] == [b];
    assert [b][1..] == [];
  }

  /** `xs[0] || ... || fallback` where the fallback is a non-empty literal. */
  function FirstPresentOr(xs: seq<Option<string>>, fallback: string): (r: string)
    requires fallback != ""
    ensures r != ""
    ensures (forall i :: 0 <= i < |xs| ==> !Present(xs[i])) ==> r == fallback
    ensures (exists i :: 0 <= i < |xs| && Present(xs[i])) ==> Some(r) == FirstPresent(xs)
  {
    match FirstPresent(xs)
    case Some(v) => v
    case None => fallback
  }

  /** `xs[0] || xs[1] || ... || last` over values: the first truthy one, else `last`. */
  function FirstTruthyOr(xs: seq<Value>, last: Value): (r: Value)
    ensures (forall i :: 0 <= i < |xs| ==> !Truthy(xs[i])) ==> r == last
    ensures (exists i :: 0 <= i < |xs| && Truthy(xs[i])) ==>
      Truthy(r) && exists i :: 0 <= i < |xs| && xs[i] == r && forall j :: 0 <= j < i ==> !Truthy(xs[j])
  {
    if xs == [] then last
    else if Truthy(xs[0]) then xs[0]
    else
      var rest := FirstTruthyOr(xs[1..], last);
      assert forall i :: 1 <= i < |xs| ==> xs[i] == xs[1..][i - 1];
      rest
  }

  /** One step of the `||` chain over values. */
  lemma FirstTruthyOrStep(xs: seq<Value>, last: Value)
    requires xs != []
    ensures FirstTruthyOr(xs, last) == if Truthy(xs[0]) then xs[0] else FirstTruthyOr(xs[1..], last)
  {
  }

  /** An optional string as a JavaScript value (`null` when absent). */
  function OrNull(s: Option<string>): Value {
    match s case None => VNull case Some(v) => VStr(v)
  }

  predicate IsDigit(c: char) {
    '0' <= c <= '9'
  }

  predicate AllDigits(s: string) {
    forall i :: 0 <= i < |s| ==> IsDigit(s[i])
  }

  predicate IsAsciiLetter(c: char) {
    'a' <= c <= 'z' || 'A' <= c <= 'Z'
  }

  predicate AllLetters(s: string) {
    forall i :: 0 <= i < |s| ==> IsAsciiLetter(s[i])
  }

  function LowerChar(c: char): char {
    if 'A' <= c <= 'Z' then (c as int + 32) as char else c
  }

  /** `toLowerCase`, restricted to the ASCII letters. */
  function Lower(s: string): (r: string)
    ensures |r| == |s|
    ensures forall i :: 0 <= i < |s| ==> r[i] == LowerChar(s[i])
  {
    seq(|s|, i requires 0 <= i < |s| => LowerChar(s[i]))
  }

  predicate StartsWith(s: string, prefix: string) {
    |prefix| <= |s| && s[..|prefix|] == prefix
  }

  /** `s.includes(sub)`. */
  predicate Contains(s: string, sub: string)
    decreases |s|
  {
    StartsWith(s, sub) || (s != [] && Contains(s[1..], sub))
  }

  /** The characters `\s` and `trim` treat as white space: ECMAScript WhiteSpace and
      LineTerminator. */
  predicate IsSpace(c: char) {
    var n := c as int;
    (9 <= n <= 13) || n == 0x20 || n == 0xA0 || n == 0x1680 || (0x2000 <= n <= 0x200A)
    || n == 0x2028 || n == 0x2029 || n == 0x202F || n == 0x205F || n == 0x3000 || n == 0xFEFF
  }

  /** The characters `.` in a regular expression does not match. */
  predicate IsLineTerminator(c: char) {
    var n := c as int;
    n == 0x0A || n == 0x0D || n == 0x2028 || n == 0x2029
  }

  predicate AllSpaces(s: string) {
    forall i :: 0 <= i < |s| ==> IsSpace(s[i])
  }

  function TrimStart(s: string): (r: string)
    ensures |r| <= |s| && r == s[|s| - |r|..]
    ensures r == [] || !IsSpace(r[0])
  {
    if s != [] && IsSpace(s[0]) then
      var t := s[1..];
      var r := TrimStart(t);
      assert s[|s| - |r|..] == t[|t| - |r|..];
      r
    else s
  }

  /** What `TrimStart` drops is white space. */
  lemma {:induction false} TrimStartDropsSpaces(s: string)
    ensures AllSpaces(s[..|s| - |TrimStart(s)|])
  {
    if s != [] && IsSpace(s[0]) {
      var t := s[1..];
      TrimStartDropsSpaces(t);
      assert s[..|s| - |TrimStart(s)|] == [s[0]] + t[..|t| - |TrimStart(t)|];
    }
  }

  function TrimEnd(s: string): (r: string)
    ensures |r| <= |s| && r == s[..|r|]
    ensures r == [] || !IsSpace(r[|r| - 1])
  {
    if s != [] && IsSpace(s[|s| - 1]) then
      var t := s[..|s| - 1];
      var r := TrimEnd(t);
      assert s[..|r|] == t[..|r|];
      r
    else s
  }

  /** `s.trim()`: the text without its leading and trailing white space. */
  function Trim(s: string): (r: string)
    ensures |r| <= |s|
    ensures r == [] || (!IsSpace(r[0]) && !IsSpace(r[|r| - 1]))
  {
    TrimEnd(TrimStart(s))
  }

  /** A text that neither starts nor ends with white space is its own trim. */
  lemma TrimUnpadded(s: string)
    requires s == [] || (!IsSpace(s[0]) && !IsSpace(s[|s| - 1]))
    ensures Trim(s) == s
  {
    assert TrimStart(s) == s;
  }

  /** Leading white space is dropped one character at a time. */
  lemma TrimLeadingSpace(c: char, s: string)
    requires IsSpace(c)
    ensures Trim([c] + s) == Trim(s)
  {
    assert ([c] + s)[1..] == s;
  }

  /** A text of white space only trims to the empty text. */
  lemma TrimBlank(s: string)
    requires AllSpaces(s)
    ensures Trim(s) == []
  {
  }

  // ---------------------------------------------------------------- non-global `replace`

  /** A regular expression tried at one position: the end of the match that starts at
      `i`, if there is one. */
  type Matcher = (string, nat) -> Option<nat>

  /** The match of `m` at `i`, kept only when it lies within `s`. */
  function MatchAt(m: Matcher, s: string, i: nat): (r: Option<nat>)
    ensures r.Some? ==> i <= r.value <= |s|
  {
    if i <= |s| && m(s, i).Some? && i <= m(s, i).value <= |s| then m(s, i) else None
  }

  /** The leftmost position at or after `from` where `m` matches. */
  function Search(m: Matcher, s: string, from: nat): (r: Option<nat>)
    ensures r.Some? ==> from <= r.value <= |s| && MatchAt(m, s, r.value).Some?
    ensures r.Some? ==> forall j :: from <= j < r.value ==> MatchAt(m, s, j).None?
    ensures r.None? ==> forall j :: from <= j <= |s| ==> MatchAt(m, s, j).None?
    decreases |s| - from
  {
    if from > |s| then None
    else if MatchAt(m, s, from).Some? then Some(from)
    else Search(m, s, from + 1)
  }

  /** `s.replace(re, rep)` for a regular expression without the `g` flag: the leftmost
      match is replaced, and the text is unchanged when there is none. */
  function Replace(s: string, m: Matcher, rep: string): string {
    match Search(m, s, 0)
    case None => s
    case Some(i) => s[..i] + rep + s[MatchAt(m, s, i).value..]
  }

  /** The length of the white space at the start of `s` (what a greedy `\s*` takes). */
  function SpaceRun(s: string): (k: nat)
    ensures k <= |s| && AllSpaces(s[..k]) && (k == |s| || !IsSpace(s[k]))
  {
    TrimStartDropsSpaces(s);
    |s| - |TrimStart(s)|
  }

  predicate NoLineTerminator(s: string) {
    forall i :: 0 <= i < |s| ==> !IsLineTerminator(s[i])
  }

  /** ASCII case-insensitive equality, as `/i` compares the letters of these patterns. */
  predicate EqualsIgnoreCase(a: string, b: string) {
    Lower(a) == Lower(b)
  }

  /** A pattern that matches at the start of the text is replaced there. */
  lemma ReplaceAtStart(s: string, m: Matcher, rep: string)
    requires MatchAt(m, s, 0).Some?
    ensures Replace(s, m, rep) == rep + s[MatchAt(m, s, 0).value..]
  {
    assert s[..0] == [];
  }

  /** A pattern that matches nowhere leaves the text alone. */
  lemma ReplaceNoMatch(s: string, m: Matcher, rep: string)
    requires forall j :: 0 <= j <= |s| ==> MatchAt(m, s, j).None?
    ensures Replace(s, m, rep) == s
  {
  }

  /** `s.replace(lit, rep)` with a string pattern: the first occurrence of `lit`. */
  function LiteralAt(lit: string): Matcher {
    (s: string, i: nat) => if i + |lit| <= |s| && s[i..i + |lit|] == lit then Some(i + |lit|) else None
  }
}
