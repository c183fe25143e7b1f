/** The character classes and string primitives the PHP source relies on:
    PCRE's `\d` and `\s` (patterns compiled without the `u` flag), PHP's
    `trim`, `strtolower`, `empty`, and `explode("\n", ...)`.

    Strings are sequences of Unicode scalar values. PHP works on bytes; for
    UTF-8 input the two views agree on every rule below, because each rule
    only ever compares non-ASCII characters for exact equality. */
module Strings {

  /** `\d` and `[0-9]`: an ASCII decimal digit. */
  predicate IsDigit(c: char) {
    '0' <= c <= '9'
  }

  /** `\s` without the `u` flag: space, tab, line feed, vertical tab, form feed, carriage return. */
  predicate IsSpace(c: char) {
    c == ' ' || c == '\t' || c == '\n' || c == '\U{000B}' || c == '\U{000C}' || c == '\r'
  }

  /** The characters PHP's `trim` strips by default: space, tab, line feed,
      carriage return, NUL and vertical tab. Unlike `\s`, this set holds NUL
      and not form feed. */
  predicate IsTrimmable(c: char) {
    c == ' ' || c == '\t' || c == '\n' || c == '\r' || c == '\0' || c == '\U{000B}'
  }

  /** Every character is a decimal digit. */
  predicate AllDigits(s: string) {
    forall i :: 0 <= i < |s| ==> IsDigit(s[i])
  }

  predicate NotNewline(c: char) {
    c != '\n'
  }

  /** PHP's `empty($s)` (equivalently, `!$s`) on a string: only "" and "0" are falsy. */
  predicate IsFalsy(s: string) {
    s == "" || s == "0"
  }

  /** ASCII-only lower-casing, as `strtolower` and the `i` flag without `u` do:
      letters outside A-Z (such as `Ç` or `Ã`) are left alone. */
  function ToLower(c: char): char {
    if 'A' <= c <= 'Z' then (c as int + 32) as char else c
  }

  function Lower(s: string): (r: string)
    ensures |r| == |s|
    ensures forall i :: 0 <= i < |s| ==> r[i] == ToLower(s[i])
  {
    seq(|s|, i requires 0 <= i < |s| => ToLower(s[i]))
  }

  /** The literal `lit` occurs in `t` at position `i`, compared case-insensitively. */
  predicate MatchesAt(t: string, i: nat, lit: string) {
    i + |lit| <= |t| && Lower(t[i..i + |lit|]) == Lower(lit)
  }

  /** The literal `lit` occurs in `t` at position `i`, compared exactly. */
  predicate StartsAt(t: string, i: nat, lit: string) {
    i + |lit| <= |t| && t[i..i + |lit|] == lit
  }

  /** The literal occurs anywhere in `t`, case-insensitively (an unanchored `/lit/i`). */
  predicate ContainsAt(t: string, lit: string) {
    exists i :: 0 <= i <= |t| && MatchesAt(t, i, lit)
  }

  /** The end of the longest run of characters satisfying `p` that starts at
      `i`: what a greedy `p*` consumes before it has to give anything back. */
  function Skip(t: string, i: nat, p: char -> bool): (j: nat)
    requires i <= |t|
    ensures i <= j <= |t|
    ensures forall k :: i <= k < j ==> p(t[k])
    ensures j < |t| ==> !p(t[j])
    decreases |t| - i
  {
    if i == |t| || !p(t[i]) then i else Skip(t, i + 1, p)
  }

  /** A run of `p` that ends where `p` fails is the run `Skip` finds. */
  lemma SkipTo(t: string, i: nat, p: char -> bool, j: nat)
    requires i <= j <= |t|
    requires forall k :: i <= k < j ==> p(t[k])
    requires j < |t| ==> !p(t[j])
    ensures Skip(t, i, p) == j
  {
  }

  /** The position of the first line feed at or after `i`, or `|t|`: how far
      `.` (which never matches a line feed) can reach from `i`. */
  function LineEnd(t: string, i: nat): (j: nat)
    requires i <= |t|
    ensures i <= j <= |t|
    ensures '\n' !in t[i..j]
    ensures j < |t| ==> t[j] == '\n'
  {
    var j := Skip(t, i, NotNewline);
    assert forall k :: i <= k < j ==> t[k] != '\n';
    j
  }

  /** The number of one end's trimmable characters: the end of the run PHP's `ltrim` removes. */
  function TrimStart(s: string): (a: nat)
    ensures a <= |s|
    ensures forall i :: 0 <= i < a ==> IsTrimmable(s[i])
    ensures a < |s| ==> !IsTrimmable(s[a])
  {
    Skip(s, 0, IsTrimmable)
  }

  /** The start of the run of trimmable characters at the end of `s`, which `rtrim` removes. */
  function TrimEnd(s: string): (b: nat)
    ensures b <= |s|
    ensures forall i :: b <= i < |s| ==> IsTrimmable(s[i])
    ensures b > 0 ==> !IsTrimmable(s[b - 1])
    decreases |s|
  {
    if s == [] || !IsTrimmable(s[|s| - 1]) then |s| else TrimEnd(s[..|s| - 1])
  }

  /** PHP's `trim` with its default character set. */
  function Trim(s: string): (r: string)
    ensures r == [] || (!IsTrimmable(r[0]) && !IsTrimmable(r[|r| - 1]))
    ensures TrimStart(s) + |r| <= |s| && r == s[TrimStart(s)..TrimStart(s) + |r|]
    ensures forall i :: TrimStart(s) + |r| <= i < |s| ==> IsTrimmable(s[i])
    ensures forall c :: c in r ==> c in s
  {
    var a := TrimStart(s);
    var u := s[a..];
    var b := TrimEnd(u);
    assert forall i :: a + b <= i < |s| ==> s[i] == u[i - a];
    u[..b]
  }

  /** Trimming leaves a string alone exactly when neither end is trimmable. */
  lemma TrimKeeps(s: string)
    ensures Trim(s) == s <==> (s == [] || (!IsTrimmable(s[0]) && !IsTrimmable(s[|s| - 1])))
  {
    if s != [] && !IsTrimmable(s[0]) && !IsTrimmable(s[|s| - 1]) {
      assert TrimStart(s) == 0;
      assert TrimEnd(s) == |s|;
    }
  }

  /** `trim` is idempotent. */
  lemma TrimIdempotent(s: string)
    ensures Trim(Trim(s)) == Trim(s)
  {
    TrimKeeps(Trim(s));
  }

  /** `explode("\n", t)`: the pieces of `t` between line feeds, always at least one. */
  function Lines(t: string): (ls: seq<string>)
    ensures |ls| >= 1
    ensures forall i :: 0 <= i < |ls| ==> '\n' !in ls[i]
    decreases |t|
  {
    var e := LineEnd(t, 0);
    if e == |t| then [t] else [t[..e]] + Lines(t[e + 1..])
  }

  /** `implode("\n", ls)`, the inverse of `Lines`. */
  function Join(ls: seq<string>): string
  {
    if ls == [] then ""
    else if |ls| == 1 then ls[0]
    else ls[0] + "\n" + Join(ls[1..])
  }

  /** Splitting on line feeds loses nothing: joining the lines back gives the text. */
  lemma {:induction false} JoinLines(t: string)
    ensures Join(Lines(t)) == t
    decreases |t|
  {
    var e := LineEnd(t, 0);
    if e < |t| {
      JoinLines(t[e + 1..]);
      assert t == t[..e] + "\n" + t[e + 1..];
    }
  }

  /** ... and lines without line feeds are recovered exactly from their join. */
  lemma {:induction false} LinesJoin(ls: seq<string>)
    requires |ls| >= 1
    requires forall i :: 0 <= i < |ls| ==> '\n' !in ls[i]
    ensures Lines(Join(ls)) == ls
    decreases |ls|
  {
    var t := Join(ls);
    if |ls| == 1 {
      assert LineEnd(t, 0) == |t|;
    } else {
      var rest := Join(ls[1..]);
      assert t == ls[0] + "\n" + rest;
      assert t[|ls[0]|] == '\n';
      assert '\n' !in t[0..|ls[0]|] by { assert t[0..|ls[0]|] == ls[0]; }
      LineEndAt(t, |ls[0]|);
      assert t[|ls[0]| + 1..] == rest;
      LinesJoin(ls[1..]);
    }
  }

  /** The first line feed is found where it is. */
  lemma LineEndAt(t: string, e: nat)
    requires e < |t| && t[e] == '\n' && '\n' !in t[0..e]
    ensures LineEnd(t, 0) == e
  {
  }
}
