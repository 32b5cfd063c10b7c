/**
 * The Python string primitives the core relies on: whitespace as `str.strip()` and the
 * regular-expression class `\s` understand it, `strip`, `split('\n')`, `'\n'.join`,
 * substring tests, ASCII lower-casing and decimal rendering of integers.
 */
module Text {

  /** Python's whitespace test (`str.isspace`, also used by `str.strip()` and by `\s`). */
  predicate IsSpace(c: char) {
    var n := c as int;
    (0x09 <= n <= 0x0D) || (0x1C <= n <= 0x20) || n == 0x85 || n == 0xA0 || n == 0x1680 ||
    (0x2000 <= n <= 0x200A) || n == 0x2028 || n == 0x2029 || n == 0x202F || n == 0x205F ||
    n == 0x3000
  }

  /** Every character is whitespace: Python's `not s.strip()`. */
  predicate Blank(s: string) {
    forall i :: 0 <= i < |s| ==> IsSpace(s[i])
  }

  /** Neither end of `s` is whitespace. */
  predicate Stripped(s: string) {
    |s| == 0 || (!IsSpace(s[0]) && !IsSpace(s[|s| - 1]))
  }

  /** `s.lstrip()`: the longest suffix of `s` that does not start with whitespace. */
  function LStrip(s: string): (r: string)
    ensures |r| <= |s| && r == s[|s| - |r|..]
    ensures |r| == 0 || !IsSpace(r[0])
    ensures forall i :: 0 <= i < |s| - |r| ==> IsSpace(s[i])
  {
    if |s| > 0 && IsSpace(s[0]) then
      var r := LStrip(s[1..]);
      assert forall i :: 1 <= i < |s| - |r| ==> s[i] == s[1..][i - 1];
      r
    else s
  }

  /** `s.rstrip()`: the longest prefix of `s` that does not end with whitespace. */
  function RStrip(s: string): (r: string)
    ensures |r| <= |s| && r == s[..|r|]
    ensures |r| == 0 || !IsSpace(r[|r| - 1])
    ensures Blank(s[|r|..])
  {
    if |s| > 0 && IsSpace(s[|s| - 1]) then
      var r := RStrip(s[..|s| - 1]);
      assert s[..|s| - 1][|r|..] == s[|r|..|s| - 1];
      r
    else s
  }

  /** `s.strip()`. */
  function Strip(s: string): (r: string)
  {
    RStrip(LStrip(s))
  }

  lemma StripIsSlice(s: string) returns (a: nat, b: nat)
    ensures a <= b <= |s| && Strip(s) == s[a..b]
    ensures Stripped(Strip(s))
  {
    var l := LStrip(s);
    a := |s| - |l|;
    b := a + |RStrip(l)|;
    assert Strip(s) == l[..|RStrip(l)|];
    assert l[..|RStrip(l)|] == s[a..b];
    var r := Strip(s);
    if |r| > 0 {
      assert r[0] == l[0];
    }
  }

  /** Stripping does nothing exactly when neither end is whitespace. */
  lemma StripFixpoint(s: string)
    ensures Strip(s) == s <==> Stripped(s)
  {
    var a, b := StripIsSlice(s);
    if Stripped(s) && |s| > 0 {
      assert LStrip(s) == s;
      assert RStrip(s) == s;
    } else if Stripped(s) {
      assert s == [];
    }
  }

  /** Stripping leaves nothing exactly when the string is all whitespace. */
  lemma StripEmpty(s: string)
    ensures |Strip(s)| == 0 <==> Blank(s)
  {
    var l := LStrip(s);
    if !Blank(s) {
      var i :| 0 <= i < |s| && !IsSpace(s[i]);
      assert i >= |s| - |l|;
    }
  }

  predicate HasChar(s: string, c: char) {
    exists i :: 0 <= i < |s| && s[i] == c
  }

  predicate OccursAt(s: string, sub: string, i: int) {
    0 <= i && i + |sub| <= |s| && s[i..i + |sub|] == sub
  }

  /** Python's `sub in s`. */
  predicate Contains(s: string, sub: string) {
    exists i :: 0 <= i <= |s| && OccursAt(s, sub, i)
  }

  /** Python's `s.startswith(p)`. */
  predicate StartsWith(s: string, p: string) {
    |p| <= |s| && s[..|p|] == p
  }

  lemma StartsWithConcat(p: string, rest: string)
    ensures StartsWith(p + rest, p)
  {
    assert (p + rest)[..|p|] == p;
  }

  function LowerChar(c: char): char {
    if 'A' <= c <= 'Z' then (c as int + 32) as char else c
  }

  /** `s.lower()` on ASCII letters; no other character lowers to an ASCII letter that the
      core's substring tests look for. */
  function Lower(s: string): (r: string)
    ensures |r| == |s|
    ensures forall i :: 0 <= i < |s| ==> r[i] == LowerChar(s[i])
  {
    if s == [] then [] else [LowerChar(s[0])] + Lower(s[1..])
  }

  /** Position of the first newline, if any. */
  function FirstNewline(s: string): (k: nat)
    ensures k <= |s|
    ensures forall i :: 0 <= i < k ==> s[i] != '\n'
    ensures k < |s| ==> s[k] == '\n'
  {
    if s == [] || s[0] == '\n' then 0 else 1 + FirstNewline(s[1..])
  }

  /** `s.split('\n')`: always at least one part, and no part holds a newline. */
  function Split(s: string): (ls: seq<string>)
    ensures |ls| >= 1
    ensures forall j :: 0 <= j < |ls| ==> !HasChar(ls[j], '\n')
    decreases |s|
  {
    var k := FirstNewline(s);
    if k == |s| then [s] else [s[..k]] + Split(s[k + 1..])
  }

  /** `'\n'.join(ls)`. */
  function Join(ls: seq<string>): string
  {
    if |ls| == 0 then "" else if |ls| == 1 then ls[0] else ls[0] + "\n" + Join(ls[1..])
  }

  predicate NoNewlines(ls: seq<string>) {
    forall j :: 0 <= j < |ls| ==> !HasChar(ls[j], '\n')
  }

  /** Joining the parts of a split gives back the string. */
  lemma {:induction false} JoinSplit(s: string)
    ensures Join(Split(s)) == s
    decreases |s|
  {
    var k := FirstNewline(s);
    if k < |s| {
      var rest := Split(s[k + 1..]);
      var ls := [s[..k]] + rest;
      assert Split(s) == ls;
      assert ls[0] == s[..k] && ls[1..] == rest;
      assert Join(ls) == s[..k] + "\n" + Join(rest);
      JoinSplit(s[k + 1..]);
      assert s == s[..k] + "\n" + s[k + 1..];
    }
  }

  lemma FirstNewlineOf(a: string, b: string)
    requires !HasChar(a, '\n')
    ensures FirstNewline(a + "\n" + b) == |a|
    ensures (a + "\n" + b)[..|a|] == a && (a + "\n" + b)[|a| + 1..] == b
  {
    var s := a + "\n" + b;
    assert forall i :: 0 <= i < |a| ==> s[i] == a[i];
    assert s[|a|] == '\n';
  }

  lemma FirstNewlineNone(a: string)
    requires !HasChar(a, '\n')
    ensures FirstNewline(a) == |a|
  {
  }

  /** Splitting a join of newline-free lines gives back the lines. */
  lemma {:induction false} SplitJoin(ls: seq<string>)
    requires |ls| >= 1 && NoNewlines(ls)
    ensures Split(Join(ls)) == ls
  {
    if |ls| == 1 {
      FirstNewlineNone(ls[0]);
    } else {
      var s, rest := Join(ls), Join(ls[1..]);
      assert s == ls[0] + "\n" + rest;
      FirstNewlineOf(ls[0], rest);
      var k := FirstNewline(s);
      assert k == |ls[0]| < |s|;
      assert Split(s) == [s[..k]] + Split(s[k + 1..]);
      assert NoNewlines(ls[1..]) by {
        assert forall j :: 0 <= j < |ls| - 1 ==> ls[1..][j] == ls[j + 1];
      }
      SplitJoin(ls[1..]);
      assert Split(s) == [ls[0]] + ls[1..];
      assert [ls[0]] + ls[1..] == ls;
    }
  }

  /** Joining after appending one line, seen from the end. */
  lemma {:induction false} JoinSnoc(ls: seq<string>, x: string)
    requires |ls| >= 1
    ensures Join(ls + [x]) == Join(ls) + "\n" + x
  {
    if |ls| == 1 {
      assert (ls + [x])[1..] == [x];
    } else {
      assert (ls + [x])[1..] == ls[1..] + [x];
      JoinSnoc(ls[1..], x);
    }
  }

  function DigitChar(d: nat): char
    requires d < 10
  {
    "0123456789"[d]
  }

  /** `str(n)` for a natural number. */
  function NatToString(n: nat): (r: string)
    ensures |r| >= 1
  {
    if n < 10 then [DigitChar(n)] else NatToString(n / 10) + [DigitChar(n % 10)]
  }

  /** The last digit of a number of two or more digits. */
  lemma NatToStringStep(n: nat)
    requires n >= 10
    ensures NatToString(n) == NatToString(n / 10) + [DigitChar(n % 10)]
  {
  }

  /** `str(i)` for any integer. */
  function IntToString(i: int): string {
    if i < 0 then "-" + NatToString(-i) else NatToString(i)
  }
}
