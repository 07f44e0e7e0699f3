/** The pieces of the C++ string and stream library that the generator relies
    on: std::string::rfind, the decimal text that an ostream writes for a
    size_t, and the split of printed text into lines. */
module Strings {
  import opened Optional

  /** Does `key` occur in `line` starting at position `i`? */
  predicate OccursAt(line: string, key: string, i: nat) {
    i + |key| <= |line| && line[i..i + |key|] == key
  }

  /** The search of std::string::rfind, restricted to start positions at most
      `hi`: the largest such position where `key` occurs, or None (npos). */
  function RFindFrom(line: string, key: string, hi: nat): Option<nat>
    decreases hi
  {
    if OccursAt(line, key, hi) then Some(hi)
    else if hi == 0 then None
    else RFindFrom(line, key, hi - 1)
  }

  /** The restricted search answers with the last occurrence at or before
      `hi`, and with None only when there is none. */
  lemma {:induction false} RFindFromLast(line: string, key: string, hi: nat)
    ensures var r := RFindFrom(line, key, hi);
      r.Some? ==> r.value <= hi && OccursAt(line, key, r.value)
    ensures var r := RFindFrom(line, key, hi);
      r.Some? ==> forall j: nat :: r.value < j <= hi ==> !OccursAt(line, key, j)
    ensures RFindFrom(line, key, hi).None? ==> forall j: nat :: j <= hi ==> !OccursAt(line, key, j)
    decreases hi
  {
    if !OccursAt(line, key, hi) && hi > 0 {
      RFindFromLast(line, key, hi - 1);
    }
  }

  /** std::string::rfind(key): the last position at which `key` occurs in
      `line`, or None for std::string::npos. */
  function RFind(line: string, key: string): Option<nat> {
    RFindFrom(line, key, |line|)
  }

  /** rfind answers with an occurrence after which there is none, and with
      npos exactly when `key` occurs nowhere. */
  lemma RFindLast(line: string, key: string)
    ensures var r := RFind(line, key);
      r.Some? ==> (OccursAt(line, key, r.value) &&
        forall j: nat :: r.value < j ==> !OccursAt(line, key, j))
    ensures RFind(line, key).None? <==> forall j: nat :: !OccursAt(line, key, j)
  {
    RFindFromLast(line, key, |line|);
    assert forall j: nat :: |line| < j ==> !OccursAt(line, key, j);
  }

  /** `line.rfind(key) != std::string::npos`: `key` occurs anywhere in `line`. */
  predicate Contains(line: string, key: string) {
    RFind(line, key) != None
  }

  /** If one character of `key` appears nowhere in `line`, `key` does not occur in it. */
  lemma MissingCharNotContained(line: string, key: string, k: nat)
    requires k < |key| && key[k] !in line
    ensures !Contains(line, key)
  {
    forall j: nat ensures !OccursAt(line, key, j) {
      if j + |key| <= |line| {
        assert line[j..j + |key|][k] == line[j + k];
        assert line[j + k] in line;
      }
    }
    RFindLast(line, key);
  }

  /** An occurrence at a known position makes `line` contain `key`. */
  lemma OccurrenceContained(line: string, key: string, i: nat)
    requires OccursAt(line, key, i)
    ensures Contains(line, key)
  {
    RFindLast(line, key);
  }

  /** The character an ostream writes for the decimal digit `d`. */
  function DigitChar(d: nat): (c: char)
    requires d < 10
    ensures '0' <= c <= '9' && c as int - '0' as int == d
  {
    ('0' as int + d) as char
  }

  predicate IsDigits(s: string) {
    forall i :: 0 <= i < |s| ==> '0' <= s[i] <= '9'
  }

  /** The text `os << n` writes for a size_t `n`: its decimal digits, most
      significant first, with no leading zero. */
  function NatToString(n: nat): (s: string)
    ensures |s| >= 1 && IsDigits(s)
    ensures s[0] == '0' ==> n == 0 && s == "0"
    decreases n
  {
    if n < 10 then [DigitChar(n)] else NatToString(n / 10) + [DigitChar(n % 10)]
  }

  /** The number that a string of decimal digits denotes. */
  function DigitsValue(s: string): nat
    requires IsDigits(s)
  {
    if s == [] then 0
    else DigitsValue(s[..|s| - 1]) * 10 + (s[|s| - 1] as int - '0' as int)
  }

  /** The printed count reads back as the count. */
  lemma {:induction false} NatToStringRoundTrip(n: nat)
    ensures DigitsValue(NatToString(n)) == n
    decreases n
  {
    if n >= 10 {
      NatToStringRoundTrip(n / 10);
      var s := NatToString(n);
      assert s[..|s| - 1] == NatToString(n / 10);
    }
  }

  predicate NoNewline(s: string) {
    '\n' !in s
  }

  /** The lines of a printed text: the pieces between '\n' characters, the
      last piece being what follows the final '\n' (empty if the text ends
      with one). */
  function SplitLines(t: string): (ls: seq<string>)
    ensures |ls| >= 1
    ensures forall i :: 0 <= i < |ls| ==> NoNewline(ls[i])
  {
    if t == [] then [""]
    else
      var rest := SplitLines(t[..|t| - 1]);
      if t[|t| - 1] == '\n' then rest + [""]
      else rest[..|rest| - 1] + [rest[|rest| - 1] + [t[|t| - 1]]]
  }

  /** The lines rejoined with a '\n' between each two, the inverse of
      SplitLines. */
  function JoinLines(ls: seq<string>): string
    requires |ls| >= 1
  {
    if |ls| == 1 then ls[0]
    else JoinLines(ls[..|ls| - 1]) + "\n" + ls[|ls| - 1]
  }

  /** Extending the last line extends the joined text. */
  lemma JoinExtendLast(ls: seq<string>, c: string)
    requires |ls| >= 1
    ensures JoinLines(ls[..|ls| - 1] + [ls[|ls| - 1] + c]) == JoinLines(ls) + c
  {
    var ms := ls[..|ls| - 1] + [ls[|ls| - 1] + c];
    if |ls| > 1 {
      assert ms[..|ms| - 1] == ls[..|ls| - 1];
      AppendAssoc(JoinLines(ls[..|ls| - 1]) + "\n", ls[|ls| - 1], c);
    }
  }

  /** Splitting printed text into lines loses nothing: joining the lines
      gives the text back. */
  lemma {:induction false} SplitJoin(t: string)
    ensures JoinLines(SplitLines(t)) == t
    decreases |t|
  {
    if t != [] {
      var t', ch := t[..|t| - 1], t[|t| - 1];
      SplitJoin(t');
      var rest := SplitLines(t');
      assert t == t' + [ch];
      if ch == '\n' {
        var ls := rest + [""];
        assert ls[..|ls| - 1] == rest;
        assert JoinLines(ls) == t' + "\n" + "";
      } else {
        JoinExtendLast(rest, [ch]);
      }
    }
  }

  /** Concatenation is associative. */
  lemma AppendAssoc<T>(a: seq<T>, b: seq<T>, c: seq<T>)
    ensures (a + b) + c == a + (b + c)
  {
  }

  /** Dropping the last element of a concatenation drops it from the second
      part. */
  lemma DropLast<T>(a: seq<T>, b: seq<T>)
    requires |b| > 0
    ensures (a + b)[..|a + b| - 1] == a + b[..|b| - 1]
    ensures (a + b)[|a + b| - 1] == b[|b| - 1]
    ensures b == b[..|b| - 1] + [b[|b| - 1]]
  {
  }

  /** Text without a line break continues the current last line. */
  lemma {:induction false} SplitAppendPlain(x: string, c: string)
    requires NoNewline(c)
    ensures var ls := SplitLines(x);
      SplitLines(x + c) == ls[..|ls| - 1] + [ls[|ls| - 1] + c]
    decreases |c|
  {
    var ls := SplitLines(x);
    if c == [] {
      assert x + c == x;
      assert ls[|ls| - 1] + c == ls[|ls| - 1];
    } else {
      var c', ch := c[..|c| - 1], c[|c| - 1];
      assert NoNewline(c') by { assert forall i :: 0 <= i < |c'| ==> c'[i] == c[i]; }
      assert ch != '\n' by { assert ch == c[|c| - 1]; }
      SplitAppendPlain(x, c');
      var rest := SplitLines(x + c');
      assert rest == ls[..|ls| - 1] + [ls[|ls| - 1] + c'];
      DropLast(x, c);
      assert SplitLines(x + c) == rest[..|rest| - 1] + [rest[|rest| - 1] + [ch]];
      DropLast(ls[..|ls| - 1], [ls[|ls| - 1] + c']);
      AppendAssoc(ls[|ls| - 1], c', [ch]);
    }
  }

  /** A line break followed by text without one starts exactly one new line. */
  lemma SplitAppendLine(x: string, c: string)
    requires NoNewline(c)
    ensures SplitLines(x + "\n" + c) == SplitLines(x) + [c]
  {
    var xn := x + "\n";
    assert xn[..|xn| - 1] == x;
    assert SplitLines(xn) == SplitLines(x) + [""];
    SplitAppendPlain(xn, c);
    assert "" + c == c;
  }
}
