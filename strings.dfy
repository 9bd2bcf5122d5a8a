/**
  The text primitives the model assumes for the room package. White space is
  Go's `unicode.IsSpace`; trimming and splitting into columns behave as
  `strings.TrimSpace` and `strings.Fields`; lines are split as
  `bufio.ScanLines` splits them; names compare up to ASCII case. These
  choices agree with the LF, CRLF, blank-line and extra-column cases of the
  package's tests. Strings are `seq<char>`: decoded Unicode text.
 */
module Strings {

  /** Go's `unicode.IsSpace`: the Unicode White_Space characters. */
  predicate IsSpace(c: char) {
    c == ' ' || c == '\t' || c == '\n' || c == '\U{000B}' || c == '\U{000C}' || c == '\r'
    || c == '\U{0085}' || c == '\U{00A0}' || c == '\U{1680}'
    || ('\U{2000}' <= c <= '\U{200A}')
    || c == '\U{2028}' || c == '\U{2029}' || c == '\U{202F}' || c == '\U{205F}' || c == '\U{3000}'
  }

  predicate NoSpace(s: string) {
    forall i :: 0 <= i < |s| ==> !IsSpace(s[i])
  }

  /** A token is what `strings.Fields` can produce: non-empty, no white space. */
  predicate Token(s: string) {
    s != [] && NoSpace(s)
  }

  predicate HasPrefix(s: string, p: string) {
    |p| <= |s| && s[..|p|] == p
  }

  /** Length of the leading run of non-space characters of `s`. */
  function TokenLen(s: string): (k: nat)
    ensures k <= |s|
    ensures forall i :: 0 <= i < k ==> !IsSpace(s[i])
    ensures k < |s| ==> IsSpace(s[k])
  {
    if s == [] || IsSpace(s[0]) then 0 else 1 + TokenLen(s[1..])
  }

  /** The run is fixed by its defining property. */
  lemma TokenLenUnique(s: string, k: nat)
    requires k <= |s|
    requires forall i :: 0 <= i < k ==> !IsSpace(s[i])
    requires k < |s| ==> IsSpace(s[k])
    ensures TokenLen(s) == k
  {
  }

  // ---------------------------------------------------------------------------
  // strings.Fields

  /** `strings.Fields`: the maximal runs of non-space characters, in order. */
  function Fields(s: string): (fs: seq<string>)
    ensures forall i :: 0 <= i < |fs| ==> Token(fs[i])
    decreases |s|
  {
    if s == [] then []
    else if IsSpace(s[0]) then Fields(s[1..])
    else
      var k := TokenLen(s);
      [s[..k]] + Fields(s[k..])
  }

  lemma FieldsOfToken(t: string)
    requires Token(t)
    ensures Fields(t) == [t]
  {
    TokenLenUnique(t, |t|);
    assert t[..|t|] == t;
    assert t[|t|..] == [];
  }

  /** A white-space character separates the fields on its two sides. */
  lemma {:induction false} FieldsSplit(a: string, c: char, b: string)
    requires IsSpace(c)
    ensures Fields(a + [c] + b) == Fields(a) + Fields(b)
    decreases |a|
  {
    var w := a + [c] + b;
    if a == [] {
      assert w[1..] == b;
    } else if IsSpace(a[0]) {
      assert w[1..] == a[1..] + [c] + b;
      FieldsSplit(a[1..], c, b);
    } else {
      var k := TokenLen(a);
      assert w[..k] == a[..k];
      TokenLenUnique(w, k);
      assert w[..k] == a[..k];
      assert w[k..] == a[k..] + [c] + b;
      FieldsSplit(a[k..], c, b);
    }
  }

  /** Text made only of white space has no fields. */
  lemma {:induction false} FieldsOfBlank(s: string)
    requires forall i :: 0 <= i < |s| ==> IsSpace(s[i])
    ensures Fields(s) == []
    decreases |s|
  {
    if s != [] {
      FieldsOfBlank(s[1..]);
    }
  }

  lemma FieldsDropLast(s: string, c: char)
    requires IsSpace(c)
    ensures Fields(s + [c]) == Fields(s)
  {
    FieldsSplit(s, c, []);
    assert s + [c] + [] == s + [c];
  }

  // ---------------------------------------------------------------------------
  // strings.TrimSpace

  function TrimLeft(s: string): string {
    if s != [] && IsSpace(s[0]) then TrimLeft(s[1..]) else s
  }

  function TrimRight(s: string): string {
    if s != [] && IsSpace(s[|s| - 1]) then TrimRight(s[..|s| - 1]) else s
  }

  /** `TrimLeft` keeps a suffix that does not start with white space, and
      drops only white space. */
  lemma {:induction false} TrimLeftKeepsSuffix(s: string)
    ensures |TrimLeft(s)| <= |s| && TrimLeft(s) == s[|s| - |TrimLeft(s)|..]
    ensures TrimLeft(s) == [] || !IsSpace(TrimLeft(s)[0])
    ensures forall k :: 0 <= k < |s| - |TrimLeft(s)| ==> IsSpace(s[k])
  {
    if s != [] && IsSpace(s[0]) {
      TrimLeftKeepsSuffix(s[1..]);
      forall k | 1 <= k < |s| - |TrimLeft(s)| ensures IsSpace(s[k]) {
        assert s[k] == s[1..][k - 1];
      }
    }
  }

  /** `TrimRight` keeps a prefix that does not end with white space, and
      drops only white space. */
  lemma {:induction false} TrimRightKeepsPrefix(s: string)
    ensures |TrimRight(s)| <= |s| && TrimRight(s) == s[..|TrimRight(s)|]
    ensures TrimRight(s) == [] || !IsSpace(TrimRight(s)[|TrimRight(s)| - 1])
    ensures forall k :: |TrimRight(s)| <= k < |s| ==> IsSpace(s[k])
  {
    if s != [] && IsSpace(s[|s| - 1]) {
      var init := s[..|s| - 1];
      TrimRightKeepsPrefix(init);
      forall k | |TrimRight(s)| <= k < |s| - 1 ensures IsSpace(s[k]) {
        assert s[k] == init[k];
      }
    }
  }

  /** `strings.TrimSpace`: drop leading and trailing white space. What is
      left starts and ends with a non-space character. */
  function TrimSpace(s: string): (r: string)
    ensures |r| <= |s|
    ensures r == [] || (!IsSpace(r[0]) && !IsSpace(r[|r| - 1]))
  {
    TrimLeftKeepsSuffix(s);
    TrimRightKeepsPrefix(TrimLeft(s));
    TrimRight(TrimLeft(s))
  }

  /** Trimming keeps one contiguous piece of the text and drops only white
      space before and after it. */
  lemma TrimSpaceDropsOnlySpace(s: string)
    ensures var i := |s| - |TrimLeft(s)|; var r := TrimSpace(s);
      0 <= i && i + |r| <= |s| && r == s[i..i + |r|] &&
      (forall k :: 0 <= k < i ==> IsSpace(s[k])) &&
      (forall k :: i + |r| <= k < |s| ==> IsSpace(s[k]))
  {
    var t := TrimLeft(s);
    var i := |s| - |t|;
    TrimLeftKeepsSuffix(s);
    TrimRightKeepsPrefix(t);
    forall k | i + |TrimSpace(s)| <= k < |s| ensures IsSpace(s[k]) {
      assert s[k] == t[k - i];
    }
  }

  lemma {:induction false} FieldsTrimLeft(s: string)
    ensures Fields(TrimLeft(s)) == Fields(s)
  {
    if s != [] && IsSpace(s[0]) {
      FieldsTrimLeft(s[1..]);
    }
  }

  lemma {:induction false} FieldsTrimRight(s: string)
    ensures Fields(TrimRight(s)) == Fields(s)
  {
    if s != [] && IsSpace(s[|s| - 1]) {
      var init := s[..|s| - 1];
      FieldsTrimRight(init);
      assert s == init + [s[|s| - 1]];
      FieldsDropLast(init, s[|s| - 1]);
    }
  }

  /** Trimming never changes the fields of a line. */
  lemma FieldsTrimSpace(s: string)
    ensures Fields(TrimSpace(s)) == Fields(s)
  {
    FieldsTrimLeft(s);
    FieldsTrimRight(TrimLeft(s));
  }

  // ---------------------------------------------------------------------------
  // Line splitting, as bufio.ScanLines does it

  predicate NoNewline(s: string) {
    forall i :: 0 <= i < |s| ==> s[i] != '\n'
  }

  /** Length of `s` up to its first '\n'. */
  function LineLen(s: string): (k: nat)
    ensures k <= |s|
    ensures forall i :: 0 <= i < k ==> s[i] != '\n'
    ensures k < |s| ==> s[k] == '\n'
  {
    if s == [] || s[0] == '\n' then 0 else 1 + LineLen(s[1..])
  }

  lemma LineLenUnique(s: string, k: nat)
    requires k <= |s|
    requires forall i :: 0 <= i < k ==> s[i] != '\n'
    requires k < |s| ==> s[k] == '\n'
    ensures LineLen(s) == k
  {
  }

  /** One trailing carriage return is dropped from each scanned line. */
  function DropCR(line: string): (r: string)
    ensures r == line || (line == r + ['\r'])
  {
    if |line| > 0 && line[|line| - 1] == '\r' then line[..|line| - 1] else line
  }

  /** Line splitting as `bufio.Scanner` with `ScanLines` does it: split at
      each '\n', drop a '\r' right before it, and yield a last line that has
      no '\n' after it only when it is non-empty. */
  function Lines(s: string): (ls: seq<string>)
    ensures ls == [] <==> s == []
    ensures |ls| <= |s|
    decreases |s|
  {
    if s == [] then []
    else
      var k := LineLen(s);
      if k == |s| then [DropCR(s)]
      else [DropCR(s[..k])] + Lines(s[k + 1..])
  }

  /** No scanned line contains '\n'. */
  lemma {:induction false} LinesHaveNoNewline(s: string)
    ensures forall i :: 0 <= i < |Lines(s)| ==> NoNewline(Lines(s)[i])
    decreases |s|
  {
    if s != [] {
      var k := LineLen(s);
      if k < |s| {
        LinesHaveNoNewline(s[k + 1..]);
      }
    }
  }

  /** Two pieces without '\n' joined by a space make one line. */
  lemma NoNewlineJoin(a: string, b: string)
    requires NoNewline(a) && NoNewline(b)
    ensures NoNewline(a + " " + b)
  {
    var w := a + " " + b;
    forall i | 0 <= i < |w| ensures w[i] != '\n' {
      if i < |a| {
        assert w[i] == a[i];
      } else if i > |a| {
        assert w[i] == b[i - |a| - 1];
      }
    }
  }

  /** A line without '\n' scans as itself, less a trailing '\r'. */
  lemma LinesOfLine(l: string)
    requires l != [] && NoNewline(l)
    ensures Lines(l) == [DropCR(l)]
  {
    LineLenUnique(l, |l|);
  }

  /** The line a scan yields first, and the text left after it. */
  lemma LinesFirst(s: string, k: nat)
    requires k < |s| && s[k] == '\n' && NoNewline(s[..k])
    ensures Lines(s) == [DropCR(s[..k])] + Lines(s[k + 1..])
  {
    LineLenUnique(s, k);
  }

  /** Where `a` holds no '\n', the '\n' after it ends the first line. */
  lemma LinesAfterLast(a: string, b: string)
    requires NoNewline(a)
    ensures Lines(a + "\n" + b) == [DropCR(a)] + Lines(b)
    ensures Lines(a + "\n") == [DropCR(a)]
  {
    var w := a + "\n" + b;
    assert w[..|a|] == a && w[|a|] == '\n' && w[|a| + 1..] == b;
    LinesFirst(w, |a|);
    var a' := a + "\n";
    assert a'[..|a|] == a && a'[|a| + 1..] == [];
    LinesFirst(a', |a|);
  }

  lemma ConcatAssoc<T>(x: seq<T>, y: seq<T>, z: seq<T>)
    ensures x + y + z == x + (y + z)
  {
  }

  /** The inductive step of `LinesSplit`: the first line of `a`, ended by
      its '\n', comes off the front of both sides. */
  lemma LinesSplitStep(first: string, rest: string, b: string)
    requires NoNewline(first)
    requires Lines(rest + "\n" + b) == Lines(rest + "\n") + Lines(b)
    ensures Lines(first + "\n" + rest + "\n" + b) == Lines(first + "\n" + rest + "\n") + Lines(b)
  {
    ConcatAssoc(first + "\n", rest, "\n");
    ConcatAssoc(first + "\n", rest + "\n", b);
    LinesAfterLast(first, rest + "\n" + b);
    LinesAfterLast(first, rest + "\n");
    ConcatAssoc([DropCR(first)], Lines(rest + "\n"), Lines(b));
  }

  /** A '\n' ends the line before it: what follows scans independently. */
  lemma {:induction false} LinesSplit(a: string, b: string)
    ensures Lines(a + "\n" + b) == Lines(a + "\n") + Lines(b)
    decreases |a|
  {
    var k := LineLen(a);
    if k == |a| {
      assert a[..k] == a;
      LinesAfterLast(a, b);
    } else {
      var first, rest := a[..k], a[k + 1..];
      assert a == first + "\n" + rest;
      LinesSplit(rest, b);
      LinesSplitStep(first, rest, b);
    }
  }

  /** The inductive step of `LinesNewlineEnd`: the first line of the text,
      ended by its '\n', comes off the front of both scans. */
  lemma LinesNewlineEndStep(first: string, rest: string)
    requires NoNewline(first)
    requires Lines(rest + "\n") == Lines(rest) || Lines(rest + "\n") == Lines(rest) + [""]
    ensures Lines(first + "\n" + rest + "\n") == Lines(first + "\n" + rest) ||
            Lines(first + "\n" + rest + "\n") == Lines(first + "\n" + rest) + [""]
  {
    ConcatAssoc(first + "\n", rest, "\n");
    LinesAfterLast(first, rest);
    LinesAfterLast(first, rest + "\n");
    ConcatAssoc([DropCR(first)], Lines(rest), [""]);
  }

  /** The base case of `LinesNewlineEnd`: a text without '\n'. */
  lemma LinesNewlineEndLast(a: string)
    requires NoNewline(a)
    ensures Lines(a + "\n") == Lines(a) || Lines(a + "\n") == Lines(a) + [""]
  {
    LinesAfterLast(a, "");
    if a != [] {
      LinesOfLine(a);
    }
  }

  /** A final '\n' adds at most one empty line. */
  lemma {:induction false} LinesNewlineEnd(a: string)
    ensures Lines(a + "\n") == Lines(a) || Lines(a + "\n") == Lines(a) + [""]
    decreases |a|
  {
    var k := LineLen(a);
    if k == |a| {
      assert a[..k] == a;
      LinesNewlineEndLast(a);
    } else {
      var first, rest := a[..k], a[k + 1..];
      assert a == first + "\n" + rest;
      LinesNewlineEnd(rest);
      LinesNewlineEndStep(first, rest);
    }
  }

  // ---------------------------------------------------------------------------
  // ASCII case folding

  function ToLowerChar(c: char): (d: char)
    ensures 'A' <= c <= 'Z' ==> 'a' <= d <= 'z' && d as int - c as int == 32
    ensures !('A' <= c <= 'Z') ==> d == c
  {
    if 'A' <= c <= 'Z' then (c as int + 32) as char else c
  }

  function ToLower(s: string): (r: string)
    ensures |r| == |s|
    ensures forall i :: 0 <= i < |s| ==> r[i] == ToLowerChar(s[i])
  {
    seq(|s|, i requires 0 <= i < |s| => ToLowerChar(s[i]))
  }

  /** Agreeing character by character once folded is agreeing once lowered. */
  lemma FoldedCharsAgree(a: string, b: string)
    ensures (|a| == |b| && forall i :: 0 <= i < |a| ==> ToLowerChar(a[i]) == ToLowerChar(b[i]))
            <==> ToLower(a) == ToLower(b)
  {
    if ToLower(a) == ToLower(b) {
      forall i | 0 <= i < |a| ensures ToLowerChar(a[i]) == ToLowerChar(b[i]) {
        assert ToLower(a)[i] == ToLower(b)[i];
      }
    }
  }

  /** Two names are equal up to case when they have the same length and agree
      character by character once folded: exactly when their lower-case forms
      are equal. */
  function EqualFold(a: string, b: string): (r: bool)
    ensures r <==> ToLower(a) == ToLower(b)
  {
    FoldedCharsAgree(a, b);
    |a| == |b| && forall i :: 0 <= i < |a| ==> ToLowerChar(a[i]) == ToLowerChar(b[i])
  }

  /** Case-insensitive equality is an equivalence relation. */
  lemma EqualFoldEquivalence(a: string, b: string, c: string)
    ensures EqualFold(a, a)
    ensures EqualFold(a, b) ==> EqualFold(b, a)
    ensures EqualFold(a, b) && EqualFold(b, c) ==> EqualFold(a, c)
  {
  }
}
