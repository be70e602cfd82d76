/**
  The parts of Go's `strings` package that the lexers rely on, over strings
  whose characters stand for single bytes: `TrimSpace`, `HasPrefix` (which is
  Dafny's prefix relation `p <= s`), and `Split(s, "\n")` together with its
  inverse, joining with line feeds.
 */
module Strings {

  /** Vertical tab and form feed, which Dafny has no escape for. */
  const VerticalTab: char := 11 as char
  const FormFeed: char := 12 as char

  /** The bytes `strings.TrimSpace` removes (its ASCII white-space set). */
  predicate IsSpaceByte(c: char) {
    c == ' ' || c == '\t' || c == '\n' || c == VerticalTab || c == FormFeed || c == '\r'
  }

  /** Drops the leading run of white-space bytes. */
  function TrimLeft(s: string): string {
    if s != [] && IsSpaceByte(s[0]) then TrimLeft(s[1..]) else s
  }

  /** What `TrimLeft` drops is white space, and what it keeps is a suffix
      that does not start with white space. */
  lemma {:induction false} TrimLeftSpec(s: string)
    ensures var r := TrimLeft(s);
      && |r| <= |s| && r == s[|s| - |r|..]
      && (forall i :: 0 <= i < |s| - |r| ==> IsSpaceByte(s[i]))
      && (r != [] ==> !IsSpaceByte(r[0]))
  {
    if s != [] && IsSpaceByte(s[0]) {
      var t := s[1..];
      TrimLeftSpec(t);
      var r := TrimLeft(t);
      assert TrimLeft(s) == r;
      assert t[|t| - |r|..] == s[|s| - |r|..];
      forall i | 0 <= i < |s| - |r|
        ensures IsSpaceByte(s[i])
      {
        if i > 0 {
          assert s[i] == t[i - 1];
        }
      }
    }
  }

  /** Drops the trailing run of white-space bytes. */
  function TrimRight(s: string): string {
    if s != [] && IsSpaceByte(s[|s| - 1]) then TrimRight(s[..|s| - 1]) else s
  }

  /** What `TrimRight` drops is white space, and what it keeps is a prefix
      that does not end with white space. */
  lemma {:induction false} TrimRightSpec(s: string)
    ensures var r := TrimRight(s);
      && |r| <= |s| && r == s[..|r|]
      && (forall i :: |r| <= i < |s| ==> IsSpaceByte(s[i]))
      && (r != [] ==> !IsSpaceByte(r[|r| - 1]))
  {
    if s != [] && IsSpaceByte(s[|s| - 1]) {
      TrimRightSpec(s[..|s| - 1]);
    }
  }

  /** `strings.TrimSpace`: white space removed at both ends. */
  function TrimSpace(s: string): string {
    TrimRight(TrimLeft(s))
  }

  /** Trimming the empty string gives the empty string. */
  lemma TrimSpaceOfEmpty()
    ensures TrimSpace("") == ""
  {
  }

  /** The trimmed string is `s` with a white-space prefix and a white-space
      suffix cut off; it neither starts nor ends with white space, and it is
      empty exactly when `s` is all white space. */
  lemma TrimSpaceSpec(s: string)
    ensures var r := TrimSpace(s);
      && |r| <= |s|
      && (exists i, j :: && 0 <= i <= j <= |s| && r == s[i..j]
                         && (forall k :: 0 <= k < i ==> IsSpaceByte(s[k]))
                         && (forall k :: j <= k < |s| ==> IsSpaceByte(s[k])))
      && (r == [] <==> forall i :: 0 <= i < |s| ==> IsSpaceByte(s[i]))
      && (r != [] ==> !IsSpaceByte(r[0]) && !IsSpaceByte(r[|r| - 1]))
  {
    var left := TrimLeft(s);
    TrimLeftSpec(s);
    TrimRightSpec(left);
    var r := TrimRight(left);
    if r != [] {
      assert left[0] == r[0];
    }
    var i := |s| - |left|;
    var j := i + |r|;
    assert r == s[i..j];
    assert forall k :: j <= k < |s| ==> s[k] == left[k - i];
  }

  /** A byte that is not white space trims to itself. */
  lemma TrimSpaceOfByte(c: char)
    ensures TrimSpace([c]) == if IsSpaceByte(c) then [] else [c]
  {
    var s: string := [c];
    if IsSpaceByte(c) {
      assert TrimLeft(s[1..]) == [];
    }
  }

  /** The search over a prefix list with `strings.HasPrefix`, stopping at
      the first match: does any prefix in the list start `s`? */
  function HasAnyPrefix(s: string, prefixes: seq<string>): (r: bool)
    ensures r <==> exists p :: p in prefixes && p <= s
    ensures "" in prefixes ==> r
    ensures prefixes == [] ==> !r
  {
    if prefixes == [] then false
    else if prefixes[0] <= s then assert prefixes[0] in prefixes; true
    else
      var r := HasAnyPrefix(s, prefixes[1..]);
      assert forall p :: p in prefixes <==> p == prefixes[0] || p in prefixes[1..];
      r
  }

  /** `strings.Split(s, "\n")`: the pieces between line feeds, in order;
      the empty string gives one empty piece. */
  function Split(s: string): (r: seq<string>)
    ensures |r| >= 1
    ensures forall i :: 0 <= i < |r| ==> '\n' !in r[i]
  {
    if s == [] then [""]
    else
      var rest := Split(s[1..]);
      if s[0] == '\n' then [""] + rest
      else [[s[0]] + rest[0]] + rest[1..]
  }

  /** `strings.Join(lines, "\n")`, the inverse of `Split`. */
  function Join(lines: seq<string>): string
    requires |lines| >= 1
  {
    if |lines| == 1 then lines[0] else lines[0] + "\n" + Join(lines[1..])
  }

  /** Joining the pieces of a split gives back the input. */
  lemma {:induction false} JoinSplit(s: string)
    ensures Join(Split(s)) == s
  {
    if s != [] {
      var rest := Split(s[1..]);
      JoinSplit(s[1..]);
      if s[0] == '\n' {
        assert Split(s) == [""] + rest;
        assert Split(s)[1..] == rest;
        assert s == "\n" + s[1..];
      } else {
        var r := Split(s);
        assert r == [[s[0]] + rest[0]] + rest[1..];
        if |rest| == 1 {
          assert s == [s[0]] + s[1..];
        } else {
          assert r[1..] == rest[1..];
          assert Join(rest) == rest[0] + "\n" + Join(rest[1..]);
          assert s == [s[0]] + s[1..];
        }
      }
    }
  }

  /** A string without line feeds is a single piece. */
  lemma {:induction false} SplitNoNewline(a: string)
    requires '\n' !in a
    ensures Split(a) == [a]
  {
    if a != [] {
      SplitNoNewline(a[1..]);
      assert [a[0]] + a[1..] == a;
    }
  }

  /** Splitting `a + "\n" + b` peels off `a` when `a` has no line feed. */
  lemma {:induction false} SplitAfterLine(a: string, b: string)
    requires '\n' !in a
    ensures Split(a + "\n" + b) == [a] + Split(b)
  {
    if a == [] {
      assert a + "\n" + b == "\n" + b;
      assert ("\n" + b)[1..] == b;
    } else {
      var s := a + "\n" + b;
      assert s[1..] == a[1..] + "\n" + b;
      SplitAfterLine(a[1..], b);
      assert [a[0]] + a[1..] == a;
    }
  }

  /** Splitting a join of line-feed-free pieces gives back the pieces. */
  lemma {:induction false} SplitJoin(lines: seq<string>)
    requires |lines| >= 1
    requires forall i :: 0 <= i < |lines| ==> '\n' !in lines[i]
    ensures Split(Join(lines)) == lines
  {
    if |lines| == 1 {
      SplitNoNewline(lines[0]);
    } else {
      SplitJoin(lines[1..]);
      SplitAfterLine(lines[0], Join(lines[1..]));
      assert [lines[0]] + lines[1..] == lines;
    }
  }

  /** Every byte of a piece occurs in the joined string. */
  lemma {:induction false} JoinKeeps(lines: seq<string>, i: nat, ch: char)
    requires i < |lines| && ch in lines[i]
    ensures ch in Join(lines)
  {
    if |lines| > 1 {
      if i == 0 {
        assert lines[0] <= Join(lines);
      } else {
        JoinKeeps(lines[1..], i - 1, ch);
        assert Join(lines) == lines[0] + "\n" + Join(lines[1..]);
      }
    }
  }

  /** The piece of `s` starting at `i` and ending at the first line feed
      `j` after it, then the pieces after that line feed. */
  lemma SplitFrom(s: string, i: nat, j: nat)
    requires i <= j < |s| && s[j] == '\n'
    requires forall k :: i <= k < j ==> s[k] != '\n'
    ensures Split(s[i..]) == [s[i..j]] + Split(s[j + 1..])
  {
    assert '\n' !in s[i..j];
    SplitAfterLine(s[i..j], s[j + 1..]);
    assert s[i..] == s[i..j] + "\n" + s[j + 1..];
  }

  /** A string that neither starts nor ends with white space is its own
      trimming. */
  lemma TrimSpaceUnpadded(s: string)
    requires s != [] && !IsSpaceByte(s[0]) && !IsSpaceByte(s[|s| - 1])
    ensures TrimSpace(s) == s
  {
  }

  // ---------------------------------------------------------------------
  // bufio.Scanner with the default ScanLines split

  /** `dropCR`: one trailing carriage return is dropped. */
  function DropCR(s: string): string {
    if s != [] && s[|s| - 1] == '\r' then s[..|s| - 1] else s
  }

  /** The index of the first line feed at or after `i`, or `|s|` if none. */
  function LineEnd(s: string, i: nat): (r: nat)
    requires i <= |s|
    ensures i <= r <= |s|
    ensures r < |s| ==> s[r] == '\n'
    ensures forall k :: i <= k < r ==> s[k] != '\n'
    decreases |s| - i
  {
    if i == |s| || s[i] == '\n' then i else LineEnd(s, i + 1)
  }

  /** The lines a `bufio.Scanner` yields with the `ScanLines` split: each
      piece ended by a line feed, without a trailing carriage return, and a
      last piece without a line feed only if it is not empty. */
  function ScanLines(s: string): seq<string>
    decreases |s|
  {
    if s == [] then []
    else
      var i := LineEnd(s, 0);
      if i == |s| then [DropCR(s)]
      else [DropCR(s[..i])] + ScanLines(s[i + 1..])
  }

  /** Lines each followed by a line feed, as a file ending in one stores
      them. */
  function Terminated(lines: seq<string>): string {
    if lines == [] then "" else lines[0] + "\n" + Terminated(lines[1..])
  }

  /** Reading back lines written each with its line feed gives them again,
      when no line holds a line feed or ends with a carriage return. */
  lemma {:induction false} ScanLinesTerminated(lines: seq<string>)
    requires forall i :: 0 <= i < |lines| ==> '\n' !in lines[i]
    requires forall i :: 0 <= i < |lines| ==> DropCR(lines[i]) == lines[i]
    ensures ScanLines(Terminated(lines)) == lines
  {
    if lines != [] {
      var a := lines[0];
      var rest := Terminated(lines[1..]);
      var s := a + "\n" + rest;
      assert s == Terminated(lines);
      assert forall k :: 0 <= k < |a| ==> s[k] == a[k];
      assert LineEndFrom(s, 0, |a|);
      LineEndAt(s, 0, |a|);
      assert s[..|a|] == a;
      assert s[|a| + 1..] == rest;
      ScanLinesTerminated(lines[1..]);
    }
  }

  /** `s[j]` is a line feed and no line feed comes between `i` and `j`. */
  ghost predicate LineEndFrom(s: string, i: nat, j: nat) {
    i <= j < |s| && s[j] == '\n' && forall k :: i <= k < j ==> s[k] != '\n'
  }

  /** The first line feed at or after `i` is the one at `j`. */
  lemma LineEndAt(s: string, i: nat, j: nat)
    requires LineEndFrom(s, i, j)
    ensures LineEnd(s, i) == j
  {
  }
}
