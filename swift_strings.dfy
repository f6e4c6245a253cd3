/** The Swift string operations the core relies on: `firstIndex(of:)`,
    `split(separator:)` (which omits empty pieces) and `contains`. A Swift
    `Character` is taken to be one `char`. */
module SwiftStrings {
  import opened Wrappers

  /** `s.firstIndex(of: c)`: the position of the first occurrence of `c`. */
  function FirstIndex(s: string, c: char): (r: Option<nat>)
    ensures r.None? <==> c !in s
    ensures r.Some? ==> r.value < |s| && s[r.value] == c && c !in s[..r.value]
  {
    var r := FirstIndexFrom(s, c, 0);
    if r.Some? then
      assert forall j :: 0 <= j < r.value ==> s[..r.value][j] == s[j];
      r
    else r
  }

  /** The forward search from position `from` on. */
  function FirstIndexFrom(s: string, c: char, from: nat): (r: Option<nat>)
    requires from <= |s|
    ensures r.None? <==> forall j :: from <= j < |s| ==> s[j] != c
    ensures r.Some? ==> from <= r.value < |s| && s[r.value] == c && forall j :: from <= j < r.value ==> s[j] != c
    decreases |s| - from
  {
    if from == |s| then None
    else if s[from] == c then Some(from)
    else FirstIndexFrom(s, c, from + 1)
  }

  /** When `x` has no `c`, the first `c` of `x + [c] + y` is the one after `x`. */
  lemma FirstIndexAfter(x: string, c: char, y: string)
    requires c !in x
    ensures FirstIndex(x + [c] + y, c) == Some(|x|)
  {
    var s := x + [c] + y;
    assert s[|x|] == c;
    assert forall j :: 0 <= j < |x| ==> s[j] == x[j];
  }

  /** The pieces joined together, with nothing in between. */
  function Concat(pieces: seq<string>): string {
    if pieces == [] then [] else pieces[0] + Concat(pieces[1..])
  }

  /** `s` with every `c` taken out. */
  function Without(s: string, c: char): string {
    if s == [] then []
    else (if s[0] == c then [] else [s[0]]) + Without(s[1..], c)
  }

  /** `s.split(separator: sep)`: the maximal runs of characters other than
      `sep`, in order; empty runs are omitted. */
  function Split(s: string, sep: char): (pieces: seq<string>)
    ensures forall i :: 0 <= i < |pieces| ==> pieces[i] != [] && sep !in pieces[i]
    ensures Concat(pieces) == Without(s, sep)
  {
    SplitFrom(s, sep, [])
  }

  /** Splitting the rest of the text `s` when the piece `current` is open. */
  function SplitFrom(s: string, sep: char, current: string): (pieces: seq<string>)
    requires sep !in current
    ensures forall i :: 0 <= i < |pieces| ==> pieces[i] != [] && sep !in pieces[i]
    ensures Concat(pieces) == current + Without(s, sep)
    decreases |s|
  {
    if s == [] then
      (if current == [] then [] else [current])
    else if s[0] == sep then
      var rest := SplitFrom(s[1..], sep, []);
      var pieces := (if current == [] then [] else [current]) + rest;
      assert current != [] ==> pieces[0] == current && pieces[1..] == rest;
      assert current != [] ==> Concat(pieces) == current + Concat(rest);
      assert current == [] ==> pieces == rest;
      assert Without(s, sep) == Without(s[1..], sep);
      pieces
    else
      var rest := SplitFrom(s[1..], sep, current + [s[0]]);
      assert current + Without(s, sep) == current + [s[0]] + Without(s[1..], sep);
      rest
  }

  /** A separator ends the open piece: with `x` free of `sep`, the text
      `x + [sep] + y` yields the open piece extended by `x`, then the
      pieces of `y`. */
  lemma {:induction false} SplitFromAtSeparator(x: string, sep: char, y: string, current: string)
    requires sep !in current && sep !in x && current + x != []
    ensures SplitFrom(x + [sep] + y, sep, current) == [current + x] + SplitFrom(y, sep, [])
    decreases |x|
  {
    var s := x + [sep] + y;
    if x == [] {
      assert s == [sep] + y;
      assert s[0] == sep && s[1..] == y;
      assert current + x == current;
    } else {
      assert s[0] == x[0] && s[1..] == x[1..] + [sep] + y;
      SplitFromAtSeparator(x[1..], sep, y, current + [x[0]]);
      assert current + [x[0]] + x[1..] == current + x;
    }
  }

  /** The text runs out with no separator left: the open piece, extended by
      the rest of the text, is the last piece (none when both are empty). */
  lemma {:induction false} SplitFromEnd(x: string, sep: char, current: string)
    requires sep !in current && sep !in x
    ensures SplitFrom(x, sep, current) == if current + x == [] then [] else [current + x]
    decreases |x|
  {
    if x != [] {
      SplitFromEnd(x[1..], sep, current + [x[0]]);
      assert current + [x[0]] + x[1..] == current + x;
    } else {
      assert current + x == current;
    }
  }

  /** A non-empty text with no separator is a single piece. */
  lemma SplitPiece(x: string, sep: char)
    requires sep !in x && x != []
    ensures Split(x, sep) == [x]
  {
    SplitFromEnd(x, sep, []);
    assert [] + x == x;
  }

  /** The pieces break exactly at separators: the text up to the first
      separator is the first piece, unless it is empty, and the pieces of the
      rest follow. Together with `Split([], sep) == []` and `SplitPiece` this
      determines `Split` on every text. */
  lemma SplitAtSeparator(x: string, sep: char, y: string)
    requires sep !in x
    ensures Split(x + [sep] + y, sep) == (if x == [] then [] else [x]) + Split(y, sep)
  {
    if x == [] {
      var s := x + [sep] + y;
      assert s[0] == sep && s[1..] == y;
    } else {
      SplitFromAtSeparator(x, sep, y, []);
      assert [] + x == x;
    }
  }

  /** Leading separators are skipped. */
  lemma {:induction false} SplitSkipsSeparators(c: string, sep: char, y: string)
    requires forall i :: 0 <= i < |c| ==> c[i] == sep
    ensures Split(c + y, sep) == Split(y, sep)
    decreases |c|
  {
    if c != [] {
      var z := c[1..] + y;
      assert c + y == [] + [sep] + z;
      SplitAtSeparator([], sep, z);
      assert Split(c + y, sep) == Split(z, sep);
      SplitSkipsSeparators(c[1..], sep, y);
    } else {
      assert c + y == y;
    }
  }

  /** For `lead + a + gap + b + rest`, with `lead` and `gap` made of
      separators only (`gap` non-empty), `a` and `b` non-empty and free of
      separators, and `rest` empty or starting with a separator, the first
      two pieces are `a` and `b`. */
  lemma SplitFirstTwoPieces(lead: string, a: string, gap: string, b: string, rest: string, sep: char)
    requires forall i :: 0 <= i < |lead| ==> lead[i] == sep
    requires gap != [] && forall i :: 0 <= i < |gap| ==> gap[i] == sep
    requires a != [] && b != [] && sep !in a && sep !in b
    requires rest == [] || rest[0] == sep
    ensures var pieces := Split(lead + a + gap + b + rest, sep);
      |pieces| >= 2 && pieces[0] == a && pieces[1] == b
  {
    var tail := b + rest;
    assert lead + a + gap + b + rest == lead + (a + [sep] + (gap[1..] + tail));
    SplitSkipsSeparators(lead, sep, a + [sep] + (gap[1..] + tail));
    SplitAtSeparator(a, sep, gap[1..] + tail);
    assert forall i :: 0 <= i < |gap[1..]| ==> gap[1..][i] == sep;
    SplitSkipsSeparators(gap[1..], sep, tail);
    if rest == [] {
      assert tail == b;
      SplitPiece(b, sep);
    } else {
      assert tail == b + [sep] + rest[1..];
      SplitAtSeparator(b, sep, rest[1..]);
    }
  }

  /** `s.contains(sub)` for a non-empty `sub`. */
  predicate Contains(s: string, sub: string) {
    exists i :: 0 <= i <= |s| && sub <= s[i..]
  }
}
