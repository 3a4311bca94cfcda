/** The Python string operations that the modelled code relies on. */
module Text {

  /** `str.isspace` for one character. */
  predicate IsSpace(c: char) {
    var n := c as int;
    || 0x09 <= n <= 0x0D || 0x1C <= n <= 0x20 || n == 0x85 || n == 0xA0 || n == 0x1680
    || 0x2000 <= n <= 0x200A || n == 0x2028 || n == 0x2029 || n == 0x202F || n == 0x205F || n == 0x3000
  }

  function DropLeft(s: string): string {
    if s != "" && IsSpace(s[0]) then DropLeft(s[1..]) else s
  }

  function DropRight(s: string): string {
    if s != "" && IsSpace(s[|s| - 1]) then DropRight(s[..|s| - 1]) else s
  }

  function Strip(s: string): string {
    DropRight(DropLeft(s))
  }

  predicate Trimmed(s: string) {
    s == "" || (!IsSpace(s[0]) && !IsSpace(s[|s| - 1]))
  }

  lemma StripTrimmed(s: string)
    requires Trimmed(s)
    ensures Strip(s) == s
  {
  }

  lemma DropLeftEdge(s: string)
    ensures var r := DropLeft(s); r == "" || !IsSpace(r[0])
  {
  }

  lemma DropRightEdges(s: string)
    requires s == "" || !IsSpace(s[0])
    ensures Trimmed(DropRight(s))
  {
  }

  /** Stripping leaves nothing to strip. */
  lemma StripIsTrimmed(s: string)
    ensures Trimmed(Strip(s)) && Strip(Strip(s)) == Strip(s)
  {
    DropLeftEdge(s);
    DropRightEdges(DropLeft(s));
    StripTrimmed(Strip(s));
  }

  /** Pieces of `s` between the separators; there is always at least one piece. */
  function Split<T>(s: seq<T>, separator: T -> bool): (pieces: seq<seq<T>>)
    ensures |pieces| >= 1
  {
    if s == [] then [[]] else Grow(s[0], Split(s[1..], separator), separator)
  }

  /** Puts `x` in front of the pieces: a separator opens a new piece, anything else extends the first. */
  function Grow<T>(x: T, pieces: seq<seq<T>>, separator: T -> bool): seq<seq<T>>
    requires pieces != []
  {
    if separator(x) then [[]] + pieces else [[x] + pieces[0]] + pieces[1..]
  }

  function Last<T>(s: seq<T>): T
    requires s != []
  {
    s[|s| - 1]
  }

  function Front<T>(s: seq<T>): seq<T>
    requires s != []
  {
    s[..|s| - 1]
  }

  /** Appending text only changes the last piece. */
  lemma {:induction false} SplitConcat<T>(a: seq<T>, b: seq<T>, separator: T -> bool)
    ensures Split(a + b, separator)
         == Front(Split(a, separator)) + Split(Last(Split(a, separator)) + b, separator)
  {
    if a == [] {
      assert a + b == b;
      assert Split(a, separator) == [[]];
    } else {
      assert (a + b)[1..] == a[1..] + b;
      SplitConcat(a[1..], b, separator);
      SplitConcatStep(a[0], Split(a[1..], separator), b, separator);
    }
  }

  lemma SplitConcatStep<T>(x: T, rest: seq<seq<T>>, b: seq<T>, separator: T -> bool)
    requires rest != []
    ensures Front(Grow(x, rest, separator)) + Split(Last(Grow(x, rest, separator)) + b, separator)
         == Grow(x, Front(rest) + Split(Last(rest) + b, separator), separator)
  {
    if separator(x) {
      assert Front([[]] + rest) == [[]] + Front(rest);
      ConcatAssociative([[]], Front(rest), Split(Last(rest) + b, separator));
    } else if |rest| == 1 {
      SplitConcatOnly(x, rest[0], b, separator);
      assert rest == [rest[0]] && Front(rest) == [];
    } else {
      SplitConcatFirst(x, rest, Split(Last(rest) + b, separator));
    }
  }

  lemma SplitConcatOnly<T>(x: T, piece: seq<T>, b: seq<T>, separator: T -> bool)
    requires !separator(x)
    ensures Split(([x] + piece) + b, separator) == Grow(x, Split(piece + b, separator), separator)
  {
    assert ([x] + piece) + b == [x] + (piece + b);
    assert ([x] + (piece + b))[1..] == piece + b;
  }

  lemma SplitConcatFirst<T>(x: T, rest: seq<seq<T>>, tail: seq<seq<T>>)
    requires |rest| > 1
    ensures Last([[x] + rest[0]] + rest[1..]) == Last(rest)
    ensures Front([[x] + rest[0]] + rest[1..]) + tail
         == [[x] + (Front(rest) + tail)[0]] + (Front(rest) + tail)[1..]
  {
  }

  lemma {:induction false} SplitNone<T>(s: seq<T>, separator: T -> bool)
    requires forall i | 0 <= i < |s| :: !separator(s[i])
    ensures Split(s, separator) == [s]
  {
    if s != [] {
      SplitNone(s[1..], separator);
      assert [s[0]] + s[1..] == s;
    }
  }

  /** A separator closes the piece before it. */
  lemma {:induction false} SplitFirst<T>(piece: seq<T>, sep: T, rest: seq<T>, separator: T -> bool)
    requires forall i | 0 <= i < |piece| :: !separator(piece[i])
    requires separator(sep)
    ensures Split(piece + [sep] + rest, separator) == [piece] + Split(rest, separator)
  {
    var s := piece + [sep] + rest;
    if piece == [] {
      assert s[0] == sep && s[1..] == rest;
    } else {
      SplitFirst(piece[1..], sep, rest, separator);
      assert s[1..] == piece[1..] + [sep] + rest;
      assert [piece[0]] + piece[1..] == piece;
    }
  }

  function Flatten<T>(parts: seq<seq<T>>): seq<T> {
    if parts == [] then [] else parts[0] + Flatten(parts[1..])
  }

  lemma {:induction false} FlattenConcat<T>(a: seq<seq<T>>, b: seq<seq<T>>)
    ensures Flatten(a + b) == Flatten(a) + Flatten(b)
  {
    if a == [] {
      assert a + b == b;
    } else {
      FlattenConcat(a[1..], b);
      assert (a + b)[1..] == a[1..] + b;
      assert a[0] + (Flatten(a[1..]) + Flatten(b)) == (a[0] + Flatten(a[1..])) + Flatten(b);
    }
  }

  lemma ConcatAssociative<T>(a: seq<T>, b: seq<T>, c: seq<T>)
    ensures a + (b + c) == (a + b) + c
  {
  }
}
