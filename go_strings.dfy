/**
 * The part of Go's `strings` package the router relies on: `TrimSpace`,
 * `Split` with a one-character separator, `Join` (its inverse) and `ToLower`.
 * White space and letter case are the ASCII ones.
 */
module GoStrings {

  /** ASCII white space as `strings.TrimSpace` sees it: space, \t, \n, \v, \f, \r. */
  predicate IsSpace(c: char) {
    c == ' ' || c == '\t' || c == '\n' || c == '\U{B}' || c == '\U{C}' || c == '\r'
  }

  predicate IsUpper(c: char) {
    'A' <= c <= 'Z'
  }

  /** The index of the first non-space character at or after `i` (or `|s|`). */
  function SkipSpace(s: string, i: nat): (j: nat)
    requires i <= |s|
    ensures i <= j <= |s|
    ensures forall k :: i <= k < j ==> IsSpace(s[k])
    ensures j == |s| || !IsSpace(s[j])
    decreases |s| - i
  {
    if i < |s| && IsSpace(s[i]) then SkipSpace(s, i + 1) else i
  }

  /** The end of `s[lo..j]` once its trailing white space is dropped. */
  function SkipSpaceBack(s: string, lo: nat, j: nat): (e: nat)
    requires lo <= j <= |s|
    ensures lo <= e <= j
    ensures forall k :: e <= k < j ==> IsSpace(s[k])
    ensures e == lo || !IsSpace(s[e - 1])
  {
    if lo < j && IsSpace(s[j - 1]) then SkipSpaceBack(s, lo, j - 1) else j
  }

  /** `r` is `s[i..i + |r|]` and every character of `s` outside that slice is white space. */
  predicate CutAt(s: string, i: int, r: string) {
    0 <= i <= |s| - |r| && r == s[i..i + |r|]
    && (forall k :: 0 <= k < i ==> IsSpace(s[k]))
    && (forall k :: i + |r| <= k < |s| ==> IsSpace(s[k]))
  }

  /**
   * `strings.TrimSpace`: the result is a slice of `s` that neither starts
   * nor ends with white space, and everything cut off is white space.
   */
  function TrimSpace(s: string): (r: string)
    ensures r == [] || (!IsSpace(r[0]) && !IsSpace(r[|r| - 1]))
    ensures exists i :: CutAt(s, i, r)
  {
    var i := SkipSpace(s, 0);
    var e := SkipSpaceBack(s, i, |s|);
    assert CutAt(s, i, s[i..e]);
    s[i..e]
  }

  /** A string with no white space at either end is its own trimmed form. */
  lemma TrimSpaceOfTrimmed(s: string)
    requires s == [] || (!IsSpace(s[0]) && !IsSpace(s[|s| - 1]))
    ensures TrimSpace(s) == s
  {
  }

  /** Trimming twice is trimming once. */
  lemma TrimSpaceIdempotent(s: string)
    ensures TrimSpace(TrimSpace(s)) == TrimSpace(s)
  {
    TrimSpaceOfTrimmed(TrimSpace(s));
  }

  /** No piece contains the separator. */
  predicate SeparatorFree(pieces: seq<string>, sep: char) {
    forall i :: 0 <= i < |pieces| ==> sep !in pieces[i]
  }

  /** `strings.Join`: the pieces with one separator between neighbours. */
  function Join(pieces: seq<string>, sep: char): string {
    if |pieces| == 0 then ""
    else if |pieces| == 1 then pieces[0]
    else pieces[0] + [sep] + Join(pieces[1..], sep)
  }

  lemma JoinCons(a: string, rest: seq<string>, sep: char)
    requires |rest| >= 1
    ensures Join([a] + rest, sep) == a + [sep] + Join(rest, sep)
  {
    assert ([a] + rest)[1..] == rest;
  }

  /**
   * `strings.Split` with a one-character separator: the pieces between the
   * separators, so there is always at least one piece (`Split("")` is `[""]`),
   * two neighbouring separators give an empty piece, and joining the pieces
   * again gives back `s`.
   */
  function Split(s: string, sep: char): (r: seq<string>)
    ensures |r| >= 1
    ensures SeparatorFree(r, sep)
    ensures Join(r, sep) == s
  {
    if s == [] then [""]
    else if s[0] == sep then
      var t := Split(s[1..], sep);
      JoinCons("", t, sep);
      [""] + t
    else
      var t := Split(s[1..], sep);
      var r := [[s[0]] + t[0]] + t[1..];
      if |t| == 1 then r
      else
        JoinCons([s[0]] + t[0], t[1..], sep);
        JoinCons(t[0], t[1..], sep);
        assert [t[0]] + t[1..] == t;
        r
  }

  /** Splitting `a + rest` where `a` has no separator glues `a` onto the first piece of `rest`. */
  lemma {:induction false} SplitPrefix(a: string, rest: string, sep: char)
    requires sep !in a
    ensures Split(a + rest, sep) == [a + Split(rest, sep)[0]] + Split(rest, sep)[1..]
  {
    if a == [] {
      assert a + rest == rest;
      var t := Split(rest, sep);
      assert a + t[0] == t[0];
      assert [t[0]] + t[1..] == t;
    } else {
      assert (a + rest)[0] == a[0];
      assert (a + rest)[1..] == a[1..] + rest;
      SplitPrefix(a[1..], rest, sep);
      assert [a[0]] + (a[1..] + Split(rest, sep)[0]) == a + Split(rest, sep)[0];
    }
  }

  /** Split undoes Join: separator-free pieces come back unchanged. */
  lemma {:induction false} SplitOfJoin(pieces: seq<string>, sep: char)
    requires |pieces| >= 1 && SeparatorFree(pieces, sep)
    ensures Split(Join(pieces, sep), sep) == pieces
  {
    if |pieces| == 1 {
      SplitPrefix(pieces[0], "", sep);
      assert pieces[0] + "" == pieces[0];
    } else {
      var tail := Join(pieces[1..], sep);
      SplitOfJoin(pieces[1..], sep);
      assert pieces[0] + [sep] + tail == pieces[0] + ([sep] + tail);
      SplitPrefix(pieces[0], [sep] + tail, sep);
      assert ([sep] + tail)[1..] == tail;
      assert Split([sep] + tail, sep) == [""] + pieces[1..];
      assert pieces[0] + "" == pieces[0];
      assert [pieces[0]] + pieces[1..] == pieces;
    }
  }

  /** The pieces of `s` are the only separator-free sequence that joins to `s`. */
  lemma SplitCharacterised(s: string, pieces: seq<string>, sep: char)
    requires |pieces| >= 1 && SeparatorFree(pieces, sep)
    ensures Split(s, sep) == pieces <==> Join(pieces, sep) == s
  {
    SplitOfJoin(pieces, sep);
  }

  /** Split gives a single piece exactly when the separator does not occur. */
  lemma SplitSinglePiece(s: string, sep: char)
    ensures |Split(s, sep)| == 1 <==> sep !in s
  {
    var r := Split(s, sep);
    if |r| >= 2 {
      JoinCons(r[0], r[1..], sep);
      assert [r[0]] + r[1..] == r;
      assert s[|r[0]|] == sep;
    }
  }

  function LowerChar(c: char): char {
    if IsUpper(c) then (c as int + 32) as char else c
  }

  /**
   * `strings.ToLower` on ASCII: every upper-case letter becomes its
   * lower-case counterpart and every other character is kept.
   */
  function ToLower(s: string): (r: string)
    ensures |r| == |s|
    ensures forall i :: 0 <= i < |r| ==> !IsUpper(r[i])
    ensures forall i :: 0 <= i < |s| ==> r[i] == s[i] || (IsUpper(s[i]) && r[i] as int == s[i] as int + 32)
  {
    if s == [] then "" else [LowerChar(s[0])] + ToLower(s[1..])
  }

  /** Lower-casing twice is lower-casing once. */
  lemma ToLowerIdempotent(s: string)
    ensures ToLower(ToLower(s)) == ToLower(s)
  {
    var r := ToLower(s);
    var rr := ToLower(r);
    forall i | 0 <= i < |r| ensures rr[i] == r[i] {
    }
  }
}
