/**
 * The three JavaScript string operations the colour rule relies on:
 * `indexOf`, element 1 of `split(sep)`, and `toLowerCase` (over ASCII letters).
 */
module JsStrings {
  import opened Wrappers

  /** `sep` occurs in `s` starting at position `i`, compared character by character. */
  predicate OccursAt(s: string, sep: string, i: nat)
    decreases |sep|
  {
    if |sep| == 0 then i <= |s|
    else i < |s| && s[i] == sep[0] && OccursAt(s, sep[1..], i + 1)
  }

  /** An occurrence is the slice of `s` that equals `sep`. */
  lemma {:induction false} OccursAtSlice(s: string, sep: string, i: nat)
    requires OccursAt(s, sep, i)
    ensures i + |sep| <= |s| && s[i..i + |sep|] == sep
    decreases |sep|
  {
    if |sep| > 0 {
      OccursAtSlice(s, sep[1..], i + 1);
      assert sep == [sep[0]] + sep[1..];
      assert s[i..i + |sep|] == [s[i]] + s[i + 1..i + 1 + |sep[1..]|];
    }
  }

  /** `s.indexOf(sep, from)`: the first position at or after `from` where `sep` occurs. */
  function IndexOf(s: string, sep: string, from: nat): (r: Option<nat>)
    requires |sep| > 0
    ensures r.Some? ==> from <= r.value && OccursAt(s, sep, r.value)
    ensures r.Some? ==> forall k :: from <= k < r.value ==> !OccursAt(s, sep, k)
    ensures r.None? ==> forall k :: from <= k ==> !OccursAt(s, sep, k)
    decreases |s| - from
  {
    if from >= |s| then None
    else if OccursAt(s, sep, from) then Some(from)
    else IndexOf(s, sep, from + 1)
  }

  /** `i` is the first position where `sep` occurs in `s`. */
  predicate FirstOccurrence(s: string, sep: string, i: nat) {
    OccursAt(s, sep, i) && forall k: nat :: k < i ==> !OccursAt(s, sep, k)
  }

  /**
   * `piece` is the text of `s` from `start` up to the next occurrence of `sep` at or
   * after `start`, or up to the end of `s` when there is none.
   */
  predicate PieceFrom(s: string, sep: string, start: nat, piece: string) {
    start + |piece| <= |s|
    && s[start..start + |piece|] == piece
    && (start + |piece| == |s| || OccursAt(s, sep, start + |piece|))
    && forall k: nat :: start <= k < start + |piece| ==> !OccursAt(s, sep, k)
  }

  /**
   * `s.split(sep)[1]`: the text between the first and the second occurrence of
   * `sep` (or the end of `s`); `None` is JavaScript's `undefined`, when `sep`
   * does not occur at all and `split` yields a single piece.
   */
  function SplitPiece1(s: string, sep: string): (r: Option<string>)
    requires |sep| > 0
    ensures r.None? ==> forall k: nat :: !OccursAt(s, sep, k)
    ensures r.Some? ==> exists i: nat :: FirstOccurrence(s, sep, i) && PieceFrom(s, sep, i + |sep|, r.value)
  {
    match IndexOf(s, sep, 0)
    case None => None
    case Some(i) =>
      OccursAtSlice(s, sep, i);
      var start := i + |sep|;
      match IndexOf(s, sep, start)
      case None =>
        var piece := s[start..];
        assert PieceFrom(s, sep, start, piece);
        assert FirstOccurrence(s, sep, i);
        Some(piece)
      case Some(j) =>
        var piece := s[start..j];
        assert PieceFrom(s, sep, start, piece);
        assert FirstOccurrence(s, sep, i);
        Some(piece)
  }

  function LowerChar(c: char): char {
    if 'A' <= c <= 'Z' then (c as int + 32) as char else c
  }

  /** `s.toLowerCase()` for ASCII text: every upper-case letter replaced by its lower-case form. */
  function ToLower(s: string): (r: string)
    ensures |r| == |s|
    ensures forall i :: 0 <= i < |s| ==> r[i] == LowerChar(s[i])
  {
    if s == [] then [] else [LowerChar(s[0])] + ToLower(s[1..])
  }
}
