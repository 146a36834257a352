/**
 The JavaScript string primitives the pipeline relies on, over `seq<char>`:
 `String.prototype.indexOf`, `String.prototype.split` with a non-empty
 separator, `Array.prototype.join`, and the decimal rendering of a
 non-negative integer inside a template literal.
 */
module JsString {
  import opened Wrappers

  /** `sep` occurs in `s` starting at index `k`. */
  predicate OccursAt(s: string, k: int, sep: string) {
    0 <= k && k + |sep| <= |s| && s[k..k + |sep|] == sep
  }

  /** Shifting by one character: occurrences in `s[1..]` are occurrences in `s`, one index later. */
  lemma {:induction false} OccursAtTail(s: string, k: nat, sep: string)
    requires |s| > 0
    ensures OccursAt(s[1..], k, sep) <==> OccursAt(s, k + 1, sep)
  {
  }

  /** An occurrence that lies inside a prefix of `s` is an occurrence in `s`, and conversely. */
  lemma {:induction false} OccursAtPrefix(s: string, m: int, k: int, sep: string)
    requires 0 <= m <= |s|
    requires k + |sep| <= m
    ensures OccursAt(s[..m], k, sep) <==> OccursAt(s, k, sep)
  {
  }

  /** `s.indexOf(sep)`: the least index at which `sep` occurs, or `None` for -1. */
  function IndexOf(s: string, sep: string): (r: Option<nat>)
    ensures r.Some? ==> OccursAt(s, r.value, sep)
    ensures r.Some? ==> forall k :: 0 <= k < r.value ==> !OccursAt(s, k, sep)
    ensures r.None? ==> forall k :: !OccursAt(s, k, sep)
    decreases |s|
  {
    if |s| < |sep| then None
    else if s[..|sep|] == sep then Some(0)
    else
      assert !OccursAt(s, 0, sep);
      match IndexOf(s[1..], sep)
      case None =>
        assert forall k :: !OccursAt(s, k, sep) by {
          forall k | 1 <= k ensures !OccursAt(s, k, sep) {
            OccursAtTail(s, k - 1, sep);
          }
        }
        None
      case Some(j) =>
        OccursAtTail(s, j, sep);
        assert forall k :: 0 <= k < j + 1 ==> !OccursAt(s, k, sep) by {
          forall k | 1 <= k < j + 1 ensures !OccursAt(s, k, sep) {
            OccursAtTail(s, k - 1, sep);
          }
        }
        Some(j + 1)
  }

  /** `s.split(sep)` for a non-empty `sep`: cut at every occurrence found left to right, without overlap. */
  function Split(s: string, sep: string): (pieces: seq<string>)
    requires |sep| > 0
    ensures |pieces| >= 1
    decreases |s|
  {
    match IndexOf(s, sep)
    case None => [s]
    case Some(j) => [s[..j]] + Split(s[j + |sep|..], sep)
  }

  /** `parts.join(sep)`: the empty array joins to the empty string. */
  function Join(parts: seq<string>, sep: string): string
    decreases |parts|
  {
    if |parts| == 0 then ""
    else if |parts| == 1 then parts[0]
    else parts[0] + sep + Join(parts[1..], sep)
  }

  /** Joining a longer array: the first part, the separator, then the rest joined. */
  lemma JoinCons(parts: seq<string>, sep: string)
    requires |parts| >= 2
    ensures Join(parts, sep) == parts[0] + sep + Join(parts[1..], sep)
  {
  }

  /** A joined array is empty when the array is, and otherwise starts with its first part, then the separator if more parts follow. */
  lemma {:induction false} JoinFirst(parts: seq<string>, sep: string)
    ensures |parts| == 0 ==> Join(parts, sep) == ""
    ensures |parts| > 0 ==> parts[0] <= Join(parts, sep)
    ensures |parts| > 1 ==> parts[0] + sep <= Join(parts, sep)
  {
  }

  /** No occurrence of `sep` lies wholly inside `piece`. */
  predicate Free(piece: string, sep: string) {
    forall k :: 0 <= k < |piece| ==> !OccursAt(piece, k, sep)
  }

  /** In `piece + sep`, the first occurrence of `sep` is the appended one. */
  predicate CutsFirst(piece: string, sep: string) {
    forall k :: 0 <= k < |piece| ==> !OccursAt(piece + sep, k, sep)
  }

  /**
   What `pieces` must look like to be the result of splitting `s` at `sep`:
   they join back to `s`, each non-final piece ends at the first occurrence
   of `sep` after its start, and the final piece contains no `sep`.
   */
  predicate IsSplitOf(pieces: seq<string>, s: string, sep: string) {
    && |pieces| >= 1
    && Join(pieces, sep) == s
    && (forall i :: 0 <= i < |pieces| - 1 ==> CutsFirst(pieces[i], sep))
    && Free(pieces[|pieces| - 1], sep)
  }

  /** A piece that ends at the first occurrence holds no occurrence itself. */
  lemma {:induction false} CutsFirstIsFree(piece: string, sep: string)
    requires CutsFirst(piece, sep)
    ensures Free(piece, sep)
  {
    forall k | 0 <= k < |piece| ensures !OccursAt(piece, k, sep) {
      if OccursAt(piece, k, sep) {
        var whole := piece + sep;
        assert whole[..|piece|] == piece;
        OccursAtPrefix(whole, |piece|, k, sep);
        assert false;
      }
    }
  }

  /** For a one-character separator, containing no separator is enough to end at the first one. */
  lemma {:induction false} FreeCutsFirst(piece: string, sep: string)
    requires |sep| == 1
    requires Free(piece, sep)
    ensures CutsFirst(piece, sep)
  {
    forall k | 0 <= k < |piece| ensures !OccursAt(piece + sep, k, sep) {
      var whole := piece + sep;
      assert whole[..|piece|] == piece;
      OccursAtPrefix(whole, |piece|, k, sep);
    }
  }

  /** A string free of a one-character separator is exactly one not containing that character. */
  lemma {:induction false} FreeOfChar(piece: string, c: char)
    ensures Free(piece, [c]) <==> c !in piece
  {
    if c in piece {
      var k :| 0 <= k < |piece| && piece[k] == c;
      assert piece[k..k + 1] == [c];
      assert OccursAt(piece, k, [c]);
    } else {
      forall k | 0 <= k < |piece| ensures !OccursAt(piece, k, [c]) {
        assert piece[k..k + 1][0] == piece[k];
      }
    }
  }

  /** Split's result satisfies the description of a split. */
  lemma {:induction false} SplitIsSplit(s: string, sep: string)
    requires |sep| > 0
    ensures IsSplitOf(Split(s, sep), s, sep)
    decreases |s|
  {
    match IndexOf(s, sep)
    case None =>
    case Some(j) =>
      var head := s[..j];
      var tail := s[j + |sep|..];
      var rest := Split(tail, sep);
      var pieces := Split(s, sep);
      assert pieces == [head] + rest;
      SplitIsSplit(tail, sep);
      assert pieces[1..] == rest;
      JoinCons(pieces, sep);
      assert s == head + sep + tail by {
        assert s[j..j + |sep|] == sep;
        assert s == s[..j] + s[j..j + |sep|] + s[j + |sep|..];
      }
      assert CutsFirst(head, sep) by {
        assert head + sep == s[..j + |sep|];
        forall k | 0 <= k < |head| ensures !OccursAt(head + sep, k, sep) {
          OccursAtPrefix(s, j + |sep|, k, sep);
        }
      }
      forall i | 0 <= i < |pieces| - 1 ensures CutsFirst(pieces[i], sep) {
        if i > 0 {
          assert pieces[i] == rest[i - 1];
        }
      }
      assert pieces[|pieces| - 1] == rest[|rest| - 1];
  }

  /** Conversely, there is only one way to split: anything that looks like a split is Split's result. */
  lemma {:induction false} SplitUnique(pieces: seq<string>, s: string, sep: string)
    requires |sep| > 0
    requires IsSplitOf(pieces, s, sep)
    ensures Split(s, sep) == pieces
    decreases |pieces|
  {
    if |pieces| == 1 {
      assert s == pieces[0];
    } else {
      var head := pieces[0];
      var rest := pieces[1..];
      var tail := Join(rest, sep);
      JoinCons(pieces, sep);
      assert s == head + sep + tail;
      var j := |head|;
      assert s[..j] == head;
      assert s[j + |sep|..] == tail;
      assert OccursAt(s, j, sep) by {
        assert s[j..j + |sep|] == sep;
      }
      assert forall k :: 0 <= k < j ==> !OccursAt(s, k, sep) by {
        assert head + sep == s[..j + |sep|];
        forall k | 0 <= k < j ensures !OccursAt(s, k, sep) {
          OccursAtPrefix(s, j + |sep|, k, sep);
        }
      }
      match IndexOf(s, sep)
      case None =>
        assert false;
      case Some(i) =>
        assert i == j;
        assert IsSplitOf(rest, tail, sep) by {
          forall i | 0 <= i < |rest| - 1 ensures CutsFirst(rest[i], sep) {
            assert rest[i] == pieces[i + 1];
          }
          assert rest[|rest| - 1] == pieces[|pieces| - 1];
        }
        SplitUnique(rest, tail, sep);
    }
  }

  /** Split and the description of a split agree exactly, in both directions. */
  lemma {:induction false} SplitCharacterised(pieces: seq<string>, s: string, sep: string)
    requires |sep| > 0
    ensures Split(s, sep) == pieces <==> IsSplitOf(pieces, s, sep)
  {
    SplitIsSplit(s, sep);
    if IsSplitOf(pieces, s, sep) {
      SplitUnique(pieces, s, sep);
    }
  }

  /** Round trip: joining the pieces of a split with the same separator restores the string. */
  lemma {:induction false} JoinSplit(s: string, sep: string)
    requires |sep| > 0
    ensures Join(Split(s, sep), sep) == s
  {
    SplitIsSplit(s, sep);
  }

  /** Round trip the other way, for a one-character separator: a non-empty list of parts free of it is recovered by splitting the join. */
  lemma {:induction false} SplitJoinChar(parts: seq<string>, c: char)
    requires |parts| >= 1
    requires forall i :: 0 <= i < |parts| ==> c !in parts[i]
    ensures Split(Join(parts, [c]), [c]) == parts
  {
    forall i | 0 <= i < |parts| ensures Free(parts[i], [c]) && CutsFirst(parts[i], [c]) {
      FreeOfChar(parts[i], c);
      FreeCutsFirst(parts[i], [c]);
    }
    SplitUnique(parts, Join(parts, [c]), [c]);
  }

  /** Every piece of a split by a one-character separator is free of that character. */
  lemma {:induction false} SplitCharPiecesFree(s: string, c: char)
    ensures forall i :: 0 <= i < |Split(s, [c])| ==> c !in Split(s, [c])[i]
  {
    var pieces := Split(s, [c]);
    SplitIsSplit(s, [c]);
    forall i | 0 <= i < |pieces| ensures c !in pieces[i] {
      if i < |pieces| - 1 {
        CutsFirstIsFree(pieces[i], [c]);
      }
      FreeOfChar(pieces[i], c);
    }
  }

  /** The number of non-overlapping occurrences of `sep` in `s`, counted scanning left to right. */
  function Occurrences(s: string, sep: string): nat
    requires |sep| > 0
    decreases |s|
  {
    if |s| < |sep| then 0
    else if s[..|sep|] == sep then 1 + Occurrences(s[|sep|..], sep)
    else Occurrences(s[1..], sep)
  }

  /** Skipping a stretch with no occurrence starting in it does not change the count. */
  lemma {:induction false} OccurrencesSkip(s: string, sep: string, j: nat)
    requires |sep| > 0
    requires j <= |s|
    requires forall k :: 0 <= k < j ==> !OccursAt(s, k, sep)
    ensures Occurrences(s, sep) == Occurrences(s[j..], sep)
    decreases j
  {
    if j == 0 {
      assert s[j..] == s;
    } else if |s| < |sep| {
      assert Occurrences(s[j..], sep) == 0;
    } else {
      assert !OccursAt(s, 0, sep);
      forall k: nat | k < j - 1 ensures !OccursAt(s[1..], k, sep) {
        OccursAtTail(s, k, sep);
      }
      OccurrencesSkip(s[1..], sep, j - 1);
      assert s[1..][j - 1..] == s[j..];
    }
  }

  /** `s.split(sep)` has one more piece than `s` has (non-overlapping) occurrences of `sep`. */
  lemma {:induction false} SplitCount(s: string, sep: string)
    requires |sep| > 0
    ensures |Split(s, sep)| == Occurrences(s, sep) + 1
    decreases |s|
  {
    match IndexOf(s, sep)
    case None =>
      OccurrencesSkip(s, sep, |s|);
      assert s[|s|..] == [];
    case Some(j) =>
      OccurrencesSkip(s, sep, j);
      var from := s[j..];
      assert from[..|sep|] == sep;
      assert from[|sep|..] == s[j + |sep|..];
      SplitCount(s[j + |sep|..], sep);
  }

  /** The digit character for `d`. */
  function DigitChar(d: nat): char
    requires d < 10
  {
    (('0' as int) + d) as char
  }

  /** The value of a digit character. */
  function DigitValue(c: char): int {
    (c as int) - ('0' as int)
  }

  /** Decimal rendering of a non-negative integer, as `${n}` produces it: no sign, no leading zeros. */
  function NatToString(n: nat): (r: string)
    ensures |r| >= 1
    ensures forall i :: 0 <= i < |r| ==> '0' <= r[i] <= '9'
    ensures r[0] == '0' ==> n == 0
    decreases n
  {
    if n < 10 then [DigitChar(n)]
    else NatToString(n / 10) + [DigitChar(n % 10)]
  }

  /** Reading a string of digits back as a number, most significant digit first. */
  function DecimalValue(s: string): int
    decreases |s|
  {
    if |s| == 0 then 0
    else 10 * DecimalValue(s[..|s| - 1]) + DigitValue(s[|s| - 1])
  }

  /** Reading back the rendering of `n` gives `n`. */
  lemma {:induction false} DecimalValueOfNatToString(n: nat)
    ensures DecimalValue(NatToString(n)) == n
    decreases n
  {
    var r := NatToString(n);
    if n < 10 {
      assert r[..0] == [];
    } else {
      DecimalValueOfNatToString(n / 10);
      assert r[..|r| - 1] == NatToString(n / 10);
    }
  }

  /** Distinct numbers render to distinct strings. */
  lemma {:induction false} NatToStringInjective(a: nat, b: nat)
    ensures NatToString(a) == NatToString(b) ==> a == b
  {
    DecimalValueOfNatToString(a);
    DecimalValueOfNatToString(b);
  }
}
