/** The string operations the generated command parser uses: splitting, splitting once, ASCII case. */
module CommandText {
  import opened Basics

  predicate OccursAt(s: string, separator: string, i: nat) {
    i + |separator| <= |s| && s[i..i + |separator|] == separator
  }

  /** The first occurrence at or after `from`. */
  function Find(s: string, separator: string, from: nat): (r: Option<nat>)
    ensures r.None? ==> forall i: nat :: from <= i ==> !OccursAt(s, separator, i)
    ensures r.Some? ==> from <= r.value && OccursAt(s, separator, r.value)
    ensures r.Some? ==> forall i: nat :: from <= i < r.value ==> !OccursAt(s, separator, i)
    decreases |s| - from
  {
    if from + |separator| > |s| then None
    else if OccursAt(s, separator, from) then Some(from)
    else Find(s, separator, from + 1)
  }

  lemma FindIs(s: string, separator: string, i: nat)
    requires OccursAt(s, separator, i) && forall k: nat :: k < i ==> !OccursAt(s, separator, k)
    ensures Find(s, separator, 0) == Some(i)
  {
    var found := Find(s, separator, 0);
    assert found.Some?;
  }

  // --- splitting ---

  function Letters(s: string): seq<string> {
    if s == "" then [] else [[s[0]]] + Letters(s[1..])
  }

  /** The pieces between the occurrences, left to right; an empty separator splits around every letter. */
  function Split(s: string, separator: string): (pieces: seq<string>)
    ensures pieces != []
    decreases |s|
  {
    if separator == "" then [""] + Letters(s) + [""]
    else
      match Find(s, separator, 0)
      case None => [s]
      case Some(i) => [s[..i]] + Split(s[i + |separator|..], separator)
  }

  /** At most two pieces: before the first occurrence and, if there is one, everything after it. */
  function SplitOnce(s: string, separator: string): (string, Option<string>) {
    match Find(s, separator, 0)
    case None => (s, None)
    case Some(i) => (s[..i], Some(s[i + |separator|..]))
  }

  function Join(pieces: seq<string>, separator: string): string
    requires pieces != []
  {
    if |pieces| == 1 then pieces[0] else pieces[0] + separator + Join(pieces[1..], separator)
  }

  lemma {:induction false} JoinLetters(s: string)
    ensures Join(Letters(s) + [""], "") == s
  {
    if s != "" {
      JoinLetters(s[1..]);
      assert (Letters(s) + [""])[1..] == Letters(s[1..]) + [""];
    }
  }

  /** Splitting loses nothing: the pieces joined again are the text, whatever the separator. */
  lemma {:induction false} JoinAfterSplit(s: string, separator: string)
    ensures Join(Split(s, separator), separator) == s
    decreases |s|
  {
    if separator == "" {
      JoinLetters(s);
      assert Split(s, "")[1..] == Letters(s) + [""];
    } else {
      var found := Find(s, separator, 0);
      if found.Some? {
        var rest := s[found.value + |separator|..];
        JoinAfterSplit(rest, separator);
        JoinOnto(s[..found.value], Split(rest, separator), separator);
        assert s == s[..found.value] + separator + rest;
      }
    }
  }

  lemma JoinOnto(piece: string, pieces: seq<string>, separator: string)
    requires pieces != []
    ensures Join([piece] + pieces, separator) == piece + separator + Join(pieces, separator)
  {
    assert ([piece] + pieces)[1..] == pieces;
  }

  /** The separator is first seen where the piece ends: it is not inside, and does not start inside and end outside. */
  ghost predicate EndsAt(piece: string, separator: string) {
    forall i: nat :: i < |piece| ==> !OccursAt(piece + separator, separator, i)
  }

  ghost predicate Absent(piece: string, separator: string) {
    forall i: nat :: !OccursAt(piece, separator, i)
  }

  /** Every piece but the last ends at its separator, and the last one does not contain it. */
  ghost predicate Separable(pieces: seq<string>, separator: string)
    requires pieces != []
  {
    && (forall k :: 0 <= k < |pieces| - 1 ==> EndsAt(pieces[k], separator))
    && Absent(pieces[|pieces| - 1], separator)
  }

  lemma FirstSeparator(piece: string, separator: string, rest: string)
    requires separator != ""
    ensures EndsAt(piece, separator) <==> Find(piece + separator + rest, separator, 0) == Some(|piece|)
  {
    var s, n := piece + separator + rest, |separator|;
    forall i: nat | i <= |piece| ensures OccursAt(s, separator, i) <==> OccursAt(piece + separator, separator, i) {
      assert s[i..i + n] == (piece + separator)[i..i + n];
    }
    assert OccursAt(piece + separator, separator, |piece|);
    if EndsAt(piece, separator) {
      FindIs(s, separator, |piece|);
    }
  }

  lemma AbsentIsNotFound(piece: string, separator: string)
    ensures Absent(piece, separator) <==> Find(piece, separator, 0).None?
  {
  }

  lemma SplitsWhenFound(s: string, separator: string)
    requires separator != ""
    ensures |Split(s, separator)| == 1 <==> Find(s, separator, 0).None?
  {
  }

  lemma LastPiece(piece: string, separator: string)
    requires separator != ""
    ensures Absent(piece, separator) <==> Split(piece, separator) == [piece]
  {
    AbsentIsNotFound(piece, separator);
    SplitsWhenFound(piece, separator);
    if Find(piece, separator, 0).None? {
      assert Split(piece, separator) == [piece];
    } else {
      assert |[piece]| == 1;
    }
  }

  /** The first piece of a joined text is the first one joined exactly when that one ends at its separator. */
  lemma FirstPiece(piece: string, separator: string, rest: string)
    requires separator != ""
    ensures EndsAt(piece, separator) ==> Split(piece + separator + rest, separator) == [piece] + Split(rest, separator)
    ensures !EndsAt(piece, separator) ==> Split(piece + separator + rest, separator)[0] != piece
  {
    var s := piece + separator + rest;
    FirstSeparator(piece, separator, rest);
    assert OccursAt(s, separator, |piece|);
    var i := Find(s, separator, 0).value;
    assert |s[..i]| == i;
    assert s[..|piece|] == piece && s[|piece| + |separator|..] == rest;
  }

  /** Joined pieces come back exactly when the separator is first seen where each of them ends. */
  lemma {:induction false} SplitAfterJoin(pieces: seq<string>, separator: string)
    requires pieces != [] && separator != ""
    ensures Split(Join(pieces, separator), separator) == pieces <==> Separable(pieces, separator)
  {
    if |pieces| == 1 {
      LastPiece(pieces[0], separator);
      assert pieces == [pieces[0]];
    } else {
      var rest := Join(pieces[1..], separator);
      SplitAfterJoin(pieces[1..], separator);
      FirstPiece(pieces[0], separator, rest);
      SeparableTail(pieces, separator);
      assert pieces == [pieces[0]] + pieces[1..];
      assert ([pieces[0]] + Split(rest, separator))[1..] == Split(rest, separator);
    }
  }

  lemma SeparableTail(pieces: seq<string>, separator: string)
    requires |pieces| > 1
    ensures Separable(pieces, separator) <==> EndsAt(pieces[0], separator) && Separable(pieces[1..], separator)
  {
    if EndsAt(pieces[0], separator) && Separable(pieces[1..], separator) {
      forall k | 0 <= k < |pieces| - 1 ensures EndsAt(pieces[k], separator) {
        if k > 0 {
          assert pieces[k] == pieces[1..][k - 1];
        }
      }
    }
  }

  /** For a one-letter separator that means: absent from every piece. */
  lemma OneLetterSeparable(pieces: seq<string>, c: char)
    requires pieces != []
    ensures Separable(pieces, [c]) <==> forall k :: 0 <= k < |pieces| ==> c !in pieces[k]
  {
    forall k | 0 <= k < |pieces| ensures EndsAt(pieces[k], [c]) <==> c !in pieces[k] {
      OneLetterEnds(pieces[k], c);
    }
    var last := pieces[|pieces| - 1];
    forall i: nat | i < |last| ensures OccursAt(last, [c], i) <==> last[i] == c {
      assert last[i..i + 1] == [last[i]];
    }
  }

  lemma OneLetterEnds(piece: string, c: char)
    ensures EndsAt(piece, [c]) <==> c !in piece
  {
    forall i: nat | i < |piece| ensures OccursAt(piece + [c], [c], i) <==> piece[i] == c {
      assert (piece + [c])[i..i + 1] == [piece[i]];
    }
  }

  /** What splitting produces is always separable. */
  lemma SplitIsSeparable(s: string, separator: string)
    requires separator != ""
    ensures Separable(Split(s, separator), separator)
  {
    JoinAfterSplit(s, separator);
    SplitAfterJoin(Split(s, separator), separator);
  }

  /** A piece that ends at its separator does not contain it. */
  lemma EndsAtIsAbsent(piece: string, separator: string)
    requires separator != "" && EndsAt(piece, separator)
    ensures Absent(piece, separator)
  {
    forall i: nat | OccursAt(piece, separator, i) ensures OccursAt(piece + separator, separator, i) {
      OccursInLonger(piece, piece + separator, separator, i);
    }
  }

  lemma OccursInLonger(piece: string, s: string, separator: string, i: nat)
    requires piece <= s && OccursAt(piece, separator, i)
    ensures OccursAt(s, separator, i)
  {
    assert s[i..i + |separator|] == piece[i..i + |separator|];
  }

  lemma AbsentFromPrefix(s: string, n: nat, separator: string)
    requires n <= |s| && Absent(s, separator)
    ensures Absent(s[..n], separator)
  {
    forall i: nat | OccursAt(s[..n], separator, i) ensures OccursAt(s, separator, i) {
      OccursInLonger(s[..n], s, separator, i);
    }
  }

  /** The first half does not contain the separator. */
  lemma SplitOnceHead(s: string, separator: string)
    requires separator != ""
    ensures Absent(SplitOnce(s, separator).0, separator)
  {
    AbsentIsNotFound(s, separator);
    var found := Find(s, separator, 0);
    if found.Some? {
      var head := s[..found.value];
      forall i: nat | OccursAt(head, separator, i) ensures OccursAt(s, separator, i) {
        OccursInLonger(head, s, separator, i);
      }
    }
  }

  // --- ASCII case ---

  function AsciiLower(c: char): char {
    if 'A' <= c <= 'Z' then c - 'A' + 'a' else c
  }

  predicate EqIgnoreAsciiCase(a: string, b: string) {
    |a| == |b| && forall i :: 0 <= i < |a| ==> AsciiLower(a[i]) == AsciiLower(b[i])
  }

  const UPPER_CASE: string := "ABCDEFGHIJKLMNOPQRSTUVWXYZ"
  const LOWER_CASE: string := "abcdefghijklmnopqrstuvwxyz"

  lemma AlphabetAt(k: nat)
    requires k < 26
    ensures UPPER_CASE[k] as int == 'A' as int + k && LOWER_CASE[k] as int == 'a' as int + k
  {
  }

  /** One letter in its two cases, or the same character. */
  ghost predicate SameLetter(c: char, d: char) {
    c == d || exists k :: 0 <= k < 26 && (c == UPPER_CASE[k] || c == LOWER_CASE[k])
                          && (d == UPPER_CASE[k] || d == LOWER_CASE[k])
  }

  lemma LettersLowerAlike(c: char, k: nat)
    requires k < 26
    ensures c == UPPER_CASE[k] || c == LOWER_CASE[k] <==> AsciiLower(c) as int == 'a' as int + k
  {
    AlphabetAt(k);
  }

  lemma LowerIsSameLetter(c: char, d: char)
    ensures AsciiLower(c) == AsciiLower(d) <==> SameLetter(c, d)
  {
    if AsciiLower(c) == AsciiLower(d) && c != d {
      var k := AsciiLower(c) as int - 'a' as int;
      LettersLowerAlike(c, k);
      LettersLowerAlike(d, k);
    }
    if k: nat :| k < 26 && (c == UPPER_CASE[k] || c == LOWER_CASE[k]) && (d == UPPER_CASE[k] || d == LOWER_CASE[k]) {
      LettersLowerAlike(c, k);
      LettersLowerAlike(d, k);
    }
  }

  /** Two texts are equal up to ASCII case if they are so letter by letter; no other characters are confused. */
  lemma CaseIsLetterByLetter(a: string, b: string)
    ensures EqIgnoreAsciiCase(a, b) <==> |a| == |b| && forall i :: 0 <= i < |a| ==> SameLetter(a[i], b[i])
  {
    forall i | 0 <= i < |a| && i < |b| ensures AsciiLower(a[i]) == AsciiLower(b[i]) <==> SameLetter(a[i], b[i]) {
      LowerIsSameLetter(a[i], b[i]);
    }
  }
}
