/**
 * `chunk.split(sep)` for a one-character separator, and the `filter(line => line.trim())`
 * that the stream readers apply to its result.
 */
module Lines {
  import opened Text

  /** `s.split(sep)`: the pieces between separators, including empty ones at either end, so
      there is always one more piece than there are separators. */
  function SplitOn(s: string, sep: char): (r: seq<string>)
    ensures |r| >= 1
  {
    if s == [] then [""]
    else
      var rest := SplitOn(s[1..], sep);
      if s[0] == sep then [""] + rest
      else [[s[0]] + rest[0]] + rest[1..]
  }

  /** `parts.join(sep)`, for a non-empty list of parts. */
  function Join(parts: seq<string>, sep: char): string
    requires |parts| >= 1
  {
    if |parts| == 1 then parts[0] else parts[0] + [sep] + Join(parts[1..], sep)
  }

  predicate NoSep(parts: seq<string>, sep: char) {
    forall i :: 0 <= i < |parts| ==> sep !in parts[i]
  }

  /** No piece contains the separator. */
  lemma {:induction false} SplitNoSep(s: string, sep: char)
    ensures NoSep(SplitOn(s, sep), sep)
  {
    if s != [] {
      SplitNoSep(s[1..], sep);
      var rest := SplitOn(s[1..], sep);
      if s[0] != sep {
        var r := SplitOn(s, sep);
        forall i | 0 <= i < |r| ensures sep !in r[i] {
          if i > 0 {
            assert r[i] == rest[i];
          }
        }
      }
    }
  }

  /** Joining the pieces gives the string back. */
  lemma {:induction false} SplitJoin(s: string, sep: char)
    ensures Join(SplitOn(s, sep), sep) == s
  {
    if s != [] {
      SplitJoin(s[1..], sep);
      var rest := SplitOn(s[1..], sep);
      var r := SplitOn(s, sep);
      if s[0] == sep {
        assert r[1..] == rest;
        assert s == [sep] + s[1..];
      } else if |rest| == 1 {
        assert r == [[s[0]] + rest[0]];
        assert s == [s[0]] + s[1..];
      } else {
        assert r[1..] == rest[1..];
        assert Join(rest, sep) == rest[0] + [sep] + Join(rest[1..], sep);
        assert s == [s[0]] + s[1..];
      }
    }
  }

  /** The other direction: splitting a join of separator-free pieces gives the pieces back. */
  lemma {:induction false} JoinSplit(parts: seq<string>, sep: char)
    requires |parts| >= 1 && NoSep(parts, sep)
    ensures SplitOn(Join(parts, sep), sep) == parts
  {
    if |parts| == 1 {
      SplitPiece(parts[0], [], sep);
    } else {
      JoinSplit(parts[1..], sep);
      SplitPiece(parts[0], Join(parts[1..], sep), sep);
    }
  }

  /** Splitting `piece + sep + rest` (or just `piece`) where `piece` has no separator. */
  lemma {:induction false} SplitPiece(piece: string, rest: string, sep: char)
    requires sep !in piece
    ensures rest == [] ==> SplitOn(piece, sep) == [piece]
    ensures SplitOn(piece + [sep] + rest, sep) == [piece] + SplitOn(rest, sep)
  {
    if piece == [] {
      assert piece + [sep] + rest == [sep] + rest;
      assert ([sep] + rest)[1..] == rest;
    } else {
      SplitPiece(piece[1..], rest, sep);
      assert (piece + [sep] + rest)[1..] == piece[1..] + [sep] + rest;
      assert [piece[0]] + piece[1..] == piece;
    }
  }

  /** `lines.filter(line => line.trim())`: keeps the non-blank lines, in order. */
  function NonBlank(lines: seq<string>): (r: seq<string>)
    ensures |r| <= |lines|
  {
    if lines == [] then []
    else
      var rest := NonBlank(lines[..|lines| - 1]);
      if Trim(lines[|lines| - 1]) != [] then rest + [lines[|lines| - 1]] else rest
  }

  /** The filter keeps only non-blank lines taken from its input. */
  lemma {:induction false} NonBlankSound(lines: seq<string>)
    ensures forall i :: 0 <= i < |NonBlank(lines)| ==> Trim(NonBlank(lines)[i]) != [] && NonBlank(lines)[i] in lines
  {
    if lines != [] {
      NonBlankSound(lines[..|lines| - 1]);
      var init := lines[..|lines| - 1];
      assert forall x :: x in init ==> x in lines;
    }
  }

  /** Every non-blank line survives the filter. */
  lemma {:induction false} NonBlankKeeps(lines: seq<string>, i: nat)
    requires i < |lines| && Trim(lines[i]) != []
    ensures lines[i] in NonBlank(lines)
  {
    if i < |lines| - 1 {
      NonBlankKeeps(lines[..|lines| - 1], i);
    }
  }
}
