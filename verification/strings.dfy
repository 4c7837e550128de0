/**
 * The JavaScript string operations the project list relies on, over
 * `seq<char>`: `split` on a one-character separator, `join`, and the
 * upper-casing of a first character, restricted to ASCII letters.
 */
module Strings {

  /** `toUpperCase` on one character, for ASCII: `a`..`z` become `A`..`Z`, everything else is kept. */
  function UpperAscii(c: char): (r: char)
    ensures 'a' <= c <= 'z' ==> 'A' <= r <= 'Z' && r as int == c as int - 32
    ensures !('a' <= c <= 'z') ==> r == c
  {
    if 'a' <= c <= 'z' then (c as int - 32) as char else c
  }

  /**
   * `s.split(sep)`: the maximal runs of characters between separators, in
   * order. There is always at least one piece; the empty string splits into
   * one empty piece.
   */
  function Split(s: string, sep: char): (r: seq<string>)
    ensures |r| >= 1
    ensures forall w :: w in r ==> sep !in w
  {
    if |s| == 0 then [""]
    else
      var rest := Split(s[1..], sep);
      if s[0] == sep then [""] + rest
      else [[s[0]] + rest[0]] + rest[1..]
  }

  /** The combined length of the pieces. */
  function TotalLength(ws: seq<string>): nat {
    if |ws| == 0 then 0 else |ws[0]| + TotalLength(ws[1..])
  }

  /** `ws.join(sep)`: the pieces with `sep` between each adjacent pair. */
  function Join(ws: seq<string>, sep: string): (r: string)
    ensures |ws| > 0 ==> |r| == TotalLength(ws) + (|ws| - 1) * |sep|
    ensures |ws| > 0 ==> r[..|ws[0]|] == ws[0]
  {
    if |ws| == 0 then ""
    else if |ws| == 1 then ws[0]
    else ws[0] + sep + Join(ws[1..], sep)
  }

  /** `w.charAt(0).toUpperCase() + w.slice(1)`. */
  function Capitalize(w: string): (r: string)
    ensures |r| == |w|
  {
    if |w| == 0 then w else [UpperAscii(w[0])] + w[1..]
  }

  /** `ws.map(Capitalize)`. */
  function CapitalizeAll(ws: seq<string>): (r: seq<string>)
    ensures |r| == |ws|
    ensures forall i :: 0 <= i < |ws| ==> r[i] == Capitalize(ws[i])
  {
    if |ws| == 0 then [] else [Capitalize(ws[0])] + CapitalizeAll(ws[1..])
  }

  /** Joining the pieces of a split with the same separator gives back the original string. */
  lemma {:induction false} JoinSplit(s: string, sep: char)
    ensures Join(Split(s, sep), [sep]) == s
  {
    if |s| > 0 {
      var rest := Split(s[1..], sep);
      JoinSplit(s[1..], sep);
      if s[0] == sep {
        assert Split(s, sep) == [""] + rest;
        assert ([""] + rest)[1..] == rest;
      } else {
        var ws := Split(s, sep);
        assert ws == [[s[0]] + rest[0]] + rest[1..];
        if |rest| == 1 {
          assert Join(ws, [sep]) == [s[0]] + rest[0];
        } else {
          assert ws[1..] == rest[1..];
          assert Join(ws, [sep]) == [s[0]] + (rest[0] + [sep] + Join(rest[1..], [sep]));
        }
        assert s == [s[0]] + s[1..];
      }
    }
  }

  /** Splitting a join of separator-free pieces gives back the pieces. */
  lemma {:induction false} SplitJoin(ws: seq<string>, sep: char)
    requires |ws| >= 1
    requires forall w :: w in ws ==> sep !in w
    ensures Split(Join(ws, [sep]), sep) == ws
  {
    if |ws| == 1 {
      SplitWord(ws[0], sep);
    } else {
      var tail := Join(ws[1..], [sep]);
      assert forall w :: w in ws[1..] ==> w in ws;
      SplitJoin(ws[1..], sep);
      SplitWordThen(ws[0], sep, [sep] + tail);
      assert Join(ws, [sep]) == ws[0] + ([sep] + tail);
      assert ([sep] + tail)[1..] == tail;
      assert Split([sep] + tail, sep) == [""] + ws[1..];
      assert ws[0] + "" == ws[0];
      assert [ws[0]] + ws[1..] == ws;
    }
  }

  /** A separator-free word splits into itself. */
  lemma {:induction false} SplitWord(w: string, sep: char)
    requires sep !in w
    ensures Split(w, sep) == [w]
  {
    if |w| > 0 {
      SplitWord(w[1..], sep);
      assert [w[0]] + w[1..] == w;
    }
  }

  /** Prefixing a separator-free word glues it onto the first piece. */
  lemma {:induction false} SplitWordThen(w: string, sep: char, rest: string)
    requires sep !in w
    requires |rest| > 0 && rest[0] == sep
    ensures var r := Split(rest, sep); Split(w + rest, sep) == [w + r[0]] + r[1..]
  {
    if |w| > 0 {
      SplitWordThen(w[1..], sep, rest);
      assert (w + rest)[1..] == w[1..] + rest;
      assert (w + rest)[0] == w[0];
      assert [w[0]] + (w[1..] + Split(rest, sep)[0]) == w + Split(rest, sep)[0];
    } else {
      var r := Split(rest, sep);
      assert w + rest == rest;
      assert w + r[0] == r[0];
      assert [r[0]] + r[1..] == r;
    }
  }
}
