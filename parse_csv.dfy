/** The line and separator splitter `parseCSV` and the joiner `makeCSV` of
    Sources/SwiftHBV/helpers/parseCSV.swift. There is no quoting: a cell
    that holds the separator or a newline does not survive a round trip. */
module Csv {

  /** Foundation's `CharacterSet.newlines`: U+000A to U+000D, U+0085,
      U+2028 and U+2029. */
  const Newlines: set<char> := {'\n', '\U{000B}', '\U{000C}', '\r', '\U{0085}', '\U{2028}', '\U{2029}'}

  predicate NoneOf(s: string, chars: set<char>)
  {
    forall i :: 0 <= i < |s| ==> s[i] !in chars
  }

  /** `components(separatedBy:)` with a set of one-character separators:
      the pieces between separators, in order, with empty pieces kept. */
  function Split(s: string, separators: set<char>): (r: seq<string>)
    ensures |r| >= 1
    ensures forall k :: 0 <= k < |r| ==> NoneOf(r[k], separators)
  {
    if |s| == 0 then [""]
    else if s[0] in separators then [""] + Split(s[1..], separators)
    else
      var rest := Split(s[1..], separators);
      [[s[0]] + rest[0]] + rest[1..]
  }

  /** `joined(separator:)`: the pieces with the separator between them;
      no pieces give the empty string. */
  function Join(parts: seq<string>, separator: string): string
  {
    if |parts| == 0 then ""
    else if |parts| == 1 then parts[0]
    else parts[0] + separator + Join(parts[1..], separator)
  }

  /** `sep` occurs in `s` at position `i`. */
  predicate OccursAt(s: string, sep: string, i: nat)
  {
    i + |sep| <= |s| && s[i..i + |sep|] == sep
  }

  /** `components(separatedBy:)` with a string separator: the text is
      scanned from the left, and each occurrence of the separator that
      does not overlap an earlier one ends a piece; empty pieces are kept.
      An empty separator never occurs, so the text is one piece. The first
      piece is a prefix of the text, and no piece contains the separator. */
  function SplitOn(s: string, sep: string): (r: seq<string>)
    ensures |r| >= 1
    ensures |sep| == 0 ==> r == [s]
    ensures r[0] <= s
    ensures |sep| > 0 ==> forall k, i :: 0 <= k < |r| && 0 <= i ==> !OccursAt(r[k], sep, i)
    decreases |s|
  {
    if |sep| == 0 || |s| == 0 then [s]
    else if OccursAt(s, sep, 0) then [""] + SplitOn(s[|sep|..], sep)
    else
      var rest := SplitOn(s[1..], sep);
      PrependKeepsSeparatorOut(s, sep, rest[0]);
      [[s[0]] + rest[0]] + rest[1..]
  }

  /** A character put in front of a separator-free prefix of `s[1..]` does
      not create an occurrence, unless the separator starts `s`. */
  lemma PrependKeepsSeparatorOut(s: string, sep: string, piece: string)
    requires |sep| > 0 && |s| > 0 && !OccursAt(s, sep, 0)
    requires piece <= s[1..]
    requires forall i :: 0 <= i ==> !OccursAt(piece, sep, i)
    ensures forall i :: 0 <= i ==> !OccursAt([s[0]] + piece, sep, i)
  {
    var t := [s[0]] + piece;
    forall i | 0 <= i
      ensures !OccursAt(t, sep, i)
    {
      if i == 0 && OccursAt(t, sep, 0) {
        assert false;
      } else if i > 0 && OccursAt(t, sep, i) {
        OccursInTail(s[0], piece, sep, i);
        assert false;
      }
    }
  }

  /** A two-character separator: "a;;b;;;c" splits into "a", "b" and
      ";c", since the scan takes the first two of the three semicolons. */
  lemma MultiCharacterSeparatorExample()
    ensures SplitOn("a;;b;;;c", ";;") == ["a", "b", ";c"]
  {
    var sep := ";;";
    assert SplitOn("", sep) == [""];
    assert !OccursAt("c", sep, 0);
    SplitOnPeel("c", sep);
    assert "c"[1..] == "" && ["c"[0]] + "" == "c";
    assert SplitOn("c", sep) == ["c"];
    assert ";c"[1] != sep[1];
    SplitOnPeel(";c", sep);
    assert ";c"[1..] == "c" && [";c"[0]] + "c" == ";c";
    assert SplitOn(";c", sep) == [";c"];
    assert ";;;c"[..2] == sep && ";;;c"[2..] == ";c";
    SplitOnAtSeparator(";;;c", sep);
    assert SplitOn(";;;c", sep) == ["", ";c"];
    assert "b;;;c"[0] != sep[0] && "b;;;c"[1..] == ";;;c";
    SplitOnPeel("b;;;c", sep);
    assert ["b;;;c"[0]] + "" == "b";
    assert SplitOn("b;;;c", sep) == ["b", ";c"];
    assert ";;b;;;c"[..2] == sep && ";;b;;;c"[2..] == "b;;;c";
    SplitOnAtSeparator(";;b;;;c", sep);
    assert SplitOn(";;b;;;c", sep) == ["", "b", ";c"];
    assert "a;;b;;;c"[0] != sep[0] && "a;;b;;;c"[1..] == ";;b;;;c";
    SplitOnPeel("a;;b;;;c", sep);
    assert ["a;;b;;;c"[0]] + "" == "a";
  }

  /** An occurrence past the first character is one in the rest. */
  lemma OccursInTail(c: char, piece: string, sep: string, i: nat)
    requires i > 0 && OccursAt([c] + piece, sep, i)
    ensures OccursAt(piece, sep, i - 1)
  {
    assert ([c] + piece)[i..i + |sep|] == piece[i - 1..i - 1 + |sep|];
  }

  /** Splitting on a one-character string is splitting on that character. */
  lemma {:induction false} SplitOnChar(s: string, c: char)
    ensures SplitOn(s, [c]) == Split(s, {c})
    decreases |s|
  {
    if |s| > 0 {
      SplitOnChar(s[1..], c);
      if s[0] == c {
        assert OccursAt(s, [c], 0);
        assert s[|[c]|..] == s[1..];
      } else {
        assert !OccursAt(s, [c], 0);
      }
    }
  }

  /** A text that starts with a separator begins with an empty piece. */
  lemma SplitOnAtSeparator(s: string, sep: string)
    requires |sep| > 0 && OccursAt(s, sep, 0)
    ensures SplitOn(s, sep) == [""] + SplitOn(s[|sep|..], sep)
  {
  }

  /** A text that does not start with a separator puts its first character
      in front of the first piece of the rest. */
  lemma SplitOnPeel(s: string, sep: string)
    requires |sep| > 0 && |s| > 0 && !OccursAt(s, sep, 0)
    ensures SplitOn(s, sep) == [[s[0]] + SplitOn(s[1..], sep)[0]] + SplitOn(s[1..], sep)[1..]
  {
  }

  /** Joining pieces after one more empty piece puts a separator in front. */
  lemma JoinAfterEmpty(rest: seq<string>, sep: string)
    requires |rest| >= 1
    ensures Join([""] + rest, sep) == sep + Join(rest, sep)
  {
    assert ([""] + rest)[1..] == rest;
  }

  /** Joining pieces whose first piece has one more character in front
      puts that character in front of the joined text. */
  lemma JoinAfterPrepend(c: char, rest: seq<string>, sep: string)
    requires |rest| >= 1
    ensures Join([[c] + rest[0]] + rest[1..], sep) == [c] + Join(rest, sep)
  {
    var r := [[c] + rest[0]] + rest[1..];
    if |rest| > 1 {
      assert r[1..] == rest[1..];
    }
  }

  /** Splitting on a separator and joining with it gives the text back, for
      every separator, including the empty one. */
  lemma {:induction false} JoinSplit(s: string, sep: string)
    ensures Join(SplitOn(s, sep), sep) == s
    decreases |s|
  {
    if |sep| > 0 && |s| > 0 {
      if OccursAt(s, sep, 0) {
        JoinSplit(s[|sep|..], sep);
        SplitOnAtSeparator(s, sep);
        JoinAfterEmpty(SplitOn(s[|sep|..], sep), sep);
        assert s == s[..|sep|] + s[|sep|..];
      } else {
        JoinSplit(s[1..], sep);
        SplitOnPeel(s, sep);
        JoinAfterPrepend(s[0], SplitOn(s[1..], sep), sep);
        assert s == [s[0]] + s[1..];
      }
    }
  }

  /** Splitting a text that starts with a separator-free piece followed by
      a separator yields that piece first. */
  lemma {:induction false} SplitAfterPiece(a: string, sep: char, b: string, separators: set<char>)
    requires sep in separators && NoneOf(a, separators)
    ensures Split(a + [sep] + b, separators) == [a] + Split(b, separators)
  {
    if |a| == 0 {
      assert a + [sep] + b == [sep] + b;
      assert ([sep] + b)[1..] == b;
    } else {
      var t := a + [sep] + b;
      assert t[1..] == a[1..] + [sep] + b;
      SplitAfterPiece(a[1..], sep, b, separators);
      assert [a[0]] + a[1..] == a;
    }
  }

  /** Joining separator-free pieces and splitting again gives the pieces
      back. */
  lemma {:induction false} SplitJoin(parts: seq<string>, c: char)
    requires |parts| >= 1
    requires forall k :: 0 <= k < |parts| ==> NoneOf(parts[k], {c})
    ensures Split(Join(parts, [c]), {c}) == parts
  {
    if |parts| == 1 {
      SplitNoSeparator(parts[0], {c});
    } else {
      SplitJoin(parts[1..], c);
      SplitAfterPiece(parts[0], c, Join(parts[1..], [c]), {c});
      assert [parts[0]] + parts[1..] == parts;
    }
  }

  /** A text without separators is one piece. */
  lemma {:induction false} SplitNoSeparator(s: string, separators: set<char>)
    requires NoneOf(s, separators)
    ensures Split(s, separators) == [s]
  {
    if |s| > 0 {
      SplitNoSeparator(s[1..], separators);
      assert [s[0]] + s[1..] == s;
    }
  }

  /** The rows `parseCSV` returns: every newline-separated segment, split
      on the separator. */
  function CsvRows(data: string, separator: string): (r: seq<seq<string>>)
    ensures |r| == |Split(data, Newlines)|
    ensures forall k :: 0 <= k < |r| ==> |r[k]| >= 1
  {
    var lines := Split(data, Newlines);
    seq(|lines|, k requires 0 <= k < |lines| => SplitOn(lines[k], separator))
  }

  /** Nothing of a line is lost: joining each parsed row with the
      separator gives the line it came from. */
  lemma RowsJoinToLines(data: string, separator: string)
    ensures forall k :: 0 <= k < |CsvRows(data, separator)| ==>
      Join(CsvRows(data, separator)[k], separator) == Split(data, Newlines)[k]
  {
    var lines := Split(data, Newlines);
    forall k | 0 <= k < |lines|
      ensures Join(CsvRows(data, separator)[k], separator) == lines[k]
    {
      JoinSplit(lines[k], separator);
    }
  }

  /** `parseCSV(data, seperator:)`: appends each line's columns in turn. */
  method ParseCSV(data: string, separator: string) returns (rows: seq<seq<string>>)
    ensures rows == CsvRows(data, separator)
    ensures |rows| >= 1
  {
    var lines := Split(data, Newlines);
    rows := [];
    for k := 0 to |lines|
      invariant rows == CsvRows(data, separator)[..k]
    {
      var columns := SplitOn(lines[k], separator);
      rows := rows + [columns];
    }
  }

  /** Every row joined by the separator and terminated by a newline, all
      concatenated in order. */
  function Lines(rows: seq<seq<string>>, separator: string): string
  {
    if |rows| == 0 then "" else Join(rows[0], separator) + "\n" + Lines(rows[1..], separator)
  }

  /** Appending one more row adds its line at the end. */
  lemma {:induction false} LinesAppend(rows: seq<seq<string>>, row: seq<string>, separator: string)
    ensures Lines(rows + [row], separator) == Lines(rows, separator) + Join(row, separator) + "\n"
  {
    if |rows| == 0 {
      assert rows + [row] == [row];
      assert ([row])[1..] == [];
    } else {
      assert (rows + [row])[1..] == rows[1..] + [row];
      LinesAppend(rows[1..], row, separator);
    }
  }

  /** The text `makeCSV` builds: a header line when there are headers, then
      one line per row. */
  function CsvText(rows: seq<seq<string>>, headers: seq<string>, separator: string): string
  {
    (if |headers| > 0 then Join(headers, separator) + "\n" else "") + Lines(rows, separator)
  }

  /** `makeCSV(arrayOfStringArrays:headers:separator:)`: starts with the
      header line if any, then appends each row's line. */
  method MakeCSV(rows: seq<seq<string>>, headers: seq<string>, separator: string) returns (s: string)
    ensures s == CsvText(rows, headers, separator)
    ensures |headers| == 0 && |rows| == 0 ==> s == ""
  {
    s := "";
    if |headers| > 0 {
      s := s + Join(headers, separator) + "\n";
    }
    ghost var head := s;
    for k := 0 to |rows|
      invariant s == head + Lines(rows[..k], separator)
    {
      LinesAppend(rows[..k], rows[k], separator);
      assert rows[..k + 1] == rows[..k] + [rows[k]];
      s := s + Join(rows[k], separator) + "\n";
    }
    assert rows[..|rows|] == rows;
  }

  /** Cells free of the separator and of newlines, and a separator that is
      not a newline itself. */
  predicate PlainCells(rows: seq<seq<string>>, c: char)
  {
    c !in Newlines &&
    forall k, j :: 0 <= k < |rows| && 0 <= j < |rows[k]| ==>
      NoneOf(rows[k][j], {c}) && NoneOf(rows[k][j], Newlines)
  }

  /** A joined row of plain cells contains no newline. */
  lemma {:induction false} JoinHasNoNewline(parts: seq<string>, c: char)
    requires c !in Newlines
    requires forall j :: 0 <= j < |parts| ==> NoneOf(parts[j], Newlines)
    ensures NoneOf(Join(parts, [c]), Newlines)
  {
    if |parts| > 1 {
      JoinHasNoNewline(parts[1..], c);
    }
  }

  /** Splitting the row lines at newlines gives the joined rows and one
      empty trailing segment. */
  lemma {:induction false} SplitLines(rows: seq<seq<string>>, c: char)
    requires PlainCells(rows, c)
    ensures Split(Lines(rows, [c]), Newlines) ==
            seq(|rows|, k requires 0 <= k < |rows| => Join(rows[k], [c])) + [""]
  {
    if |rows| > 0 {
      assert PlainCells(rows[1..], c);
      SplitLines(rows[1..], c);
      JoinHasNoNewline(rows[0], c);
      SplitAfterPiece(Join(rows[0], [c]), '\n', Lines(rows[1..], [c]), Newlines);
      assert "\n" == ['\n'];
    }
  }

  /** Round trip: with no headers, rows that each have at least one cell
      and cells free of the separator and of newlines, `parseCSV` of
      `makeCSV` gives the rows back followed by one row holding a single
      empty cell, the segment after the final newline. */
  lemma RoundTrip(rows: seq<seq<string>>, c: char)
    requires forall k :: 0 <= k < |rows| ==> |rows[k]| >= 1
    requires PlainCells(rows, c)
    ensures CsvRows(CsvText(rows, [], [c]), [c]) == rows + [[""]]
  {
    SplitLines(rows, c);
    var lines := Split(Lines(rows, [c]), Newlines);
    var r := CsvRows(CsvText(rows, [], [c]), [c]);
    assert CsvText(rows, [], [c]) == Lines(rows, [c]);
    forall k | 0 <= k < |rows|
      ensures r[k] == rows[k]
    {
      SplitJoin(rows[k], c);
      SplitOnChar(Join(rows[k], [c]), c);
    }
    assert r[|rows|] == SplitOn("", [c]) == [""];
  }

  /** Splitting the empty text gives one empty row, and making a CSV of no
      rows and no headers gives the empty text. */
  lemma EmptyText(separator: string)
    ensures CsvRows("", separator) == [[""]]
    ensures CsvText([], [], separator) == ""
  {
  }
}
