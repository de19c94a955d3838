/**
 * The JavaScript string operations the core relies on, on `seq<char>`:
 * ASCII case mapping, a case-insensitive substring test (the `RegExp(city, 'i')`
 * match), `split` on one separator character and its inverse `join`, and the
 * subset of `Number(...)` conversion that the forms and the query string use.
 */
module Text {
  import opened Common

  function LowerChar(c: char): char
  {
    if 'A' <= c <= 'Z' then (c as int + 32) as char else c
  }

  function UpperChar(c: char): char
  {
    if 'a' <= c <= 'z' then (c as int - 32) as char else c
  }

  function Lower(s: string): string
  {
    seq(|s|, i requires 0 <= i < |s| => LowerChar(s[i]))
  }

  function Upper(s: string): string
  {
    seq(|s|, i requires 0 <= i < |s| => UpperChar(s[i]))
  }

  /** `needle` occurs in `hay` at offset `i`, ignoring ASCII case. */
  predicate MatchesAt(hay: string, needle: string, i: nat)
  {
    i + |needle| <= |hay| && Lower(hay[i..i + |needle|]) == Lower(needle)
  }

  /** `new RegExp(needle, 'i').test(hay)` for a needle without metacharacters. */
  function ContainsCI(hay: string, needle: string): bool
    decreases |hay|
  {
    if |needle| > |hay| then false
    else if Lower(hay[..|needle|]) == Lower(needle) then true
    else ContainsCI(hay[1..], needle)
  }

  lemma MatchesAtShift(hay: string, needle: string, i: nat)
    requires |hay| > 0
    ensures MatchesAt(hay, needle, i + 1) <==> MatchesAt(hay[1..], needle, i)
  {
    if i + 1 + |needle| <= |hay| {
      assert hay[1..][i..i + |needle|] == hay[i + 1..i + 1 + |needle|];
    }
  }

  /** The search finds a match exactly when one exists at some offset. */
  lemma {:induction false} ContainsCIMeaning(hay: string, needle: string)
    ensures ContainsCI(hay, needle) <==> exists i: nat :: MatchesAt(hay, needle, i)
    decreases |hay|
  {
    if |needle| > |hay| {
      assert forall i: nat :: !MatchesAt(hay, needle, i);
    } else if Lower(hay[..|needle|]) == Lower(needle) {
      assert hay[0..0 + |needle|] == hay[..|needle|];
      assert MatchesAt(hay, needle, 0);
    } else {
      ContainsCIMeaning(hay[1..], needle);
      if exists i: nat :: MatchesAt(hay, needle, i) {
        var i: nat :| MatchesAt(hay, needle, i);
        assert hay[0..0 + |needle|] == hay[..|needle|];
        assert i != 0;
        MatchesAtShift(hay, needle, i - 1);
      }
      if exists i: nat :: MatchesAt(hay[1..], needle, i) {
        var i: nat :| MatchesAt(hay[1..], needle, i);
        MatchesAtShift(hay, needle, i);
      }
    }
  }

  /** `s.split(sep)` for a one-character separator: never empty, keeps empty pieces. */
  function Split(s: string, sep: char): (parts: seq<string>)
    ensures |parts| >= 1
    decreases |s|
  {
    if s == [] then [""]
    else
      var rest := Split(s[1..], sep);
      if s[0] == sep then [""] + rest
      else [[s[0]] + rest[0]] + rest[1..]
  }

  /** `parts.join(sep)`. */
  function Join(parts: seq<string>, sep: char): string
    requires |parts| >= 1
  {
    if |parts| == 1 then parts[0] else parts[0] + [sep] + Join(parts[1..], sep)
  }

  /** Joining the pieces with the separator gives back the original string. */
  lemma {:induction false} JoinSplit(s: string, sep: char)
    ensures Join(Split(s, sep), sep) == s
    decreases |s|
  {
    if s != [] {
      var rest := Split(s[1..], sep);
      JoinSplit(s[1..], sep);
      if s[0] == sep {
        assert Split(s, sep) == [""] + rest;
        assert ([""] + rest)[1..] == rest;
      } else {
        var parts := [[s[0]] + rest[0]] + rest[1..];
        assert Split(s, sep) == parts;
        if |rest| == 1 {
          assert Join(rest, sep) == rest[0];
        } else {
          assert Join(rest, sep) == rest[0] + [sep] + Join(rest[1..], sep);
          assert parts[1..] == rest[1..];
        }
      }
    }
  }

  /** No piece contains the separator. */
  lemma {:induction false} SplitPiecesFree(s: string, sep: char)
    ensures forall k :: 0 <= k < |Split(s, sep)| ==> sep !in Split(s, sep)[k]
    decreases |s|
  {
    if s != [] {
      SplitPiecesFree(s[1..], sep);
    }
  }

  /** Splitting a separator-free prefix glued to a rest extends the rest's first piece. */
  lemma {:induction false} SplitGlued(a: string, rest: string, sep: char)
    requires sep !in a
    ensures Split(a + rest, sep) == [a + Split(rest, sep)[0]] + Split(rest, sep)[1..]
    decreases |a|
  {
    if a != [] {
      var s := a + rest;
      assert s[0] == a[0] && s[0] != sep;
      assert s[1..] == a[1..] + rest;
      SplitGlued(a[1..], rest, sep);
      var r := Split(a[1..] + rest, sep);
      assert Split(s, sep) == [[a[0]] + r[0]] + r[1..];
      assert r[0] == a[1..] + Split(rest, sep)[0];
      assert r[1..] == Split(rest, sep)[1..];
      assert [a[0]] + (a[1..] + Split(rest, sep)[0]) == a + Split(rest, sep)[0];
      assert [a[0]] + r[0] == a + Split(rest, sep)[0];
    } else {
      assert a + rest == rest;
      assert a + Split(rest, sep)[0] == Split(rest, sep)[0];
    }
  }

  /** Splitting the join of separator-free pieces gives the pieces back. */
  lemma {:induction false} SplitJoin(parts: seq<string>, sep: char)
    requires |parts| >= 1
    requires forall k :: 0 <= k < |parts| ==> sep !in parts[k]
    ensures Split(Join(parts, sep), sep) == parts
    decreases |parts|
  {
    if |parts| == 1 {
      SplitGlued(parts[0], "", sep);
      assert parts[0] + "" == parts[0];
      assert Split("", sep) == [""];
      assert Join(parts, sep) == parts[0];
    } else {
      var tail := Join(parts[1..], sep);
      SplitJoin(parts[1..], sep);
      assert parts[0] + [sep] + tail == parts[0] + ([sep] + tail);
      SplitGlued(parts[0], [sep] + tail, sep);
      assert ([sep] + tail)[1..] == tail;
      assert Split([sep] + tail, sep) == [""] + parts[1..];
      assert parts[0] + "" == parts[0];
      assert parts == [parts[0]] + parts[1..];
    }
  }

  /** A separator-free piece, then the separator: the piece is the first part and the rest splits on its own. */
  lemma SplitAtSeparator(a: string, rest: string, sep: char)
    requires sep !in a
    ensures Split(a + [sep] + rest, sep) == [a] + Split(rest, sep)
  {
    var tail := [sep] + rest;
    assert a + [sep] + rest == a + tail;
    SplitGlued(a, tail, sep);
    assert tail[1..] == rest;
    assert Split(tail, sep) == [""] + Split(rest, sep);
    assert a + "" == a;
  }

  /** A separator-free string is one piece. */
  lemma SplitWhole(a: string, sep: char)
    requires sep !in a
    ensures Split(a, sep) == [a]
  {
    SplitGlued(a, "", sep);
    assert a + "" == a;
  }

  /** `s.split(" ")[0]`: the text before the first space. */
  function FirstWord(s: string): string
  {
    Split(s, ' ')[0]
  }

  lemma FirstWordMeaning(s: string)
    ensures ' ' !in FirstWord(s)
    ensures |FirstWord(s)| <= |s| && s[..|FirstWord(s)|] == FirstWord(s)
    ensures |FirstWord(s)| < |s| ==> s[|FirstWord(s)|] == ' '
  {
    var parts := Split(s, ' ');
    JoinSplit(s, ' ');
    SplitPiecesFree(s, ' ');
    if |parts| > 1 {
      assert s == parts[0] + [' '] + Join(parts[1..], ' ');
    }
  }

  predicate IsDigit(c: char)
  {
    '0' <= c <= '9'
  }

  predicate AllDigits(s: string)
  {
    forall i :: 0 <= i < |s| ==> IsDigit(s[i])
  }

  function DigitsValue(s: string): nat
    requires AllDigits(s)
  {
    if s == [] then 0 else DigitsValue(s[..|s| - 1]) * 10 + (s[|s| - 1] as int - '0' as int)
  }

  /**
   * `Number(s)` for the strings the model admits: "" is 0, an optional sign
   * followed by decimal digits is that integer, anything else is NaN (None).
   */
  function JsNumber(s: string): Option<int>
  {
    if s == "" then Some(0)
    else if |s| > 1 && s[0] == '-' && AllDigits(s[1..]) then Some(0 - DigitsValue(s[1..]))
    else if |s| > 1 && s[0] == '+' && AllDigits(s[1..]) then Some(DigitsValue(s[1..]))
    else if AllDigits(s) then Some(DigitsValue(s))
    else None
  }

  /** `String(n)` for a natural number. */
  function DecimalString(n: nat): (s: string)
    ensures |s| >= 1 && AllDigits(s)
  {
    var d := [(('0' as int) + n % 10) as char];
    if n < 10 then d else DecimalString(n / 10) + d
  }

  lemma {:induction false} DigitsOfDecimal(n: nat)
    ensures DigitsValue(DecimalString(n)) == n
  {
    var s := DecimalString(n);
    if n >= 10 {
      DigitsOfDecimal(n / 10);
      assert s[..|s| - 1] == DecimalString(n / 10);
    }
  }

  /** `Number(String(n)) === n`: the conversion reads back what printing wrote. */
  lemma JsNumberOfDecimal(n: nat)
    ensures JsNumber(DecimalString(n)) == Some(n)
  {
    DigitsOfDecimal(n);
    var s := DecimalString(n);
    assert IsDigit(s[0]);
  }

  /**
   * The cast of a path or body parameter to a record id: ids are written as
   * decimal numerals here, and any other text is a cast error (None).
   */
  function ParseId(s: string): (r: Option<Id>)
    ensures r.Some? <==> s != "" && AllDigits(s)
  {
    if s != "" && AllDigits(s) then Some(DigitsValue(s)) else None
  }

  /** Every id, written out, casts back to itself. */
  lemma ParseIdOfDecimal(n: Id)
    ensures ParseId(DecimalString(n)) == Some(n)
  {
    DigitsOfDecimal(n);
  }
}
