/**
 * The configured date is a string "month/day/year". The bot splits it on
 * every '/' (Python's `str.split('/')`, which keeps empty pieces) and unpacks
 * the pieces into exactly three names; any other number of pieces raises.
 */
module DateSplit {
  import opened Wrappers

  const Separator: char := '/'

  /** Python's `s.split('/')`: the maximal '/'-free pieces, empty ones included. */
  function Split(s: string): (parts: seq<string>)
    ensures |parts| >= 1
    ensures forall i :: 0 <= i < |parts| ==> Separator !in parts[i]
    decreases |s|
  {
    if |s| == 0 then [""]
    else
      var rest := Split(s[1..]);
      if s[0] == Separator then [""] + rest
      else [[s[0]] + rest[0]] + rest[1..]
  }

  /** Python's `'/'.join(parts)`. */
  function Join(parts: seq<string>): string
  {
    if |parts| == 0 then ""
    else if |parts| == 1 then parts[0]
    else parts[0] + [Separator] + Join(parts[1..])
  }

  /** How many times `c` occurs in `s`. */
  function Occurrences(s: string, c: char): nat
  {
    if |s| == 0 then 0
    else (if s[0] == c then 1 else 0) + Occurrences(s[1..], c)
  }

  /** The three names bound by `month, day, year = date.split('/')`. */
  datatype DateParts = DateParts(month: string, day: string, year: string)

  /** None when the unpacking into three names would raise. */
  function ParseDate(date: string): (r: Option<DateParts>)
    ensures r.Some? <==> |Split(date)| == 3
    ensures r.Some? ==> Split(date) == [r.value.month, r.value.day, r.value.year]
  {
    var parts := Split(date);
    if |parts| == 3 then Some(DateParts(parts[0], parts[1], parts[2])) else None
  }

  function FormatDate(d: DateParts): string
  {
    d.month + [Separator] + d.day + [Separator] + d.year
  }

  /** Joining the pieces with '/' gives back the string that was split. */
  lemma {:induction false} JoinSplit(s: string)
    ensures Join(Split(s)) == s
    decreases |s|
  {
    if |s| > 0 {
      JoinSplit(s[1..]);
      var rest := Split(s[1..]);
      if s[0] == Separator {
        assert Split(s)[1..] == rest;
      } else {
        var parts := Split(s);
        assert parts[0] == [s[0]] + rest[0];
        if |rest| == 1 {
          assert Join(parts) == [s[0]] + rest[0];
        } else {
          assert parts[1..] == rest[1..];
          assert Join(rest) == rest[0] + [Separator] + Join(rest[1..]);
        }
      }
    }
  }

  /** Splitting a '/'-join of '/'-free pieces gives back the pieces. */
  lemma {:induction false} SplitJoin(parts: seq<string>)
    requires |parts| >= 1
    requires forall i :: 0 <= i < |parts| ==> Separator !in parts[i]
    ensures Split(Join(parts)) == parts
    decreases |parts|, |parts[0]|
  {
    if |parts| == 1 {
      SplitFree(parts[0]);
    } else if |parts[0]| == 0 {
      var tail := parts[1..];
      SplitJoin(tail);
      assert Join(parts) == [Separator] + Join(tail);
      assert Join(parts)[1..] == Join(tail);
    } else {
      var p := parts[0];
      var shorter := [p[1..]] + parts[1..];
      assert Separator !in p[1..] by {
        forall k | 0 <= k < |p[1..]| ensures p[1..][k] != Separator {
          assert p[1..][k] == p[k + 1];
        }
      }
      assert forall i :: 0 <= i < |shorter| ==> Separator !in shorter[i] by {
        forall i | 0 <= i < |shorter| ensures Separator !in shorter[i] {
          if i > 0 { assert shorter[i] == parts[i]; }
        }
      }
      SplitJoin(shorter);
      JoinHead(parts);
      assert p[0] != Separator by { assert p[0] == parts[0][0]; }
      SplitCons(p[0], Join(shorter));
      assert [p[0]] + p[1..] == p;
      assert parts == [p] + shorter[1..];
    }
  }

  /** Joining pieces whose first one is non-empty starts with that piece's first character. */
  lemma JoinHead(parts: seq<string>)
    requires |parts| >= 1 && |parts[0]| > 0
    ensures Join(parts) == [parts[0][0]] + Join([parts[0][1..]] + parts[1..])
  {
    var p, shorter := parts[0], [parts[0][1..]] + parts[1..];
    assert shorter[0] == p[1..] && shorter[1..] == parts[1..];
    assert p == [p[0]] + p[1..];
  }

  /** A character other than '/' joins the first piece of the split. */
  lemma SplitCons(c: char, s: string)
    requires c != Separator
    ensures Split([c] + s) == [[c] + Split(s)[0]] + Split(s)[1..]
  {
    assert ([c] + s)[1..] == s;
  }

  /** A '/'-free string splits into itself alone. */
  lemma {:induction false} SplitFree(s: string)
    requires Separator !in s
    ensures Split(s) == [s]
    decreases |s|
  {
    if |s| > 0 {
      assert Separator !in s[1..] by {
        forall k | 0 <= k < |s[1..]| ensures s[1..][k] != Separator {
          assert s[1..][k] == s[k + 1];
        }
      }
      SplitFree(s[1..]);
      assert [s[0]] + s[1..] == s;
    }
  }

  /** There is exactly one more piece than there are separators. */
  lemma {:induction false} SplitCount(s: string)
    ensures |Split(s)| == Occurrences(s, Separator) + 1
    decreases |s|
  {
    if |s| > 0 {
      SplitCount(s[1..]);
    }
  }

  /** The unpacking succeeds exactly when the date holds exactly two '/'. */
  lemma ParseDateSucceeds(date: string)
    ensures ParseDate(date).Some? <==> Occurrences(date, Separator) == 2
  {
    SplitCount(date);
  }

  /**
   * A successful unpacking yields three '/'-free parts, in order, that put
   * back together with '/' give the configured date.
   */
  lemma ParseDateRoundTrip(date: string)
    requires ParseDate(date).Some?
    ensures var d := ParseDate(date).value;
      FormatDate(d) == date &&
      Separator !in d.month && Separator !in d.day && Separator !in d.year
  {
    var parts := Split(date);
    JoinSplit(date);
    JoinThree(parts[0], parts[1], parts[2]);
    assert parts == [parts[0], parts[1], parts[2]];
  }

  /** Formatting '/'-free parts and unpacking again gives the same parts. */
  lemma FormatParse(d: DateParts)
    requires Separator !in d.month && Separator !in d.day && Separator !in d.year
    ensures ParseDate(FormatDate(d)) == Some(d)
  {
    var parts := [d.month, d.day, d.year];
    JoinThree(d.month, d.day, d.year);
    SplitJoin(parts);
  }

  lemma JoinThree(a: string, b: string, c: string)
    ensures Join([a, b, c]) == FormatDate(DateParts(a, b, c))
  {
    assert [a, b, c][1..] == [b, c];
    assert [b, c][1..] == [c];
    calc {
      Join([a, b, c]);
      a + [Separator] + Join([b, c]);
      a + [Separator] + (b + [Separator] + c);
      a + [Separator] + b + [Separator] + c;
    }
  }
}
