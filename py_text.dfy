/**
 The few Python built-ins on strings and lists that app.py relies on, with
 Python's own semantics written out: `str.lstrip(chars)`, `str.rstrip`,
 `str.strip()`, `str.split(sep)` for a one-character separator, `sep.join(parts)`
 and the slice `xs[:n]`.
 */
module PyText {

  /** Python's whitespace characters, listed one by one: the ASCII controls
      tab to carriage return and file to unit separator, the space, next line,
      no-break space, Ogham space mark, the typographic spaces en quad to hair
      space, line and paragraph separators, the narrow no-break space, the
      medium mathematical space and the ideographic space. */
  const PythonWhitespace: string :=
    "\t\n\U{0B}\U{0C}\r\U{1C}\U{1D}\U{1E}\U{1F} \U{85}\U{A0}\U{1680}"
    + "\U{2000}\U{2001}\U{2002}\U{2003}\U{2004}\U{2005}\U{2006}\U{2007}\U{2008}\U{2009}\U{200A}"
    + "\U{2028}\U{2029}\U{202F}\U{205F}\U{3000}"

  /** The characters for which Python's `str.isspace()` holds; `str.strip()`
      without an argument removes exactly these. */
  predicate IsSpace(c: char) {
    || '\t' <= c <= '\r'              // tab, line feed, vertical tab, form feed, carriage return
    || '\U{1C}' <= c <= '\U{1F}'      // file, group, record and unit separators
    || c == ' ' || c == '\U{85}' || c == '\U{A0}' || c == '\U{1680}'
    || '\U{2000}' <= c <= '\U{200A}'  // the typographic spaces
    || c == '\U{2028}' || c == '\U{2029}' || c == '\U{202F}' || c == '\U{205F}' || c == '\U{3000}'
  }

  /** The ranges above are exactly Python's whitespace characters. */
  lemma IsSpaceIsPythonWhitespace(c: char)
    ensures IsSpace(c) <==> c in PythonWhitespace
  {
  }

  /** `s.lstrip(chars)`, where `strip` tells which characters are in `chars`. */
  function LStrip(s: string, strip: char -> bool): (r: string)
    ensures |r| <= |s|
    decreases |s|
  {
    if |s| > 0 && strip(s[0]) then LStrip(s[1..], strip) else s
  }

  /** `s.rstrip(chars)`, where `strip` tells which characters are in `chars`. */
  function RStrip(s: string, strip: char -> bool): (r: string)
    ensures |r| <= |s|
    decreases |s|
  {
    if |s| > 0 && strip(s[|s| - 1]) then RStrip(s[..|s| - 1], strip) else s
  }

  /** `lstrip` keeps the longest suffix that does not start with a character
      to strip: everything before it is stripped. */
  lemma {:induction false} LStripIsLongestSuffix(s: string, strip: char -> bool)
    ensures var r := LStrip(s, strip);
            && r == s[|s| - |r|..]
            && (forall i :: 0 <= i < |s| - |r| ==> strip(s[i]))
            && (r != [] ==> !strip(r[0]))
    decreases |s|
  {
    if |s| > 0 && strip(s[0]) {
      LStripIsLongestSuffix(s[1..], strip);
      var r := LStrip(s, strip);
      forall i | 1 <= i < |s| - |r| ensures strip(s[i]) {
        assert s[i] == s[1..][i - 1];
      }
    }
  }

  /** `rstrip` keeps the longest prefix that does not end with a character
      to strip: everything after it is stripped. */
  lemma {:induction false} RStripIsLongestPrefix(s: string, strip: char -> bool)
    ensures var r := RStrip(s, strip);
            && r == s[..|r|]
            && (forall i :: |r| <= i < |s| ==> strip(s[i]))
            && (r != [] ==> !strip(r[|r| - 1]))
    decreases |s|
  {
    if |s| > 0 && strip(s[|s| - 1]) {
      RStripIsLongestPrefix(s[..|s| - 1], strip);
    }
  }

  /** A prefix made only of characters to strip makes no difference. */
  lemma {:induction false} LStripSkipsPrefix(prefix: string, rest: string, strip: char -> bool)
    requires forall i :: 0 <= i < |prefix| ==> strip(prefix[i])
    ensures LStrip(prefix + rest, strip) == LStrip(rest, strip)
    decreases |prefix|
  {
    if prefix != [] {
      assert (prefix + rest)[0] == prefix[0];
      assert (prefix + rest)[1..] == prefix[1..] + rest;
      assert forall i :: 0 <= i < |prefix| - 1 ==> prefix[1..][i] == prefix[i + 1];
      LStripSkipsPrefix(prefix[1..], rest, strip);
    } else {
      assert prefix + rest == rest;
    }
  }

  /** No leading and no trailing whitespace. */
  predicate IsStripped(s: string) {
    s == [] || (!IsSpace(s[0]) && !IsSpace(s[|s| - 1]))
  }

  predicate AllWhitespace(s: string) {
    forall i :: 0 <= i < |s| ==> IsSpace(s[i])
  }

  /** `s.strip()`: the string left after removing leading and trailing
      whitespace. It is empty exactly when `s` is all whitespace, and it
      leaves an already stripped string alone. */
  function Strip(s: string): (r: string)
    ensures IsStripped(r)
    ensures |r| <= |s|
    ensures r == [] <==> AllWhitespace(s)
    ensures IsStripped(s) ==> r == s
  {
    var left := LStrip(s, IsSpace);
    LStripIsLongestSuffix(s, IsSpace);
    RStripIsLongestPrefix(left, IsSpace);
    var r := RStrip(left, IsSpace);
    assert r != [] ==> r[0] == left[0];
    assert r == [] ==> left == [];
    r
  }

  /** Leading whitespace in front of a stripped string is all that `strip`
      removes. */
  lemma StripSkipsLeadingSpace(space: string, text: string)
    requires AllWhitespace(space)
    requires IsStripped(text)
    ensures Strip(space + text) == text
  {
    LStripSkipsPrefix(space, text, IsSpace);
  }

  /** Once a character survives `lstrip`, whatever follows is kept whole. */
  lemma {:induction false} LStripAppend(s: string, rest: string, strip: char -> bool)
    requires LStrip(s, strip) != []
    ensures LStrip(s + rest, strip) == LStrip(s, strip) + rest
    decreases |s|
  {
    assert s != [];
    assert (s + rest)[0] == s[0];
    if strip(s[0]) {
      assert (s + rest)[1..] == s[1..] + rest;
      LStripAppend(s[1..], rest, strip);
    }
  }

  /** A whitespace character in front makes no difference to `strip`. */
  lemma StripConsSpace(c: char, s: string)
    requires IsSpace(c)
    ensures Strip([c] + s) == Strip(s)
  {
    LStripSkipsPrefix([c], s, IsSpace);
  }

  /** A whitespace character at the end makes no difference to `strip`. */
  lemma StripSnocSpace(s: string, c: char)
    requires IsSpace(c)
    ensures Strip(s + [c]) == Strip(s)
  {
    var left := LStrip(s, IsSpace);
    LStripIsLongestSuffix(s, IsSpace);
    if left == [] {
      LStripSkipsPrefix(s, [c], IsSpace);
      assert LStrip([c], IsSpace) == LStrip([c][1..], IsSpace);
    } else {
      LStripAppend(s, [c], IsSpace);
      assert (left + [c])[..|left|] == left;
    }
  }

  /** `s.split(sep)` for a single-character separator: the pieces between
      the occurrences of `sep`, none of them containing `sep`. */
  function Split(s: string, sep: char): (r: seq<string>)
    ensures |r| > 0
    ensures forall i :: 0 <= i < |r| ==> sep !in r[i]
    decreases |s|
  {
    if s == [] then [[]]
    else
      var rest := Split(s[1..], sep);
      if s[0] == sep then [[]] + rest
      else [[s[0]] + rest[0]] + rest[1..]
  }

  /** There is one more piece than there are separators. */
  lemma {:induction false} SplitCount(s: string, sep: char)
    ensures |Split(s, sep)| == multiset(s)[sep] + 1
    decreases |s|
  {
    if s != [] {
      SplitCount(s[1..], sep);
      assert s == [s[0]] + s[1..];
    }
  }

  /** `sep.join(parts)`: the parts, left to right, with `sep` between each
      neighbouring pair. */
  function Join(parts: seq<string>, sep: string): (r: string)
    ensures |parts| > 0 ==> parts[0] <= r
    decreases |parts|
  {
    if |parts| == 0 then []
    else if |parts| == 1 then parts[0]
    else parts[0] + sep + Join(parts[1..], sep)
  }

  /** `xs[:n]`: the first `n` elements, or all of them when there are fewer. */
  function Take<T>(xs: seq<T>, n: nat): (r: seq<T>)
    ensures |r| == if |xs| < n then |xs| else n
    ensures forall i :: 0 <= i < |r| ==> r[i] == xs[i]
  {
    if |xs| <= n then xs else xs[..n]
  }

  /** Joining extends to the right one part at a time: Python's join builds
      its result left to right. */
  lemma {:induction false} JoinAppend(parts: seq<string>, last: string, sep: string)
    requires |parts| > 0
    ensures Join(parts + [last], sep) == Join(parts, sep) + sep + last
    decreases |parts|
  {
    if |parts| > 1 {
      assert (parts + [last])[1..] == parts[1..] + [last];
      JoinAppend(parts[1..], last, sep);
    }
  }

  /** The joined string ends with the last part. */
  lemma {:induction false} JoinEndsWithLast(parts: seq<string>, sep: string)
    requires |parts| > 0
    ensures var r := Join(parts, sep);
            var last := parts[|parts| - 1];
            |last| <= |r| && r[|r| - |last|..] == last
    decreases |parts|
  {
    if |parts| > 1 {
      JoinEndsWithLast(parts[1..], sep);
    }
  }

  /** Prepending to the first part prepends to the joined string. */
  lemma {:induction false} JoinPrependToFirst(prefix: string, parts: seq<string>, sep: string)
    requires |parts| > 0
    ensures Join([prefix + parts[0]] + parts[1..], sep) == prefix + Join(parts, sep)
  {
    var moved := [prefix + parts[0]] + parts[1..];
    if |parts| > 1 {
      assert moved[1..] == parts[1..];
    }
  }

  /** Splitting on a character and joining with it again gives back the
      original string. */
  lemma {:induction false} JoinSplit(s: string, sep: char)
    ensures Join(Split(s, sep), [sep]) == s
    decreases |s|
  {
    if s != [] {
      var rest := Split(s[1..], sep);
      JoinSplit(s[1..], sep);
      if s[0] == sep {
        assert ([[]] + rest)[1..] == rest;
      } else {
        JoinPrependToFirst([s[0]], rest, [sep]);
      }
    }
  }

  /** A string with no separator in it splits into itself alone. */
  lemma {:induction false} SplitWithoutSeparator(x: string, sep: char)
    requires sep !in x
    ensures Split(x, sep) == [x]
    decreases |x|
  {
    if x != [] {
      assert x == [x[0]] + x[1..];
      SplitWithoutSeparator(x[1..], sep);
    }
  }

  /** A separator at the end starts a new, empty piece. */
  lemma {:induction false} SplitSnocSeparator(s: string, sep: char)
    ensures Split(s + [sep], sep) == Split(s, sep) + [[]]
    decreases |s|
  {
    if s == [] {
      assert s + [sep] == [sep] && [sep][1..] == [];
    } else {
      var longer := s + [sep];
      assert longer[0] == s[0] && longer[1..] == s[1..] + [sep];
      SplitSnocSeparator(s[1..], sep);
      var rest := Split(s[1..], sep);
      if s[0] == sep {
        assert Split(longer, sep) == [[]] + (rest + [[]]);
      } else {
        var restLonger := rest + [[]];
        assert restLonger[0] == rest[0] && restLonger[1..] == rest[1..] + [[]];
      }
    }
  }

  /** Any other character at the end extends the last piece. */
  lemma {:induction false} SplitSnocOther(s: string, c: char, sep: char)
    requires c != sep
    ensures var pieces := Split(s, sep);
            Split(s + [c], sep) == pieces[..|pieces| - 1] + [pieces[|pieces| - 1] + [c]]
    decreases |s|
  {
    if s == [] {
      assert s + [c] == [c] && [c][1..] == [];
      assert Split([c][1..], sep) == [[]];
      assert Split([c], sep) == [[c] + []];
      var pieces := Split(s, sep);
      assert pieces == [[]];
      assert pieces[..|pieces| - 1] + [pieces[|pieces| - 1] + [c]] == [[c]];
      assert [c] + [] == [c];
    } else {
      var longer := s + [c];
      assert longer[0] == s[0] && longer[1..] == s[1..] + [c];
      SplitSnocOther(s[1..], c, sep);
      var rest := Split(s[1..], sep);
      var n := |rest|;
      var restLonger := rest[..n - 1] + [rest[n - 1] + [c]];
      var pieces := Split(s, sep);
      if s[0] == sep {
        assert pieces == [[]] + rest;
        assert pieces[..|pieces| - 1] == [[]] + rest[..n - 1];
        assert Split(longer, sep) == [[]] + restLonger;
      } else {
        assert pieces == [[s[0]] + rest[0]] + rest[1..];
        assert Split(longer, sep) == [[s[0]] + restLonger[0]] + restLonger[1..];
        SplitSnocOtherStep(s[0], rest, c);
      }
    }
  }

  /** The list step of SplitSnocOther when the first character joins the
      first piece. */
  lemma SplitSnocOtherStep(first: char, rest: seq<string>, c: char)
    requires |rest| > 0
    ensures var n := |rest|;
            var restLonger := rest[..n - 1] + [rest[n - 1] + [c]];
            var pieces := [[first] + rest[0]] + rest[1..];
            [[first] + restLonger[0]] + restLonger[1..]
              == pieces[..|pieces| - 1] + [pieces[|pieces| - 1] + [c]]
  {
    var n := |rest|;
    var restLonger := rest[..n - 1] + [rest[n - 1] + [c]];
    var pieces := [[first] + rest[0]] + rest[1..];
    if n == 1 {
      assert restLonger == [rest[0] + [c]];
      assert pieces == [[first] + rest[0]];
      assert [first] + (rest[0] + [c]) == ([first] + rest[0]) + [c];
    } else {
      assert restLonger[0] == rest[0];
      assert restLonger[1..] == rest[1..n - 1] + [rest[n - 1] + [c]];
      assert pieces[|pieces| - 1] == rest[n - 1];
      assert pieces[..|pieces| - 1] == [[first] + rest[0]] + rest[1..n - 1];
    }
  }

  /** The first separator ends the first piece. */
  lemma {:induction false} SplitAtFirstSeparator(x: string, sep: char, y: string)
    requires sep !in x
    ensures Split(x + [sep] + y, sep) == [x] + Split(y, sep)
    decreases |x|
  {
    var s := x + [sep] + y;
    if x == [] {
      assert s[1..] == y;
    } else {
      assert s[0] == x[0] && s[1..] == x[1..] + [sep] + y;
      assert x == [x[0]] + x[1..];
      SplitAtFirstSeparator(x[1..], sep, y);
    }
  }

  /** Joining pieces that contain no separator and splitting again gives back
      the pieces. */
  lemma {:induction false} SplitJoin(parts: seq<string>, sep: char)
    requires |parts| > 0
    requires forall i :: 0 <= i < |parts| ==> sep !in parts[i]
    ensures Split(Join(parts, [sep]), sep) == parts
    decreases |parts|
  {
    if |parts| == 1 {
      SplitWithoutSeparator(parts[0], sep);
    } else {
      SplitJoin(parts[1..], sep);
      SplitAtFirstSeparator(parts[0], sep, Join(parts[1..], [sep]));
      assert [parts[0]] + parts[1..] == parts;
    }
  }
}
