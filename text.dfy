/** The string handling the core relies on: JavaScript's `String.prototype.trim`
    (used only to test a search query for blankness), joining with a
    separator (Python's `','.join`, and the "s0,s1:e0,e1" route query both
    the Angular maps service and the backend build) and splitting, the
    reading a receiver of such a string performs. */
module Text {

  /** The characters `trim` removes: ECMAScript WhiteSpace (tab, vertical
      tab, form feed, space, no-break space, byte order mark and the Unicode
      space separators) and LineTerminator (LF, CR, U+2028, U+2029). */
  predicate IsJsWhitespace(c: char) {
    || c == '\t' || c == '\n' || c == '\U{000B}' || c == '\U{000C}' || c == '\r'
    || c == ' ' || c == '\U{00A0}' || c == '\U{1680}'
    || ('\U{2000}' <= c <= '\U{200A}')
    || c == '\U{2028}' || c == '\U{2029}' || c == '\U{202F}' || c == '\U{205F}'
    || c == '\U{3000}' || c == '\U{FEFF}'
  }

  function TrimStart(s: string): string {
    if |s| > 0 && IsJsWhitespace(s[0]) then TrimStart(s[1..]) else s
  }

  function TrimEnd(s: string): string {
    if |s| > 0 && IsJsWhitespace(s[|s| - 1]) then TrimEnd(s[..|s| - 1]) else s
  }

  /** `s.trim()`. */
  function Trim(s: string): string { TrimEnd(TrimStart(s)) }

  /** `!s.trim()`: the query the views refuse to send. */
  predicate IsBlank(s: string) { Trim(s) == "" }

  predicate AllWhitespace(s: string) { forall i :: 0 <= i < |s| ==> IsJsWhitespace(s[i]) }

  lemma {:induction false} TrimStartEmpty(s: string)
    ensures TrimStart(s) == "" <==> AllWhitespace(s)
  {
    if |s| > 0 && IsJsWhitespace(s[0]) {
      TrimStartEmpty(s[1..]);
      assert AllWhitespace(s) <==> AllWhitespace(s[1..]) by {
        if AllWhitespace(s[1..]) {
          forall i | 0 <= i < |s| ensures IsJsWhitespace(s[i]) {
            if i > 0 { assert s[i] == s[1..][i - 1]; }
          }
        }
      }
    }
  }

  lemma {:induction false} TrimEndEmpty(s: string)
    ensures TrimEnd(s) == "" <==> AllWhitespace(s)
  {
    if |s| > 0 && IsJsWhitespace(s[|s| - 1]) {
      TrimEndEmpty(s[..|s| - 1]);
      assert AllWhitespace(s) <==> AllWhitespace(s[..|s| - 1]) by {
        if AllWhitespace(s[..|s| - 1]) {
          forall i | 0 <= i < |s| ensures IsJsWhitespace(s[i]) {
            if i < |s| - 1 { assert s[i] == s[..|s| - 1][i]; }
          }
        }
      }
    }
  }

  /** A query is blank exactly when every one of its characters is
      whitespace; in particular the empty query is blank. */
  lemma BlankIffAllWhitespace(s: string)
    ensures IsBlank(s) <==> AllWhitespace(s)
  {
    TrimStartEmpty(s);
    var t := TrimStart(s);
    TrimEndEmpty(t);
    if t != "" {
      StartsWithNonWhitespace(s);
      assert !AllWhitespace(t) by { assert !IsJsWhitespace(t[0]); }
    }
  }

  lemma {:induction false} StartsWithNonWhitespace(s: string)
    ensures TrimStart(s) != "" ==> !IsJsWhitespace(TrimStart(s)[0])
  {
    if |s| > 0 && IsJsWhitespace(s[0]) { StartsWithNonWhitespace(s[1..]); }
  }

  /** `sep.join(parts)`. */
  function Join(parts: seq<string>, sep: char): string {
    if |parts| == 0 then ""
    else if |parts| == 1 then parts[0]
    else parts[0] + [sep] + Join(parts[1..], sep)
  }

  /** `s.split(sep)`: the pieces between separators, at least one. */
  function Split(s: string, sep: char): (parts: seq<string>)
    ensures |parts| >= 1
  {
    if s == [] then [""]
    else
      var rest := Split(s[1..], sep);
      if s[0] == sep then [""] + rest else [[s[0]] + rest[0]] + rest[1..]
  }

  lemma {:induction false} SplitPlain(p: string, sep: char)
    requires sep !in p
    ensures Split(p, sep) == [p]
  {
    if p != [] { SplitPlain(p[1..], sep); assert [p[0]] + p[1..] == p; }
  }

  lemma {:induction false} SplitAfter(p: string, sep: char, t: string)
    requires sep !in p
    ensures Split(p + [sep] + t, sep) == [p] + Split(t, sep)
  {
    if p == [] {
      assert p + [sep] + t == [sep] + t;
      assert ([sep] + t)[1..] == t;
    } else {
      assert (p + [sep] + t)[1..] == p[1..] + [sep] + t;
      SplitAfter(p[1..], sep, t);
      assert [p[0]] + p[1..] == p;
    }
  }

  /** Splitting undoes joining when no part contains the separator. */
  lemma {:induction false} SplitJoin(parts: seq<string>, sep: char)
    requires |parts| >= 1
    requires forall i :: 0 <= i < |parts| ==> sep !in parts[i]
    ensures Split(Join(parts, sep), sep) == parts
  {
    if |parts| == 1 {
      SplitPlain(parts[0], sep);
    } else {
      SplitJoin(parts[1..], sep);
      SplitAfter(parts[0], sep, Join(parts[1..], sep));
      assert [parts[0]] + parts[1..] == parts;
    }
  }

  /** Joining what was split gives the string back. */
  lemma {:induction false} JoinSplit(s: string, sep: char)
    ensures Join(Split(s, sep), sep) == s
  {
    if s != [] {
      var rest := Split(s[1..], sep);
      JoinSplit(s[1..], sep);
      if s[0] == sep {
        assert ([""] + rest)[1..] == rest;
        assert [s[0]] + s[1..] == s;
      } else {
        var parts := [[s[0]] + rest[0]] + rest[1..];
        if |rest| == 1 {
          assert [s[0]] + s[1..] == s;
        } else {
          assert parts[1..] == rest[1..];
          assert Join(rest, sep) == rest[0] + [sep] + Join(rest[1..], sep);
          assert [s[0]] + s[1..] == s;
        }
      }
    }
  }

  /** "a0,a1:b0,b1": the route query of two coordinate pairs, each number
      rendered by `fmt` (JavaScript template-literal or Python f-string
      rendering of a float, which this model does not fix). */
  function RouteQuery(fmt: real -> string, a: (real, real), b: (real, real)): string {
    Join([Join([fmt(a.0), fmt(a.1)], ','), Join([fmt(b.0), fmt(b.1)], ',')], ':')
  }

  /** A rendered number that neither ',' nor ':' occurs in. */
  predicate NoSeparator(t: string) { ',' !in t && ':' !in t }

  /** The route query is unambiguous: as long as none of the four rendered
      numbers contains ',' or ':', splitting it at ':' and then ',' gives back the four
      numbers, start first. */
  lemma RouteQueryReadsBack(fmt: real -> string, a: (real, real), b: (real, real))
    requires NoSeparator(fmt(a.0)) && NoSeparator(fmt(a.1))
    requires NoSeparator(fmt(b.0)) && NoSeparator(fmt(b.1))
    ensures Split(RouteQuery(fmt, a, b), ':') == [fmt(a.0) + "," + fmt(a.1), fmt(b.0) + "," + fmt(b.1)]
    ensures Split(Split(RouteQuery(fmt, a, b), ':')[0], ',') == [fmt(a.0), fmt(a.1)]
    ensures Split(Split(RouteQuery(fmt, a, b), ':')[1], ',') == [fmt(b.0), fmt(b.1)]
  {
    var x0, x1, y0, y1 := fmt(a.0), fmt(a.1), fmt(b.0), fmt(b.1);
    var l, r := Join([x0, x1], ','), Join([y0, y1], ',');
    assert l == x0 + "," + x1 by { assert [x0, x1][1..] == [x1]; assert Join([x1], ',') == x1; }
    assert r == y0 + "," + y1 by { assert [y0, y1][1..] == [y1]; assert Join([y1], ',') == y1; }
    assert ':' !in l && ':' !in r;
    SplitJoin([l, r], ':');
    SplitJoin([fmt(a.0), fmt(a.1)], ',');
    SplitJoin([fmt(b.0), fmt(b.1)], ',');
  }
}
