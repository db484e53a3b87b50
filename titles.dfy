/** The title normalisation that turns a window title into the key of its stored
    geometry: upper-case the title, then replace every run of spaces by one '_'. */
module Titles {

  /** Upper-case mapping of one character: ASCII letters and the basic Cyrillic
      block (the scripts the application's titles are written in); every other
      character is left as it is. */
  function UpperChar(c: char): (u: char)
    ensures u == ' ' <==> c == ' '
    ensures u == '_' <==> c == '_'
    ensures u == '\0' <==> c == '\0'
  {
    if 'a' <= c <= 'z' then (c as int - 32) as char
    else if '\U{0430}' <= c <= '\U{044F}' then (c as int - 0x20) as char
    else if '\U{0450}' <= c <= '\U{045F}' then (c as int - 0x50) as char
    else c
  }

  /** A character that upper-casing leaves as it is. */
  predicate IsUpper(c: char) {
    UpperChar(c) == c
  }

  /** toUpperCase, one character at a time: the result is upper-case. */
  function ToUpper(s: string): (r: string)
    ensures |r| == |s|
    ensures forall i :: 0 <= i < |s| ==> r[i] == UpperChar(s[i])
    ensures forall c :: c in r ==> IsUpper(c)
  {
    seq(|s|, i requires 0 <= i < |s| => UpperChar(s[i]))
  }

  /** A run of n spaces. */
  function Spaces(n: nat): (r: string)
    ensures |r| == n && forall i :: 0 <= i < n ==> r[i] == ' '
  {
    seq(n, _ => ' ')
  }

  predicate EndsWithNonSpace(s: string) {
    s == [] || s[|s| - 1] != ' '
  }

  predicate StartsWithNonSpace(s: string) {
    s == [] || s[0] != ' '
  }

  /** The regular-expression replacement of " +" by "_": a space followed by
      another space is dropped, and the last space of each run becomes '_'. */
  function CollapseSpaces(s: string): (r: string)
    ensures ' ' !in r
    ensures forall c :: c in r ==> c == '_' || c in s
  {
    if s == [] then []
    else if s[0] != ' ' then [s[0]] + CollapseSpaces(s[1..])
    else if |s| > 1 && s[1] == ' ' then CollapseSpaces(s[1..])
    else "_" + CollapseSpaces(s[1..])
  }

  /** formatTitle: the key a window title is stored under. */
  function FormatTitle(title: string): (r: string)
    ensures ' ' !in r
    ensures forall c :: c in r ==> IsUpper(c)
  {
    CollapseSpaces(ToUpper(title))
  }

  lemma {:induction false} CollapseShorter(s: string)
    ensures |CollapseSpaces(s)| <= |s|
    decreases |s|
  {
    if s != [] {
      CollapseShorter(s[1..]);
    }
  }

  /** Normalising never lengthens a title, and introduces no U+0000 character. */
  lemma FormatTitleShape(title: string)
    ensures |FormatTitle(title)| <= |title|
    ensures '\0' in FormatTitle(title) ==> '\0' in title
  {
    var u := ToUpper(title);
    CollapseShorter(u);
    if '\0' in FormatTitle(title) {
      assert '\0' in u;
      var i :| 0 <= i < |u| && u[i] == '\0';
      assert title[i] == '\0';
    }
  }

  lemma {:induction false} CollapseNoSpaces(s: string)
    requires ' ' !in s
    ensures CollapseSpaces(s) == s
    decreases |s|
  {
    if s != [] {
      assert s[0] in s;
      assert ' ' !in s[1..] by {
        forall c | c in s[1..] ensures c != ' ' { assert c in s; }
      }
      CollapseNoSpaces(s[1..]);
      assert s == [s[0]] + s[1..];
    }
  }

  lemma UpperFixed(s: string)
    requires forall c :: c in s ==> IsUpper(c)
    ensures ToUpper(s) == s
  {
    forall i | 0 <= i < |s| ensures ToUpper(s)[i] == s[i] {
      assert s[i] in s;
    }
  }

  /** Normalising an already normalised title gives it back unchanged. */
  lemma FormatTitleIdempotent(title: string)
    ensures FormatTitle(FormatTitle(title)) == FormatTitle(title)
  {
    var k := FormatTitle(title);
    UpperFixed(k);
    CollapseNoSpaces(k);
  }

  /** A run of spaces in front of a non-space becomes one '_'. */
  lemma {:induction false} CollapseLeadingRun(n: nat, b: string)
    requires n > 0 && StartsWithNonSpace(b)
    ensures CollapseSpaces(Spaces(n) + b) == "_" + CollapseSpaces(b)
    decreases n
  {
    var s := Spaces(n) + b;
    assert s[0] == ' ' && s[1..] == Spaces(n - 1) + b;
    if n > 1 {
      CollapseLeadingRun(n - 1, b);
    } else {
      assert s[1..] == b;
    }
  }

  /** The decomposition that characterises formatTitle's rewriting: a maximal run
      of n > 0 spaces between two space-free boundaries becomes exactly one '_',
      and the two sides are rewritten independently. */
  lemma {:induction false} CollapseRun(a: string, n: nat, b: string)
    requires n > 0
    requires EndsWithNonSpace(a) && StartsWithNonSpace(b)
    ensures CollapseSpaces(a + Spaces(n) + b) == CollapseSpaces(a) + "_" + CollapseSpaces(b)
    decreases |a|
  {
    if a == [] {
      assert a + Spaces(n) + b == Spaces(n) + b;
      CollapseLeadingRun(n, b);
    } else {
      var s, t := a + Spaces(n) + b, a[1..];
      assert EndsWithNonSpace(t);
      assert s[0] == a[0] && s[1..] == t + Spaces(n) + b;
      assert a[0] == ' ' ==> |a| > 1 && s[1] == a[1];
      CollapseRun(t, n, b);
    }
  }

  /** Two space-free words joined by a run of n > 0 spaces normalise to the two
      upper-cased words joined by one '_'. */
  lemma FormatTwoWords(a: string, n: nat, b: string)
    requires a != [] && b != [] && ' ' !in a && ' ' !in b && n > 0
    ensures FormatTitle(a + Spaces(n) + b) == ToUpper(a) + "_" + ToUpper(b)
  {
    var ua, ub := ToUpper(a), ToUpper(b);
    assert ToUpper(a + Spaces(n) + b) == ua + Spaces(n) + ub;
    assert ' ' !in ua by {
      forall i | 0 <= i < |a| ensures ua[i] != ' ' { assert a[i] in a; }
    }
    assert ' ' !in ub by {
      forall i | 0 <= i < |b| ensures ub[i] != ' ' { assert b[i] in b; }
    }
    assert ua[|ua| - 1] in ua && ub[0] in ub;
    CollapseRun(ua, n, ub);
    CollapseNoSpaces(ua);
    CollapseNoSpaces(ub);
  }

  /** "Log Window" and "Log   Window" share the key LOG_WINDOW. */
  lemma LogWindowTitlesCollide()
    ensures FormatTitle("Log Window") == FormatTitle("Log   Window") == "LOG_WINDOW"
  {
    assert ToUpper("Log") == "LOG" && ToUpper("Window") == "WINDOW";
    assert "Log Window" == "Log" + Spaces(1) + "Window";
    FormatTwoWords("Log", 1, "Window");
    assert "Log   Window" == "Log" + Spaces(3) + "Window";
    FormatTwoWords("Log", 3, "Window");
  }
}
