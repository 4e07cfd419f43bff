/** Python's str.strip(), with the characters str.isspace() (and \s) accepts. */
module Whitespace {

  predicate IsSpace(c: char) {
    || '\t' <= c <= '\r'
    || '\U{1C}' <= c <= ' '
    || c == '\U{85}' || c == '\U{A0}' || c == '\U{1680}'
    || '\U{2000}' <= c <= '\U{200A}'
    || c == '\U{2028}' || c == '\U{2029}' || c == '\U{202F}' || c == '\U{205F}' || c == '\U{3000}'
  }

  predicate AllSpace(s: string) {
    forall c <- s :: IsSpace(c)
  }

  /** Neither end is white space. */
  predicate Trimmed(s: string) {
    s == "" || (!IsSpace(s[0]) && !IsSpace(s[|s| - 1]))
  }

  function LStrip(s: string): string {
    if s == "" || !IsSpace(s[0]) then s else LStrip(s[1..])
  }

  function RStrip(s: string): string {
    if s == "" || !IsSpace(s[|s| - 1]) then s else RStrip(s[..|s| - 1])
  }

  function Strip(s: string): string {
    RStrip(LStrip(s))
  }

  lemma {:induction false} LStripOf(l: string, x: string)
    requires AllSpace(l) && (x == "" || !IsSpace(x[0]))
    ensures LStrip(l + x) == x
  {
    if l == "" {
      assert l + x == x;
    } else {
      assert (l + x)[0] == l[0] && (l + x)[1..] == l[1..] + x;
      LStripOf(l[1..], x);
    }
  }

  lemma {:induction false} RStripOf(x: string, r: string)
    requires AllSpace(r) && (x == "" || !IsSpace(x[|x| - 1]))
    ensures RStrip(x + r) == x
    decreases r
  {
    if r == "" {
      assert x + r == x;
    } else {
      var n := |r| - 1;
      assert (x + r)[|x + r| - 1] == r[n] && (x + r)[..|x + r| - 1] == x + r[..n];
      RStripOf(x, r[..n]);
    }
  }

  /** Stripping removes any white space put around a trimmed text, and nothing more. */
  lemma StripOf(l: string, x: string, r: string)
    requires AllSpace(l) && AllSpace(r) && Trimmed(x)
    ensures Strip(l + x + r) == x
  {
    if x == "" {
      assert l + x + r == (l + r) + "";
      LStripOf(l + r, "");
    } else {
      assert l + x + r == l + (x + r);
      LStripOf(l, x + r);
      RStripOf(x, r);
    }
  }

  lemma {:induction false} LStripParts(s: string) returns (l: string)
    ensures s == l + LStrip(s) && AllSpace(l)
    ensures LStrip(s) == "" || !IsSpace(LStrip(s)[0])
  {
    if s == "" || !IsSpace(s[0]) {
      l := "";
    } else {
      var rest := LStripParts(s[1..]);
      l := [s[0]] + rest;
    }
  }

  lemma {:induction false} RStripParts(s: string) returns (r: string)
    ensures s == RStrip(s) + r && AllSpace(r)
    ensures RStrip(s) == "" || !IsSpace(RStrip(s)[|RStrip(s)| - 1])
    decreases s
  {
    if s == "" || !IsSpace(s[|s| - 1]) {
      r := "";
    } else {
      var rest := RStripParts(s[..|s| - 1]);
      r := rest + [s[|s| - 1]];
    }
  }

  lemma StripParts(s: string) returns (l: string, r: string)
    ensures s == l + Strip(s) + r && AllSpace(l) && AllSpace(r) && Trimmed(Strip(s))
  {
    l := LStripParts(s);
    r := RStripParts(LStrip(s));
    var x := Strip(s);
    assert s == l + (x + r);
    if x != "" {
      assert LStrip(s)[0] == x[0];
    }
  }

  /** White space around a text does not change its stripped form. */
  lemma StripPadded(l: string, x: string, r: string)
    requires AllSpace(l) && AllSpace(r)
    ensures Strip(l + x + r) == Strip(x)
  {
    var l', r' := StripParts(x);
    assert l + x + r == (l + l') + Strip(x) + (r' + r);
    StripOf(l + l', Strip(x), r' + r);
  }

  /** Nothing is left exactly of white space. */
  lemma StripsToNothing(s: string)
    ensures Strip(s) == "" <==> AllSpace(s)
  {
    var l, r := StripParts(s);
    if AllSpace(s) {
      StripOf(s, "", "");
      assert s + "" + "" == s;
    }
  }

  /** The white space characters by their code points. */
  lemma SpacesAre(c: char)
    ensures IsSpace(c) <==> c as int in {9, 10, 11, 12, 13, 28, 29, 30, 31, 32, 0x85, 0xA0, 0x1680,
                                         0x2000, 0x2001, 0x2002, 0x2003, 0x2004, 0x2005, 0x2006, 0x2007, 0x2008,
                                         0x2009, 0x200A, 0x2028, 0x2029, 0x202F, 0x205F, 0x3000}
  {
  }
}
