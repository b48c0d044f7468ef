/** The string operations of the modelled language that the other modules share. */
module Strings {
  /** White space, for trimming and for patterns alike. */
  predicate IsSpace(c: char) {
    c in {' ', '\t', '\n', '\r', '\U{000B}', '\U{000C}', '\U{00A0}', '\U{FEFF}', '\U{1680}', '\U{2028}', '\U{2029}',
          '\U{202F}', '\U{205F}', '\U{3000}'}
    || '\U{2000}' <= c <= '\U{200A}'
  }

  function TrimLeft(s: string): string {
    if s != [] && IsSpace(s[0]) then TrimLeft(s[1..]) else s
  }

  function TrimRight(s: string): string {
    if s != [] && IsSpace(s[|s| - 1]) then TrimRight(s[..|s| - 1]) else s
  }

  function Trim(s: string): string { TrimRight(TrimLeft(s)) }

  ghost predicate Blank(s: string) { forall c :: c in s ==> IsSpace(c) }

  /** Nothing to trim at either end. */
  ghost predicate Bare(s: string) { s == [] || (!IsSpace(s[0]) && !IsSpace(s[|s| - 1])) }

  lemma {:induction false} TrimLeftMeaning(s: string)
    ensures exists a: string :: Blank(a) && s == a + TrimLeft(s)
    ensures TrimLeft(s) == [] || !IsSpace(TrimLeft(s)[0])
  {
    if s != [] && IsSpace(s[0]) {
      TrimLeftMeaning(s[1..]);
      var a: string :| Blank(a) && s[1..] == a + TrimLeft(s[1..]);
      assert Blank([s[0]] + a) && s == [s[0]] + a + TrimLeft(s);
    } else {
      assert Blank([]) && s == [] + s;
    }
  }

  lemma {:induction false} TrimRightMeaning(s: string)
    ensures exists b: string :: Blank(b) && s == TrimRight(s) + b
    ensures TrimRight(s) == [] || !IsSpace(TrimRight(s)[|TrimRight(s)| - 1])
  {
    if s != [] && IsSpace(s[|s| - 1]) {
      var init, c := s[..|s| - 1], s[|s| - 1];
      TrimRightMeaning(init);
      var b: string :| Blank(b) && init == TrimRight(init) + b;
      assert Blank(b + [c]) && s == TrimRight(s) + (b + [c]);
    } else {
      assert Blank([]) && s == s + [];
    }
  }

  /** Trimming takes white space off both ends, and all of it. */
  lemma TrimMeaning(s: string)
    ensures exists a: string, b: string :: Blank(a) && Blank(b) && s == a + Trim(s) + b
    ensures Bare(Trim(s))
  {
    TrimLeftMeaning(s);
    var l := TrimLeft(s);
    TrimRightMeaning(l);
    var a: string :| Blank(a) && s == a + l;
    var b: string :| Blank(b) && l == TrimRight(l) + b;
    assert s == a + Trim(s) + b;
    if Trim(s) != [] {
      assert l[0] == Trim(s)[0];
    }
  }

  /** There is only one way to do that. */
  lemma TrimIsOnly(a: string, s: string, b: string)
    requires Blank(a) && Blank(b) && Bare(s)
    ensures Trim(a + s + b) == s
  {
    if s == [] {
      TrimBlank(a + s + b);
    } else {
      SkipsLeft(a, s + b);
      assert a + (s + b) == a + s + b;
      SkipsRight(s, b);
    }
  }

  lemma {:induction false} TrimBlank(s: string)
    requires Blank(s)
    ensures TrimLeft(s) == [] && Trim(s) == []
  {
    if s != [] {
      assert s[0] in s;
      TrimBlank(s[1..]);
    }
  }

  lemma {:induction false} SkipsLeft(a: string, s: string)
    requires Blank(a) && s != [] && !IsSpace(s[0])
    ensures TrimLeft(a + s) == s
  {
    if a == [] {
      assert a + s == s;
    } else {
      assert a[0] in a && (a + s)[1..] == a[1..] + s;
      SkipsLeft(a[1..], s);
    }
  }

  lemma {:induction false} SkipsRight(s: string, b: string)
    requires Blank(b) && s != [] && !IsSpace(s[|s| - 1])
    ensures TrimRight(s + b) == s
  {
    if b == [] {
      assert s + b == s;
    } else {
      assert b[|b| - 1] in b && (s + b)[..|s + b| - 1] == s + b[..|b| - 1];
      SkipsRight(s, b[..|b| - 1]);
    }
  }
}
