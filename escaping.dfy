/**
 * The escaper shared by both builders: every value written into a line is
 * escaped once, when it is stored.  Backslash, semicolon and equals gain a
 * backslash prefix; newline becomes backslash followed by the letter `n`.
 *
 * `Escape` is the specification, `EscapeString` the two-loop algorithm of
 * the source proved equal to it, and `Unescape` the independent inverse
 * that shows no information is lost.
 */
module Escaping {
  import opened Wrappers

  /** The four characters the line format reserves. */
  predicate IsReserved(c: char) {
    c == '\\' || c == ';' || c == '\n' || c == '='
  }

  /** How one character is written out. */
  function EscapeChar(c: char): string {
    if c == '\n' then "\\n"
    else if IsReserved(c) then ['\\', c]
    else [c]
  }

  /** The number of reserved characters in `s`. */
  function CountReserved(s: string): (n: nat)
    ensures n <= |s|
  {
    if s == [] then 0 else (if IsReserved(s[0]) then 1 else 0) + CountReserved(s[1..])
  }

  /** The escaped form of a (non-null) string. */
  function Escape(s: string): (r: string)
    ensures |r| == |s| + CountReserved(s)
    ensures CountReserved(s) == 0 ==> r == s
    ensures '\n' !in r
  {
    if s == [] then [] else EscapeChar(s[0]) + Escape(s[1..])
  }

  /** Escaping of a nullable string: null stays null, the empty string stays empty. */
  function EscapeNullable(s: Option<string>): (r: Option<string>)
    ensures r.None? <==> s.None?
    ensures s == Some([]) ==> r == s
    ensures r.Some? ==> IsEscaped(r.value) && Unescape(r.value) == s.value
  {
    match s
    case None => None
    case Some(x) =>
      EscapeIsEscaped(x);
      UnescapeEscape(x);
      Some(Escape(x))
  }

  /**
   * The strings `Escape` can produce: no raw `;`, `=` or newline, and every
   * backslash starts a pair whose second character is `\`, `;`, `=` or `n`.
   */
  predicate IsEscaped(t: string)
    decreases |t|
  {
    if t == [] then true
    else if t[0] == '\\' then |t| >= 2 && t[1] in "\\;=n" && IsEscaped(t[2..])
    else !IsReserved(t[0]) && IsEscaped(t[1..])
  }

  /** The decoding a consumer of the line applies; not part of the builders. */
  function Unescape(t: string): string
    decreases |t|
  {
    if t == [] then []
    else if t[0] == '\\' && |t| >= 2 then (if t[1] == 'n' then "\n" else [t[1]]) + Unescape(t[2..])
    else [t[0]] + Unescape(t[1..])
  }

  /** A string without reserved characters. */
  predicate IsClean(s: string) {
    forall i :: 0 <= i < |s| ==> !IsReserved(s[i])
  }

  lemma {:induction false} CountReservedAppend(a: string, b: string)
    ensures CountReserved(a + b) == CountReserved(a) + CountReserved(b)
    decreases |a|
  {
    if a == [] {
      assert a + b == b;
    } else {
      assert (a + b)[0] == a[0];
      assert (a + b)[1..] == a[1..] + b;
      CountReservedAppend(a[1..], b);
    }
  }

  /** One step of the counting loop. */
  lemma CountReservedSnoc(s: string, i: nat)
    requires i < |s|
    ensures CountReserved(s[..i + 1]) == CountReserved(s[..i]) + (if IsReserved(s[i]) then 1 else 0)
  {
    assert s[..i + 1] == s[..i] + [s[i]];
    CountReservedAppend(s[..i], [s[i]]);
  }

  /** Escaping works character by character, so it distributes over concatenation. */
  lemma {:induction false} EscapeAppend(a: string, b: string)
    ensures Escape(a + b) == Escape(a) + Escape(b)
    decreases |a|
  {
    if a == [] {
      assert a + b == b;
    } else {
      assert (a + b)[0] == a[0];
      assert (a + b)[1..] == a[1..] + b;
      EscapeAppend(a[1..], b);
    }
  }

  /** One step of the copying loop. */
  lemma EscapeSnoc(s: string, i: nat)
    requires i < |s|
    ensures Escape(s[..i + 1]) == Escape(s[..i]) + EscapeChar(s[i])
  {
    assert s[..i + 1] == s[..i] + [s[i]];
    EscapeAppend(s[..i], [s[i]]);
    assert Escape([s[i]]) == EscapeChar(s[i]);
  }

  /** Clean input is returned unchanged, and it is already in escaped form. */
  lemma {:induction false} CleanIsEscaped(s: string)
    requires IsClean(s)
    ensures IsEscaped(s) && CountReserved(s) == 0 && Escape(s) == s
    decreases |s|
  {
    if s != [] {
      CleanIsEscaped(s[1..]);
    }
  }

  /** Everything `Escape` produces is in escaped form. */
  lemma {:induction false} EscapeIsEscaped(s: string)
    ensures IsEscaped(Escape(s))
    decreases |s|
  {
    if s != [] {
      var e := Escape(s);
      var rest := Escape(s[1..]);
      EscapeIsEscaped(s[1..]);
      if IsReserved(s[0]) {
        assert e == EscapeChar(s[0]) + rest;
        assert e[0] == '\\' && e[1] in "\\;=n";
        assert e[2..] == rest;
      } else {
        assert e == [s[0]] + rest;
        assert e[1..] == rest;
      }
    }
  }

  /** Decoding undoes escaping, so `Escape` is injective. */
  lemma {:induction false} UnescapeEscape(s: string)
    ensures Unescape(Escape(s)) == s
    decreases |s|
  {
    if s != [] {
      var e := Escape(s);
      var rest := Escape(s[1..]);
      UnescapeEscape(s[1..]);
      if IsReserved(s[0]) {
        assert e == EscapeChar(s[0]) + rest;
        assert e[0] == '\\' && |e| >= 2 && e[2..] == rest;
        assert (if e[1] == 'n' then "\n" else [e[1]]) == [s[0]];
      } else {
        assert e == [s[0]] + rest;
        assert e[1..] == rest;
      }
    }
  }

  /** Escaping undoes decoding on every string in escaped form: the two are inverse bijections. */
  lemma {:induction false} EscapeUnescape(t: string)
    requires IsEscaped(t)
    ensures Escape(Unescape(t)) == t
    decreases |t|
  {
    if t != [] {
      if t[0] == '\\' {
        var c := if t[1] == 'n' then '\n' else t[1];
        assert Unescape(t) == [c] + Unescape(t[2..]);
        EscapeUnescape(t[2..]);
        EscapeAppend([c], Unescape(t[2..]));
        assert Escape([c]) == EscapeChar(c) == t[..2];
        assert t == t[..2] + t[2..];
      } else {
        assert Unescape(t) == [t[0]] + Unescape(t[1..]);
        EscapeUnescape(t[1..]);
        EscapeAppend([t[0]], Unescape(t[1..]));
        assert Escape([t[0]]) == [t[0]];
        assert t == [t[0]] + t[1..];
      }
    }
  }

  lemma EscapeInjective(a: string, b: string)
    requires Escape(a) == Escape(b)
    ensures a == b
  {
    UnescapeEscape(a);
    UnescapeEscape(b);
  }

  /**
   * The source's escape: one loop counts the reserved characters; when there
   * are none the argument itself is returned, otherwise a second loop copies
   * the characters, prefixing each reserved one with a backslash and writing
   * newline as backslash-n.
   */
  method EscapeString(s: Option<string>) returns (r: Option<string>)
    ensures r == EscapeNullable(s)
  {
    if s.None? || |s.value| == 0 {
      return s;
    }
    var str := s.value;
    var len := |str|;
    var i := 0;
    while i < |str|
      invariant 0 <= i <= |str|
      invariant len == |str| + CountReserved(str[..i])
    {
      var c := str[i];
      CountReservedSnoc(str, i);
      if c == '\\' || c == ';' || c == '\n' || c == '=' {
        len := len + 1;
      }
      i := i + 1;
    }
    assert str[..|str|] == str;
    if len == |str| {
      return s;
    }
    var builder: string := [];
    i := 0;
    while i < |str|
      invariant 0 <= i <= |str|
      invariant builder == Escape(str[..i])
    {
      var c := str[i];
      EscapeSnoc(str, i);
      if c == '\\' || c == ';' || c == '\n' || c == '=' {
        builder := builder + ['\\'];
        if c == '\n' {
          builder := builder + ['n'];
          i := i + 1;
          continue;
        }
      }
      builder := builder + [c];
      i := i + 1;
    }
    return Some(builder);
  }
}
