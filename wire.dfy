/**
 * The line format both builders emit: a flat sequence of `key=value;`
 * fields with no separator beyond the semicolon.  `Line` writes the fields
 * out; `ParseLine` is the reading a consumer applies, and
 * `ParseLineInverse` shows that a line whose keys and values are in escaped
 * form is read back into exactly the fields it was written from.
 */
module Wire {
  import opened Wrappers
  import opened Escaping

  /** A rendered field: its key token and its value text. */
  type Field = (string, string)

  function FieldText(f: Field): string {
    f.0 + "=" + f.1 + ";"
  }

  /** The fields written one after the other. */
  function Line(fields: seq<Field>): string
    decreases |fields|
  {
    if fields == [] then [] else FieldText(fields[0]) + Line(fields[1..])
  }

  /** Every key and value is in escaped form. */
  predicate FieldsEscaped(fields: seq<Field>) {
    forall i :: 0 <= i < |fields| ==> IsEscaped(fields[i].0) && IsEscaped(fields[i].1)
  }

  /**
   * Splits `s` at its first `stop` character that is not the second half of
   * a backslash pair.
   */
  function ScanToken(s: string, stop: char): (r: Option<(string, string)>)
    ensures r.Some? ==> s == r.value.0 + [stop] + r.value.1
    decreases |s|
  {
    if s == [] then None
    else if s[0] == '\\' then
      if |s| < 2 then None
      else match ScanToken(s[2..], stop)
        case None => None
        case Some((token, rest)) => Some((s[..2] + token, rest))
    else if s[0] == stop then Some(([], s[1..]))
    else match ScanToken(s[1..], stop)
      case None => None
      case Some((token, rest)) => Some(([s[0]] + token, rest))
  }

  /** Reads a line back into its fields; `None` when it is not a sequence of fields. */
  function ParseLine(s: string): Option<seq<Field>>
    decreases |s|
  {
    if s == [] then Some([])
    else match ScanToken(s, '=')
      case None => None
      case Some((key, afterKey)) =>
        match ScanToken(afterKey, ';')
        case None => None
        case Some((value, afterValue)) =>
          match ParseLine(afterValue)
          case None => None
          case Some(fields) => Some([(key, value)] + fields)
  }

  lemma {:induction false} LineAppend(a: seq<Field>, b: seq<Field>)
    ensures Line(a + b) == Line(a) + Line(b)
    decreases |a|
  {
    if a == [] {
      assert a + b == b;
    } else {
      assert (a + b)[0] == a[0];
      assert (a + b)[1..] == a[1..] + b;
      LineAppend(a[1..], b);
    }
  }

  /** Writing one more field appends its text. */
  lemma LineSnoc(fields: seq<Field>, f: Field)
    ensures Line(fields + [f]) == Line(fields) + FieldText(f)
  {
    LineAppend(fields, [f]);
    assert Line([f]) == FieldText(f) + Line([]);
  }

  /** A token in escaped form ends exactly at the delimiter written after it. */
  lemma {:induction false} ScanEscaped(t: string, stop: char, rest: string)
    requires IsEscaped(t)
    requires stop == '=' || stop == ';'
    ensures ScanToken(t + [stop] + rest, stop) == Some((t, rest))
    decreases |t|
  {
    var s := t + [stop] + rest;
    if t == [] {
      assert s == [stop] + rest;
    } else if t[0] == '\\' {
      assert s[0] == '\\' && |s| >= 2;
      assert s[2..] == t[2..] + [stop] + rest;
      ScanEscaped(t[2..], stop, rest);
      assert s[..2] + t[2..] == t;
    } else {
      assert s[0] == t[0] && s[0] != stop;
      assert s[1..] == t[1..] + [stop] + rest;
      ScanEscaped(t[1..], stop, rest);
      assert [s[0]] + t[1..] == t;
    }
  }

  /** A line is read back into exactly the fields it was written from. */
  lemma {:induction false} ParseLineInverse(fields: seq<Field>)
    requires FieldsEscaped(fields)
    ensures ParseLine(Line(fields)) == Some(fields)
    decreases |fields|
  {
    if fields != [] {
      var (key, value) := fields[0];
      var tail := Line(fields[1..]);
      var s := Line(fields);
      assert s == key + ['='] + (value + [';'] + tail);
      ScanEscaped(key, '=', value + [';'] + tail);
      ScanEscaped(value, ';', tail);
      assert FieldsEscaped(fields[1..]) by {
        forall i | 0 <= i < |fields[1..]|
          ensures IsEscaped(fields[1..][i].0) && IsEscaped(fields[1..][i].1)
        {
          assert fields[1..][i] == fields[i + 1];
        }
      }
      ParseLineInverse(fields[1..]);
      assert [(key, value)] + fields[1..] == fields;
    }
  }

  /** Two lists of escaped fields give the same line only if they are equal. */
  lemma LineInjective(a: seq<Field>, b: seq<Field>)
    requires FieldsEscaped(a) && FieldsEscaped(b)
    requires Line(a) == Line(b)
    ensures a == b
  {
    ParseLineInverse(a);
    ParseLineInverse(b);
  }

  /** A field keyed by `k` when `v` is present, nothing otherwise. */
  function Opt<K>(k: K, v: Option<string>): seq<(K, string)> {
    if v.Some? then [(k, v.value)] else []
  }

  /** Keyed fields with each key replaced by its token. */
  function Tokens<K>(h: seq<(K, string)>, token: K -> string): (fields: seq<Field>)
    ensures |fields| == |h|
    ensures forall i :: 0 <= i < |h| ==> fields[i] == (token(h[i].0), h[i].1)
  {
    seq(|h|, i requires 0 <= i < |h| => (token(h[i].0), h[i].1))
  }

  /** Tokens are substituted field by field: the fields of a joined list are the joined fields, in order. */
  lemma TokensAppend<K>(a: seq<(K, string)>, b: seq<(K, string)>, token: K -> string)
    ensures Tokens(a + b, token) == Tokens(a, token) + Tokens(b, token)
  {
  }

  /** Keyed fields whose values are all in escaped form. */
  predicate ValuesEscaped<K>(h: seq<(K, string)>) {
    forall i :: 0 <= i < |h| ==> IsEscaped(h[i].1)
  }

  /** Appending an optional field whose value is escaped keeps every value escaped. */
  lemma OptEscaped<K>(h: seq<(K, string)>, k: K, v: Option<string>)
    requires ValuesEscaped(h) && (v.Some? ==> IsEscaped(v.value))
    ensures ValuesEscaped(h + Opt(k, v))
  {
    var r := h + Opt(k, v);
    forall i | 0 <= i < |r|
      ensures IsEscaped(r[i].1)
    {
      if i < |h| {
        assert r[i] == h[i];
      }
    }
  }

  /** Escaped values under escaped tokens are escaped fields. */
  lemma TokensEscaped<K>(h: seq<(K, string)>, token: K -> string)
    requires ValuesEscaped(h)
    requires forall i :: 0 <= i < |h| ==> IsEscaped(token(h[i].0))
    ensures FieldsEscaped(Tokens(h, token))
  {
  }

  /** The value of the first field keyed by `k`. */
  function Lookup<K(==)>(h: seq<(K, string)>, k: K): Option<string>
    decreases |h|
  {
    if h == [] then None else if h[0].0 == k then Some(h[0].1) else Lookup(h[1..], k)
  }

  /**
   * When distinct keys have distinct tokens, looking a token up in the
   * written fields gives the value of its key: the line says what the header says.
   */
  lemma {:induction false} TokensLookup<K>(h: seq<(K, string)>, token: K -> string, k: K)
    requires forall x, y :: token(x) == token(y) ==> x == y
    ensures Lookup(Tokens(h, token), token(k)) == Lookup(h, k)
    decreases |h|
  {
    if h != [] {
      assert Tokens(h, token)[1..] == Tokens(h[1..], token);
      TokensLookup(h[1..], token, k);
    }
  }

  lemma {:induction false} LookupAppend<K>(a: seq<(K, string)>, b: seq<(K, string)>, k: K)
    ensures Lookup(a + b, k) == if Lookup(a, k).Some? then Lookup(a, k) else Lookup(b, k)
    decreases |a|
  {
    if a == [] {
      assert a + b == b;
    } else {
      assert (a + b)[0] == a[0];
      assert (a + b)[1..] == a[1..] + b;
      LookupAppend(a[1..], b, k);
    }
  }

  lemma FieldsEscapedAppend(a: seq<Field>, b: seq<Field>)
    requires FieldsEscaped(a) && FieldsEscaped(b)
    ensures FieldsEscaped(a + b)
  {
    forall i | 0 <= i < |a + b|
      ensures IsEscaped((a + b)[i].0) && IsEscaped((a + b)[i].1)
    {
      if i >= |a| {
        assert (a + b)[i] == b[i - |a|];
      }
    }
  }

  /** The text of an optional field: `token=value;` when present, nothing otherwise. */
  function OptText(token: string, v: Option<string>): string {
    if v.Some? then token + "=" + v.value + ";" else ""
  }

  /** Appending an optional keyed field appends its text to the line, or nothing. */
  lemma LineExtendOpt<K>(h: seq<(K, string)>, k: K, v: Option<string>, token: K -> string)
    ensures Line(Tokens(h + Opt(k, v), token))
      == Line(Tokens(h, token)) + (if v.Some? then FieldText((token(k), v.value)) else "")
  {
    var extra := Opt(k, v);
    TokensAppend(h, extra, token);
    LineAppend(Tokens(h, token), Tokens(extra, token));
    if v.Some? {
      assert Tokens(extra, token) == [(token(k), v.value)];
      assert Line([(token(k), v.value)]) == token(k) + "=" + v.value + ";" + Line([]);
    } else {
      assert Tokens(extra, token) == [];
    }
  }

  /** As `LineExtendOpt`, with the appended text written as `OptText`. */
  lemma LineExtendOptText<K>(h: seq<(K, string)>, k: K, v: Option<string>, token: K -> string)
    ensures Line(Tokens(h + Opt(k, v), token)) == Line(Tokens(h, token)) + OptText(token(k), v)
  {
    LineExtendOpt(h, k, v, token);
    if v.Some? {
      assert FieldText((token(k), v.value)) == OptText(token(k), v);
    }
  }

  lemma {:induction false} LookupAbsent<K>(h: seq<(K, string)>, k: K)
    requires forall i :: 0 <= i < |h| ==> h[i].0 != k
    ensures Lookup(h, k) == None
    decreases |h|
  {
    if h != [] {
      assert forall i :: 0 <= i < |h[1..]| ==> h[1..][i] == h[i + 1];
      LookupAbsent(h[1..], k);
    }
  }

  lemma LookupOpt<K>(key: K, v: Option<string>, k: K)
    ensures Lookup(Opt(key, v), k) == if key == k then v else None
  {
    if v.Some? {
      assert Opt(key, v)[1..] == [];
    }
  }

  /** The keys of `h` appear in strictly increasing rank. */
  predicate InOrder<K>(h: seq<(K, string)>, rank: K -> int) {
    forall i, j :: 0 <= i < j < |h| ==> rank(h[i].0) < rank(h[j].0)
  }

  /** Every key of `h` ranks below `bound`. */
  predicate RanksBelow<K>(h: seq<(K, string)>, rank: K -> int, bound: int) {
    forall i :: 0 <= i < |h| ==> rank(h[i].0) < bound
  }

  /** Extending an ordered list by an optional field of higher rank keeps it ordered. */
  lemma InOrderExtend<K>(h: seq<(K, string)>, rank: K -> int, k: K, v: Option<string>)
    requires InOrder(h, rank) && RanksBelow(h, rank, rank(k))
    ensures InOrder(h + Opt(k, v), rank) && RanksBelow(h + Opt(k, v), rank, rank(k) + 1)
  {
    if v.None? {
      assert h + Opt(k, v) == h;
    }
  }

  /** How Java's string concatenation writes a possibly-null string. */
  function NullText(v: Option<string>): string {
    v.GetOr("null")
  }

  /** A null or empty required field replaced by its sentinel. */
  function OrSentinel(v: Option<string>, sentinel: string): (r: Option<string>)
    requires sentinel != []
    ensures r.Some? && r.value != []
    ensures v.Some? && v.value != [] ==> r == v
    ensures v.None? || v.value == [] ==> r == Some(sentinel)
  {
    if v.None? || v.value == [] then Some(sentinel) else v
  }
}
