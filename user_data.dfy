/**
 * The user-data list both builders keep: keys and values interleaved in one
 * list, appended two entries at a time, so that the list length is always
 * even and the key of pair `n` sits at index `2n`.
 */
module UserData {
  import opened Wrappers
  import opened Escaping
  import opened Decimal
  import opened Wire

  /** The list invariant: even length, a key at every even index, and every stored entry escaped. */
  predicate WellFormed(ud: seq<Option<string>>) {
    && |ud| % 2 == 0
    && (forall i :: 0 <= i < |ud| && i % 2 == 0 ==> ud[i].Some?)
    && (forall i :: 0 <= i < |ud| && ud[i].Some? ==> IsEscaped(ud[i].value))
  }

  /** Two more entries keep a length even. */
  lemma EvenPlusTwo(n: int)
    requires n % 2 == 0
    ensures (n + 2) % 2 == 0 && (n + 2) / 2 == n / 2 + 1
  {
  }

  /** The key put in place of a null or empty key for the pair with index `n`. */
  function MissingKey(n: nat): string {
    "_MISSING_KEY_" + DecimalString(n)
  }

  lemma MissingKeyIsClean(n: nat)
    ensures IsClean(MissingKey(n)) && MissingKey(n) != []
  {
    var p := "_MISSING_KEY_";
    assert IsClean(p);
    assert IsClean(DecimalString(n));
    assert MissingKey(n) == p + DecimalString(n);
  }

  /**
   * The list after one pair is added: exactly two entries are appended, the
   * escaped key (or the missing-key placeholder numbered by the pairs already
   * stored) and then the escaped value.
   */
  function AddPair(ud: seq<Option<string>>, key: Option<string>, value: Option<string>): (r: seq<Option<string>>)
    ensures |r| == |ud| + 2 && r[..|ud|] == ud
    ensures key.Some? && key.value != [] ==> r[|ud|] == Some(Escape(key.value))
    ensures key.None? || key.value == [] ==> r[|ud|] == Some(MissingKey(|ud| / 2))
    ensures r[|ud| + 1] == EscapeNullable(value)
    ensures WellFormed(ud) ==> WellFormed(r)
  {
    var k := if key.None? || key.value == [] then MissingKey(|ud| / 2) else key.value;
    MissingKeyIsClean(|ud| / 2);
    CleanIsEscaped(MissingKey(|ud| / 2));
    var entry := EscapeNullable(Some(k));
    var escapedValue := EscapeNullable(value);
    WellFormedSnoc(ud, entry.value, escapedValue);
    ud + [entry, escapedValue]
  }

  /** Appending an escaped key and an escaped-or-null value keeps the list well formed. */
  lemma WellFormedSnoc(ud: seq<Option<string>>, key: string, value: Option<string>)
    requires IsEscaped(key) && (value.Some? ==> IsEscaped(value.value))
    ensures WellFormed(ud) ==> WellFormed(ud + [Some(key), value])
  {
    if WellFormed(ud) {
      var r := ud + [Some(key), value];
      EvenPlusTwo(|ud|);
      forall i | 0 <= i < |r| && r[i].Some?
        ensures IsEscaped(r[i].value)
      {
        if i < |ud| {
          assert r[i] == ud[i];
        }
      }
      forall i | 0 <= i < |r| && i % 2 == 0
        ensures r[i].Some?
      {
        if i < |ud| {
          assert r[i] == ud[i];
        }
      }
    }
  }

  /** The list after each entry of `entries` is added in turn. */
  function AddPairs(ud: seq<Option<string>>, entries: seq<(Option<string>, Option<string>)>): (r: seq<Option<string>>)
    ensures |r| == |ud| + 2 * |entries| && r[..|ud|] == ud
    ensures WellFormed(ud) ==> WellFormed(r)
    decreases |entries|
  {
    if entries == [] then ud
    else
      var last := entries[|entries| - 1];
      var before := AddPairs(ud, entries[..|entries| - 1]);
      AddPair(before, last.0, last.1)
  }

  /** One step of a loop that adds the entries in turn. */
  lemma AddPairsSnoc(ud: seq<Option<string>>, entries: seq<(Option<string>, Option<string>)>, i: nat)
    requires i < |entries|
    ensures AddPairs(ud, entries[..i + 1]) == AddPair(AddPairs(ud, entries[..i]), entries[i].0, entries[i].1)
  {
    assert entries[..i + 1][..i] == entries[..i];
  }

  /** The pairs as written into a line, in insertion order; a null entry is written `null`. */
  function Pairs(ud: seq<Option<string>>): (r: seq<Field>)
    requires |ud| % 2 == 0
    ensures |r| == |ud| / 2
    ensures forall j :: 0 <= j < |r| ==> r[j] == (NullText(ud[2 * j]), NullText(ud[2 * j + 1]))
    decreases |ud|
  {
    if ud == [] then []
    else Pairs(ud[..|ud| - 2]) + [(NullText(ud[|ud| - 2]), NullText(ud[|ud| - 1]))]
  }

  /** One step of a loop that writes the pairs in order after `head`. */
  lemma PairsSnoc(head: seq<Field>, ud: seq<Option<string>>, i: nat)
    requires i % 2 == 0 && i + 2 <= |ud|
    ensures Line(head + Pairs(ud[..i + 2]))
      == Line(head + Pairs(ud[..i])) + FieldText((NullText(ud[i]), NullText(ud[i + 1])))
  {
    var s := ud[..i + 2];
    assert s[..|s| - 2] == ud[..i];
    var f := (NullText(ud[i]), NullText(ud[i + 1]));
    assert Pairs(s) == Pairs(ud[..i]) + [f];
    assert head + Pairs(s) == (head + Pairs(ud[..i])) + [f];
    LineSnoc(head + Pairs(ud[..i]), f);
  }

  /** Two more entries (one pair) write one more field, at the end: pairs are written in insertion order. */
  lemma PairsAppend(ud: seq<Option<string>>, r: seq<Option<string>>)
    requires |ud| % 2 == 0 && |r| == |ud| + 2 && r[..|ud|] == ud
    ensures Pairs(r) == Pairs(ud) + [(NullText(r[|ud|]), NullText(r[|ud| + 1]))]
  {
    EvenPlusTwo(|ud|);
    assert r[..|r| - 2] == ud;
  }

  /** A well-formed list is written as escaped fields. */
  lemma PairsEscaped(ud: seq<Option<string>>)
    requires WellFormed(ud)
    ensures FieldsEscaped(Pairs(ud))
  {
    var r := Pairs(ud);
    assert IsClean("null");
    CleanIsEscaped("null");
    forall j | 0 <= j < |r|
      ensures IsEscaped(r[j].0) && IsEscaped(r[j].1)
    {
      assert r[j] == (NullText(ud[2 * j]), NullText(ud[2 * j + 1]));
    }
  }
}
