/**
 * The parts of Go's string handling that the gateway relies on:
 * the `string(b)` conversion of a byte slice and `strings.Join`.
 * `Split` is the inverse of `Join` used to state what a joined header keeps.
 */
module GoStrings {

  newtype byte = x: int | 0 <= x < 256

  type Bytes = seq<byte>

  /** `string(b)`: every byte becomes one character with the same code. */
  function BytesToString(b: Bytes): (s: string)
    ensures |s| == |b|
  {
    seq(|b|, i requires 0 <= i < |b| => (b[i] as int) as char)
  }

  /** A string all of whose characters fit in one byte. */
  predicate IsByteString(s: string)
  {
    forall i :: 0 <= i < |s| ==> s[i] as int < 256
  }

  /** `[]byte(s)` for a string whose characters are bytes. */
  function StringToBytes(s: string): (b: Bytes)
    requires IsByteString(s)
    ensures |b| == |s|
  {
    seq(|s|, i requires 0 <= i < |s| => (s[i] as int) as byte)
  }

  /** Converting a body to a string loses nothing: the bytes come back. */
  lemma BytesRoundTrip(b: Bytes)
    ensures IsByteString(BytesToString(b))
    ensures StringToBytes(BytesToString(b)) == b
  {
    var s := BytesToString(b);
    assert forall i :: 0 <= i < |s| ==> s[i] as int == b[i] as int;
    assert StringToBytes(s) == b;
  }

  /** ... and a byte string comes back from its bytes. */
  lemma StringRoundTrip(s: string)
    requires IsByteString(s)
    ensures BytesToString(StringToBytes(s)) == s
  {
    var b := StringToBytes(s);
    assert forall i :: 0 <= i < |b| ==> b[i] as int == s[i] as int;
    assert BytesToString(b) == s;
  }

  /** Two bodies with the same string form are the same body. */
  lemma BytesToStringInjective(a: Bytes, b: Bytes)
    requires BytesToString(a) == BytesToString(b)
    ensures a == b
  {
    BytesRoundTrip(a);
    BytesRoundTrip(b);
  }

  /** Sum of the lengths of the elements. */
  function TotalLength(elems: seq<string>): nat
  {
    if elems == [] then 0 else |elems[0]| + TotalLength(elems[1..])
  }

  /**
   * `strings.Join(elems, sep)`: the elements in order with `sep` between
   * neighbours; the empty slice gives the empty string.
   */
  function Join(elems: seq<string>, sep: string): (s: string)
    ensures elems == [] ==> s == ""
    ensures elems != [] ==> |s| == TotalLength(elems) + |sep| * (|elems| - 1)
    ensures elems != [] ==> elems[0] <= s
  {
    if |elems| == 0 then ""
    else if |elems| == 1 then elems[0]
    else elems[0] + sep + Join(elems[1..], sep)
  }

  /** Index of the first occurrence of `c` in `s`. */
  function IndexOf(s: string, c: char): (i: nat)
    requires c in s
    ensures i < |s| && s[i] == c && c !in s[..i]
  {
    if s[0] == c then 0
    else
      var j := IndexOf(s[1..], c);
      assert s[..j + 1] == [s[0]] + s[1..][..j];
      j + 1
  }

  /** `strings.Split(s, string(c))`: the pieces of `s` between occurrences of `c`. */
  function Split(s: string, c: char): (parts: seq<string>)
    ensures |parts| >= 1
    ensures forall k :: 0 <= k < |parts| ==> c !in parts[k]
    decreases |s|
  {
    if c in s then
      var i := IndexOf(s, c);
      [s[..i]] + Split(s[i + 1..], c)
    else [s]
  }

  /** Joining with `sep` in front of a non-empty tail. */
  lemma JoinCons(head: string, tail: seq<string>, sep: string)
    requires tail != []
    ensures Join([head] + tail, sep) == head + sep + Join(tail, sep)
  {
    assert ([head] + tail)[1..] == tail;
  }

  /** Joining the pieces of a split gives back the string. */
  lemma {:induction false} JoinSplit(s: string, c: char)
    ensures Join(Split(s, c), [c]) == s
    decreases |s|
  {
    if c in s {
      var i := IndexOf(s, c);
      var rest := s[i + 1..];
      assert Split(s, c) == [s[..i]] + Split(rest, c);
      JoinSplit(rest, c);
      JoinCons(s[..i], Split(rest, c), [c]);
      assert s == s[..i] + [c] + rest;
    }
  }

  /**
   * Splitting a join gives back the elements, provided no element contains
   * the separator.
   */
  lemma {:induction false} SplitJoin(elems: seq<string>, c: char)
    requires elems != []
    requires forall k :: 0 <= k < |elems| ==> c !in elems[k]
    ensures Split(Join(elems, [c]), c) == elems
  {
    if |elems| > 1 {
      var head, tail := elems[0], elems[1..];
      var rest := Join(tail, [c]);
      var s := head + [c] + rest;
      JoinCons(head, tail, [c]);
      assert Join(elems, [c]) == s by { assert elems == [head] + tail; }
      assert s[|head|] == c;
      var i := IndexOf(s, c);
      assert i == |head|;
      assert s[..i] == head;
      assert s[i + 1..] == rest;
      SplitJoin(tail, c);
      assert elems == [head] + tail;
    }
  }

  /**
   * An element holding the separator cannot be told apart after joining:
   * one value `a,b` and two values `a` and `b` join to the same text.
   */
  lemma JoinLosesSeparatorInValues()
    ensures Join(["a,b"], ",") == Join(["a", "b"], ",")
    ensures ["a,b"] != ["a", "b"]
  {
  }
}
