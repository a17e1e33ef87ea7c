/** The few pieces of JavaScript semantics the modelled code relies on:
    nullable values, the truthiness of nullable strings, `Array.prototype.indexOf`,
    `Array.prototype.splice` and `Array.prototype.join`. */
module Js {

  /** A nullable value: `None` is JavaScript's `null` (or `undefined`). */
  datatype Option<+T> = None | Some(value: T)

  /** `Boolean(s)` for a nullable string: both `null` and `''` are falsy. */
  predicate Truthy(s: Option<string>): (b: bool)
    ensures s.None? ==> !b
    ensures s == Some("") ==> !b
    ensures s.Some? && |s.value| > 0 ==> b
  {
    s.Some? && s.value != ""
  }

  /** `s || null`: a falsy string collapses to `null`. */
  function OrNull(s: Option<string>): (r: Option<string>)
    ensures r.Some? <==> Truthy(s)
    ensures r.Some? ==> r == s
  {
    if Truthy(s) then s else None
  }

  /** `xs.indexOf(x)`: the first index of `x`, or -1 when `x` does not occur. */
  function IndexOf<T(==)>(xs: seq<T>, x: T): (r: int)
    ensures -1 <= r < |xs|
    ensures r == -1 <==> x !in xs
    ensures 0 <= r ==> xs[r] == x && x !in xs[..r]
  {
    if xs == [] then -1
    else if xs[0] == x then 0
    else
      var i := IndexOf(xs[1..], x);
      assert xs[1..][..if i < 0 then 0 else i] == xs[1..if i < 0 then 1 else i + 1];
      if i == -1 then -1 else i + 1
  }

  /** Where `splice(start, _)` starts on an array of length `len`: a negative
      start counts from the end, and both ends are clamped to the array. */
  function SpliceStart(len: nat, start: int): (s: nat)
    ensures s <= len
    ensures 0 <= start <= len ==> s == start
    ensures start < 0 && 0 <= len + start ==> s == len + start
  {
    if start < 0 then (if len + start < 0 then 0 else len + start)
    else if start > len then len
    else start
  }

  /** How many elements `splice(start, deleteCount)` removes. */
  function SpliceCount(len: nat, start: int, deleteCount: int): (c: nat)
    ensures SpliceStart(len, start) + c <= len
    ensures c <= if deleteCount < 0 then 0 else deleteCount
  {
    var s := SpliceStart(len, start);
    if deleteCount < 0 then 0
    else if deleteCount > len - s then len - s
    else deleteCount
  }

  /** What `xs.splice(start, deleteCount)` returns: the removed elements. */
  function SpliceRemoved<T>(xs: seq<T>, start: int, deleteCount: int): (r: seq<T>)
    ensures |r| == SpliceCount(|xs|, start, deleteCount)
  {
    var s := SpliceStart(|xs|, start);
    xs[s..s + SpliceCount(|xs|, start, deleteCount)]
  }

  /** What `xs` holds after `xs.splice(start, deleteCount)`. */
  function SpliceRest<T>(xs: seq<T>, start: int, deleteCount: int): (r: seq<T>)
    ensures |r| == |xs| - SpliceCount(|xs|, start, deleteCount)
  {
    var s := SpliceStart(|xs|, start);
    xs[..s] + xs[s + SpliceCount(|xs|, start, deleteCount)..]
  }

  /** An array the code mutates in place; `elements` is what it holds now. */
  class JsArray<T> {
    var elements: seq<T>

    /** `[].concat(xs)`: a new array holding a copy of `xs`. */
    constructor (xs: seq<T>)
      ensures elements == xs
    {
      elements := xs;
    }

    /** `splice(start, deleteCount)`: the elements from the clamped start are
        cut out and returned, and the array closes the gap. */
    method Splice(start: int, deleteCount: int) returns (removed: seq<T>)
      modifies this
      ensures removed == SpliceRemoved(old(elements), start, deleteCount)
      ensures elements == SpliceRest(old(elements), start, deleteCount)
      ensures var s := SpliceStart(|old(elements)|, start);
        old(elements) == elements[..s] + removed + elements[s..]
    {
      var s := SpliceStart(|elements|, start);
      var c := SpliceCount(|elements|, start, deleteCount);
      removed := elements[s..s + c];
      elements := elements[..s] + elements[s + c..];
    }
  }

  /** `parts.join(sep)`: the parts in order with `sep` between neighbours. */
  function Join(parts: seq<string>, sep: string): (r: string)
    ensures |parts| == 0 ==> r == ""
    ensures |parts| == 1 ==> r == parts[0]
  {
    if |parts| == 0 then ""
    else if |parts| == 1 then parts[0]
    else parts[0] + sep + Join(parts[1..], sep)
  }

  /** A join starts with the first part followed by the separator, and ends
      with the last part. */
  lemma {:induction false} JoinEnds(parts: seq<string>, sep: string)
    requires |parts| >= 1
    ensures var r := Join(parts, sep);
      && |parts[0]| <= |r| && r[..|parts[0]|] == parts[0]
      && (|parts| >= 2 ==> |parts[0]| + |sep| <= |r| && r[..|parts[0]| + |sep|] == parts[0] + sep)
      && |parts[|parts| - 1]| <= |r| && r[|r| - |parts[|parts| - 1]|..] == parts[|parts| - 1]
  {
    if |parts| >= 2 {
      var head := parts[0] + sep;
      var rest := Join(parts[1..], sep);
      var last := parts[|parts| - 1];
      JoinEnds(parts[1..], sep);
      assert parts[1..][|parts[1..]| - 1] == last;
      assert Join(parts, sep) == head + rest;
      assert (head + rest)[|head + rest| - |last|..] == rest[|rest| - |last|..];
      assert (head + rest)[..|head|] == head;
    }
  }

  /** `s.split(c)` for a one-character separator: the pieces between separators. */
  function Split(s: string, c: char): (r: seq<string>)
    ensures |r| >= 1
  {
    if s == [] then [""]
    else
      var rest := Split(s[1..], c);
      if s[0] == c then [""] + rest else [[s[0]] + rest[0]] + rest[1..]
  }

  lemma {:induction false} SplitNoSeparator(s: string, c: char)
    requires c !in s
    ensures Split(s, c) == [s]
  {
    if s != [] {
      SplitNoSeparator(s[1..], c);
      assert [s[0]] + s[1..] == s;
    }
  }

  lemma {:induction false} SplitAtSeparator(a: string, c: char, b: string)
    requires c !in a
    ensures Split(a + [c] + b, c) == [a] + Split(b, c)
  {
    if a == [] {
      assert a + [c] + b == [c] + b;
      assert ([c] + b)[1..] == b;
    } else {
      assert (a + [c] + b)[1..] == a[1..] + [c] + b;
      SplitAtSeparator(a[1..], c, b);
      assert [a[0]] + a[1..] == a;
    }
  }

  /** Joining with a one-character separator that occurs in no part is undone
      by splitting on it: the parts can be read back from the joined string. */
  lemma {:induction false} SplitJoin(parts: seq<string>, c: char)
    requires |parts| >= 1
    requires forall i :: 0 <= i < |parts| ==> c !in parts[i]
    ensures Split(Join(parts, [c]), c) == parts
  {
    if |parts| == 1 {
      SplitNoSeparator(parts[0], c);
    } else {
      SplitJoin(parts[1..], c);
      SplitAtSeparator(parts[0], c, Join(parts[1..], [c]));
      assert [parts[0]] + parts[1..] == parts;
    }
  }
}
