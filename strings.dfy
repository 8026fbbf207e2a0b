/** Python's `str.split(sep)` (no maxsplit) and `sep.join(parts)`, over strings as
    sequences of characters. */
module Strings {
  import opened Results

  /** `sep` occurs in `s` starting at position `p`. */
  predicate OccursAt(s: string, sep: string, p: nat) {
    p + |sep| <= |s| && s[p..p + |sep|] == sep
  }

  /** Python's `sep in s`. */
  ghost predicate Occurs(sep: string, s: string) {
    exists p: nat :: OccursAt(s, sep, p)
  }

  /** Every character of `sep` after the first differs from the first one, so two
      occurrences of `sep` can never overlap and no occurrence can start inside
      another (all three separators of the pipeline start with the only newline
      they contain). */
  ghost predicate Borderless(sep: string) {
    |sep| > 0 && forall i :: 0 < i < |sep| ==> sep[i] != sep[0]
  }

  /** `s.find(sep, i)`: the first occurrence of `sep` at or after `i`. */
  function FindFrom(s: string, sep: string, i: nat): (r: Option<nat>)
    requires |sep| > 0
    decreases |s| - i
    ensures r.Some? ==> i <= r.value && OccursAt(s, sep, r.value)
    ensures r.Some? ==> forall q: nat :: i <= q < r.value ==> !OccursAt(s, sep, q)
    ensures r.None? ==> forall q: nat :: i <= q ==> !OccursAt(s, sep, q)
  {
    if i + |sep| > |s| then None
    else if s[i..i + |sep|] == sep then Some(i)
    else FindFrom(s, sep, i + 1)
  }

  /** `sep.join(parts)`. */
  function Join(parts: seq<string>, sep: string): string {
    if |parts| == 0 then ""
    else if |parts| == 1 then parts[0]
    else parts[0] + sep + Join(parts[1..], sep)
  }

  /** The pieces' lengths added up. */
  function TotalLength(parts: seq<string>): nat {
    if |parts| == 0 then 0 else |parts[0]| + TotalLength(parts[1..])
  }

  /** Joining `n > 0` pieces adds exactly `n - 1` separators to the pieces, and the
      result starts with the first piece. */
  lemma {:induction false} JoinLength(parts: seq<string>, sep: string)
    requires |parts| > 0
    ensures |Join(parts, sep)| == TotalLength(parts) + (|parts| - 1) * |sep|
    ensures parts[0] <= Join(parts, sep)
    decreases |parts|
  {
    if |parts| > 1 {
      var n := |parts| - 1;
      JoinLength(parts[1..], sep);
      assert (n - 1) * |sep| + |sep| == n * |sep|;
    }
  }

  /** `s.split(sep)`: the pieces between successive non-overlapping occurrences of
      `sep`, scanning left to right. */
  function Split(s: string, sep: string): (parts: seq<string>)
    requires |sep| > 0
    decreases |s|
    ensures |parts| >= 1
    ensures |parts| >= 2 <==> Occurs(sep, s)
  {
    var first := FindFrom(s, sep, 0);
    if first.None? then [s]
    else
      assert OccursAt(s, sep, first.value);
      [s[..first.value]] + Split(s[first.value + |sep|..], sep)
  }

  /** Joining a leading piece onto a non-empty rest puts one separator between them. */
  lemma {:induction false} JoinCons(x: string, rest: seq<string>, sep: string)
    requires |rest| >= 1
    ensures Join([x] + rest, sep) == x + sep + Join(rest, sep)
  {
    assert ([x] + rest)[1..] == rest;
  }

  /** Concatenation regroups. */
  lemma {:induction false} ConcatRegroups(a: string, b: string, c: string)
    ensures a + (b + c) == a + b + c
  {
  }

  /** One step of a split: the piece before the first occurrence, then the split of
      what follows it. */
  lemma {:induction false} SplitStep(s: string, sep: string, p: nat)
    requires |sep| > 0 && FindFrom(s, sep, 0) == Some(p)
    ensures Split(s, sep) == [s[..p]] + Split(s[p + |sep|..], sep)
  {
    var first := FindFrom(s, sep, 0);
    assert first.value == p;
  }

  /** Joining the pieces of a split with the same separator gives the string back. */
  lemma {:induction false} JoinSplit(s: string, sep: string)
    requires |sep| > 0
    ensures Join(Split(s, sep), sep) == s
    decreases |s|
  {
    var r := FindFrom(s, sep, 0);
    if r.Some? {
      var p := r.value;
      var rest := s[p + |sep|..];
      var pieces := Split(rest, sep);
      JoinSplit(rest, sep);
      SplitStep(s, sep, p);
      JoinCons(s[..p], pieces, sep);
      assert Join(Split(s, sep), sep) == s[..p] + sep + Join(pieces, sep);
      assert s[p..p + |sep|] == sep;
      assert s == s[..p] + s[p..p + |sep|] + rest;
    } else {
      assert Split(s, sep) == [s];
    }
  }

  /** No piece of a split contains the separator. */
  lemma {:induction false} SplitPiecesAreFree(s: string, sep: string)
    requires |sep| > 0
    ensures forall j :: 0 <= j < |Split(s, sep)| ==> !Occurs(sep, Split(s, sep)[j])
    decreases |s|
  {
    var r := FindFrom(s, sep, 0);
    if r.Some? {
      var p := r.value;
      var rest := s[p + |sep|..];
      SplitPiecesAreFree(rest, sep);
      SplitStep(s, sep, p);
      var parts := Split(s, sep);
      forall q: nat
        ensures !OccursAt(s[..p], sep, q)
      {
        if q + |sep| <= p {
          assert s[..p][q..q + |sep|] == s[q..q + |sep|];
          assert !OccursAt(s, sep, q);
        }
      }
      forall j | 0 <= j < |parts|
        ensures !Occurs(sep, parts[j])
      {
        if j > 0 {
          assert parts[j] == Split(rest, sep)[j - 1];
        }
      }
    }
  }

  /** Splitting `head + sep + tail` gives back exactly `head` and `tail` when neither
      contains the separator and the separator cannot straddle a boundary. */
  lemma {:induction false} SplitAroundSeparator(head: string, sep: string, tail: string)
    requires Borderless(sep)
    requires !Occurs(sep, head) && !Occurs(sep, tail)
    ensures Split(head + sep + tail, sep) == [head, tail]
  {
    var s := head + sep + tail;
    assert OccursAt(s, sep, |head|) by {
      assert s[|head|..|head| + |sep|] == sep;
    }
    forall q: nat | q < |head|
      ensures !OccursAt(s, sep, q)
    {
      if q + |sep| <= |head| {
        assert s[q..q + |sep|] == head[q..q + |sep|];
        assert !OccursAt(head, sep, q);
      } else if q + |sep| <= |s| {
        var i := |head| - q;
        assert s[q..q + |sep|][i] == sep[0] != sep[i];
      }
    }
    var r := FindFrom(s, sep, 0);
    assert r == Some(|head|);
    assert s[|head| + |sep|..] == tail;
    assert FindFrom(tail, sep, 0).None?;
    assert Split(tail, sep) == [tail];
    assert s[..|head|] == head;
  }

  /** A tag free of the separator's first character cannot create an occurrence. */
  lemma {:induction false} LabelKeepsSeparatorOut(tag: string, x: string, sep: string)
    requires |sep| > 0 && sep[0] !in tag
    requires !Occurs(sep, x)
    ensures !Occurs(sep, tag + x)
  {
    var s := tag + x;
    forall p: nat
      ensures !OccursAt(s, sep, p)
    {
      if p + |sep| <= |s| {
        if p < |tag| {
          assert s[p..p + |sep|][0] == tag[p] != sep[0];
        } else {
          assert s[p..p + |sep|] == x[p - |tag|..p - |tag| + |sep|];
          assert !OccursAt(x, sep, p - |tag|);
        }
      }
    }
  }
}
