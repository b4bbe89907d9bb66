/** Types and text search shared by the other modules. */
module Foundation {

  datatype Option<+T> = None | Some(value: T)

  type byte = x: int | 0 <= x < 256

  const LF: byte := 10
  const CR: byte := 13

  /** The largest value of the source's `u64`. */
  const U64_MAX: nat := 0xFFFF_FFFF_FFFF_FFFF

  type u64 = x: nat | x <= U64_MAX

  function Max(a: nat, b: nat): nat {
    if a < b then b else a
  }

  lemma ConcatAssoc<T>(a: seq<T>, b: seq<T>, d: seq<T>)
    ensures a + (b + d) == a + b + d
  {
  }

  /** `pattern` occurs in `text` at offset `i`. */
  predicate OccursAt<T(==)>(text: seq<T>, pattern: seq<T>, i: nat) {
    i + |pattern| <= |text| && text[i..i + |pattern|] == pattern
  }

  ghost predicate Contains<T>(text: seq<T>, pattern: seq<T>) {
    exists i: nat :: OccursAt(text, pattern, i)
  }

  /** The first offset at or after `from` where `pattern` occurs. */
  function FindFrom(text: string, pattern: string, from: nat): (r: Option<nat>)
    ensures r.Some? ==> from <= r.value && OccursAt(text, pattern, r.value)
    ensures r.Some? ==> forall i: nat :: from <= i < r.value ==> !OccursAt(text, pattern, i)
    ensures r.None? ==> forall i: nat :: from <= i ==> !OccursAt(text, pattern, i)
    decreases |text| - from
  {
    if OccursAt(text, pattern, from) then Some(from)
    else if |text| <= from then None
    else FindFrom(text, pattern, from + 1)
  }

  /** Split around the first occurrence of `pattern`, as `str::split_once` does. */
  function SplitOnce(text: string, pattern: string): (r: Option<(string, string)>)
    ensures r.Some? ==> text == r.value.0 + pattern + r.value.1
    ensures r.None? <==> !Contains(text, pattern)
  {
    match FindFrom(text, pattern, 0)
    case None => None
    case Some(i) =>
      assert text == text[..i] + text[i..i + |pattern|] + text[i + |pattern|..];
      Some((text[..i], text[i + |pattern|..]))
  }

  lemma OccursInExtension<T>(text: seq<T>, rest: seq<T>, pattern: seq<T>, i: nat)
    requires i + |pattern| <= |text|
    ensures OccursAt(text, pattern, i) <==> OccursAt(text + rest, pattern, i)
  {
    assert (text + rest)[i..i + |pattern|] == text[i..i + |pattern|];
  }
}
