/** String primitives of the Rust standard library that the adapter relies on.
    A `string` is a sequence of Unicode scalar values, as a Rust `str` is. */
module Text {
  import opened Wrappers

  /** The Unicode White_Space property, which `char::is_whitespace` tests. */
  predicate IsWhitespace(c: char) {
    || '\U{9}' <= c <= '\U{D}'
    || c == ' ' || c == '\U{85}' || c == '\U{A0}' || c == '\U{1680}'
    || '\U{2000}' <= c <= '\U{200A}'
    || c == '\U{2028}' || c == '\U{2029}' || c == '\U{202F}' || c == '\U{205F}' || c == '\U{3000}'
  }

  function TrimStart(s: string): (r: string)
    ensures |r| <= |s| && r == s[|s| - |r|..]
    ensures r != [] ==> !IsWhitespace(r[0])
    ensures forall i :: 0 <= i < |s| - |r| ==> IsWhitespace(s[i])
  {
    if s != [] && IsWhitespace(s[0]) then TrimStart(s[1..]) else s
  }

  function TrimEnd(s: string): (r: string)
    ensures r <= s
    ensures r != [] ==> !IsWhitespace(r[|r| - 1])
    ensures forall i :: |r| <= i < |s| ==> IsWhitespace(s[i])
  {
    if s != [] && IsWhitespace(s[|s| - 1]) then TrimEnd(s[..|s| - 1]) else s
  }

  function Trim(s: string): string {
    TrimEnd(TrimStart(s))
  }

  lemma TrimsToItself(s: string)
    requires s != "" && !IsWhitespace(s[0]) && !IsWhitespace(s[|s| - 1])
    ensures Trim(s) == s
  {
  }

  lemma TrimNothing()
    ensures Trim("") == ""
  {
  }

  /** `s` with every whitespace character deleted. */
  function NoWs(s: string): string {
    if s == [] then []
    else if IsWhitespace(s[0]) then NoWs(s[1..])
    else [s[0]] + NoWs(s[1..])
  }

  lemma NoWsAppend(a: string, b: string)
    ensures NoWs(a + b) == NoWs(a) + NoWs(b)
  {
    if a == [] {
      assert a + b == b;
    } else {
      assert (a + b)[1..] == a[1..] + b;
    }
  }

  lemma NoWsAllWs(s: string)
    requires forall i :: 0 <= i < |s| ==> IsWhitespace(s[i])
    ensures NoWs(s) == []
  {
  }

  lemma NoWsTrimStart(s: string)
    ensures NoWs(TrimStart(s)) == NoWs(s)
  {
  }

  lemma NoWsTrim(s: string)
    ensures NoWs(Trim(s)) == NoWs(s)
  {
    NoWsTrimStart(s);
    NoWsTrimEnd(TrimStart(s));
  }

  lemma NoWsTrimEnd(s: string)
    ensures NoWs(TrimEnd(s)) == NoWs(s)
  {
    var r := TrimEnd(s);
    assert s == r + s[|r|..];
    NoWsAppend(r, s[|r|..]);
    NoWsAllWs(s[|r|..]);
  }

  /** Leading whitespace is a prefix property: once a non-white character is seen, more text changes nothing. */
  lemma {:induction false} TrimStartAppend(a: string, b: string)
    ensures TrimStart(a) != [] ==> TrimStart(a + b) == TrimStart(a) + b
    ensures TrimStart(a) == [] ==> TrimStart(a + b) == TrimStart(b)
  {
    if a == [] {
      assert a + b == b;
    } else if IsWhitespace(a[0]) {
      assert (a + b)[1..] == a[1..] + b;
      TrimStartAppend(a[1..], b);
    } else {
      assert (a + b)[0] == a[0];
    }
  }

  predicate OccursAt(text: string, pat: string, i: nat) {
    i + |pat| <= |text| && text[i..i + |pat|] == pat
  }

  /** `str::find`: the first position at which `pat` occurs. */
  function Find(text: string, pat: string): (r: Option<nat>)
    ensures r.Some? ==> OccursAt(text, pat, r.value)
    ensures forall i: nat :: OccursAt(text, pat, i) ==> r.Some? && r.value <= i
  {
    FindFrom(text, pat, 0)
  }

  function FindFrom(text: string, pat: string, from: nat): (r: Option<nat>)
    ensures r.Some? ==> from <= r.value && OccursAt(text, pat, r.value)
    ensures forall i: nat :: from <= i && OccursAt(text, pat, i) ==> r.Some? && r.value <= i
    decreases |text| - from
  {
    if |text| < from + |pat| then None
    else if text[from..from + |pat|] == pat then Some(from)
    else FindFrom(text, pat, from + 1)
  }

  predicate EndsWith(text: string, suffix: string) {
    |suffix| <= |text| && text[|text| - |suffix|..] == suffix
  }

  lemma SliceOfConcat(a: string, b: string, i: nat, j: nat)
    requires i <= j <= |a|
    ensures (a + b)[i..j] == a[i..j]
  {
  }
}
