/** The few functions of Go's `strings` and `sort` packages that the rest relies on. */
module Text {

  datatype Option<+T> = None | Some(value: T)

  /** A success value, or the error that Go returns beside a nil. */
  datatype Result<+T, +E> = Ok(value: T) | Err(error: E)

  lemma Assoc<T>(a: seq<T>, b: seq<T>, c: seq<T>)
    ensures a + b + c == a + (b + c)
  {
  }

  // ---------------------------------------------------------------- TrimSpace

  /** `unicode.IsSpace`. */
  predicate IsSpace(c: char) {
    || '\t' <= c <= '\r'
    || c == ' ' || c == '\U{85}' || c == '\U{A0}' || c == '\U{1680}'
    || '\U{2000}' <= c <= '\U{200A}'
    || c == '\U{2028}' || c == '\U{2029}' || c == '\U{202F}' || c == '\U{205F}' || c == '\U{3000}'
  }

  function TrimLeft(s: string): (r: string)
    ensures |r| <= |s| && r == s[|s| - |r|..]
    ensures r != "" ==> !IsSpace(r[0])
    ensures s != "" && !IsSpace(s[0]) ==> r == s
  {
    if s != "" && IsSpace(s[0]) then TrimLeft(s[1..]) else s
  }

  function TrimRight(s: string): (r: string)
    ensures |r| <= |s| && r == s[..|r|]
    ensures r != "" ==> !IsSpace(r[|r| - 1])
    ensures s != "" && !IsSpace(s[|s| - 1]) ==> r == s
  {
    if s != "" && IsSpace(s[|s| - 1]) then TrimRight(s[..|s| - 1]) else s
  }

  function TrimSpace(s: string): (r: string)
    ensures |r| <= |s| && (|r| == |s| ==> r == s)
    ensures forall c :: c in r ==> c in s
  {
    var left := TrimLeft(s);
    var both := TrimRight(left);
    SliceMembers(s, |s| - |left|, |s|);
    SliceMembers(left, 0, |both|);
    both
  }

  lemma {:induction false} SliceMembers<T>(s: seq<T>, i: nat, j: nat)
    requires i <= j <= |s|
    ensures forall x :: x in s[i..j] ==> x in s
    ensures j - i == |s| ==> s[i..j] == s
  {
  }

  predicate Trimmed(s: string) {
    s == "" || (!IsSpace(s[0]) && !IsSpace(s[|s| - 1]))
  }

  /** `TrimSpace` returns trimmed strings, and leaves exactly the trimmed strings alone. */
  lemma TrimSpaceFixes(s: string)
    ensures Trimmed(TrimSpace(s))
    ensures TrimSpace(s) == s <==> Trimmed(s)
  {
    var l := TrimLeft(s);
    var r := TrimRight(l);
    assert r != "" ==> r[0] == l[0];
  }

  // -------------------------------------------------------------------- Index

  /** `pat` occurs in `s` at position `i`. */
  predicate At(s: string, i: nat, pat: string) {
    i + |pat| <= |s| && s[i..i + |pat|] == pat
  }

  /** `strings.Index`: where `pat` first occurs in `s` (see IndexIsFirst), -1 when it does not. */
  function Index(s: string, pat: string): (i: int)
    ensures -1 <= i && i + |pat| <= |s| + (if i < 0 then |pat| + 1 else 0)
  {
    if pat <= s then 0
    else if s == "" then -1
    else
      var i := Index(s[1..], pat);
      if i < 0 then -1 else i + 1
  }

  lemma {:induction false} IndexIsFirst(s: string, pat: string)
    ensures Index(s, pat) >= 0 ==> At(s, Index(s, pat), pat)
    ensures forall j: nat :: At(s, j, pat) ==> 0 <= Index(s, pat) <= j
  {
    if pat <= s {
      assert s[0..0 + |pat|] == pat;
    } else if s == "" {
      assert forall j: nat :: At(s, j, pat) ==> pat == "";
    } else {
      IndexIsFirst(s[1..], pat);
      AtTail(s, pat);
    }
  }

  lemma {:induction false} AtTail(s: string, pat: string)
    requires s != ""
    ensures forall j: nat :: At(s[1..], j, pat) ==> At(s, j + 1, pat)
    ensures forall j: nat :: At(s, j, pat) ==> if j == 0 then pat <= s else At(s[1..], j - 1, pat)
  {
    forall j: nat | At(s[1..], j, pat) ensures At(s, j + 1, pat) {
      assert s[j + 1..j + 1 + |pat|] == s[1..][j..j + |pat|];
    }
    forall j: nat | At(s, j, pat) && j > 0 ensures At(s[1..], j - 1, pat) {
      assert s[j..j + |pat|] == s[1..][j - 1..j - 1 + |pat|];
    }
  }

  /** `Index` skips a part that does not contain the first character of the pattern. */
  lemma {:induction false} IndexSkips(part: string, rest: string, pat: string)
    requires pat != "" && pat[0] !in part
    ensures Index(part + rest, pat) == var i := Index(rest, pat); if i < 0 then -1 else |part| + i
  {
    if part == "" {
      assert part + rest == rest;
    } else {
      assert (part + rest)[0] == part[0] != pat[0];
      assert (part + rest)[1..] == part[1..] + rest;
      IndexSkips(part[1..], rest, pat);
    }
  }

  // --------------------------------------------------------------------- Join

  /** `strings.Join`. */
  function Join(parts: seq<string>, sep: string): string {
    if parts == [] then ""
    else if |parts| == 1 then parts[0]
    else parts[0] + sep + Join(parts[1..], sep)
  }

  // ------------------------------------------------------------- sort.Strings

  /** Go compares strings byte by byte, which on UTF-8 is the order of the code points. */
  predicate Leq(a: string, b: string) {
    if a == "" then true
    else if b == "" then false
    else a[0] < b[0] || (a[0] == b[0] && Leq(a[1..], b[1..]))
  }

  lemma {:induction false} LeqTotal(a: string, b: string)
    ensures Leq(a, b) || Leq(b, a)
    ensures Leq(a, b) && Leq(b, a) ==> a == b
  {
    if a != "" && b != "" && a[0] == b[0] {
      LeqTotal(a[1..], b[1..]);
      assert a == [a[0]] + a[1..] && b == [b[0]] + b[1..];
    }
  }

  lemma {:induction false} LeqTransitive(a: string, b: string, c: string)
    requires Leq(a, b) && Leq(b, c)
    ensures Leq(a, c)
  {
    if a != "" && a[0] == b[0] == c[0] {
      LeqTransitive(a[1..], b[1..], c[1..]);
    }
  }

  predicate Sorted(keys: seq<string>) {
    forall i, j :: 0 <= i < j < |keys| ==> Leq(keys[i], keys[j])
  }

  function InsertString(k: string, keys: seq<string>): (r: seq<string>)
    ensures multiset(r) == multiset{k} + multiset(keys)
  {
    if keys == [] then [k]
    else if Leq(k, keys[0]) then
      assert keys == [keys[0]] + keys[1..];
      [k] + keys
    else
      assert keys == [keys[0]] + keys[1..];
      [keys[0]] + InsertString(k, keys[1..])
  }

  lemma {:induction false} InsertStringSorted(k: string, keys: seq<string>)
    requires Sorted(keys)
    ensures Sorted(InsertString(k, keys))
  {
    if keys != [] {
      LeqTotal(k, keys[0]);
      if Leq(k, keys[0]) {
        forall j | 0 <= j < |keys| ensures Leq(k, keys[j]) {
          if j > 0 { LeqTransitive(k, keys[0], keys[j]); }
        }
      } else {
        InsertStringSorted(k, keys[1..]);
        var r := InsertString(k, keys[1..]);
        forall j | 0 <= j < |r| ensures Leq(keys[0], r[j]) {
          assert r[j] in multiset(r);
          assert r[j] == k || r[j] in keys[1..];
        }
      }
    }
  }

  /** `sort.Strings`. `SortStrings` and `SortedIsUnique` together say that the algorithm does not matter. */
  function SortStrings(keys: seq<string>): (r: seq<string>)
    ensures Sorted(r) && multiset(r) == multiset(keys)
  {
    if keys == [] then []
    else
      var rest := SortStrings(keys[1..]);
      InsertStringSorted(keys[0], rest);
      assert keys == [keys[0]] + keys[1..];
      InsertString(keys[0], rest)
  }

  lemma HeadIsLeast(a: seq<string>, x: string)
    requires Sorted(a) && x in multiset(a)
    ensures Leq(a[0], x)
  {
    var i :| 0 <= i < |a| && a[i] == x;
    if i == 0 { LeqTotal(x, x); }
  }

  lemma TailMultiset(a: seq<string>)
    requires a != []
    ensures multiset(a[1..]) == multiset(a) - multiset{a[0]}
  {
    assert a == [a[0]] + a[1..];
  }

  lemma SameHead(a: seq<string>, b: seq<string>)
    requires Sorted(a) && Sorted(b) && multiset(a) == multiset(b) && a != [] && b != []
    ensures a[0] == b[0]
  {
    assert a[0] in multiset(a) && b[0] in multiset(b);
    HeadIsLeast(a, b[0]);
    HeadIsLeast(b, a[0]);
    LeqTotal(a[0], b[0]);
  }

  lemma {:induction false} SortedIsUnique(a: seq<string>, b: seq<string>)
    requires Sorted(a) && Sorted(b) && multiset(a) == multiset(b)
    ensures a == b
  {
    assert |a| == |multiset(a)| == |multiset(b)| == |b|;
    if a != [] {
      SameHead(a, b);
      TailMultiset(a);
      TailMultiset(b);
      SortedIsUnique(a[1..], b[1..]);
      assert a == [a[0]] + a[1..] && b == [b[0]] + b[1..];
    }
  }
}
