/** String utilities the declension engine relies on: suffix tests, Rust's
    UTF-8 byte slicing, and `split('/')` / `join("/")`. */
module Text {
  import opened Wrappers

  /** `lower_no_macrons`: folds a string for suffix matching (macrons
      dropped, lower case). Its definition is not part of this model, so
      every member that matches suffixes takes it as a parameter. */
  type Folder = string -> string

  /** Rust's `str::ends_with`. */
  predicate EndsWith(s: string, suffix: string) {
    |suffix| <= |s| && s[|s| - |suffix|..] == suffix
  }

  // ---------------------------------------------------------------------------
  // UTF-8 byte lengths and Rust's byte-indexed slicing
  // ---------------------------------------------------------------------------

  /** Number of bytes UTF-8 uses for one scalar value. */
  function Utf8Len(c: char): (k: nat)
    ensures 1 <= k <= 4
    ensures k == 1 <==> c as int < 0x80
  {
    if c as int < 0x80 then 1
    else if c as int < 0x800 then 2
    else if c as int < 0x1_0000 then 3
    else 4
  }

  /** `str::len()`: the length of a string in UTF-8 bytes. */
  function ByteLen(s: string): nat {
    if s == [] then 0 else ByteLen(s[..|s| - 1]) + Utf8Len(s[|s| - 1])
  }

  predicate IsAscii(s: string) {
    forall i :: 0 <= i < |s| ==> s[i] as int < 0x80
  }

  lemma {:induction false} ByteLenPrefix(s: string, k: nat)
    requires k <= |s|
    ensures ByteLen(s[..k]) + (|s| - k) <= ByteLen(s)
    decreases |s|
  {
    if k < |s| {
      var s' := s[..|s| - 1];
      assert s'[..k] == s[..k];
      ByteLenPrefix(s', k);
    } else {
      assert s[..k] == s;
    }
  }

  /** `&s[..s.len() - n]`: drops the last `n` BYTES of `s`. The slice
      panics (None here) when `s` is shorter than `n` bytes or when the cut
      falls inside a multi-byte character. */
  function TrimBytes(s: string, n: nat): (r: Option<string>)
    ensures r.Some? ==> r.value <= s && ByteLen(r.value) + n == ByteLen(s)
    ensures r.None? ==> forall k :: 0 <= k <= |s| ==> ByteLen(s[..k]) + n != ByteLen(s)
    decreases |s|
  {
    if n == 0 then Some(s)
    else if |s| == 0 then None
    else
      var last := Utf8Len(s[|s| - 1]);
      var init := s[..|s| - 1];
      assert ByteLen(s) == ByteLen(init) + last;
      if n < last then
        assert forall k :: 0 <= k < |s| ==> ByteLen(s[..k]) + n != ByteLen(s) by {
          forall k | 0 <= k < |s| ensures ByteLen(s[..k]) + n != ByteLen(s) {
            assert init[..k] == s[..k];
            ByteLenPrefix(init, k);
          }
        }
        assert s[..|s|] == s;
        None
      else
        var r := TrimBytes(init, n - last);
        assert r.None? ==> forall k :: 0 <= k < |s| ==> ByteLen(s[..k]) + n != ByteLen(s) by {
          forall k | 0 <= k < |s| ensures r.None? ==> ByteLen(s[..k]) + n != ByteLen(s) {
            assert init[..k] == s[..k];
          }
        }
        r
  }

  /** When the bytes to drop are `n` ASCII characters, the byte slice is the
      character slice. */
  lemma {:induction false} TrimAsciiTail(s: string, n: nat)
    requires n <= |s| && IsAscii(s[|s| - n..])
    ensures TrimBytes(s, n) == Some(s[..|s| - n])
    decreases n
  {
    if n > 0 {
      var init := s[..|s| - 1];
      assert s[|s| - 1] == s[|s| - n..][n - 1];
      assert init[|init| - (n - 1)..] == s[|s| - n..][..n - 1];
      TrimAsciiTail(init, n - 1);
      assert init[..|init| - (n - 1)] == s[..|s| - n];
      assert Utf8Len(s[|s| - 1]) == 1;
    } else {
      assert s[..|s|] == s;
    }
  }

  // ---------------------------------------------------------------------------
  // split('/') and join("/")
  // ---------------------------------------------------------------------------

  /** `parts.join("/")`. */
  function Join(parts: seq<string>): string {
    if |parts| == 0 then ""
    else if |parts| == 1 then parts[0]
    else parts[0] + "/" + Join(parts[1..])
  }

  /** `s.split('/')`: the pieces between separators, in order; the empty
      string is one empty piece, and a separator at either end gives an
      empty piece there. */
  function Split(s: string): (parts: seq<string>)
    ensures |parts| >= 1
    ensures forall i :: 0 <= i < |parts| ==> '/' !in parts[i]
    ensures Join(parts) == s
  {
    if s == [] then [""]
    else
      var rest := Split(s[1..]);
      if s[0] == '/' then
        assert s == "/" + s[1..];
        [""] + rest
      else
        var parts := [[s[0]] + rest[0]] + rest[1..];
        assert parts[1..] == rest[1..];
        assert s == [s[0]] + s[1..];
        parts
  }

  lemma {:induction false} SplitNoSeparator(a: string)
    requires '/' !in a
    ensures Split(a) == [a]
  {
    if a != [] {
      SplitNoSeparator(a[1..]);
      assert [a[0]] + a[1..] == a;
    }
  }

  /** Splitting at the first separator. */
  lemma {:induction false} SplitAtSeparator(a: string, b: string)
    requires '/' !in a
    ensures Split(a + "/" + b) == [a] + Split(b)
  {
    var s := a + "/" + b;
    if a == [] {
      assert s[1..] == b;
    } else {
      assert s[1..] == a[1..] + "/" + b;
      SplitAtSeparator(a[1..], b);
      assert [a[0]] + a[1..] == a;
    }
  }

  /** Split undoes Join when no piece holds a separator. */
  lemma {:induction false} SplitJoin(parts: seq<string>)
    requires |parts| >= 1
    requires forall i :: 0 <= i < |parts| ==> '/' !in parts[i]
    ensures Split(Join(parts)) == parts
  {
    if |parts| == 1 {
      SplitNoSeparator(parts[0]);
    } else {
      SplitJoin(parts[1..]);
      SplitAtSeparator(parts[0], Join(parts[1..]));
    }
  }
}
