/** String operations the converter borrows from JavaScript: `String.prototype.trim`,
    a first-occurrence `replace(pattern, '')`, and the small scanning helpers the
    table parser of module Render is built from. */
module Text {

  datatype Option<+T> = None | Some(value: T) {
    predicate IsFailure() { None? }

    function PropagateFailure<U>(): Option<U>
      requires None?
    {
      None
    }

    function Extract(): T
      requires Some?
    {
      value
    }
  }

  /** The code points `trim` strips: ECMAScript WhiteSpace (tab, vertical tab, form feed,
      space, no-break space, byte order mark and the Space_Separator category) and
      LineTerminator (LF, CR, line separator, paragraph separator). */
  predicate IsTrimmable(c: char) {
    c == '\t' || c == '\n' || c == '\U{B}' || c == '\U{C}' || c == '\r' || c == ' '
    || c == '\U{A0}' || c == '\U{1680}' || ('\U{2000}' <= c <= '\U{200A}')
    || c == '\U{2028}' || c == '\U{2029}' || c == '\U{202F}' || c == '\U{205F}'
    || c == '\U{3000}' || c == '\U{FEFF}'
  }

  predicate AllTrimmable(s: string) {
    forall k :: 0 <= k < |s| ==> IsTrimmable(s[k])
  }

  /** `s` with its leading trimmable characters removed. */
  function TrimStart(s: string): string {
    if s != [] && IsTrimmable(s[0]) then TrimStart(s[1..]) else s
  }

  /** `s` with its trailing trimmable characters removed. */
  function TrimEnd(s: string): string {
    if s != [] && IsTrimmable(s[|s| - 1]) then TrimEnd(s[..|s| - 1]) else s
  }

  /** `TrimStart` keeps a suffix of its input, drops only trimmable characters, and
      stops at the first character that is not trimmable. */
  lemma {:induction false} TrimStartSuffix(s: string)
    ensures |TrimStart(s)| <= |s| && TrimStart(s) == s[|s| - |TrimStart(s)|..]
    ensures forall k :: 0 <= k < |s| - |TrimStart(s)| ==> IsTrimmable(s[k])
    ensures TrimStart(s) != [] ==> !IsTrimmable(TrimStart(s)[0])
  {
    if s != [] && IsTrimmable(s[0]) {
      var t := s[1..];
      TrimStartSuffix(t);
      assert TrimStart(s) == TrimStart(t);
      assert t[|t| - |TrimStart(t)|..] == s[|s| - |TrimStart(t)|..];
      forall k | 0 < k < |s| - |TrimStart(t)| ensures IsTrimmable(s[k]) {
        assert s[k] == t[k - 1];
      }
    }
  }

  /** `TrimEnd` keeps a prefix of its input, drops only trimmable characters, and stops
      at the last character that is not trimmable. */
  lemma {:induction false} TrimEndPrefix(s: string)
    ensures |TrimEnd(s)| <= |s| && TrimEnd(s) == s[..|TrimEnd(s)|]
    ensures forall k :: |TrimEnd(s)| <= k < |s| ==> IsTrimmable(s[k])
    ensures TrimEnd(s) != [] ==> !IsTrimmable(TrimEnd(s)[|TrimEnd(s)| - 1])
  {
    if s != [] && IsTrimmable(s[|s| - 1]) {
      var t := s[..|s| - 1];
      TrimEndPrefix(t);
      assert TrimEnd(s) == TrimEnd(t);
      assert t[..|TrimEnd(t)|] == s[..|TrimEnd(t)|];
      forall k | |TrimEnd(t)| <= k < |s| - 1 ensures IsTrimmable(s[k]) {
        assert s[k] == t[k];
      }
    }
  }

  /** `s.trim()`. */
  function Trim(s: string): string {
    TrimEnd(TrimStart(s))
  }

  /** A string `trim` leaves alone: empty, or neither end trimmable. */
  predicate Trimmed(t: string) {
    t != [] ==> !IsTrimmable(t[0]) && !IsTrimmable(t[|t| - 1])
  }

  lemma {:induction false} TrimStartPadded(pre: string, t: string)
    requires AllTrimmable(pre)
    requires t != [] ==> !IsTrimmable(t[0])
    ensures TrimStart(pre + t) == t
  {
    if pre != [] {
      assert (pre + t)[1..] == pre[1..] + t;
      TrimStartPadded(pre[1..], t);
    } else {
      assert pre + t == t;
    }
  }

  lemma {:induction false} TrimEndPadded(t: string, post: string)
    requires AllTrimmable(post)
    requires t != [] ==> !IsTrimmable(t[|t| - 1])
    ensures TrimEnd(t + post) == t
  {
    if post != [] {
      assert (t + post)[..|t + post| - 1] == t + post[..|post| - 1];
      TrimEndPadded(t, post[..|post| - 1]);
    } else {
      assert t + post == t;
    }
  }

  /** `trim` removes exactly the surrounding whitespace: padding a trimmed text on either
      side with trimmable characters gives back the text. */
  lemma TrimPadded(pre: string, t: string, post: string)
    requires AllTrimmable(pre) && AllTrimmable(post) && Trimmed(t)
    ensures Trim(pre + t + post) == t
  {
    assert pre + t + post == pre + (t + post);
    if t == [] {
      assert t + post == post;
      assert AllTrimmable(pre + post) by {
        forall k | 0 <= k < |pre + post| ensures IsTrimmable((pre + post)[k]) {
          if k >= |pre| { assert (pre + post)[k] == post[k - |pre|]; }
        }
      }
      TrimStartTrimmable(pre + post);
    } else {
      TrimStartPadded(pre, t + post);
      TrimEndPadded(t, post);
    }
  }

  lemma TrimStartTrimmable(s: string)
    requires AllTrimmable(s)
    ensures TrimStart(s) == []
  {
  }

  /** `trim` is idempotent. */
  lemma TrimIdempotent(s: string)
    ensures Trimmed(Trim(s)) && Trim(Trim(s)) == Trim(s)
  {
    var a := TrimStart(s);
    var t := TrimEnd(a);
    TrimStartSuffix(s);
    TrimEndPrefix(a);
    assert t != [] ==> t[0] == a[0];
    assert Trimmed(t);
    assert TrimStart(t) == t;
    assert TrimEnd(t) == t;
  }

  /** `pat` occurs in `s` starting at index `i`. */
  predicate OccursAt(s: string, pat: string, i: int) {
    0 <= i && i + |pat| <= |s| && s[i..i + |pat|] == pat
  }

  /** `s.indexOf(pat, from)` for `from <= |s|` (JavaScript clamps a larger `from` to
      `|s|`): the first index at or after `from` where `pat` occurs. */
  function IndexOfFrom(s: string, pat: string, from: nat): (r: Option<nat>)
    decreases |s| - from
    ensures r.Some? ==> from <= r.value && OccursAt(s, pat, r.value)
    ensures r.Some? ==> forall j :: from <= j < r.value ==> !OccursAt(s, pat, j)
    ensures r.None? ==> forall j :: from <= j ==> !OccursAt(s, pat, j)
  {
    if from + |pat| > |s| then None
    else if s[from..from + |pat|] == pat then Some(from)
    else IndexOfFrom(s, pat, from + 1)
  }

  /** `s.replace(pat, '')` for a string pattern: the first occurrence of `pat`, if any,
      is cut out; otherwise `s` is returned unchanged. */
  function RemoveFirst(s: string, pat: string): string {
    match IndexOfFrom(s, pat, 0)
    case None => s
    case Some(i) => s[..i] + s[i + |pat|..]
  }

  /** Removing the first occurrence cuts out exactly the leftmost match. */
  lemma RemoveFirstAt(s: string, pat: string, i: nat)
    requires OccursAt(s, pat, i)
    requires forall j :: 0 <= j < i ==> !OccursAt(s, pat, j)
    ensures RemoveFirst(s, pat) == s[..i] + s[i + |pat|..]
  {
    var r := IndexOfFrom(s, pat, 0);
    assert r.Some?;
  }

  /** Without an occurrence nothing is removed. */
  lemma RemoveFirstAbsent(s: string, pat: string)
    requires forall j :: 0 <= j ==> !OccursAt(s, pat, j)
    ensures RemoveFirst(s, pat) == s
  {
    var r := IndexOfFrom(s, pat, 0);
    assert r.None?;
  }

  /** A string that starts with `pat` loses exactly that prefix. */
  lemma RemoveFirstPrefix(pat: string, rest: string)
    ensures RemoveFirst(pat + rest, pat) == rest
  {
    var s := pat + rest;
    assert s[0..|pat|] == pat;
    RemoveFirstAt(s, pat, 0);
    assert s[|pat|..] == rest;
  }

  /** The rest of `s` after the literal `lit`, when `s` begins with it. */
  function Expect(s: string, lit: string): (r: Option<string>)
    ensures r.Some? <==> |lit| <= |s| && s[..|lit|] == lit
    ensures r.Some? ==> s == lit + r.value
  {
    if |lit| <= |s| && s[..|lit|] == lit then Some(s[|lit|..]) else None
  }

  lemma ExpectPrefix(lit: string, rest: string)
    ensures Expect(lit + rest, lit) == Some(rest)
  {
    assert (lit + rest)[..|lit|] == lit;
    assert (lit + rest)[|lit|..] == rest;
  }

  /** Splits `s` just before the first occurrence of `c` (the whole of `s` and nothing
      when `c` does not occur). */
  function SplitAt(s: string, c: char): (r: (string, string))
    ensures s == r.0 + r.1 && c !in r.0
    ensures r.1 != [] ==> r.1[0] == c
  {
    if s == [] then ([], [])
    else if s[0] == c then ([], s)
    else
      var (a, b) := SplitAt(s[1..], c);
      assert s == [s[0]] + s[1..];
      ([s[0]] + a, b)
  }

  lemma {:induction false} SplitAtConcat(x: string, c: char, y: string)
    requires c !in x
    ensures SplitAt(x + [c] + y, c) == (x, [c] + y)
  {
    if x == [] {
      assert x + [c] + y == [c] + y;
    } else {
      assert (x + [c] + y)[1..] == x[1..] + [c] + y;
      SplitAtConcat(x[1..], c, y);
      assert [x[0]] + x[1..] == x;
    }
  }

  /** Splitting text free of `c` followed by a rest that starts with `c` gives back the two. */
  lemma SplitAtBefore(x: string, c: char, y: string)
    requires c !in x && y != [] && y[0] == c
    ensures SplitAt(x + y, c) == (x, y)
  {
    assert y == [c] + y[1..];
    assert x + y == x + [c] + y[1..];
    SplitAtConcat(x, c, y[1..]);
  }
}
