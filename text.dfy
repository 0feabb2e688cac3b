/** String helpers with the meaning JavaScript gives them: `Array.prototype.join`
    over a list of strings, and `String.prototype.trim`. Both chat widgets and
    the portfolio briefing are built from these. */
module Text {

  /** Sum of the lengths of `parts`. */
  function TotalLength(parts: seq<string>): nat
  {
    if |parts| == 0 then 0 else TotalLength(parts[..|parts| - 1]) + |parts[|parts| - 1]|
  }

  /** `parts.join(sep)`: the parts in order with `sep` between neighbours and
      nowhere else, so n parts carry n - 1 separators. */
  function Join(parts: seq<string>, sep: string): (r: string)
    ensures |parts| == 0 ==> r == []
    ensures |parts| > 0 ==> |r| == TotalLength(parts) + (|parts| - 1) * |sep|
    decreases |parts|
  {
    if |parts| == 0 then ""
    else if |parts| == 1 then parts[0]
    else Join(parts[..|parts| - 1], sep) + sep + parts[|parts| - 1]
  }

  /** Where part `i` starts in `Join(parts, sep)`: all earlier parts and one
      separator after each of them. */
  function Offset(parts: seq<string>, sep: string, i: nat): nat
    requires i <= |parts|
  {
    TotalLength(parts[..i]) + i * |sep|
  }

  /** Part `i` sits, unchanged, at `Offset(parts, sep, i)`, and when another
      part follows it the separator comes next: the join keeps source order
      and puts exactly one separator between neighbours. */
  lemma {:induction false} JoinAt(parts: seq<string>, sep: string, i: nat)
    requires i < |parts|
    ensures Offset(parts, sep, i) + |parts[i]| <= |Join(parts, sep)|
    ensures Join(parts, sep)[Offset(parts, sep, i) .. Offset(parts, sep, i) + |parts[i]|] == parts[i]
    ensures i + 1 < |parts| ==>
      Offset(parts, sep, i) + |parts[i]| + |sep| == Offset(parts, sep, i + 1) &&
      Offset(parts, sep, i + 1) <= |Join(parts, sep)| &&
      Join(parts, sep)[Offset(parts, sep, i) + |parts[i]| .. Offset(parts, sep, i + 1)] == sep
    decreases |parts|
  {
    var n := |parts|;
    if n == 1 {
      assert parts[..0] == [];
    } else {
      var init := parts[..n - 1];
      var j := Join(init, sep);
      assert Join(parts, sep) == j + sep + parts[n - 1];
      assert |j| == TotalLength(init) + (n - 2) * |sep|;
      if i == n - 1 {
        assert parts[..i] == init;
        assert Offset(parts, sep, i) == |j| + |sep|;
      } else {
        JoinAt(init, sep, i);
        assert parts[..i] == init[..i];
        assert Offset(parts, sep, i) == Offset(init, sep, i);
        if i + 1 < n - 1 {
          assert parts[..i + 1] == init[..i + 1];
          assert Offset(parts, sep, i + 1) == Offset(init, sep, i + 1);
        } else if i + 1 == n - 1 {
          assert init[..i] == init[..|init| - 1];
          assert TotalLength(init) == TotalLength(init[..i]) + |init[i]|;
          assert Offset(init, sep, i) + |parts[i]| == |j|;
          assert parts[..i + 1] == init;
        }
      }
    }
  }

  /** The characters `String.prototype.trim` removes: ECMAScript's WhiteSpace
      (tab, vertical tab, form feed, byte order mark and every Unicode space
      separator) and LineTerminator (line feed, carriage return, line and
      paragraph separators). */
  predicate IsWhitespace(c: char)
  {
    c == '\t' || c == '\n' || c == '\U{000B}' || c == '\U{000C}' || c == '\r' ||
    c == ' ' || c == '\U{00A0}' || c == '\U{1680}' ||
    ('\U{2000}' <= c <= '\U{200A}') ||
    c == '\U{2028}' || c == '\U{2029}' || c == '\U{202F}' || c == '\U{205F}' ||
    c == '\U{3000}' || c == '\U{FEFF}'
  }

  /** `s` without its leading whitespace: a suffix of `s`, everything cut off
      is whitespace, and what remains does not start with whitespace. */
  function TrimStart(s: string): (r: string)
    ensures |r| <= |s| && r == s[|s| - |r|..]
    ensures forall i :: 0 <= i < |s| - |r| ==> IsWhitespace(s[i])
    ensures r != [] ==> !IsWhitespace(r[0])
  {
    if s != [] && IsWhitespace(s[0]) then TrimStart(s[1..]) else s
  }

  /** `s` without its trailing whitespace: a prefix of `s`, everything cut off
      is whitespace, and what remains does not end with whitespace. */
  function TrimEnd(s: string): (r: string)
    ensures |r| <= |s| && r == s[..|r|]
    ensures forall i :: |r| <= i < |s| ==> IsWhitespace(s[i])
    ensures r != [] ==> !IsWhitespace(r[|r| - 1])
  {
    if s != [] && IsWhitespace(s[|s| - 1]) then TrimEnd(s[..|s| - 1]) else s
  }

  /** `s.trim()`: empty exactly when `s` is all whitespace (which is what the
      chat widgets' `!input.trim()` tests), and otherwise a slice of `s` that
      neither starts nor ends with whitespace. */
  function Trim(s: string): (r: string)
    ensures (r == []) <==> (forall i :: 0 <= i < |s| ==> IsWhitespace(s[i]))
    ensures r != [] ==> !IsWhitespace(r[0]) && !IsWhitespace(r[|r| - 1])
    ensures |r| <= |s|
  {
    var t := TrimStart(s);
    var u := TrimEnd(t);
    TrimBothEnds(s, t, u);
    u
  }

  lemma TrimBothEnds(s: string, t: string, r: string)
    requires t == TrimStart(s) && r == TrimEnd(t)
    ensures (r == []) <==> (forall i :: 0 <= i < |s| ==> IsWhitespace(s[i]))
    ensures r != [] ==> !IsWhitespace(r[0]) && !IsWhitespace(r[|r| - 1])
    ensures |r| <= |s|
  {
    var k := |s| - |t|;
    if r != [] {
      assert r[0] == t[0];
      assert s[k] == t[0];
    } else {
      forall i | 0 <= i < |s|
        ensures IsWhitespace(s[i])
      {
        if i >= k {
          assert s[i] == t[i - k];
        }
      }
    }
  }

  /** `r` is the slice of `s` starting at `a`, and everything before and
      after that slice is whitespace. */
  predicate SurroundedByWhitespace(s: string, r: string, a: nat)
  {
    a + |r| <= |s| && r == s[a .. a + |r|] &&
    (forall i :: 0 <= i < a ==> IsWhitespace(s[i])) &&
    (forall i :: a + |r| <= i < |s| ==> IsWhitespace(s[i]))
  }

  /** What `trim()` keeps is the middle of `s`, unchanged, with only
      whitespace cut off on either side: it starts where the leading
      whitespace ends. */
  lemma {:induction false} TrimIsMiddleSlice(s: string)
    ensures SurroundedByWhitespace(s, Trim(s), |s| - |TrimStart(s)|)
  {
    var t := TrimStart(s);
    var r := TrimEnd(t);
    assert SurroundedByWhitespace(s, r, |s| - |t|) by { CutsCompose(s, t, r); }
    assert Trim(s) == r;
  }

  /** Cutting whitespace off the front of `s` to get `t`, then off the back
      of `t` to get `r`, leaves `r` as a slice of `s` with whitespace around
      it. */
  lemma CutsCompose(s: string, t: string, r: string)
    requires |t| <= |s| && t == s[|s| - |t|..]
    requires forall i :: 0 <= i < |s| - |t| ==> IsWhitespace(s[i])
    requires |r| <= |t| && r == t[..|r|]
    requires forall i :: |r| <= i < |t| ==> IsWhitespace(t[i])
    ensures SurroundedByWhitespace(s, r, |s| - |t|)
  {
    var a := |s| - |t|;
    forall i | a + |r| <= i < |s|
      ensures IsWhitespace(s[i])
    {
      assert s[i] == t[i - a];
    }
  }

  /** A text glued from three pieces starts with the first and ends with the
      last. */
  lemma Framed(head: string, body: string, tail: string)
    ensures |head| + |tail| <= |head + body + tail|
    ensures (head + body + tail)[..|head|] == head
    ensures (head + body + tail)[|head + body + tail| - |tail|..] == tail
  {
  }

  lemma Associative(a: string, b: string, c: string)
    ensures a + (b + c) == a + b + c
  {
  }

  /** The parts glued together with nothing between them, as the streaming
      chat accumulates the chunks of a reply. */
  function Concat(parts: seq<string>): (r: string)
    ensures |r| == TotalLength(parts)
  {
    if parts == [] then "" else Concat(parts[..|parts| - 1]) + parts[|parts| - 1]
  }
}
