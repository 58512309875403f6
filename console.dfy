/** The command line as the control loop reads it: `input().strip().lower()`. */
module Console {

  /** The characters MicroPython's `str.strip()` removes: its white-space set is the space
      and the five ASCII control characters tab, line feed, vertical tab, form feed and
      carriage return, nothing beyond ASCII. */
  function IsSpace(c: char): (b: bool)
    ensures b <==> c == ' ' || '\t' <= c <= '\r'
  {
    c == ' ' || c == '\t' || c == '\n' || c == '\r' || c == '\U{0B}' || c == '\U{0C}'
  }

  predicate AllSpace(s: string)
  {
    forall i :: 0 <= i < |s| ==> IsSpace(s[i])
  }

  /** Drops the leading white space: what is left is a suffix of `s` that is empty or
      starts with a non-space, and everything dropped is white space. */
  function TrimLeft(s: string): (r: string)
    ensures |r| <= |s| && r == s[|s| - |r|..]
    ensures AllSpace(s[..|s| - |r|])
    ensures r != [] ==> !IsSpace(r[0])
  {
    if s != [] && IsSpace(s[0]) then TrimLeft(s[1..]) else s
  }

  /** Drops the trailing white space: what is left is a prefix of `s` that is empty or
      ends with a non-space, and everything dropped is white space. */
  function TrimRight(s: string): (r: string)
    ensures |r| <= |s| && r == s[..|r|]
    ensures AllSpace(s[|r|..])
    ensures r != [] ==> !IsSpace(r[|r| - 1])
  {
    if s != [] && IsSpace(s[|s| - 1]) then
      var r := TrimRight(s[..|s| - 1]);
      assert s[|r|..] == s[..|s| - 1][|r|..] + [s[|s| - 1]];
      r
    else s
  }

  /** `str.strip()`: the result is empty exactly for an all-white-space line, and otherwise
      starts and ends with a non-space. */
  function Strip(s: string): (r: string)
    ensures r == [] <==> AllSpace(s)
    ensures r != [] ==> !IsSpace(r[0]) && !IsSpace(r[|r| - 1])
  {
    var l := TrimLeft(s);
    TrimmedSlice(s, l, TrimRight(l));
    TrimRight(l)
  }

  /** What TrimLeft and then TrimRight promise, put together: `s` is the white space
      TrimLeft dropped, then `r`, then the white space TrimRight dropped, so `r` is empty
      exactly when `s` is all white space and otherwise starts with a non-space. */
  lemma TrimmedSlice(s: string, l: string, r: string)
    requires |l| <= |s| && l == s[|s| - |l|..] && AllSpace(s[..|s| - |l|])
    requires l != [] ==> !IsSpace(l[0])
    requires |r| <= |l| && r == l[..|r|] && AllSpace(l[|r|..])
    requires r != [] ==> !IsSpace(r[|r| - 1])
    ensures r == [] <==> AllSpace(s)
    ensures r != [] ==> !IsSpace(r[0])
    ensures var i := |s| - |l|;
              i + |r| <= |s| && r == s[i..i + |r|] && AllSpace(s[..i]) && AllSpace(s[i + |r|..])
  {
    var i := |s| - |l|;
    assert s == s[..i] + l;
    assert l == r + l[|r|..];
    AllSpaceConcat(s[..i], l);
    AllSpaceConcat(r, l[|r|..]);
    assert r != [] ==> r[0] == l[0];
  }

  /** A concatenation is all white space exactly when both parts are. */
  lemma AllSpaceConcat(a: string, b: string)
    ensures AllSpace(a + b) <==> AllSpace(a) && AllSpace(b)
  {
    if AllSpace(a + b) {
      assert forall i :: 0 <= i < |a| ==> (a + b)[i] == a[i];
      assert forall i :: 0 <= i < |b| ==> (a + b)[|a| + i] == b[i];
    }
  }

  /** MicroPython's `str.lower()` on one character: it lower-cases the ASCII letters
      'A'..'Z' and leaves every other character as it is. */
  function LowerChar(c: char): (r: char)
    ensures !('A' <= r <= 'Z')
    ensures 'A' <= c <= 'Z' ==> 'a' <= r <= 'z' && r as int - c as int == 'a' as int - 'A' as int
    ensures !('A' <= c <= 'Z') ==> r == c
  {
    if 'A' <= c <= 'Z' then (c as int + 32) as char else c
  }

  /** `str.lower()`, character by character. */
  function Lower(s: string): (r: string)
    ensures |r| == |s|
    ensures forall i :: 0 <= i < |s| ==> r[i] == LowerChar(s[i])
  {
    seq(|s|, i requires 0 <= i < |s| => LowerChar(s[i]))
  }

  /** The command the control loop compares against 'w', 's', 'i', 'k' and 'a': no longer
      than the line, empty exactly for a blank line, and free of upper-case ASCII letters. */
  function Normalize(line: string): (r: string)
    ensures |r| <= |line|
    ensures r == [] <==> AllSpace(line)
    ensures forall k :: 0 <= k < |r| ==> !('A' <= r[k] <= 'Z')
  {
    Lower(Strip(line))
  }

  /** TrimLeft stops at the first non-space character. */
  lemma {:induction false} TrimLeftStops(s: string, k: nat)
    requires k < |s| && AllSpace(s[..k]) && !IsSpace(s[k])
    ensures TrimLeft(s) == s[k..]
  {
    if k > 0 {
      assert IsSpace(s[..k][0]);
      assert s[1..][..k - 1] == s[..k][1..];
      TrimLeftStops(s[1..], k - 1);
      assert s[1..][k - 1..] == s[k..];
    }
  }

  /** Trimming the left of white space + a non-space character + anything stops exactly at
      that character. */
  lemma TrimLeftPadded(pre: string, c: char, post: string)
    requires AllSpace(pre) && !IsSpace(c)
    ensures TrimLeft(pre + [c] + post) == [c] + post
  {
    var s := pre + [c] + post;
    assert s[..|pre|] == pre;
    assert s[|pre|] == c;
    TrimLeftStops(s, |pre|);
    assert s[|pre|..] == [c] + post;
  }

  /** Trimming the right of a non-space character + white space stops exactly at that
      character. */
  lemma TrimRightPadded(c: char, post: string)
    requires AllSpace(post) && !IsSpace(c)
    ensures TrimRight([c] + post) == [c]
  {
    var s := [c] + post;
    var r := TrimRight(s);
    assert !IsSpace(s[0]);
    assert forall i :: 1 <= i < |s| ==> IsSpace(s[i]);
    // TrimRight only drops spaces, so it keeps c ...
    assert forall i :: |r| <= i < |s| ==> IsSpace(s[i]);
    assert |r| >= 1;
    // ... and it stops at a non-space, so it drops everything after c
    assert r[|r| - 1] == s[|r| - 1];
    assert |r| == 1;
  }

  /** Stripping a line made of white space, one non-space character and white space
      leaves just that character. */
  lemma StripPadded(pre: string, c: char, post: string)
    requires AllSpace(pre) && AllSpace(post) && !IsSpace(c)
    ensures Strip(pre + [c] + post) == [c]
  {
    TrimLeftPadded(pre, c, post);
    TrimRightPadded(c, post);
  }

  /** A command typed with surrounding white space and in either case is recognised as
      its lower-case letter. */
  lemma NormalizePadded(pre: string, c: char, post: string)
    requires AllSpace(pre) && AllSpace(post) && !IsSpace(c)
    ensures Normalize(pre + [c] + post) == [LowerChar(c)]
  {
    StripPadded(pre, c, post);
  }

  /** Conversely, the only lines that normalise to a one-letter command are that letter,
      in either case, with white space around it. */
  lemma {:induction false} NormalizeSingle(line: string, cmd: char)
    requires Normalize(line) == [cmd]
    ensures exists i :: 0 <= i < |line| && AllSpace(line[..i]) && AllSpace(line[i + 1..])
                          && LowerChar(line[i]) == cmd
  {
    var l := TrimLeft(line);
    var r := TrimRight(l);
    assert |r| == 1;
    var i := |line| - |l|;
    assert line[i] == l[0] == r[0];
    assert line[i + 1..] == l[1..];
    assert AllSpace(l[1..]) by {
      assert l[|r|..] == l[1..];
    }
    assert LowerChar(line[i]) == Lower(r)[0];
  }
}
