/** Player-name handling: the blank-name test that guards the start of a run
    and the display form of a Twitter handle on the leaderboard. */
module Handles {

  /** The characters JavaScript's String.prototype.trim removes: the
      ECMAScript WhiteSpace and LineTerminator code points. */
  predicate IsJsSpace(c: char)
  {
    c == '\t' || c == '\n' || c == '\U{000B}' || c == '\U{000C}' || c == '\r' ||
    c == ' ' || c == '\U{00A0}' || c == '\U{1680}' ||
    ('\U{2000}' <= c <= '\U{200A}') ||
    c == '\U{2028}' || c == '\U{2029}' || c == '\U{202F}' || c == '\U{205F}' ||
    c == '\U{3000}' || c == '\U{FEFF}'
  }

  /** The number of white-space characters `s` starts with. */
  function LeadingSpace(s: string): (n: nat)
    ensures n <= |s|
    ensures forall i :: 0 <= i < n ==> IsJsSpace(s[i])
    ensures n == |s| || !IsJsSpace(s[n])
  {
    if s != [] && IsJsSpace(s[0]) then 1 + LeadingSpace(s[1..]) else 0
  }

  /** The number of white-space characters `s` ends with. */
  function TrailingSpace(s: string): (n: nat)
    ensures n <= |s|
    ensures forall i :: |s| - n <= i < |s| ==> IsJsSpace(s[i])
    ensures n == |s| || !IsJsSpace(s[|s| - n - 1])
  {
    if s != [] && IsJsSpace(s[|s| - 1]) then 1 + TrailingSpace(s[..|s| - 1]) else 0
  }

  /** `s` without its leading white space. */
  function TrimStart(s: string): (r: string)
    ensures |r| <= |s| && r == s[|s| - |r|..]
    ensures forall i :: 0 <= i < |s| - |r| ==> IsJsSpace(s[i])
    ensures r == [] || !IsJsSpace(r[0])
  {
    s[LeadingSpace(s)..]
  }

  /** `s` without its trailing white space. */
  function TrimEnd(s: string): (r: string)
    ensures |r| <= |s| && r == s[..|r|]
    ensures forall i :: |r| <= i < |s| ==> IsJsSpace(s[i])
    ensures r == [] || !IsJsSpace(r[|r| - 1])
  {
    s[..|s| - TrailingSpace(s)]
  }

  /** JavaScript's `s.trim()`: the part of `s` left after dropping white
      space from both ends. */
  function Trim(s: string): (r: string)
    ensures exists k :: PaddedAt(s, r, k)
    ensures r == [] || (!IsJsSpace(r[0]) && !IsJsSpace(r[|r| - 1]))
  {
    TrimPadded(s);
    TrimEnd(TrimStart(s))
  }

  /** Trimming drops white space from the two ends and nothing else: the
      leading part that `TrimStart` drops, then the trailing part that
      `TrimEnd` drops. */
  lemma TrimPadded(s: string)
    ensures PaddedAt(s, TrimEnd(TrimStart(s)), |s| - |TrimStart(s)|)
    ensures var r := TrimEnd(TrimStart(s));
      r == [] || (!IsJsSpace(r[0]) && !IsJsSpace(r[|r| - 1]))
  {
    var t := TrimStart(s);
    var r := TrimEnd(t);
    var k := |s| - |t|;
    assert t == s[k..];
    assert r == t[..|r|];
    assert r == s[k..k + |r|];
    forall i | k + |r| <= i < |s|
      ensures IsJsSpace(s[i])
    {
      assert s[i] == t[i - k];
    }
    if r != [] {
      assert r[0] == t[0];
    }
  }

  /** `s` is `r` with only white space before it (the first `k` characters)
      and only white space after it. */
  predicate PaddedAt(s: string, r: string, k: nat)
  {
    k + |r| <= |s| && r == s[k..k + |r|] &&
    (forall i :: 0 <= i < k ==> IsJsSpace(s[i])) &&
    (forall i :: k + |r| <= i < |s| ==> IsJsSpace(s[i]))
  }

  /** A name is refused at the start of a run exactly when it trims to "". */
  predicate IsBlank(name: string)
  {
    Trim(name) == ""
  }

  /** A name is blank exactly when every one of its characters is white space. */
  lemma BlankIffAllSpace(name: string)
    ensures IsBlank(name) <==> forall i :: 0 <= i < |name| ==> IsJsSpace(name[i])
  {
  }

  /** Trimming keeps the characters between the first and the last that are
      not white space, so a name with a visible character survives trimming. */
  lemma TrimKeepsVisible(name: string, k: nat)
    requires k < |name| && !IsJsSpace(name[k])
    ensures name[k] in Trim(name)
  {
    var t := TrimStart(name);
    var off := |name| - |t|;
    assert k >= off;
    assert t[k - off] == name[k];
    var u := TrimEnd(t);
    assert k - off < |u|;
    assert u[k - off] == name[k];
  }

  /** The leaderboard's link target for a stored name: one leading '@' dropped. */
  function FormatTwitterHandle(handle: string): (r: string)
    ensures handle == r || handle == "@" + r
    ensures r == handle <==> (handle == [] || handle[0] != '@')
  {
    if |handle| > 0 && handle[0] == '@' then handle[1..] else handle
  }

  /** Writing a handle with its '@' and formatting it gives the bare handle back. */
  lemma FormatStripsAt(bare: string)
    ensures FormatTwitterHandle("@" + bare) == bare
  {
    assert ("@" + bare)[1..] == bare;
  }
}
