/** The string operations of Go's strings package that the engine relies on. */
module Strings {

  predicate HasPrefix(s: string, prefix: string) {
    prefix <= s
  }

  predicate HasSuffix(s: string, suffix: string) {
    |suffix| <= |s| && s[|s| - |suffix|..] == suffix
  }

  function TrimSuffix(s: string, suffix: string): (r: string)
    ensures HasSuffix(s, suffix) ==> r + suffix == s
    ensures !HasSuffix(s, suffix) ==> r == s
  {
    if HasSuffix(s, suffix) then s[..|s| - |suffix|] else s
  }

  /** Unicode White_Space, the cut set of strings.TrimSpace. */
  predicate IsSpace(c: char) {
    || '\t' <= c <= '\r'
    || c == ' ' || c == '\U{85}' || c == '\U{A0}' || c == '\U{1680}'
    || '\U{2000}' <= c <= '\U{200a}'
    || c == '\U{2028}' || c == '\U{2029}' || c == '\U{202f}' || c == '\U{205f}' || c == '\U{3000}'
  }

  function TrimLeft(s: string): string {
    if s != "" && IsSpace(s[0]) then TrimLeft(s[1..]) else s
  }

  function TrimRight(s: string): string {
    if s != "" && IsSpace(s[|s| - 1]) then TrimRight(s[..|s| - 1]) else s
  }

  function TrimSpace(s: string): string {
    TrimRight(TrimLeft(s))
  }

  /** Lower case of one character, exact wherever the result is an ASCII character:
      besides the ASCII capitals only U+0130 and U+212A have an ASCII lower case. */
  function LowerChar(c: char): char {
    if 'A' <= c <= 'Z' then c - 'A' + 'a'
    else if c == '\U{130}' then 'i'
    else if c == '\U{212a}' then 'k'
    else c
  }

  function ToLower(s: string): (r: string)
    ensures |r| == |s|
    ensures forall i :: 0 <= i < |s| ==> r[i] == LowerChar(s[i])
  {
    seq(|s|, i requires 0 <= i < |s| => LowerChar(s[i]))
  }

  /** IsSpace by code points. */
  lemma SpaceCodes(c: char)
    ensures IsSpace(c) <==>
              c as int in {0x9, 0xA, 0xB, 0xC, 0xD, 0x20, 0x85, 0xA0, 0x1680, 0x2000, 0x2001, 0x2002, 0x2003, 0x2004,
                           0x2005, 0x2006, 0x2007, 0x2008, 0x2009, 0x200A, 0x2028, 0x2029, 0x202F, 0x205F, 0x3000}
  {
  }

  /** Printable ASCII without space. */
  predicate IsWord(t: string) {
    t != "" && forall i :: 0 <= i < |t| ==> '!' <= t[i] <= '~'
  }

  predicate AllSpace(s: string) {
    forall c :: c in s ==> IsSpace(c)
  }

  /** `s` is `t` in any letter case, for `t` in lower case; two characters that are not ASCII have an ASCII lower
      case. */
  predicate Spells(s: string, t: string) {
    && |s| == |t|
    && forall i :: 0 <= i < |t| ==>
         || (s[i] == t[i] && !('A' <= s[i] <= 'Z'))
         || ('A' <= s[i] <= 'Z' && t[i] as int == s[i] as int + 32)
         || (s[i] == '\U{130}' && t[i] == 'i') || (s[i] == '\U{212a}' && t[i] == 'k')
  }

  lemma SpellsLower(s: string, t: string)
    requires IsWord(t)
    ensures ToLower(s) == t <==> Spells(s, t)
  {
  }

  /** What TrimSpace cuts off. */
  lemma {:induction false} TrimLeftSplits(s: string) returns (pre: string)
    ensures AllSpace(pre) && s == pre + TrimLeft(s)
  {
    if s != "" && IsSpace(s[0]) {
      var rest := TrimLeftSplits(s[1..]);
      pre := [s[0]] + rest;
    } else {
      pre := "";
    }
  }

  lemma {:induction false} TrimRightSplits(s: string) returns (post: string)
    ensures AllSpace(post) && s == TrimRight(s) + post
  {
    if s != "" && IsSpace(s[|s| - 1]) {
      var rest := TrimRightSplits(s[..|s| - 1]);
      post := rest + [s[|s| - 1]];
    } else {
      post := "";
    }
  }

  lemma {:induction false} TrimLeftOf(pre: string, s: string)
    requires AllSpace(pre) && s != "" && !IsSpace(s[0])
    ensures TrimLeft(pre + s) == s
  {
    if pre == "" {
      assert pre + s == s;
    } else {
      TrimLeftOf(pre[1..], s);
      assert (pre + s)[1..] == pre[1..] + s && pre[0] in pre;
    }
  }

  lemma {:induction false} TrimRightOf(s: string, post: string)
    requires AllSpace(post) && s != "" && !IsSpace(s[|s| - 1])
    ensures TrimRight(s + post) == s
  {
    if post == "" {
      assert s + post == s;
    } else {
      var all, n := s + post, |post| - 1;
      TrimRightOf(s, post[..n]);
      assert all[..|all| - 1] == s + post[..n] && all[|all| - 1] == post[n] && post[n] in post;
    }
  }

  /** `s` is `t` in any letter case with any space around it. */
  ghost predicate NamesWord(s: string, t: string) {
    exists i, j :: NamesWordAt(s, t, i, j)
  }

  predicate NamesWordAt(s: string, t: string, i: int, j: int) {
    0 <= i <= j <= |s| && AllSpace(s[..i]) && Spells(s[i..j], t) && AllSpace(s[j..])
  }

  lemma TrimSplits(s: string) returns (i: int, j: int)
    ensures 0 <= i <= j <= |s| && AllSpace(s[..i]) && s[i..j] == TrimSpace(s) && AllSpace(s[j..])
  {
    var pre := TrimLeftSplits(s);
    var left := TrimLeft(s);
    var post := TrimRightSplits(left);
    i, j := |pre|, |s| - |post|;
    assert s == pre + (TrimSpace(s) + post);
    assert s[..i] == pre && s[i..] == left && s[j..] == post;
    assert s[i..j] == left[..j - i];
  }

  lemma TrimOf(s: string, i: int, j: int)
    requires 0 <= i < j <= |s| && AllSpace(s[..i]) && AllSpace(s[j..]) && !IsSpace(s[i]) && !IsSpace(s[j - 1])
    ensures TrimSpace(s) == s[i..j]
  {
    var core := s[i..j];
    assert core[0] == s[i] && core[|core| - 1] == s[j - 1];
    assert s == s[..i] + (core + s[j..]);
    TrimLeftOf(s[..i], core + s[j..]);
    TrimRightOf(core, s[j..]);
  }

  lemma SpellsNoSpace(s: string, t: string)
    requires Spells(s, t) && IsWord(t)
    ensures forall i :: 0 <= i < |s| ==> !IsSpace(s[i])
  {
  }

  /** Trimming and lowering finds a word exactly when it is spelt in some case with space around it. */
  lemma TrimmedLower(s: string, t: string)
    requires IsWord(t)
    ensures ToLower(TrimSpace(s)) == t <==> NamesWord(s, t)
  {
    hide TrimSpace, Spells, IsSpace, ToLower;
    if ToLower(TrimSpace(s)) == t {
      var i, j := TrimSplits(s);
      SpellsLower(TrimSpace(s), t);
      assert NamesWordAt(s, t, i, j);
    } else if NamesWord(s, t) {
      var i, j :| NamesWordAt(s, t, i, j);
      SpellsNoSpace(s[i..j], t);
      SpellsLower(s[i..j], t);
      SpellsLength(s[i..j], t);
      assert s[i] == s[i..j][0] && s[j - 1] == s[i..j][j - i - 1];
      TrimOf(s, i, j);
    }
  }

  lemma SpellsLength(s: string, t: string)
    requires Spells(s, t)
    ensures |s| == |t|
  {
  }

  lemma ToLowerIdempotent(s: string)
    ensures ToLower(ToLower(s)) == ToLower(s)
  {
  }

  lemma {:induction false} TrimSpaceEnds(s: string)
    ensures var t := TrimSpace(s); t != "" ==> !IsSpace(t[0]) && !IsSpace(t[|t| - 1])
  {
    TrimLeftEnd(s);
    TrimRightEnd(TrimLeft(s));
  }

  lemma {:induction false} TrimLeftEnd(s: string)
    ensures var t := TrimLeft(s); t != "" ==> !IsSpace(t[0])
  {
    if s != "" && IsSpace(s[0]) {
      TrimLeftEnd(s[1..]);
    }
  }

  lemma {:induction false} TrimRightEnd(s: string)
    ensures var t := TrimRight(s); t <= s && (t != "" ==> !IsSpace(t[|t| - 1]))
  {
    if s != "" && IsSpace(s[|s| - 1]) {
      TrimRightEnd(s[..|s| - 1]);
    }
  }
}
