/** Lexical paths of Go's path/filepath on Unix: Clean as its documented stack algorithm, Join, Base
    and Ext, against the meaning of a path as a walk through directories. */
module FilePaths {
  import opened Strings

  predicate IsAbs(p: string) {
    p != "" && p[0] == '/'
  }

  /** The slash-separated elements, empty ones included. */
  function Split(p: string): (r: seq<string>)
    ensures |r| >= 1
  {
    if p == "" then [""]
    else if p[0] == '/' then [""] + Split(p[1..])
    else var rest := Split(p[1..]); [[p[0]] + rest[0]] + rest[1..]
  }

  function JoinSlash(cs: seq<string>): string {
    if cs == [] then ""
    else if |cs| == 1 then cs[0]
    else cs[0] + "/" + JoinSlash(cs[1..])
  }

  predicate IsName(c: string) {
    c != "" && c != "." && c != ".." && '/' !in c
  }

  predicate Names(cs: seq<string>) {
    forall c :: c in cs ==> IsName(c)
  }

  /** One element onto the output of Clean. */
  function Push(rooted: bool, stack: seq<string>, c: string): seq<string> {
    if c == "" || c == "." then stack
    else if c != ".." then stack + [c]
    else if stack != [] && stack[|stack| - 1] != ".." then stack[..|stack| - 1]
    else if rooted then stack
    else stack + [c]
  }

  function PushAll(rooted: bool, stack: seq<string>, cs: seq<string>): seq<string>
    decreases |cs|
  {
    if cs == [] then stack else PushAll(rooted, Push(rooted, stack, cs[0]), cs[1..])
  }

  function Render(rooted: bool, stack: seq<string>): string {
    if rooted then "/" + JoinSlash(stack)
    else if stack == [] then "."
    else JoinSlash(stack)
  }

  function StackOf(p: string): seq<string> {
    PushAll(IsAbs(p), [], Split(p))
  }

  function Clean(p: string): string {
    Render(IsAbs(p), StackOf(p))
  }

  /** filepath.Join of two elements: empty leading ones are ignored. */
  function Join(p: string, q: string): string {
    if p != "" then Clean(p + "/" + q)
    else if q != "" then Clean(q)
    else ""
  }

  // ---- splitting and joining ----

  lemma {:induction false} SplitHasNoSlash(p: string)
    ensures forall c :: c in Split(p) ==> '/' !in c
  {
    if p != "" {
      SplitHasNoSlash(p[1..]);
    }
  }

  lemma SplitHead(p: string)
    requires p != ""
    ensures Split(p) == if p[0] == '/' then [""] + Split(p[1..]) else [[p[0]] + Split(p[1..])[0]] + Split(p[1..])[1..]
  {
  }

  lemma HeadAppend(h: string, rest: seq<string>, more: seq<string>)
    requires rest != []
    ensures [""] + (rest + more) == [""] + rest + more
    ensures [h + (rest + more)[0]] + (rest + more)[1..] == [h + rest[0]] + rest[1..] + more
  {
    assert (rest + more)[0] == rest[0] && (rest + more)[1..] == rest[1..] + more;
  }

  lemma {:induction false} SplitAppend(p: string, q: string)
    ensures Split(p + "/" + q) == Split(p) + Split(q)
  {
    var all := p + "/" + q;
    if p == "" {
      assert all[1..] == q;
    } else {
      SplitAppend(p[1..], q);
      assert all[1..] == p[1..] + "/" + q && all[0] == p[0];
      hide Split;
      SplitHead(p);
      SplitHead(all);
      HeadAppend([p[0]], Split(p[1..]), Split(q));
    }
  }

  lemma {:induction false} SplitPlain(c: string)
    requires '/' !in c
    ensures Split(c) == [c]
  {
    if c != "" {
      SplitPlain(c[1..]);
      assert [c[0]] + c[1..] == c;
    }
  }

  lemma {:induction false} SplitJoin(cs: seq<string>)
    requires cs != [] && forall c :: c in cs ==> '/' !in c
    ensures Split(JoinSlash(cs)) == cs
  {
    SplitPlain(cs[0]);
    if |cs| > 1 {
      SplitJoin(cs[1..]);
      SplitAppend(cs[0], JoinSlash(cs[1..]));
    }
  }

  lemma {:induction false} JoinAppend(cs: seq<string>, ds: seq<string>)
    requires cs != [] && ds != []
    ensures JoinSlash(cs + ds) == JoinSlash(cs) + "/" + JoinSlash(ds)
  {
    assert (cs + ds)[1..] == cs[1..] + ds;
    if |cs| > 1 {
      JoinAppend(cs[1..], ds);
    }
  }

  // ---- the stack ----

  /** What Clean leaves on its stack: names, and before them, in relative paths only, climbs. */
  predicate IsStack(rooted: bool, stack: seq<string>) {
    && (forall i :: 0 <= i < |stack| ==> IsName(stack[i]) || (!rooted && stack[i] == ".."))
    && (forall i :: 0 < i < |stack| && stack[i] == ".." ==> stack[i - 1] == "..")
  }

  lemma {:induction false} PushAllShape(rooted: bool, stack: seq<string>, cs: seq<string>)
    requires IsStack(rooted, stack) && forall c :: c in cs ==> '/' !in c
    ensures IsStack(rooted, PushAll(rooted, stack, cs))
    decreases |cs|
  {
    if cs != [] {
      PushAllShape(rooted, Push(rooted, stack, cs[0]), cs[1..]);
    }
  }

  lemma StackShape(p: string)
    ensures IsStack(IsAbs(p), StackOf(p))
  {
    SplitHasNoSlash(p);
    PushAllShape(IsAbs(p), [], Split(p));
  }

  lemma {:induction false} PushAllAppend(rooted: bool, stack: seq<string>, cs: seq<string>, ds: seq<string>)
    ensures PushAll(rooted, stack, cs + ds) == PushAll(rooted, PushAll(rooted, stack, cs), ds)
    decreases |cs|
  {
    if cs == [] {
      assert cs + ds == ds;
    } else {
      assert (cs + ds)[1..] == cs[1..] + ds;
      PushAllAppend(rooted, Push(rooted, stack, cs[0]), cs[1..], ds);
    }
  }

  lemma {:induction false} PushAllStack(rooted: bool, stack: seq<string>, cs: seq<string>)
    requires IsStack(rooted, stack + cs)
    ensures PushAll(rooted, stack, cs) == stack + cs
    decreases |cs|
  {
    if cs != [] {
      var both := stack + cs;
      assert both[|stack|] == cs[0];
      assert stack != [] ==> both[|stack| - 1] == stack[|stack| - 1];
      assert stack + [cs[0]] + cs[1..] == both;
      PushAllStack(rooted, stack + [cs[0]], cs[1..]);
    }
  }

  lemma RenderForm(rooted: bool, stack: seq<string>)
    requires IsStack(rooted, stack)
    ensures IsAbs(Render(rooted, stack)) == rooted
    ensures StackOf(Render(rooted, stack)) == stack
  {
    var p := Render(rooted, stack);
    assert forall c :: c in stack ==> '/' !in c && c != "";
    if stack != [] {
      SplitJoin(stack);
      JoinHead(stack);
    }
    if rooted {
      assert p[1..] == JoinSlash(stack);
      var cs := Split(JoinSlash(stack));
      assert ([""] + cs)[1..] == cs;
      assert PushAll(true, [], [""] + cs) == PushAll(true, [], cs);
    }
    if stack == [] {
      SplitPlain(p[1..]);
      SplitPlain(".");
    } else {
      assert [] + stack == stack;
      PushAllStack(rooted, [], stack);
    }
  }

  lemma JoinHead(cs: seq<string>)
    requires cs != [] && cs[0] != ""
    ensures JoinSlash(cs) != "" && JoinSlash(cs)[0] == cs[0][0]
  {
  }

  /** The elements of a path are what is left between its slashes. */
  lemma {:induction false} ElementsExactly(p: string)
    ensures JoinSlash(Split(p)) == p && forall c :: c in Split(p) ==> '/' !in c
  {
    SplitHasNoSlash(p);
    if p != "" {
      var rest := Split(p[1..]);
      ElementsExactly(p[1..]);
      if p[0] == '/' {
        assert JoinSlash([""] + rest) == "" + "/" + JoinSlash(rest);
      } else {
        HeadJoins(p[0], rest);
      }
    }
  }

  lemma HeadJoins(c: char, rest: seq<string>)
    requires rest != []
    ensures JoinSlash([[c] + rest[0]] + rest[1..]) == [c] + JoinSlash(rest)
  {
    if |rest| > 1 {
      assert JoinSlash(rest) == rest[0] + "/" + JoinSlash(rest[1..]);
      assert ([[c] + rest[0]] + rest[1..])[1..] == rest[1..];
    }
  }

  /** The rules of Clean, by elements: an absolute result is the root or has names only, a relative one is a dot or
      climbs first and then has names only; no empty element, dot or later climb is left, and no slash at the end but
      the root's. */
  lemma CleanRules(p: string) returns (stack: seq<string>)
    ensures IsAbs(Clean(p)) == IsAbs(p)
    ensures Split(Clean(p)) == if IsAbs(p) then if stack == [] then ["", ""] else [""] + stack
                               else if stack == [] then ["."] else stack
    ensures forall i :: 0 <= i < |stack| ==> IsName(stack[i]) || (!IsAbs(p) && stack[i] == "..")
    ensures forall i, j :: 0 <= i < j < |stack| && stack[j] == ".." ==> stack[i] == ".."
  {
    stack := StackOf(p);
    StackShape(p);
    CleanIdempotent(p);
    forall i: nat, j: nat | i < j < |stack| && stack[j] == ".."
      ensures stack[i] == ".."
    {
      ClimbsBefore(IsAbs(p), stack, i, j);
    }
    if stack == [] {
      SplitPlain("");
      SplitPlain(".");
    } else {
      assert forall c :: c in stack ==> '/' !in c;
      SplitJoin(stack);
      if IsAbs(p) {
        assert Clean(p)[1..] == JoinSlash(stack);
      }
    }
  }

  lemma {:induction false} ClimbsBefore(rooted: bool, stack: seq<string>, i: nat, j: nat)
    requires IsStack(rooted, stack) && i < j < |stack| && stack[j] == ".."
    ensures stack[i] == ".."
    decreases j
  {
    assert stack[j - 1] == "..";
    if i < j - 1 {
      ClimbsBefore(rooted, stack, i, j - 1);
    }
  }

  /** Cleaning a clean path changes nothing. */
  lemma CleanIdempotent(p: string)
    ensures Clean(Clean(p)) == Clean(p) && IsAbs(Clean(p)) == IsAbs(p) && StackOf(Clean(p)) == StackOf(p)
  {
    StackShape(p);
    RenderForm(IsAbs(p), StackOf(p));
  }

  lemma JoinOnto(base: seq<string>, q: string)
    requires IsStack(true, base)
    ensures Join(Render(true, base), q) == Render(true, PushAll(true, base, Split(q)))
  {
    var p := Render(true, base);
    RenderForm(true, base);
    SplitAppend(p, q);
    PushAllAppend(true, [], Split(p), Split(q));
  }

  lemma RenderBelow(base: seq<string>, rest: seq<string>)
    requires base != [] && rest != []
    ensures Render(true, base + rest) == Render(true, base) + "/" + JoinSlash(rest)
  {
    JoinAppend(base, rest);
  }

  lemma BelowRender(base: seq<string>, stack: seq<string>, q: string)
    requires IsStack(true, base) && IsStack(true, stack) && base != []
    requires Render(true, stack) == Render(true, base) + "/" + q
    ensures base < stack
  {
    JoinHead(base);
    assert stack != [];
    SplitRooted(base);
    SplitRooted(stack);
    SplitAppend(Render(true, base), q);
    hide *;
    SameTails(stack, base, Split(q));
  }

  lemma SameTails(stack: seq<string>, base: seq<string>, rest: seq<string>)
    requires [""] + stack == [""] + base + rest && rest != []
    ensures base < stack
  {
    assert stack == ([""] + stack)[1..] && base + rest == ([""] + base + rest)[1..];
    assert stack == base + rest;
  }

  /** The prefix test on rendered paths is the prefix test on their elements. */
  lemma PrefixTest(base: seq<string>, stack: seq<string>)
    requires IsStack(true, base) && IsStack(true, stack) && base != []
    ensures HasPrefix(Render(true, stack), Render(true, base) + "/") <==> base < stack
    ensures Render(true, stack) == Render(true, base) <==> stack == base
  {
    RenderForm(true, base);
    RenderForm(true, stack);
    hide Render, StackOf;
    var b, s := Render(true, base), Render(true, stack);
    if HasPrefix(s, b + "/") {
      var q := s[|b + "/"|..];
      assert s == b + "/" + q;
      BelowRender(base, stack, q);
    }
    if base < stack {
      var rest := stack[|base|..];
      assert stack == base + rest;
      RenderBelow(base, rest);
      assert b + "/" <= b + "/" + JoinSlash(rest);
    }
  }

  lemma SplitRooted(stack: seq<string>)
    requires IsStack(true, stack) && stack != []
    ensures Split(Render(true, stack)) == [""] + stack
  {
    assert forall c :: c in stack ==> '/' !in c;
    SplitJoin(stack);
    assert Render(true, stack)[1..] == JoinSlash(stack);
  }

  // ---- what a path means ----

  /** The directory reached from `dir` by one element. */
  function Step(dir: seq<string>, c: string): seq<string> {
    if c == "" || c == "." then dir
    else if c == ".." then if dir == [] then [] else dir[..|dir| - 1]
    else dir + [c]
  }

  function Walk(dir: seq<string>, cs: seq<string>): seq<string>
    decreases |cs|
  {
    if cs == [] then dir else Walk(Step(dir, cs[0]), cs[1..])
  }

  lemma {:induction false} WalkAppend(dir: seq<string>, cs: seq<string>, ds: seq<string>)
    ensures Walk(dir, cs + ds) == Walk(Walk(dir, cs), ds)
    decreases |cs|
  {
    if cs == [] {
      assert cs + ds == ds;
    } else {
      assert (cs + ds)[1..] == cs[1..] + ds;
      WalkAppend(Step(dir, cs[0]), cs[1..], ds);
    }
  }

  /** Pushing an element onto a relative stack composes its walk with one step. */
  lemma PushWalks(dir: seq<string>, stack: seq<string>, c: string)
    requires IsStack(false, stack) && '/' !in c
    ensures Walk(dir, Push(false, stack, c)) == Step(Walk(dir, stack), c)
  {
    if c == ".." && stack != [] && stack[|stack| - 1] != ".." {
      var init, last := stack[..|stack| - 1], stack[|stack| - 1];
      assert stack == init + [last];
      WalkAppend(dir, init, [last]);
      assert Walk(Walk(dir, init), [last]) == Walk(dir, init) + [last];
    } else {
      WalkAppend(dir, stack, [c]);
    }
  }

  lemma {:induction false} PushAllWalks(dir: seq<string>, stack: seq<string>, cs: seq<string>)
    requires IsStack(false, stack) && forall c :: c in cs ==> '/' !in c
    ensures Walk(dir, PushAll(false, stack, cs)) == Walk(Walk(dir, stack), cs)
    decreases |cs|
  {
    if cs != [] {
      PushWalks(dir, stack, cs[0]);
      PushAllWalks(dir, Push(false, stack, cs[0]), cs[1..]);
    }
  }

  /** On a rooted path the stack is the directory reached so far. */
  lemma {:induction false} RootedIsWalk(dir: seq<string>, cs: seq<string>)
    requires Names(dir) && forall c :: c in cs ==> '/' !in c
    ensures PushAll(true, dir, cs) == Walk(dir, cs)
    decreases |cs|
  {
    if cs != [] {
      assert dir != [] ==> dir[|dir| - 1] in dir;
      assert Step(dir, cs[0]) == Push(true, dir, cs[0]);
      assert Names(Step(dir, cs[0])) by {
        if cs[0] == ".." && dir != [] {
          assert forall c :: c in dir[..|dir| - 1] ==> c in dir;
        }
      }
      RootedIsWalk(Step(dir, cs[0]), cs[1..]);
    }
  }

  /** Clean preserves what a path means: from any directory if relative, from the root if absolute. */
  lemma CleanPreservesMeaning(p: string, dir: seq<string>)
    ensures !IsAbs(p) ==> Walk(dir, Split(Clean(p))) == Walk(dir, Split(p))
    ensures IsAbs(p) ==> Walk([], Split(Clean(p))) == Walk([], Split(p))
  {
    SplitHasNoSlash(p);
    SplitHasNoSlash(Clean(p));
    CleanIdempotent(p);
    if IsAbs(p) {
      RootedIsWalk([], Split(p));
      RootedIsWalk([], Split(Clean(p)));
    } else {
      PushAllWalks(dir, [], Split(p));
      PushAllWalks(dir, [], Split(Clean(p)));
    }
  }

  // ---- normal form ----

  lemma NamesAppend(cs: seq<string>, c: string)
    requires Names(cs) && IsName(c)
    ensures Names(cs + [c])
  {
  }

  /** How often a relative stack climbs before its first name. */
  function Climbs(stack: seq<string>): (k: nat)
    requires IsStack(false, stack)
    ensures k <= |stack| && (forall i :: 0 <= i < k ==> stack[i] == "..") && Names(stack[k..])
  {
    if stack == [] then 0
    else if stack[|stack| - 1] == ".." then AllClimbs(stack); |stack|
    else
      var init := stack[..|stack| - 1];
      var k := Climbs(init);
      NamesAppend(init[k..], stack[|stack| - 1]);
      assert stack[k..] == init[k..] + [stack[|stack| - 1]];
      assert forall i :: 0 <= i < k ==> stack[i] == init[i];
      k
  }

  lemma {:induction false} AllClimbs(stack: seq<string>)
    requires IsStack(false, stack) && stack != [] && stack[|stack| - 1] == ".."
    ensures forall i :: 0 <= i < |stack| ==> stack[i] == ".."
  {
    if |stack| > 1 {
      AllClimbs(stack[..|stack| - 1]);
    }
  }

  lemma {:induction false} WalkClimbs(dir: seq<string>, cs: seq<string>)
    requires |cs| <= |dir| && forall c :: c in cs ==> c == ".."
    ensures Walk(dir, cs) == dir[..|dir| - |cs|]
    decreases |cs|
  {
    if cs == [] {
      assert dir[..|dir|] == dir;
    } else {
      var up := dir[..|dir| - 1];
      assert cs[0] in cs && forall c :: c in cs[1..] ==> c in cs;
      WalkClimbs(up, cs[1..]);
      assert up[..|up| - |cs[1..]|] == dir[..|dir| - |cs|];
    }
  }

  lemma {:induction false} WalkNames(dir: seq<string>, cs: seq<string>)
    requires Names(cs)
    ensures Walk(dir, cs) == dir + cs
    decreases |cs|
  {
    if cs == [] {
      assert dir + cs == dir;
    } else {
      assert cs[0] in cs && forall c :: c in cs[1..] ==> c in cs;
      WalkNames(dir + [cs[0]], cs[1..]);
      assert dir + [cs[0]] + cs[1..] == dir + cs;
    }
  }

  /** A relative stack drops its climbs from a directory deep enough and appends its names. */
  lemma WalkStack(dir: seq<string>, stack: seq<string>)
    requires IsStack(false, stack) && Climbs(stack) <= |dir|
    ensures Walk(dir, stack) == dir[..|dir| - Climbs(stack)] + stack[Climbs(stack)..]
  {
    hide *;
    var k := Climbs(stack);
    var climbs, names := stack[..k], stack[k..];
    assert stack == climbs + names;
    WalkAppend(dir, climbs, names);
    assert forall c :: c in climbs ==> c == "..";
    WalkClimbs(dir, climbs);
    WalkNames(dir[..|dir| - k], names);
  }

  function Repeat(c: string, n: nat): (r: seq<string>)
    ensures |r| == n
  {
    seq(n, _ => c)
  }

  lemma RepeatAt(c: string, n: nat)
    ensures n > 0 ==> Repeat(c, n)[0] == c
  {
  }

  ghost predicate SameMeaning(p: string, q: string) {
    if IsAbs(p) then IsAbs(q) && Walk([], Split(p)) == Walk([], Split(q))
    else !IsAbs(q) && forall dir :: Names(dir) ==> Walk(dir, Split(p)) == Walk(dir, Split(q))
  }

  lemma WalkFrom(c: string, s: seq<string>, t: seq<string>)
    requires IsName(c) && IsStack(false, s) && IsStack(false, t) && Climbs(s) <= Climbs(t)
    requires Walk(Repeat(c, Climbs(t)), s) == Walk(Repeat(c, Climbs(t)), t)
    ensures Climbs(s) == Climbs(t) ==> s[Climbs(t)..] == t[Climbs(t)..]
    ensures Climbs(s) < Climbs(t) ==> Climbs(t) < |t| && t[Climbs(t)] == c
  {
    hide *;
    var k, l, dir := Climbs(s), Climbs(t), Repeat(c, Climbs(t));
    RepeatAt(c, l);
    WalkStack(dir, s);
    WalkStack(dir, t);
    SameNames(dir[..l - k], s[k..], dir[..l - l], t[l..]);
  }

  lemma SameNames(climbed: seq<string>, s: seq<string>, none: seq<string>, t: seq<string>)
    requires climbed + s == none + t && none == []
    ensures climbed == [] ==> s == t
    ensures climbed != [] ==> t != [] && t[0] == climbed[0]
  {
    assert t == none + t == climbed + s;
    assert climbed != [] ==> (climbed + s)[0] == climbed[0];
    assert climbed == [] ==> climbed + s == s;
  }

  /** Two relative stacks that lead to the same place from everywhere are equal. */
  lemma StacksAgree(s: seq<string>, t: seq<string>)
    requires IsStack(false, s) && IsStack(false, t) && Climbs(s) <= Climbs(t)
    requires forall dir :: Names(dir) ==> Walk(dir, s) == Walk(dir, t)
    ensures s == t
  {
    hide Walk, IsStack, Climbs;
    TwoNames();
    assert Names(Repeat("a", Climbs(t))) && Names(Repeat("b", Climbs(t)));
    WalkFrom("a", s, t);
    WalkFrom("b", s, t);
    SameParts(s, t, Climbs(t));
  }

  lemma TwoNames()
    ensures IsName("a") && IsName("b") && "a" != "b"
  {
  }

  lemma SameParts(s: seq<string>, t: seq<string>, n: nat)
    requires n <= |s| && n <= |t| && s[n..] == t[n..] && forall i :: 0 <= i < n ==> s[i] == t[i]
    ensures s == t
  {
    assert s[..n] == t[..n];
    assert s == s[..n] + s[n..] && t == t[..n] + t[n..];
  }

  /** Clean is a normal form: two paths have the same clean form exactly when they mean the same. */
  lemma CleanIsNormalForm(p: string, q: string)
    ensures Clean(p) == Clean(q) <==> SameMeaning(p, q)
  {
    CleanIdempotent(p);
    CleanIdempotent(q);
    if Clean(p) == Clean(q) {
      forall dir
        ensures SameMeaning(p, q) || (!IsAbs(p) && Walk(dir, Split(p)) == Walk(dir, Split(q)))
      {
        CleanPreservesMeaning(p, dir);
        CleanPreservesMeaning(q, dir);
      }
    } else if SameMeaning(p, q) {
      SplitHasNoSlash(p);
      SplitHasNoSlash(q);
      if IsAbs(p) {
        RootedIsWalk([], Split(p));
        RootedIsWalk([], Split(q));
      } else {
        StackShape(p);
        StackShape(q);
        forall dir | Names(dir)
          ensures Walk(dir, StackOf(p)) == Walk(dir, StackOf(q))
        {
          PushAllWalks(dir, [], Split(p));
          PushAllWalks(dir, [], Split(q));
        }
        if Climbs(StackOf(p)) <= Climbs(StackOf(q)) {
          StacksAgree(StackOf(p), StackOf(q));
        } else {
          StacksAgree(StackOf(q), StackOf(p));
        }
      }
    }
  }

  // ---- Base and Ext ----

  function StripSlashes(p: string): string {
    if p != "" && p[|p| - 1] == '/' then StripSlashes(p[..|p| - 1]) else p
  }

  function LastElement(p: string): (r: string)
    ensures '/' !in r
  {
    if p == "" || p[|p| - 1] == '/' then "" else LastElement(p[..|p| - 1]) + [p[|p| - 1]]
  }

  function Base(p: string): (r: string)
    ensures r == "/" || (r != "" && '/' !in r)
  {
    if p == "" then "."
    else
      var e := LastElement(StripSlashes(p));
      if e == "" then "/" else e
  }

  /** From the last dot of the last element on. */
  function Ext(p: string): (r: string)
    ensures HasSuffix(p, r) && '/' !in r && (r != "" ==> r[0] == '.')
  {
    if p == "" || p[|p| - 1] == '/' then ""
    else if p[|p| - 1] == '.' then "."
    else
      var e := Ext(p[..|p| - 1]);
      if e == "" then "" else e + [p[|p| - 1]]
  }

  lemma {:induction false} LastElementOf(p: string, c: string)
    requires '/' !in c
    ensures LastElement(p + "/" + c) == c
  {
    var all := p + "/" + c;
    if c != "" {
      LastElementOf(p, c[..|c| - 1]);
      assert all[..|all| - 1] == p + "/" + c[..|c| - 1];
      assert c == c[..|c| - 1] + [c[|c| - 1]];
    }
  }

  lemma {:induction false} ExtOf(p: string, c: string)
    requires '/' !in c
    ensures Ext(p + "/" + c) == Ext(c)
  {
    var all := p + "/" + c;
    if c != "" {
      ExtOf(p, c[..|c| - 1]);
      assert all[..|all| - 1] == p + "/" + c[..|c| - 1];
      assert all[|all| - 1] == c[|c| - 1];
    }
  }

  lemma BaseOfElement(p: string, c: string)
    requires c != "" && '/' !in c
    ensures Base(p + "/" + c) == c
  {
    var all := p + "/" + c;
    assert all[|all| - 1] == c[|c| - 1];
    LastElementOf(p, c);
  }
}
