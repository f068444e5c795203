/** The local file store: resolvePath and GetPath as functions of the base directory and a path, and the
    store itself over a disk of plain files keyed by absolute path. */
module LocalFs {
  import opened Prelude
  import opened Strings
  import opened FilePaths

  datatype StoreError = InvalidPath | EmptyBaseDir | NilReader | OsError

  function Abs(cwd: string, p: string): string {
    if IsAbs(p) then Clean(p) else Join(cwd, p)
  }

  /** The base directory NewFileStore settles on in working directory `cwd`. */
  function BaseOf(cwd: string, baseDir: string): Result<string, StoreError> {
    if TrimSpace(baseDir) == "" then Err(EmptyBaseDir) else Ok(Abs(cwd, Clean(baseDir)))
  }

  predicate IsBase(base: string) {
    IsAbs(base) && Clean(base) == base
  }

  predicate Inside(base: string, p: string) {
    p == base || HasPrefix(p, base + "/")
  }

  function Resolve(base: string, p: string): Result<string, StoreError> {
    if p == "" then Err(InvalidPath)
    else if IsAbs(p) then
      var clean := Clean(p);
      if Inside(base, clean) then Ok(clean) else Err(InvalidPath)
    else
      var cleanRel := Clean(p);
      if HasPrefix(cleanRel, "..") || IsAbs(cleanRel) then Err(InvalidPath)
      else
        var cleanJoined := Clean(Join(base, cleanRel));
        if Inside(base, cleanJoined) then Ok(cleanJoined) else Err(InvalidPath)
  }

  function GetPath(base: string, p: string): string {
    var cleanRel := Clean(p);
    if IsAbs(cleanRel) then cleanRel else Join(base, cleanRel)
  }

  // ---- the base ----

  lemma BaseIsClean(cwd: string, baseDir: string)
    requires IsAbs(cwd) && TrimSpace(baseDir) != ""
    ensures IsBase(BaseOf(cwd, baseDir).value)
  {
    CleanIdempotent(baseDir);
    CleanIdempotent(Clean(baseDir));
    CleanIdempotent(cwd + "/" + Clean(baseDir));
  }

  /** The base directory leads where the configured path leads from the working directory; only a path of nothing but
      space is refused. */
  lemma BaseMeaning(cwd: string, baseDir: string)
    requires IsAbs(cwd)
    ensures BaseOf(cwd, baseDir).Ok? <==> exists i :: 0 <= i < |baseDir| && !IsSpace(baseDir[i])
    ensures BaseOf(cwd, baseDir).Err? ==> BaseOf(cwd, baseDir).error == EmptyBaseDir
    ensures BaseOf(cwd, baseDir).Ok? ==>
              StackOf(BaseOf(cwd, baseDir).value) ==
              Walk(if IsAbs(baseDir) then [] else Walk([], Split(cwd)), Split(baseDir))
  {
    var i, j := TrimSplits(baseDir);
    TrimSpaceEnds(baseDir);
    if TrimSpace(baseDir) != "" {
      assert !IsSpace(baseDir[i..j][0]) && baseDir[i..j][0] == baseDir[i];
    } else {
      assert baseDir == baseDir[..i] + baseDir[j..];
    }
    CleanIdempotent(baseDir);
    CleanIdempotent(Clean(baseDir));
    SplitHasNoSlash(baseDir);
    SplitHasNoSlash(cwd);
    SplitHasNoSlash(Clean(baseDir));
    if IsAbs(baseDir) {
      RootedIsWalk([], Split(baseDir));
    } else {
      var all := cwd + "/" + Clean(baseDir);
      CleanIdempotent(all);
      SplitAppend(cwd, Clean(baseDir));
      SplitHasNoSlash(all);
      RootedIsWalk([], Split(all));
      WalkAppend([], Split(cwd), Split(Clean(baseDir)));
      CleanPreservesMeaning(baseDir, Walk([], Split(cwd)));
    }
  }

  lemma BaseForm(base: string)
    requires IsBase(base)
    ensures IsStack(true, StackOf(base)) && base == Render(true, StackOf(base))
    ensures base != "/" <==> StackOf(base) != []
  {
    StackShape(base);
    var stack := StackOf(base);
    if stack != [] {
      assert IsName(stack[0]);
      JoinHead(stack);
    }
  }

  lemma InsideStack(base: string, stack: seq<string>)
    requires IsBase(base) && base != "/" && IsStack(true, stack)
    ensures Inside(base, Render(true, stack)) <==> StackOf(base) <= stack
  {
    BaseForm(base);
    PrefixTest(StackOf(base), stack);
    hide Render, StackOf, IsStack;
  }

  // ---- relative paths ----

  predicate Descends(p: string) {
    !HasPrefix(Clean(p), "..")
  }

  /** A relative path whose clean form does not start with two dots has names only on its stack. */
  lemma DescendingStack(p: string)
    requires !IsAbs(p) && Descends(p)
    ensures IsStack(true, StackOf(p))
  {
    StackShape(p);
    CleanIdempotent(p);
    var stack := StackOf(p);
    if stack != [] {
      HeadPrefix(stack);
      if stack[0] != ".." {
        NoClimbs(stack, |stack|);
      }
    }
  }

  lemma HeadPrefix(cs: seq<string>)
    requires cs != []
    ensures cs[0] <= JoinSlash(cs)
  {
  }

  lemma {:induction false} NoClimbs(stack: seq<string>, n: nat)
    requires IsStack(false, stack) && stack != [] && stack[0] != ".." && n <= |stack|
    ensures forall i :: 0 <= i < n ==> stack[i] != ".."
  {
    if n > 1 {
      NoClimbs(stack, n - 1);
      assert stack[n - 2] != "..";
    }
  }

  lemma {:induction false} StackAppend(base: seq<string>, rest: seq<string>)
    requires IsStack(true, base) && IsStack(true, rest)
    ensures IsStack(true, base + rest)
  {
  }

  /** What both Join calls of the store compute for a descending relative path. */
  lemma JoinedForm(base: string, p: string)
    requires IsBase(base) && !IsAbs(p) && Descends(p)
    ensures IsStack(true, StackOf(base) + StackOf(p))
    ensures Join(base, Clean(p)) == Render(true, StackOf(base) + StackOf(p))
    ensures Clean(Join(base, Clean(p))) == Join(base, Clean(p))
  {
    DescendingStack(p);
    BaseForm(base);
    var b, r := StackOf(base), StackOf(p);
    StackAppend(b, r);
    JoinOnto(b, Clean(p));
    CleanIdempotent(p);
    SplitHasNoSlash(Clean(p));
    CleanElements(p);
    PushAllStack(true, b, r);
    RenderForm(true, b + r);
  }

  /** Pushing the elements of a clean descending path is pushing its stack. */
  lemma CleanElements(p: string)
    requires !IsAbs(p) && IsStack(true, StackOf(p))
    ensures forall dir :: PushAll(true, dir, Split(Clean(p))) == PushAll(true, dir, StackOf(p))
  {
    var stack := StackOf(p);
    if stack == [] {
      SplitPlain(".");
      assert forall dir :: PushAll(true, dir, ["."]) == dir;
    } else {
      assert forall c :: c in stack ==> '/' !in c;
      SplitJoin(stack);
    }
  }

  // ---- the laws of resolvePath ----

  /** The element list of an accepted path's resolution: where the path leads, from the root if absolute,
      from the base if relative. */
  function Target(base: string, p: string): seq<string> {
    Walk(if IsAbs(p) then [] else StackOf(base), Split(p))
  }

  /** Exactly which paths are accepted, and what they resolve to: an absolute path that leads to the base
      or below it; a relative path whose clean form does not start with two dots. */
  lemma ResolveMeaning(base: string, p: string)
    requires IsBase(base) && base != "/"
    ensures Resolve(base, p).Ok? <==>
              p != "" && if IsAbs(p) then StackOf(base) <= Target(base, p) else Descends(p)
    ensures Resolve(base, p).Ok? ==>
              && IsStack(true, Target(base, p)) && StackOf(base) <= Target(base, p)
              && Resolve(base, p).value == Render(true, Target(base, p))
  {
    BaseForm(base);
    SplitHasNoSlash(p);
    if p == "" {
    } else if IsAbs(p) {
      RootedIsWalk([], Split(p));
      StackShape(p);
      InsideStack(base, StackOf(p));
    } else if Descends(p) {
      DescendingResolves(base, p);
    }
  }

  lemma DescendingResolves(base: string, p: string)
    requires IsBase(base) && base != "/" && p != "" && !IsAbs(p) && Descends(p)
    ensures IsStack(true, StackOf(base) + StackOf(p)) && Target(base, p) == StackOf(base) + StackOf(p)
    ensures Resolve(base, p) == Ok(Render(true, StackOf(base) + StackOf(p)))
  {
    JoinedForm(base, p);
    InsideStack(base, StackOf(base) + StackOf(p));
    CleanIdempotent(p);
    SplitHasNoSlash(p);
    DescendingStack(p);
    PushAllWalks(StackOf(base), [], Split(p));
    assert Names(StackOf(p));
    WalkNames(StackOf(base), StackOf(p));
  }

  /** Every accepted path resolves to the base or below it, and resolving the result changes nothing. */
  lemma ResolvedInsideAndStable(base: string, p: string)
    requires IsBase(base) && base != "/" && Resolve(base, p).Ok?
    ensures var r := Resolve(base, p).value;
            && Inside(base, r) && Clean(r) == r && IsAbs(r)
            && Resolve(base, r) == Ok(r)
  {
    ResolveMeaning(base, p);
    InsideStack(base, Target(base, p));
    RenderForm(true, Target(base, p));
  }

  /** The relative spelling of a path at or below the base. */
  function RelativeTo(base: string, p: string): string
    requires |StackOf(base)| <= |StackOf(p)|
  {
    Render(false, StackOf(p)[|StackOf(base)|..])
  }

  /** An accepted relative path and its absolute spelling resolve alike. */
  lemma AbsoluteSpelling(base: string, p: string)
    requires IsBase(base) && base != "/" && !IsAbs(p) && Resolve(base, p).Ok?
    ensures Resolve(base, base + "/" + p) == Resolve(base, p)
  {
    var q := base + "/" + p;
    BaseForm(base);
    ResolveMeaning(base, p);
    SplitHasNoSlash(base);
    SplitHasNoSlash(p);
    SplitAppend(base, p);
    WalkAppend([], Split(base), Split(p));
    RootedIsWalk([], Split(base));
    assert Target(base, q) == Target(base, p);
    ResolveMeaning(base, q);
  }

  /** The relative spelling of an accepted absolute path resolves alike, unless the name that follows the
      base starts with two dots: then it is refused. */
  lemma RelativeSpelling(base: string, p: string)
    requires IsBase(base) && base != "/" && IsAbs(p) && Resolve(base, p).Ok?
    ensures StackOf(base) <= StackOf(p)
    ensures var below := StackOf(p)[|StackOf(base)|..];
            Resolve(base, RelativeTo(base, p)) ==
            if below != [] && HasPrefix(below[0], "..") then Err(InvalidPath) else Resolve(base, p)
  {
    ResolveMeaning(base, p);
    SplitHasNoSlash(p);
    RootedIsWalk([], Split(p));
    StackShape(p);
    var b, s := StackOf(base), StackOf(p);
    var below := s[|b|..];
    var rel := RelativeTo(base, p);
    assert IsStack(false, below) && s == b + below;
    RenderForm(false, below);
    RelativeDots(below);
    if below == [] || !HasPrefix(below[0], "..") {
      DescendingResolves(base, rel);
    }
  }

  lemma RelativeDots(stack: seq<string>)
    requires IsStack(false, stack)
    ensures Render(false, stack) != "" && Clean(Render(false, stack)) == Render(false, stack)
    ensures HasPrefix(Render(false, stack), "..") <==> stack != [] && HasPrefix(stack[0], "..")
  {
    RenderForm(false, stack);
    if stack != [] {
      assert stack[0] != "" && stack[0] != ".";
      HeadPrefix(stack);
      JoinHead(stack);
      if |stack| > 1 && |stack[0]| == 1 {
        assert JoinSlash(stack)[1] == '/';
      }
    }
  }

  /** The path leads to the start or below it, wherever it starts. */
  ghost predicate StaysBelow(p: string) {
    forall dir :: Names(dir) ==> dir <= Walk(dir, Split(p))
  }

  /** A relative path is accepted exactly when it stays below its start and the first name it leads
      through does not itself start with two dots. */
  lemma RelativeAcceptance(base: string, p: string)
    requires IsBase(base) && base != "/" && p != "" && !IsAbs(p)
    ensures Resolve(base, p).Ok? <==>
              StaysBelow(p) && (StackOf(p) == [] || !HasPrefix(StackOf(p)[0], ".."))
  {
    ResolveMeaning(base, p);
    StackShape(p);
    RelativeDots(StackOf(p));
    if Descends(p) {
      SplitHasNoSlash(p);
      DescendingStack(p);
      assert Names(StackOf(p));
      forall dir | Names(dir)
        ensures dir <= Walk(dir, Split(p))
      {
        PushAllWalks(dir, [], Split(p));
        WalkNames(dir, StackOf(p));
      }
    }
  }

  /** Below any base but the root, the last escape check never fires. */
  lemma EscapeCheckNeverFires(base: string, p: string)
    requires IsBase(base) && base != "/" && !IsAbs(p) && Descends(p)
    ensures Inside(base, Clean(Join(base, Clean(p))))
  {
    JoinedForm(base, p);
    InsideStack(base, StackOf(base) + StackOf(p));
  }

  /** Rooted at "/", the prefix tests accept the root itself and nothing below it. */
  lemma RootBase(p: string)
    ensures Resolve("/", p) == if p != "" && StackOf(p) == [] then Ok("/") else Err(InvalidPath)
  {
    SplitPlain("");
    assert Split("/") == ["", ""];
    assert StackOf("/") == [] && IsBase("/");
    StackShape(p);
    if p == "" {
    } else if IsAbs(p) {
      NotBelowRoot(StackOf(p));
    } else if Descends(p) {
      JoinedForm("/", p);
      assert [] + StackOf(p) == StackOf(p);
      NotBelowRoot(StackOf(p));
    }
  }

  lemma NotBelowRoot(stack: seq<string>)
    requires IsStack(true, stack)
    ensures Inside("/", Render(true, stack)) <==> stack == []
  {
    if stack != [] {
      JoinHead(stack);
      assert IsName(stack[0]);
      assert Render(true, stack)[1] == stack[0][0];
    }
  }

  /** Wherever resolvePath succeeds, GetPath gives the same path. */
  lemma GetPathAgrees(base: string, p: string)
    requires IsBase(base) && Resolve(base, p).Ok?
    ensures GetPath(base, p) == Resolve(base, p).value
  {
    CleanIdempotent(p);
    if !IsAbs(p) {
      JoinedForm(base, p);
    }
  }

  /** GetPath leads where the path leads, from the root if absolute, from the base if relative, also where that is
      outside the base. */
  lemma GetPathMeaning(base: string, p: string)
    requires IsBase(base)
    ensures IsAbs(GetPath(base, p)) && StackOf(GetPath(base, p)) == Target(base, p)
  {
    CleanIdempotent(p);
    SplitHasNoSlash(p);
    SplitHasNoSlash(Clean(p));
    BaseForm(base);
    if IsAbs(p) {
      RootedIsWalk([], Split(p));
    } else {
      var b := StackOf(base);
      JoinOnto(b, Clean(p));
      assert Names(b);
      RootedIsWalk(b, Split(Clean(p)));
      CleanPreservesMeaning(p, b);
      PushAllShape(true, b, Split(Clean(p)));
      RenderForm(true, PushAll(true, b, Split(Clean(p))));
    }
  }

  // ---- the store ----

  type Content = seq<bv8>

  type Disk = map<string, Content>

  /** How the operating system lets a call end: as asked, refused with no effect, or, while data is being
      written, stopped after some of it. */
  datatype Fate = Works | Refused | Interrupted(written: nat)

  function Kept(data: Content, fate: Fate): Content {
    if fate.Interrupted? && fate.written < |data| then data[..fate.written] else data
  }

  datatype Op =
    | SaveOp(path: string, data: Option<Content>)
    | DeleteOp(path: string)
    | OpenOp(path: string)

  /** The file an operation writes or removes, and what is there afterwards. */
  function Effect(base: string, op: Op, fate: Fate): Option<(string, Option<Content>)> {
    match op
    case SaveOp(path, data) =>
      if data.None? || Resolve(base, path).Err? || fate.Refused? then None
      else Some((Resolve(base, path).value, Some(Kept(data.value, fate))))
    case DeleteOp(path) =>
      if Resolve(base, path).Err? || !fate.Works? then None
      else Some((Resolve(base, path).value, None))
    case OpenOp(_) => None
  }

  function Applied(base: string, disk: Disk, op: Op, fate: Fate): Disk {
    match Effect(base, op, fate)
    case None => disk
    case Some((key, Some(data))) => disk[key := data]
    case Some((key, None)) => disk - {key}
  }

  class FileStore {
    const baseDir: string
    var disk: Disk

    constructor (baseDir: string, disk: Disk)
      ensures this.baseDir == baseDir && this.disk == disk
    {
      this.baseDir, this.disk := baseDir, disk;
    }

    method Save(path: string, data: Option<Content>, fate: Fate) returns (r: Result<string, StoreError>)
      modifies this
      ensures disk == Applied(baseDir, old(disk), SaveOp(path, data), fate)
      ensures r == if data.None? then Err(NilReader)
                   else if Resolve(baseDir, path).Err? then Err(InvalidPath)
                   else if fate.Works? then Resolve(baseDir, path)
                   else Err(OsError)
      ensures r.Ok? ==> disk == old(disk)[r.value := data.value]
      ensures r.Err? && (r.error != OsError || fate == Refused) ==> disk == old(disk)
      ensures data.Some? && Resolve(baseDir, path).Ok? && fate.Interrupted? ==>
                disk == old(disk)[Resolve(baseDir, path).value :=
                                  if fate.written < |data.value| then data.value[..fate.written] else data.value]
    {
      if data.None? {
        return Err(NilReader);
      }
      var target := Resolve(baseDir, path);
      if target.Err? {
        return target;
      }
      if fate.Refused? {
        return Err(OsError);
      }
      // os.Create truncates, then io.Copy writes
      disk := disk[target.value := []];
      disk := disk[target.value := Kept(data.value, fate)];
      if fate.Interrupted? {
        return Err(OsError);
      }
      return target;
    }

    method Open(path: string, fate: Fate) returns (r: Result<Content, StoreError>)
      ensures r == match Resolve(baseDir, path)
                   case Err(_) => Err(InvalidPath)
                   case Ok(key) => if fate.Works? && key in disk then Ok(disk[key]) else Err(OsError)
    {
      var target := Resolve(baseDir, path);
      if target.Err? {
        return Err(InvalidPath);
      }
      if fate.Works? && target.value in disk {
        return Ok(disk[target.value]);
      }
      return Err(OsError);
    }

    method Delete(path: string, fate: Fate) returns (r: Result<(), StoreError>)
      modifies this
      ensures disk == Applied(baseDir, old(disk), DeleteOp(path), fate)
      ensures r == match Resolve(baseDir, path)
                   case Err(_) => Err(InvalidPath)
                   case Ok(_) => if fate.Works? then Ok(()) else Err(OsError)
      ensures r.Ok? ==> disk == old(disk) - {Resolve(baseDir, path).value}
      ensures r.Err? ==> disk == old(disk)
    {
      var target := Resolve(baseDir, path);
      if target.Err? {
        return Err(InvalidPath);
      }
      if !fate.Works? {
        return Err(OsError);
      }
      if target.value in disk {
        disk := map key | key in disk && key != target.value :: disk[key];
      }
      return Ok(());
    }

    method Exists(path: string, fate: Fate) returns (r: Result<bool, StoreError>)
      ensures r == match Resolve(baseDir, path)
                   case Err(_) => Err(InvalidPath)
                   case Ok(key) => if fate.Works? then Ok(key in disk) else Err(OsError)
    {
      var target := Resolve(baseDir, path);
      if target.Err? {
        return Err(InvalidPath);
      }
      if !fate.Works? {
        return Err(OsError);
      }
      return Ok(target.value in disk);
    }
  }

  // ---- the store as a map ----

  type History = seq<(Op, Fate)>

  function AfterAll(base: string, disk: Disk, history: History): Disk
    decreases |history|
  {
    if history == [] then disk
    else
      var (op, fate) := history[0];
      AfterAll(base, Applied(base, disk, op, fate), history[1..])
  }

  /** Which paths the store accepts, said by where they lead: an absolute path at or below the base; a
      relative one that stays below its start, and whose first name does not start with two dots. */
  ghost predicate Accepts(base: string, p: string) {
    p != "" &&
    if IsAbs(p) then StackOf(base) <= Target(base, p)
    else
      && StaysBelow(p)
      && !(exists name, rest :: HasPrefix(name, "..") && Target(base, p) == StackOf(base) + [name] + rest)
  }

  /** What an operation leaves at the place its own path leads to, if it gets that far: a save the written
      content, whole or in part, a delete nothing. */
  function Leaves(op: Op, fate: Fate): Option<Option<Content>> {
    match op
    case SaveOp(_, Some(data)) => if fate.Refused? then None else Some(Some(Kept(data, fate)))
    case DeleteOp(_) => if fate.Works? then Some(None) else None
    case _ => None
  }

  /** The content at a place after a history: what the last operation left that got there. */
  ghost function LastWord(base: string, history: History, place: seq<string>): Option<Content>
    decreases |history|
  {
    if history == [] then None
    else
      var (op, fate) := history[|history| - 1];
      var before := LastWord(base, history[..|history| - 1], place);
      if Accepts(base, op.path) && Target(base, op.path) == place && Leaves(op, fate).Some?
      then Leaves(op, fate).value
      else before
  }

  function Lookup(disk: Disk, key: string): Option<Content> {
    if key in disk then Some(disk[key]) else None
  }

  lemma {:induction false} AfterAllLast(base: string, disk: Disk, history: History)
    requires history != []
    ensures var (op, fate) := history[|history| - 1];
            AfterAll(base, disk, history) == Applied(base, AfterAll(base, disk, history[..|history| - 1]), op, fate)
    decreases |history|
  {
    if |history| > 1 {
      var (op, fate) := history[0];
      var rest := history[1..];
      AfterAllLast(base, Applied(base, disk, op, fate), rest);
      assert rest[..|rest| - 1] == history[..|history| - 1][1..];
    }
  }

  /** What the store accepts, by Accepts, and by its prefix tests. */
  lemma AcceptsExactly(base: string, p: string)
    requires IsBase(base) && base != "/"
    ensures Resolve(base, p).Ok? <==> Accepts(base, p)
  {
    ResolveMeaning(base, p);
    if p != "" && !IsAbs(p) {
      RelativeAcceptance(base, p);
      StackShape(p);
      if StaysBelow(p) {
        BelowStart(base, p);
        FirstName(StackOf(base), StackOf(p));
      }
    }
  }

  /** A path that stays below its start leads to the start followed by its stack. */
  lemma BelowStart(base: string, p: string)
    requires IsBase(base) && !IsAbs(p) && StaysBelow(p)
    ensures Target(base, p) == StackOf(base) + StackOf(p)
  {
    var stack := StackOf(p);
    SplitHasNoSlash(p);
    StackShape(p);
    BaseForm(base);
    TwoNames();
    var dir, other := Repeat("a", Climbs(stack)), Repeat("b", Climbs(stack));
    assert Names(dir) && Names(other);
    PushAllWalks(dir, [], Split(p));
    PushAllWalks(other, [], Split(p));
    if Climbs(stack) > 0 {
      ClimbsBackTo("a", stack);
      ClimbsBackTo("b", stack);
    }
    PushAllWalks(StackOf(base), [], Split(p));
    assert stack[0..] == stack;
    WalkNames(StackOf(base), stack);
  }

  /** From just as deep as it climbs, a path that ends below its start first goes back into it. */
  lemma ClimbsBackTo(c: string, stack: seq<string>)
    requires IsStack(false, stack) && Climbs(stack) > 0
    requires Repeat(c, Climbs(stack)) <= Walk(Repeat(c, Climbs(stack)), stack)
    ensures Climbs(stack) < |stack| && stack[Climbs(stack)] == c
  {
    var k, dir := Climbs(stack), Repeat(c, Climbs(stack));
    WalkStack(dir, stack);
    RepeatAt(c, k);
    assert dir[..0] + stack[k..] == stack[k..];
  }

  lemma FirstName(base: seq<string>, stack: seq<string>)
    ensures (exists name, rest :: HasPrefix(name, "..") && base + stack == base + [name] + rest) <==>
            stack != [] && HasPrefix(stack[0], "..")
  {
    if stack != [] && HasPrefix(stack[0], "..") {
      assert stack == [stack[0]] + stack[1..];
      assert base + stack == base + [stack[0]] + stack[1..];
    }
    if name, rest :| HasPrefix(name, "..") && base + stack == base + [name] + rest {
      assert stack == (base + stack)[|base|..];
      assert (base + [name] + rest)[|base|] == name;
    }
  }

  /** Two accepted paths resolve to one file exactly when they lead to one place. */
  lemma SameFileIffSamePlace(base: string, p: string, q: string)
    requires IsBase(base) && base != "/" && Accepts(base, p) && Accepts(base, q)
    ensures Resolve(base, p).Ok? && Resolve(base, q).Ok?
    ensures Resolve(base, p) == Resolve(base, q) <==> Target(base, p) == Target(base, q)
  {
    AcceptsExactly(base, p);
    AcceptsExactly(base, q);
    ResolveMeaning(base, p);
    ResolveMeaning(base, q);
    RenderForm(true, Target(base, p));
    RenderForm(true, Target(base, q));
  }

  /** After any history of saves, deletes and opens, with any of them failing, an accepted path of any spelling
      finds what the last save or delete left that was itself accepted, got through, and led to the same place. */
  lemma {:induction false} StoreIsMap(base: string, history: History, p: string)
    requires IsBase(base) && base != "/" && Accepts(base, p)
    ensures Resolve(base, p).Ok?
    ensures Lookup(AfterAll(base, map[], history), Resolve(base, p).value) == LastWord(base, history, Target(base, p))
    decreases |history|
  {
    hide Resolve, Accepts, Target;
    AcceptsExactly(base, p);
    if history != [] {
      var (op, fate) := history[|history| - 1];
      AfterAllLast(base, map[], history);
      StoreIsMap(base, history[..|history| - 1], p);
      AcceptsExactly(base, op.path);
      if Accepts(base, op.path) {
        SameFileIffSamePlace(base, op.path, p);
      }
    }
  }

  /** Every file on disk is inside the base, whatever paths the store was given. */
  lemma {:induction false} NothingOutside(base: string, history: History, key: string)
    requires IsBase(base) && base != "/" && key in AfterAll(base, map[], history)
    ensures Inside(base, key) && Resolve(base, key) == Ok(key)
    decreases |history|
  {
    if history != [] {
      AfterAllLast(base, map[], history);
      var init := history[..|history| - 1];
      var (op, fate) := history[|history| - 1];
      if key in AfterAll(base, map[], init) {
        NothingOutside(base, init, key);
      } else {
        ResolvedInsideAndStable(base, op.path);
      }
    }
  }
}
