/** The names under which uploads and processors store files, and where they end up on disk: distinct
    stored files of the protocol are distinct files on disk. */
module Naming {
  import opened Prelude
  import opened Strings
  import opened Domain
  import opened FilePaths
  import opened LocalFs

  /** uuid.New().String(): fixed length, neither dots nor slashes. */
  predicate IsUid(uid: Uid) {
    |uid| == 36 && '.' !in uid && '/' !in uid
  }

  /** The name an upload keeps of the client's file name. */
  function BaseName(filename: string): string {
    var b := Base(filename);
    if b == "" || b == "." then "unnamed_upload" else b
  }

  function StoredName(uid: Uid, filename: string): string {
    var base := BaseName(filename);
    var ext := Ext(base);
    "uploads/" + uid + "_" + TrimSuffix(base, ext) + ext
  }

  function Suffix(kind: Kind): string {
    match kind
    case Thumb => "_thumb.png"
    case Medium => "_medium.jpg"
    case Optimized => "_optimized.png"
    case ExtractedText => "_extracted.txt"
    case Cover => "_cover.png"
  }

  /** The name a processor gives an artifact of the job whose source is stored at `filePath`. */
  function ArtifactName(filePath: string, kind: Kind): string {
    TrimSuffix(Base(filePath), Ext(filePath)) + Suffix(kind)
  }

  /** The spelling under which the rows name a stored file: absolute for sources, as Save returned it,
      relative for artifacts. */
  function Spelling(base: string, names: Uid -> string, x: Path): string {
    match x
    case Source(uid) => SourcePath(base, uid, names(uid))
    case Product(uid, kind) => ArtifactName(SourcePath(base, uid, names(uid)), kind)
  }

  function SourcePath(base: string, uid: Uid, filename: string): string {
    match Resolve(base, StoredName(uid, filename))
    case Ok(p) => p
    case Err(_) => ""
  }

  // ---- where files end up ----

  /** The element under which a source is stored. */
  function SourceElement(uid: Uid, filename: string): string {
    uid + "_" + (if BaseName(filename) == "/" then "" else BaseName(filename))
  }

  lemma ElementIsName(uid: Uid, filename: string)
    requires IsUid(uid)
    ensures IsName(SourceElement(uid, filename)) && uid + "_" <= SourceElement(uid, filename)
  {
  }

  lemma StoredNameForm(uid: Uid, filename: string)
    ensures StoredName(uid, filename) ==
            "uploads" + "/" +
            if BaseName(filename) == "/" then SourceElement(uid, filename) + "/" + ""
            else SourceElement(uid, filename)
  {
    var base := BaseName(filename);
    var stem, ext := TrimSuffix(base, Ext(base)), Ext(base);
    assert base == stem + ext;
    hide BaseName, Ext;
    assert "uploads/" + uid + "_" + stem + ext == "uploads/" + (uid + "_" + (stem + ext));
    assert "uploads/" == "uploads" + "/";
    if base == "/" {
      assert uid + "_" + "/" == uid + "_" + "" + "/" + "";
    }
  }

  lemma StoredStack(uid: Uid, filename: string)
    requires IsUid(uid)
    ensures !IsAbs(StoredName(uid, filename))
    ensures StackOf(StoredName(uid, filename)) == ["uploads", SourceElement(uid, filename)]
  {
    var c, name := SourceElement(uid, filename), StoredName(uid, filename);
    StoredNameForm(uid, filename);
    ElementIsName(uid, filename);
    hide StoredName, SourceElement, BaseName, Split, PushAll;
    assert name[0] == 'u';
    SplitPlain("uploads");
    SplitPlain(c);
    SplitPlain("");
    SplitAppend(c, "");
    SplitAppend("uploads", c);
    SplitAppend("uploads", c + "/" + "");
    assert Split(name) == ["uploads", c] || Split(name) == ["uploads", c, ""];
    PushTwo(c);
  }

  lemma PushTwo(c: string)
    requires IsName(c)
    ensures PushAll(false, [], ["uploads", c]) == ["uploads", c]
    ensures PushAll(false, [], ["uploads", c, ""]) == ["uploads", c]
  {
    PushAllStack(false, [], ["uploads", c]);
    assert [] + ["uploads", c] == ["uploads", c];
    assert ["uploads", c] + [""] == ["uploads", c, ""];
    PushAllAppend(false, [], ["uploads", c], [""]);
    assert PushAll(false, ["uploads", c], [""]) == ["uploads", c];
  }

  /** The name of every upload is accepted, and its source lands in uploads/ below the base. */
  lemma UploadNameAccepted(base: string, uid: Uid, filename: string)
    requires IsBase(base) && base != "/" && IsUid(uid)
    ensures var stack := StackOf(base) + ["uploads", SourceElement(uid, filename)];
            && Resolve(base, StoredName(uid, filename)) == Ok(Render(true, stack))
            && IsStack(true, stack)
  {
    var p := StoredName(uid, filename);
    StoredStack(uid, filename);
    StackShape(p);
    RelativeDots(StackOf(p));
    StoredNameForm(uid, filename);
    hide Resolve, Render, StoredName, SourceElement;
    DescendingResolves(base, p);
  }

  /** The element under which an artifact is stored. */
  function ArtifactElement(uid: Uid, filename: string, kind: Kind): string {
    var c := SourceElement(uid, filename);
    TrimSuffix(c, Ext(c)) + Suffix(kind)
  }

  lemma ExtAfter(c: string, n: nat)
    requires n <= |c| && '.' !in c[..n]
    ensures |Ext(c)| <= |c| - n
  {
    var i := |c| - |Ext(c)|;
    assert Ext(c) == c[i..] && (Ext(c) != "" ==> c[i] == Ext(c)[0]);
    assert forall j :: 0 <= j < n ==> c[j] == c[..n][j];
  }

  lemma StemForm(uid: Uid, c: string)
    requires IsUid(uid) && uid + "_" <= c && '/' !in c
    ensures var stem := TrimSuffix(c, Ext(c)); uid + "_" <= stem && '/' !in stem
  {
    hide Ext;
    var n := |c| - |Ext(c)|;
    assert c[..37] == uid + "_";
    ExtAfter(c, 37);
    assert TrimSuffix(c, Ext(c)) == c[..n] && c[..37] <= c[..n];
  }

  lemma ArtifactElementForm(uid: Uid, filename: string, kind: Kind)
    requires IsUid(uid)
    ensures var e := ArtifactElement(uid, filename, kind); IsName(e) && uid + "_" <= e
  {
    hide *;
    ElementIsName(uid, filename);
    var c := SourceElement(uid, filename);
    NoSlashIn(c);
    StemForm(uid, c);
    SuffixPlain(kind);
    LongerName(uid, TrimSuffix(c, Ext(c)), Suffix(kind));
    ArtifactElementIs(uid, filename, kind);
  }

  lemma NoSlashIn(c: string)
    requires IsName(c)
    ensures '/' !in c
  {
  }

  lemma SuffixPlain(kind: Kind)
    ensures '/' !in Suffix(kind)
  {
  }

  lemma ArtifactElementIs(uid: Uid, filename: string, kind: Kind)
    ensures var c := SourceElement(uid, filename);
            ArtifactElement(uid, filename, kind) == TrimSuffix(c, Ext(c)) + Suffix(kind)
  {
    hide SourceElement, Ext, TrimSuffix, Suffix;
  }

  lemma LongerName(uid: Uid, stem: string, suffix: string)
    requires IsUid(uid) && uid + "_" <= stem && '/' !in stem && '/' !in suffix
    ensures IsName(stem + suffix) && uid + "_" <= stem + suffix
  {
  }

  lemma SourceForm(base: string, uid: Uid, filename: string) returns (dir: string)
    requires IsBase(base) && base != "/" && IsUid(uid)
    ensures SourcePath(base, uid, filename) == dir + "/" + SourceElement(uid, filename)
  {
    UploadNameAccepted(base, uid, filename);
    var b, c := StackOf(base), SourceElement(uid, filename);
    hide SourceElement, Resolve, StackOf;
    dir := Render(true, b + ["uploads"]);
    assert b + ["uploads", c] == (b + ["uploads"]) + [c];
    RenderBelow(b + ["uploads"], [c]);
  }

  lemma ArtifactNameForm(base: string, uid: Uid, filename: string, kind: Kind)
    requires IsBase(base) && base != "/" && IsUid(uid)
    ensures ArtifactName(SourcePath(base, uid, filename), kind) == ArtifactElement(uid, filename, kind)
  {
    var dir := SourceForm(base, uid, filename);
    ElementIsName(uid, filename);
    hide SourceElement, SourcePath, Base, Ext;
    BaseOfElement(dir, SourceElement(uid, filename));
    ExtOf(dir, SourceElement(uid, filename));
  }

  /** The element list, below the base, of the file that a path of the protocol stands for. */
  function ElementsOf(names: Uid -> string, x: Path): seq<string> {
    match x
    case Source(uid) => ["uploads", SourceElement(uid, names(uid))]
    case Product(uid, kind) => [ArtifactElement(uid, names(uid), kind)]
  }

  /** Every spelling the rows use is accepted, for the source as an absolute and for artifacts as a
      relative path, and resolves to its place below the base. */
  lemma SpellingResolves(base: string, names: Uid -> string, x: Path)
    requires IsBase(base) && base != "/" && IsUid(x.uid)
    ensures var stack := StackOf(base) + ElementsOf(names, x);
            IsStack(true, stack) && Resolve(base, Spelling(base, names, x)) == Ok(Render(true, stack))
  {
    UploadNameAccepted(base, x.uid, names(x.uid));
    match x
    case Source(uid) =>
      ResolvedInsideAndStable(base, StoredName(uid, names(uid)));
    case Product(uid, kind) =>
      ArtifactNameForm(base, uid, names(uid), kind);
      ArtifactElementForm(uid, names(uid), kind);
      var e := ArtifactElement(uid, names(uid), kind);
      assert e[0] == uid[0];
      SplitPlain(e);
      PushAllStack(false, [], [e]);
      assert [] + [e] == [e];
      DescendingResolves(base, e);
  }

  lemma SuffixesDiffer(stem: string, k: Kind, l: Kind)
    requires stem + Suffix(k) == stem + Suffix(l)
    ensures k == l
  {
    assert (stem + Suffix(k))[|stem|..] == Suffix(k);
    assert (stem + Suffix(l))[|stem|..] == Suffix(l);
    assert Suffix(k)[1] == Suffix(l)[1];
  }

  lemma PrefixesDiffer(u: Uid, v: Uid, c: string)
    requires IsUid(u) && IsUid(v) && u + "_" <= c && v + "_" <= c
    ensures u == v
  {
    assert u == c[..36] && v == c[..36];
  }

  lemma ElementsInjective(names: Uid -> string, x: Path, y: Path)
    requires IsUid(x.uid) && IsUid(y.uid) && ElementsOf(names, x) == ElementsOf(names, y)
    ensures x == y
  {
    ElementIsName(x.uid, names(x.uid));
    ElementIsName(y.uid, names(y.uid));
    if x.Source? {
      assert ElementsOf(names, x)[1] == ElementsOf(names, y)[1];
      PrefixesDiffer(x.uid, y.uid, SourceElement(x.uid, names(x.uid)));
    } else {
      assert |ElementsOf(names, x)| == 1;
      ArtifactElementForm(x.uid, names(x.uid), x.kind);
      ArtifactElementForm(y.uid, names(y.uid), y.kind);
      assert ElementsOf(names, x)[0] == ElementsOf(names, y)[0];
      PrefixesDiffer(x.uid, y.uid, ArtifactElement(x.uid, names(x.uid), x.kind));
      var c := SourceElement(x.uid, names(x.uid));
      SuffixesDiffer(TrimSuffix(c, Ext(c)), x.kind, y.kind);
    }
  }

  /** Whatever the clients called their files: two stored files of the protocol, sources or artifacts, of
      one job or of two, resolve to one file on disk only if they are the same. */
  lemma PathsSeparated(base: string, names: Uid -> string, x: Path, y: Path)
    requires IsBase(base) && base != "/" && IsUid(x.uid) && IsUid(y.uid)
    requires Resolve(base, Spelling(base, names, x)) == Resolve(base, Spelling(base, names, y))
    ensures x == y
  {
    SpellingResolves(base, names, x);
    SpellingResolves(base, names, y);
    var b, ex, ey := StackOf(base), ElementsOf(names, x), ElementsOf(names, y);
    RenderForm(true, b + ex);
    RenderForm(true, b + ey);
    assert ex == (b + ex)[|b|..] && ey == (b + ey)[|b|..];
    ElementsInjective(names, x, y);
  }

  // ---- the protocol's files on disk ----

  /** The disk holds, of the files the protocol can name, exactly those in `files`. */
  ghost predicate Holds(base: string, names: Uid -> string, disk: Disk, files: set<Path>) {
    forall x: Path :: IsUid(x.uid) ==> (x in files <==> Located(base, names, x) in disk)
  }

  function Located(base: string, names: Uid -> string, x: Path): string {
    match Resolve(base, Spelling(base, names, x))
    case Ok(p) => p
    case Err(_) => ""
  }

  lemma LocatedForm(base: string, names: Uid -> string, x: Path)
    requires IsBase(base) && base != "/" && IsUid(x.uid)
    ensures Resolve(base, Spelling(base, names, x)) == Ok(Located(base, names, x))
    ensures x.Source? ==> Resolve(base, StoredName(x.uid, names(x.uid))) == Ok(Located(base, names, x))
  {
    SpellingResolves(base, names, x);
    hide Resolve, StoredName;
    if x.Source? {
      UploadNameAccepted(base, x.uid, names(x.uid));
      hide ArtifactName;
      assert Spelling(base, names, x) == Resolve(base, StoredName(x.uid, names(x.uid))).value;
      ResolvedInsideAndStable(base, StoredName(x.uid, names(x.uid)));
    }
  }

  lemma LocatedInjective(base: string, names: Uid -> string, x: Path, y: Path)
    requires IsBase(base) && base != "/" && IsUid(x.uid) && IsUid(y.uid)
    requires Located(base, names, x) == Located(base, names, y)
    ensures x == y
  {
    hide *;
    LocatedForm(base, names, x);
    LocatedForm(base, names, y);
    PathsSeparated(base, names, x, y);
  }

  /** Saving under the stored name of an upload, or under an artifact's name, adds exactly that file; and
      deleting by the spelling a row uses removes exactly that file, whichever job it belongs to. */
  lemma DiskFollowsProtocol(base: string, names: Uid -> string, disk: Disk, files: set<Path>, x: Path, data: Content)
    requires IsBase(base) && base != "/" && IsUid(x.uid) && Holds(base, names, disk, files)
    ensures var name := if x.Source? then StoredName(x.uid, names(x.uid)) else Spelling(base, names, x);
            Holds(base, names, Applied(base, disk, SaveOp(name, Some(data)), Works), files + {x})
    ensures Holds(base, names, Applied(base, disk, DeleteOp(Spelling(base, names, x)), Works), files - {x})
  {
    hide IsUid, IsBase, StoredName, Located, Spelling, Resolve;
    LocatedForm(base, names, x);
    var key := Located(base, names, x);
    forall y: Path | IsUid(y.uid)
      ensures Located(base, names, y) == key ==> y == x
    {
      if Located(base, names, y) == key {
        LocatedInjective(base, names, y, x);
      }
    }
  }

  // ---- the names, written out ----

  lemma {:induction false} ExtOfNone(s: string)
    requires '.' !in s
    ensures Ext(s) == ""
  {
    if s != "" {
      assert s[|s| - 1] in s;
      ExtOfNone(s[..|s| - 1]);
    }
  }

  /** A file name's extension: nothing, or a dot and what has no further dot. */
  predicate IsExt(stem: string, ext: string) {
    if ext == "" then '.' !in stem else ext[0] == '.' && '.' !in ext[1..]
  }

  lemma ExtGrows(s: string, c: char)
    requires c != '.' && c != '/' && Ext(s) != ""
    ensures Ext(s + [c]) == Ext(s) + [c]
  {
    assert (s + [c])[..|s|] == s;
  }

  lemma ShorterExt(stem: string, ext: string)
    requires IsExt(stem, ext) && |ext| > 1
    ensures IsExt(stem, ext[..|ext| - 1]) && ext[|ext| - 1] != '.'
    ensures forall c :: c in ext[..|ext| - 1] ==> c in ext
  {
    var last := |ext| - 1;
    assert ext[last] == ext[1..][last - 1] && ext[last] in ext[1..];
    assert ext[..last][1..] == ext[1..][..last - 1];
  }

  lemma {:induction false} ExtIs(stem: string, ext: string)
    requires IsExt(stem, ext) && '/' !in stem && '/' !in ext
    ensures Ext(stem + ext) == ext
    decreases |ext|
  {
    var all := stem + ext;
    if ext == "" {
      assert all == stem;
      ExtOfNone(stem);
    } else {
      var last := |ext| - 1;
      assert all[|all| - 1] == ext[last] && ext[last] in ext;
      if last > 0 {
        ShorterExt(stem, ext);
        ExtIs(stem, ext[..last]);
        hide IsExt;
        assert all == stem + ext[..last] + [ext[last]];
        ExtGrows(stem + ext[..last], ext[last]);
        assert ext == ext[..last] + [ext[last]];
      } else {
        assert ext == ".";
      }
    }
  }

  lemma {:induction false} LastElementPlain(c: string)
    requires '/' !in c
    ensures LastElement(c) == c
  {
    if c != "" {
      LastElementPlain(c[..|c| - 1]);
      assert c == c[..|c| - 1] + [c[|c| - 1]];
    }
  }

  /** The file `c`, as a client's name for it: alone or after any directories. */
  ghost predicate NamesFile(filename: string, c: string) {
    filename == c || exists dir :: IsIn(filename, dir, c)
  }

  predicate IsIn(filename: string, dir: string, c: string) {
    filename == dir + "/" + c
  }

  lemma BaseNameIs(filename: string, c: string)
    requires NamesFile(filename, c) && c != "" && c != "." && '/' !in c
    ensures BaseName(filename) == c
  {
    if filename == c {
      assert c[|c| - 1] in c;
      LastElementPlain(c);
    } else {
      var dir :| IsIn(filename, dir, c);
      BaseOfElement(dir, c);
    }
  }

  /** Where the files of a job end up, for a client's file whose name, after any directories, is `stem` and `ext`: the
      source keeps that name behind the identifier, and each product has the stem and its own ending. */
  lemma NamesOnDisk(base: string, names: Uid -> string, uid: Uid, stem: string, ext: string)
    requires IsBase(base) && base != "/" && IsUid(uid) && IsExt(stem, ext) && '/' !in stem && '/' !in ext
    requires NamesFile(names(uid), stem + ext) && stem + ext != "" && stem + ext != "."
    ensures Located(base, names, Source(uid)) == base + "/" + ("uploads/" + (uid + "_" + (stem + ext)))
    ensures Located(base, names, Product(uid, Thumb)) == base + "/" + (uid + "_" + stem + "_thumb.png")
    ensures Located(base, names, Product(uid, Medium)) == base + "/" + (uid + "_" + stem + "_medium.jpg")
    ensures Located(base, names, Product(uid, Optimized)) == base + "/" + (uid + "_" + stem + "_optimized.png")
    ensures Located(base, names, Product(uid, ExtractedText)) == base + "/" + (uid + "_" + stem + "_extracted.txt")
    ensures Located(base, names, Product(uid, Cover)) == base + "/" + (uid + "_" + stem + "_cover.png")
  {
    hide *;
    ElementIs(uid, names(uid), stem + ext);
    SourceOnDisk(base, names, uid);
    ProductOnDisk(base, names, uid, stem, ext, Thumb);
    ProductOnDisk(base, names, uid, stem, ext, Medium);
    ProductOnDisk(base, names, uid, stem, ext, Optimized);
    ProductOnDisk(base, names, uid, stem, ext, ExtractedText);
    ProductOnDisk(base, names, uid, stem, ext, Cover);
    Suffixes();
  }

  lemma ElementIs(uid: Uid, filename: string, c: string)
    requires NamesFile(filename, c) && c != "" && c != "." && '/' !in c
    ensures SourceElement(uid, filename) == uid + "_" + c
  {
    hide NamesFile, BaseName;
    BaseNameIs(filename, c);
  }

  lemma Suffixes()
    ensures Suffix(Thumb) == "_thumb.png" && Suffix(Medium) == "_medium.jpg" && Suffix(Optimized) == "_optimized.png"
    ensures Suffix(ExtractedText) == "_extracted.txt" && Suffix(Cover) == "_cover.png"
  {
  }

  /** What a file's elements below the base make of its path. */
  lemma LocatedAt(base: string, names: Uid -> string, x: Path)
    requires IsBase(base) && base != "/" && IsUid(x.uid)
    ensures Located(base, names, x) == base + "/" + JoinSlash(ElementsOf(names, x))
  {
    LocatedForm(base, names, x);
    SpellingResolves(base, names, x);
    BaseForm(base);
    assert ElementsOf(names, x) != [];
    hide *;
    RenderBelow(StackOf(base), ElementsOf(names, x));
  }

  lemma SourceOnDisk(base: string, names: Uid -> string, uid: Uid)
    requires IsBase(base) && base != "/" && IsUid(uid)
    ensures Located(base, names, Source(uid)) == base + "/" + ("uploads/" + SourceElement(uid, names(uid)))
  {
    hide *;
    LocatedAt(base, names, Source(uid));
    SourceElements(names, uid);
  }

  lemma SourceElements(names: Uid -> string, uid: Uid)
    ensures JoinSlash(ElementsOf(names, Source(uid))) == "uploads/" + SourceElement(uid, names(uid))
  {
    var e := SourceElement(uid, names(uid));
    assert ElementsOf(names, Source(uid)) == ["uploads", e];
    hide SourceElement;
    assert ["uploads", e][1..] == [e];
    assert JoinSlash(["uploads", e]) == "uploads" + "/" + e;
  }

  lemma ProductOnDisk(base: string, names: Uid -> string, uid: Uid, stem: string, ext: string, kind: Kind)
    requires IsBase(base) && base != "/" && IsUid(uid) && IsExt(stem, ext) && '/' !in stem && '/' !in ext
    requires SourceElement(uid, names(uid)) == uid + "_" + (stem + ext)
    ensures Located(base, names, Product(uid, kind)) == base + "/" + (uid + "_" + stem + Suffix(kind))
  {
    hide *;
    LocatedAt(base, names, Product(uid, kind));
    ArtifactElementIs(uid, names(uid), kind);
    ProductElements(names, uid, kind);
    StemOf(uid, stem, ext);
  }

  lemma ProductElements(names: Uid -> string, uid: Uid, kind: Kind)
    ensures JoinSlash(ElementsOf(names, Product(uid, kind))) == ArtifactElement(uid, names(uid), kind)
  {
    hide ArtifactElement;
  }

  lemma StemOf(uid: Uid, stem: string, ext: string)
    requires IsUid(uid) && IsExt(stem, ext) && '/' !in stem && '/' !in ext
    ensures var c := uid + "_" + (stem + ext); TrimSuffix(c, Ext(c)) == uid + "_" + stem
  {
    var c, long := uid + "_" + (stem + ext), uid + "_" + stem;
    assert c == long + ext;
    assert '/' !in long && (ext == "" ==> '.' !in long);
    ExtIs(long, ext);
    hide *;
    TrimmedIs(long, ext);
  }

  lemma TrimmedIs(s: string, suffix: string)
    ensures TrimSuffix(s + suffix, suffix) == s
  {
  }
}
