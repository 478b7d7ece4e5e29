/** The retained-library worklist (scripts/prune_runtime.py). */
module Closure {
  import opened Common

  /** An ELF file found in the image, in the order of the directory walk. */
  datatype Library = Library(path: string, name: string)

  /** The dependency graph: base names resolve to paths, paths need base names. */
  datatype Image = Image(libraries: map<string, string>, needs: map<string, set<string>>, roots: set<string>)

  datatype Refusal = Unreviewed(name: string) | Missing(name: string) | MissingInterpreter

  datatype Pruned = Pruned(retained: set<string>, removed: set<string>)

  predicate ValidImage(image: Image) {
    forall name :: name in image.libraries ==> image.libraries[name] in image.needs
  }

  // ---- What the image needs --------------------------------------------------

  /** A chain of base names, each needed by the library the previous one resolves to. */
  predicate Chain(image: Image, names: seq<string>)
    requires ValidImage(image)
  {
    && names != []
    && names[0] in image.roots
    && forall i :: 0 < i < |names| ==> Link(image, names, i)
  }

  predicate Link(image: Image, names: seq<string>, i: nat)
    requires ValidImage(image) && 0 < i < |names|
  {
    names[i - 1] in image.libraries && names[i] in image.needs[image.libraries[names[i - 1]]]
  }

  ghost predicate Needed(image: Image, name: string)
    requires ValidImage(image)
  {
    exists names: seq<string> :: Chain(image, names) && names[|names| - 1] == name
  }

  ghost predicate NeededPath(image: Image, path: string)
    requires ValidImage(image)
  {
    exists name :: Needed(image, name) && name in image.libraries && image.libraries[name] == path
  }

  lemma {:induction false} NeededByRoot(image: Image, name: string)
    requires ValidImage(image) && name in image.roots
    ensures Needed(image, name)
  {
    assert Chain(image, [name]);
  }

  lemma {:induction false} NeededByLibrary(image: Image, name: string, next: string)
    requires ValidImage(image) && Needed(image, name)
    requires name in image.libraries && next in image.needs[image.libraries[name]]
    ensures Needed(image, next)
  {
    var names :| Chain(image, names) && names[|names| - 1] == name;
    var longer := names + [next];
    forall i | 0 < i < |longer| ensures Link(image, longer, i) {
      if i < |names| { assert Link(image, names, i); }
    }
    assert Chain(image, longer);
  }

  /** The name is allowed, resolves, and its library is kept. */
  predicate Settled(image: Image, reviewed: set<string>, retained: set<string>, name: string) {
    name in reviewed && name in image.libraries && image.libraries[name] in retained
  }

  predicate Closed(image: Image, reviewed: set<string>, retained: set<string>)
    requires ValidImage(image)
  {
    && (forall name :: name in image.roots ==> Settled(image, reviewed, retained, name))
    && forall path, name :: path in retained && path in image.needs && name in image.needs[path] ==>
         Settled(image, reviewed, retained, name)
  }

  /** A closed set settles everything the image needs. */
  lemma {:induction false} ClosedCovers(image: Image, reviewed: set<string>, retained: set<string>,
                                        names: seq<string>)
    requires ValidImage(image) && Closed(image, reviewed, retained) && Chain(image, names)
    ensures Settled(image, reviewed, retained, names[|names| - 1])
    decreases |names|
  {
    if |names| > 1 {
      var before := names[..|names| - 1];
      forall i | 0 < i < |before| ensures Link(image, before, i) { assert Link(image, names, i); }
      ClosedCovers(image, reviewed, retained, before);
      assert Link(image, names, |names| - 1);
    }
  }

  /** File `i` is the last one of the walk with its base name. */
  ghost predicate LastNamesake(files: seq<Library>, i: nat)
    requires i < |files|
  {
    forall j :: i < j < |files| ==> files[j].name != files[i].name
  }

  /** Every base name of the walk resolves to the last file that bears it. */
  ghost predicate Indexes(files: seq<Library>, libraries: map<string, string>) {
    && (forall f :: f in files ==> f.name in libraries)
    && (forall name :: name in libraries ==> Library(libraries[name], name) in files)
    && forall i :: 0 <= i < |files| && LastNamesake(files, i) ==> libraries[files[i].name] == files[i].path
  }

  /** A later file of the same name replaces the earlier one. */
  method Index(files: seq<Library>) returns (libraries: map<string, string>)
    ensures Indexes(files, libraries)
  {
    libraries := map[];
    for i := 0 to |files|
      invariant Indexes(files[..i], libraries)
    {
      IndexesNext(files[..i], libraries, files[i]);
      assert files[..i + 1] == files[..i] + [files[i]];
      libraries := libraries[files[i].name := files[i].path];
    }
    assert files[..|files|] == files;
  }

  lemma {:induction false} IndexesNext(files: seq<Library>, libraries: map<string, string>, file: Library)
    requires Indexes(files, libraries)
    ensures Indexes(files + [file], libraries[file.name := file.path])
  {
    var longer := files + [file];
    var next := libraries[file.name := file.path];
    forall name | name in next
      ensures Library(next[name], name) in longer
    {
      assert longer[|files|] == file;
    }
    forall i | 0 <= i < |longer| && LastNamesake(longer, i)
      ensures next[longer[i].name] == longer[i].path
    {
      if i < |files| {
        assert longer[|files|].name != longer[i].name;
        assert LastNamesake(files, i) by {
          forall j | i < j < |files| ensures files[j].name != files[i].name { assert longer[j] == files[j]; }
        }
        assert files[i] in files;
      }
    }
  }

  /** The index of a walk is unique. */
  lemma {:induction false} IndexUnique(files: seq<Library>, a: map<string, string>, b: map<string, string>)
    requires Indexes(files, a) && Indexes(files, b)
    ensures a == b
  {
    assert forall name :: name in a ==> Library(a[name], name) in files;
    forall name | name in a ensures name in b && a[name] == b[name] {
      assert Library(a[name], name) in files;
      var i := LastIndex(files, name);
      assert LastNamesake(files, i);
    }
    forall name | name in b ensures name in a {
      assert Library(b[name], name) in files;
    }
  }

  ghost function LastIndex(files: seq<Library>, name: string): (i: nat)
    requires exists f :: f in files && f.name == name
    ensures i < |files| && files[i].name == name && LastNamesake(files, i)
  {
    var last := |files| - 1;
    if files[last].name == name then last
    else
      assert files == files[..last] + [files[last]];
      LastIndex(files[..last], name)
  }

  // ---- The worklist ---------------------------------------------------------------

  /** Whatever is kept or pending is needed, and what roots and kept libraries need is
      pending or settled. */
  ghost predicate Progress(image: Image, reviewed: set<string>, retained: set<string>, pending: set<string>)
    requires ValidImage(image)
  {
    && (forall name :: name in pending ==> Needed(image, name))
    && (forall path :: path in retained ==> NeededPath(image, path))
    && (forall name :: name in image.roots ==> name in pending || Settled(image, reviewed, retained, name))
    && forall path, name :: path in retained && path in image.needs && name in image.needs[path] ==>
         name in pending || Settled(image, reviewed, retained, name)
  }

  lemma {:induction false} StartKeeps(image: Image, reviewed: set<string>)
    requires ValidImage(image)
    ensures Progress(image, reviewed, {}, image.roots)
  {
    forall name | name in image.roots ensures Needed(image, name) { NeededByRoot(image, name); }
  }

  /** A name whose library is kept may leave the worklist. */
  lemma {:induction false} SkipKeeps(image: Image, reviewed: set<string>, retained: set<string>,
                                     pending: set<string>, name: string, rest: set<string>)
    requires ValidImage(image) && Progress(image, reviewed, retained, pending)
    requires Settled(image, reviewed, retained, name) && pending - {name} <= rest <= pending
    ensures Progress(image, reviewed, retained, rest)
  {
    forall n | n in pending && n !in rest ensures n == name { assert n !in pending - {name}; }
    forall n | n in image.roots ensures n in rest || Settled(image, reviewed, retained, n) {
      assert n in pending || Settled(image, reviewed, retained, n);
    }
    forall q, n | q in retained && q in image.needs && n in image.needs[q]
      ensures n in rest || Settled(image, reviewed, retained, n)
    {
      assert n in pending || Settled(image, reviewed, retained, n);
    }
  }

  /** A name whose library is new brings in what that library needs. */
  lemma {:induction false} ExpandKeeps(image: Image, reviewed: set<string>, retained: set<string>,
                                       pending: set<string>, name: string)
    requires ValidImage(image) && Progress(image, reviewed, retained, pending)
    requires name in pending && name in reviewed && name in image.libraries
    ensures var path := image.libraries[name];
            Progress(image, reviewed, retained + {path}, pending + image.needs[path])
  {
    var path := image.libraries[name];
    assert NeededPath(image, path);
    forall next | next in pending + image.needs[path] ensures Needed(image, next) {
      if next !in pending { NeededByLibrary(image, name, next); }
    }
    var retained', pending' := retained + {path}, pending + image.needs[path];
    forall n | n in image.roots ensures n in pending' || Settled(image, reviewed, retained', n) {
      assert n in pending || Settled(image, reviewed, retained, n);
    }
    forall q, n | q in retained' && q in image.needs && n in image.needs[q]
      ensures n in pending' || Settled(image, reviewed, retained', n)
    {
      if q in retained { assert n in pending || Settled(image, reviewed, retained, n); }
    }
  }

  lemma {:induction false} FinishCloses(image: Image, reviewed: set<string>, retained: set<string>)
    requires ValidImage(image) && Progress(image, reviewed, retained, {})
    ensures Closed(image, reviewed, retained)
    ensures forall name :: Needed(image, name) ==> Settled(image, reviewed, retained, name)
    ensures forall path :: path in retained <==> NeededPath(image, path)
  {
    forall name | Needed(image, name) ensures Settled(image, reviewed, retained, name) {
      var names :| Chain(image, names) && names[|names| - 1] == name;
      ClosedCovers(image, reviewed, retained, names);
    }
  }

  /** Cyclic dependencies are no obstacle: a library is expanded once. */
  method Retain(image: Image, reviewed: set<string>) returns (r: Result<set<string>, Refusal>)
    requires ValidImage(image)
    ensures r.Ok? ==> Closed(image, reviewed, r.value)
    ensures r.Ok? ==> forall path :: path in r.value <==> NeededPath(image, path)
    ensures r.Ok? <==> forall name :: Needed(image, name) ==> name in reviewed && name in image.libraries
    ensures r.Err? ==> match r.error
                       case Unreviewed(name) => Needed(image, name) && name !in reviewed
                       case Missing(name) => Needed(image, name) && name in reviewed && name !in image.libraries
                       case MissingInterpreter => false
  {
    var retained: set<string> := {};
    var pending := image.roots;
    StartKeeps(image, reviewed);
    while pending != {}
      invariant Progress(image, reviewed, retained, pending)
      decreases image.libraries.Values - retained, pending
    {
      var name: string :| name in pending;
      ghost var before := pending;
      pending := pending - {name};
      if name !in reviewed {
        return Err(Unreviewed(name));
      }
      if name !in image.libraries {
        return Err(Missing(name));
      }
      var path := image.libraries[name];
      if path !in retained {
        assert path in image.libraries.Values - retained;
        ExpandKeeps(image, reviewed, retained, before, name);
        retained := retained + {path};
        pending := pending + image.needs[path];
        SkipKeeps(image, reviewed, retained, before + image.needs[path], name, pending);
      } else {
        SkipKeeps(image, reviewed, retained, before, name, pending);
      }
    }
    FinishCloses(image, reviewed, retained);
    r := Ok(retained);
  }

  /** What is kept lies in every set that is closed under the needs of the image. */
  lemma {:induction false} LeastClosed(image: Image, reviewed: set<string>, retained: set<string>,
                                       other: set<string>)
    requires ValidImage(image) && Closed(image, reviewed, other)
    requires forall path :: path in retained <==> NeededPath(image, path)
    ensures retained <= other
  {
    forall path | path in retained ensures path in other {
      var name :| Needed(image, name) && name in image.libraries && image.libraries[name] == path;
      var names :| Chain(image, names) && names[|names| - 1] == name;
      ClosedCovers(image, reviewed, other, names);
    }
  }

  /** The removal loop, over the indexed libraries. */
  method Prune(files: seq<Library>, needs: map<string, set<string>>, executableNeeds: set<string>,
               interpreter: string, interpreterPath: string, reviewed: set<string>)
    returns (image: Image, r: Result<Pruned, Refusal>)
    requires forall f :: f in files ==> f.path in needs
    ensures image.needs == needs && image.roots == executableNeeds + {interpreter} && ValidImage(image)
    ensures Indexes(files, image.libraries)
    ensures r.Ok? <==> (forall name :: Needed(image, name) ==> name in reviewed && name in image.libraries)
                       && NeededPath(image, interpreterPath)
    ensures r.Ok? ==>
              && Closed(image, reviewed, r.value.retained)
              && (forall path :: path in r.value.retained <==> NeededPath(image, path))
              && r.value.removed == image.libraries.Values - r.value.retained
    ensures r.Ok? && OneNamePerPath(files) ==>
              (r.value.removed == Unneeded(image, files) <==> UniqueNames(files))
  {
    var libraries := Index(files);
    image := Image(libraries, needs, executableNeeds + {interpreter});
    var worklist := Retain(image, reviewed);
    if worklist.Err? {
      return image, Err(worklist.error);
    }
    var retained := worklist.value;
    if interpreterPath !in retained {
      return image, Err(MissingInterpreter);
    }
    var removed: set<string> := {};
    var paths := libraries.Values;
    while paths != {}
      invariant paths <= libraries.Values
      invariant removed == (libraries.Values - paths) - retained
      decreases paths
    {
      var path: string :| path in paths;
      if path !in retained {
        removed := removed + {path};
      }
      paths := paths - {path};
    }
    r := Ok(Pruned(retained, removed));
    if OneNamePerPath(files) { RemovesExactlyUnneeded(files, image, r.value); }
  }

  /** Every ELF file of the image. */
  ghost function Paths(files: seq<Library>): set<string> {
    set f | f in files :: f.path
  }

  /** No two files share a base name. */
  predicate UniqueNames(files: seq<Library>) {
    forall f, g :: f in files && g in files && f.name == g.name ==> f.path == g.path
  }

  /** A walk visits a path once, so it has one base name. */
  predicate OneNamePerPath(files: seq<Library>) {
    forall f, g :: f in files && g in files && f.path == g.path ==> f.name == g.name
  }

  /** The files of the image that nothing needs. */
  ghost function Unneeded(image: Image, files: seq<Library>): set<string>
    requires ValidImage(image)
  {
    set path | path in Paths(files) && !NeededPath(image, path)
  }

  /** Every file is indexed exactly when base names are unique: of two namesakes the
      earlier one is hidden. */
  lemma {:induction false} AllIndexedExactly(files: seq<Library>, libraries: map<string, string>)
    requires OneNamePerPath(files) && Indexes(files, libraries)
    ensures libraries.Values <= Paths(files)
    ensures libraries.Values == Paths(files) <==> UniqueNames(files)
  {
    forall path | path in libraries.Values ensures path in Paths(files) {
      var name :| name in libraries && libraries[name] == path;
      assert Library(path, name) in files;
    }
    if libraries.Values == Paths(files) {
      forall f | f in files ensures libraries[f.name] == f.path {
        assert f.path in libraries.Values;
        var name :| name in libraries && libraries[name] == f.path;
        assert Library(f.path, name) in files;
      }
    }
    if UniqueNames(files) {
      forall path | path in Paths(files) ensures path in libraries.Values {
        var f :| f in files && f.path == path;
        assert Library(libraries[f.name], f.name) in files;
      }
    }
  }

  /** The removal deletes exactly the files that nothing needs if and only if no two files
      share a base name; in any case it deletes only such files. */
  lemma {:induction false} RemovesExactlyUnneeded(files: seq<Library>, image: Image, pruned: Pruned)
    requires ValidImage(image) && OneNamePerPath(files) && Indexes(files, image.libraries)
    requires forall path :: path in pruned.retained <==> NeededPath(image, path)
    requires pruned.removed == image.libraries.Values - pruned.retained
    ensures pruned.removed <= Unneeded(image, files)
    ensures pruned.removed == Unneeded(image, files) <==> UniqueNames(files)
  {
    AllIndexedExactly(files, image.libraries);
    if pruned.removed == Unneeded(image, files) {
      forall path | path in Paths(files) ensures path in image.libraries.Values {
        if !NeededPath(image, path) { assert path in pruned.removed; }
      }
    }
  }

  /** Of two files named alike the one found first is neither needed nor removed. */
  lemma {:induction false} NamesakeStays(image: Image, pruned: Pruned)
    requires ValidImage(image) && image.roots == {"ld"} && Indexes(NAMESAKES, image.libraries)
    requires forall path :: path in pruned.retained <==> NeededPath(image, path)
    requires pruned.removed == image.libraries.Values - pruned.retained
    ensures "/a/ld" in Unneeded(image, NAMESAKES) && "/a/ld" !in pruned.removed
  {
    assert LastNamesake(NAMESAKES, 1) && NAMESAKES[1] == Library("/b/ld", "ld");
    assert Library("/a/ld", "ld") == NAMESAKES[0];
    forall name | name in image.libraries ensures image.libraries[name] == "/b/ld" {
      assert Library(image.libraries[name], name) in NAMESAKES;
    }
    assert "/a/ld" != "/b/ld" by { assert "/a/ld"[1] == 'a' && "/b/ld"[1] == 'b'; }
  }

  const NAMESAKES: seq<Library> := [Library("/a/ld", "ld"), Library("/b/ld", "ld")]
}
