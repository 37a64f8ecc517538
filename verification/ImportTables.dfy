/** What each file imports, collected in one pass over the references before any is resolved. */
module ImportTables {
  import opened GraphModel
  import opened DottedNames
  import opened Narrowing
  import opened Visibility

  type Table = map<string, set<string>>

  // ---- what the import references say ------------------------------------------

  ghost predicate ImportIn(r: RawRef, file: string, whole: bool) {
    && r.rtype == "IMPORTS" && r.refFile == file && file != ""
    && (r.kindHint == "import_wildcard" <==> whole)
  }

  /** The file imports something of the simple name. */
  ghost predicate ImportsName(refs: seq<RawRef>, file: string, t: string) {
    exists r :: r in refs && ImportIn(r, file, false) && r.targetName != "" && IsTail(r.targetName, t)
  }

  /** The file imports the full name itself, or all of the package. */
  ghost predicate ImportsFqn(refs: seq<RawRef>, file: string, fqn: string, whole: bool) {
    fqn != "" && exists r :: r in refs && ImportIn(r, file, whole) && r.importFqn == fqn
  }

  /** The last segment of a full name the file imports. */
  ghost predicate ImportsTail(refs: seq<RawRef>, file: string, t: string) {
    t != "" && exists fqn :: ImportsFqn(refs, file, fqn, false) && IsTail(fqn, t)
  }

  /** The tables hold exactly what the import references say. */
  ghost predicate TablesSay(im: Imports, refs: seq<RawRef>) {
    && (forall f, t :: t in At(im.names, f) <==> ImportsName(refs, f, t))
    && (forall f, x :: x in At(im.fqns, f) <==> ImportsFqn(refs, f, x, false))
    && (forall f, x :: x in At(im.wildcards, f) <==> ImportsFqn(refs, f, x, true))
    && (forall f, t :: t in At(im.tails, f) <==> ImportsTail(refs, f, t))
  }

  lemma SaidTailsArePlain(im: Imports, refs: seq<RawRef>)
    requires TablesSay(im, refs)
    ensures TailsPlain(im)
  {
    forall f, t | f in im.tails && t in im.tails[f] ensures '.' !in t {
      assert t in At(im.tails, f);
      var fqn :| ImportsFqn(refs, f, fqn, false) && IsTail(fqn, t);
    }
  }

  // ---- the pass -------------------------------------------------------------------

  function Put(m: Table, file: string, x: string): Table { m[file := At(m, file) + {x}] }

  ghost predicate NamesSay(names: Table, refs: seq<RawRef>) {
    forall f, t :: t in At(names, f) <==> ImportsName(refs, f, t)
  }

  ghost predicate FqnsSay(fqns: Table, refs: seq<RawRef>, whole: bool) {
    forall f, x :: x in At(fqns, f) <==> ImportsFqn(refs, f, x, whole)
  }

  lemma OneMoreName(refs: seq<RawRef>, r: RawRef, f: string, t: string)
    ensures ImportsName(refs + [r], f, t) <==>
      || ImportsName(refs, f, t)
      || (ImportIn(r, f, false) && r.targetName != "" && IsTail(r.targetName, t))
  {
    forall x ensures x in refs + [r] <==> x in refs || x == r { }
  }

  lemma OneMoreFqn(refs: seq<RawRef>, r: RawRef, f: string, x: string, whole: bool)
    ensures ImportsFqn(refs + [r], f, x, whole) <==>
      ImportsFqn(refs, f, x, whole) || (x != "" && ImportIn(r, f, whole) && r.importFqn == x)
  {
    forall y ensures y in refs + [r] <==> y in refs || y == r { }
  }

  lemma NamesNext(names: Table, refs: seq<RawRef>, r: RawRef)
    requires NamesSay(names, refs)
    ensures var found := r.rtype == "IMPORTS" && r.refFile != "" && r.kindHint != "import_wildcard"
        && r.targetName != "";
      NamesSay(if found then Put(names, r.refFile, TailName(r.targetName)) else names, refs + [r])
  {
    forall f, t { OneMoreName(refs, r, f, t); }
    forall t { TailIff(r.targetName, t); }
  }

  lemma FqnsNext(fqns: Table, refs: seq<RawRef>, r: RawRef, whole: bool)
    requires FqnsSay(fqns, refs, whole)
    ensures var found := r.rtype == "IMPORTS" && r.refFile != "" && (r.kindHint == "import_wildcard" <==> whole)
        && r.importFqn != "";
      FqnsSay(if found then Put(fqns, r.refFile, r.importFqn) else fqns, refs + [r], whole)
  {
    forall f, x { OneMoreFqn(refs, r, f, x, whole); }
  }

  /** The references that name a supertype. */
  function NamesSupertype(): RawRef -> bool { (r: RawRef) => r.rtype == "EXTENDS" || r.rtype == "IMPLEMENTS" }

  /** What was read of the references so far. */
  ghost predicate HasRead(names: Table, fqns: Table, wildcards: Table, refs: seq<RawRef>) {
    NamesSay(names, refs) && FqnsSay(fqns, refs, false) && FqnsSay(wildcards, refs, true)
  }

  method ReadImport(r: RawRef, names: Table, fqns: Table, wildcards: Table, ghost before: seq<RawRef>)
    returns (names': Table, fqns': Table, wildcards': Table)
    requires HasRead(names, fqns, wildcards, before)
    ensures HasRead(names', fqns', wildcards', before + [r])
  {
    names', fqns', wildcards' := names, fqns, wildcards;
    NamesNext(names, before, r);
    FqnsNext(fqns, before, r, false);
    FqnsNext(wildcards, before, r, true);
    if r.rtype != "IMPORTS" || r.refFile == "" {
      return;
    }
    if r.kindHint == "import_wildcard" {
      if r.importFqn != "" {
        wildcards' := Put(wildcards, r.refFile, r.importFqn);
      }
      return;
    }
    if r.targetName != "" {
      names' := Put(names, r.refFile, TailName(r.targetName));
    }
    if r.importFqn != "" {
      fqns' := Put(fqns, r.refFile, r.importFqn);
    }
  }

  /** A supertype reference imports nothing. */
  lemma SkipsSupertype(names: Table, fqns: Table, wildcards: Table, before: seq<RawRef>, r: RawRef)
    requires HasRead(names, fqns, wildcards, before) && NamesSupertype()(r)
    ensures HasRead(names, fqns, wildcards, before + [r])
  {
    NamesNext(names, before, r);
    FqnsNext(fqns, before, r, false);
    FqnsNext(wildcards, before, r, true);
  }

  lemma OneMoreSupertype(refs: seq<RawRef>, r: RawRef)
    ensures Select(refs + [r], NamesSupertype())
         == Select(refs, NamesSupertype()) + if r.rtype == "EXTENDS" || r.rtype == "IMPLEMENTS" then [r] else []
  {
    SelectConcat(refs, [r], NamesSupertype());
  }

  /** One pass over the references: what each file imports, and the references that the supertype pass needs. */
  method ReadRefs(refs: seq<RawRef>) returns (names: Table, fqns: Table, wildcards: Table, hierarchy: seq<RawRef>)
    ensures HasRead(names, fqns, wildcards, refs) && hierarchy == Select(refs, NamesSupertype())
  {
    names, fqns, wildcards, hierarchy := map[], map[], map[], [];
    for i := 0 to |refs|
      invariant HasRead(names, fqns, wildcards, refs[..i]) && hierarchy == Select(refs[..i], NamesSupertype())
    {
      var r := refs[i];
      assert refs[..i + 1] == refs[..i] + [r];
      OneMoreSupertype(refs[..i], r);
      if r.rtype == "EXTENDS" || r.rtype == "IMPLEMENTS" {
        SkipsSupertype(names, fqns, wildcards, refs[..i], r);
        hierarchy := hierarchy + [r];
      } else {
        names, fqns, wildcards := ReadImport(r, names, fqns, wildcards, refs[..i]);
      }
    }
    assert refs[..|refs|] == refs;
  }

  ghost predicate SomeTail(fqns: set<string>, t: string) { t != "" && exists x :: x in fqns && IsTail(x, t) }

  /** The tails of the files done so far. */
  ghost predicate TailsSay(tails: Table, fqns: Table, done: set<string>) {
    forall f, t :: t in At(tails, f) <==> f in done && SomeTail(At(fqns, f), t)
  }

  function OwnTails(fqns: set<string>): set<string> { (set x | x in fqns :: TailName(x)) - {""} }

  lemma OwnTailsAre(fqns: set<string>, t: string)
    ensures t in OwnTails(fqns) <==> SomeTail(fqns, t)
  {
    forall x | x in fqns && IsTail(x, t) ensures t == TailName(x) { TailIff(x, t); }
  }

  /** A file without a tail gets no entry. */
  function WithTails(tails: Table, f: string, own: set<string>): Table { if own != {} then tails[f := own] else tails }

  lemma TailsNext(tails: Table, fqns: Table, done: set<string>, f: string)
    requires TailsSay(tails, fqns, done) && f in fqns && f !in tails
    ensures TailsSay(WithTails(tails, f, OwnTails(fqns[f])), fqns, done + {f})
  {
    var own := OwnTails(fqns[f]);
    var next := WithTails(tails, f, own);
    forall g, t ensures t in At(next, g) <==> g in done + {f} && SomeTail(At(fqns, g), t) {
      if g == f {
        OwnTailsAre(fqns[f], t);
        assert At(next, f) == own;
      } else {
        assert At(next, g) == At(tails, g);
      }
    }
  }

  /** The last segments of a file's full names, once per file. */
  method TailsOf(fqns: Table) returns (tails: Table)
    ensures TailsSay(tails, fqns, fqns.Keys)
  {
    tails := map[];
    var rest := fqns.Keys;
    ghost var done: set<string> := {};
    while rest != {}
      invariant done !! rest && done + rest == fqns.Keys && tails.Keys <= done
      invariant TailsSay(tails, fqns, done)
      decreases rest
    {
      var f :| f in rest;
      TailsNext(tails, fqns, done, f);
      tails := WithTails(tails, f, OwnTails(fqns[f]));
      rest, done := rest - {f}, done + {f};
    }
    assert done == fqns.Keys;
  }

  /** The import tables of all files; which package a file declares is given. */
  method ReadImports(refs: seq<RawRef>, packages: map<string, string>) returns (im: Imports, hierarchy: seq<RawRef>)
    ensures TablesSay(im, refs) && TailsPlain(im) && im.packages == packages
    ensures hierarchy == Select(refs, NamesSupertype())
  {
    var names, fqns, wildcards;
    names, fqns, wildcards, hierarchy := ReadRefs(refs);
    var tails := TailsOf(fqns);
    im := Imports(names, fqns, tails, wildcards, packages);
    SaidTailsArePlain(im, refs);
  }
}
