/** Which file contents a stored graph was built from, and what an ingest makes of them. */
module FileContents {

  /** The files of a source tree and their contents. */
  type Tree = map<string, string>

  /** The hash that a file's node bears, and the contents that its file's nodes were extracted from. */
  datatype Stored = Stored(sha: string, from: set<string>)

  type Contents = map<string, Stored>

  /** What a finished ingest of the tree leaves: of every file its content and no other. */
  function Image(t: Tree): Contents { map f | f in t :: Stored(t[f], {t[f]}) }

  /** Merging batches: nodes of all of them, the first one's where ids agree. */
  function Merged(batches: seq<Tree>): Contents {
    if batches == [] then map[] else Joined(Merged(batches[..|batches| - 1]), batches[|batches| - 1])
  }

  function Joined(some: Contents, t: Tree): Contents {
    map f | f in some.Keys + t.Keys ::
      if f !in some then Stored(t[f], {t[f]})
      else if f !in t then some[f]
      else some[f].(from := some[f].from + {t[f]})
  }

  /** Files whose stored hash is not the tree's, and stored files that the tree does not have. */
  function Outdated(g: Contents, t: Tree): set<string> {
    (set f | f in t && !(f in g && g[f].sha == t[f])) + (g.Keys - t.Keys)
  }

  function Without(g: Contents, files: set<string>): Contents { map f | f in g && f !in files :: g[f] }

  /** Writing rows over what is stored: the hash is overwritten, other nodes of the file stay. */
  function Over(g: Contents, rows: Contents): Contents {
    map f | f in g.Keys + rows.Keys ::
      if f !in rows then g[f]
      else if f !in g then rows[f]
      else Stored(rows[f].sha, g[f].from + rows[f].from)
  }

  /** Patching what is stored, or starting from nothing. */
  function IngestOf(base: Contents, t: Tree, batches: seq<Tree>): Contents {
    Over(Without(base, Outdated(base, t)), Merged(batches))
  }

  /** The nodes of every file are those of the content its hash names. */
  ghost predicate Clean(g: Contents) { forall f :: f in g ==> g[f].from == {g[f].sha} }

  /** A file's node comes with the content it names. */
  ghost predicate Anchored(g: Contents) { forall f :: f in g ==> g[f].sha in g[f].from }

  /** The file is stored under the hash it has in the tree. */
  ghost predicate UpToDate(base: Contents, t: Tree, f: string) { f in base && f in t && base[f].sha == t[f] }

  ghost predicate SomeHas(batches: seq<Tree>, f: string) { exists b :: b in batches && f in b }

  /** Every file comes out as the tree has it: the batches have nothing else, what they lack is stored under the tree's
      hash, and all that is so stored has only nodes of that content. */
  ghost predicate ComesOutRight(base: Contents, t: Tree, batches: seq<Tree>) {
    && (forall f :: UpToDate(base, t, f) ==> base[f].from == {t[f]})
    && (forall b, f :: b in batches && f in b ==> f in t && b[f] == t[f])
    && (forall f :: f in t ==> UpToDate(base, t, f) || SomeHas(batches, f))
  }

  // ---- the merged batches ---------------------------------------------------

  lemma LastOrBefore(batches: seq<Tree>, b: Tree)
    requires batches != []
    ensures b in batches <==> b in batches[..|batches| - 1] || b == batches[|batches| - 1]
  {
    assert batches == batches[..|batches| - 1] + [batches[|batches| - 1]];
  }

  /** Every file of every batch, with all the contents it has in them. */
  lemma {:induction false} MergedMeans(batches: seq<Tree>, f: string)
    ensures f in Merged(batches) <==> SomeHas(batches, f)
    ensures f in Merged(batches) ==>
      forall c :: c in Merged(batches)[f].from <==> exists b :: b in batches && f in b && b[f] == c
  {
    if batches != [] {
      MergedMeans(batches[..|batches| - 1], f);
      forall b { LastOrBefore(batches, b); }
    }
  }

  /** The first batch that has the file gives its hash. */
  ghost predicate FirstHas(batches: seq<Tree>, f: string, c: string) {
    exists i :: 0 <= i < |batches| && f in batches[i] && batches[i][f] == c
      && forall j :: 0 <= j < i ==> f !in batches[j]
  }

  lemma {:induction false} FirstGivesHash(batches: seq<Tree>, f: string)
    requires f in Merged(batches)
    ensures FirstHas(batches, f, Merged(batches)[f].sha)
  {
    var rest, last := batches[..|batches| - 1], batches[|batches| - 1];
    if f in Merged(rest) {
      FirstGivesHash(rest, f);
      var i :| 0 <= i < |rest| && f in rest[i] && rest[i][f] == Merged(rest)[f].sha
            && forall j :: 0 <= j < i ==> f !in rest[j];
      assert batches[i] == rest[i] && forall j :: 0 <= j < i ==> batches[j] == rest[j];
    } else {
      MergedMeans(rest, f);
      forall j | 0 <= j < |rest| ensures f !in batches[j] { assert batches[j] == rest[j] && rest[j] in rest; }
    }
  }

  // ---- what an ingest leaves --------------------------------------------------

  lemma MergedAnchored(batches: seq<Tree>)
    ensures Anchored(Merged(batches))
  {
  }

  /** What is left after the deletion is what is up to date. */
  lemma LeftIff(base: Contents, t: Tree, f: string)
    ensures var left := Without(base, Outdated(base, t));
      (f in left <==> UpToDate(base, t, f)) && (f in left ==> left[f] == base[f])
  {
  }

  /** A file comes out right on its own. */
  ghost predicate FileRight(base: Contents, t: Tree, batches: seq<Tree>, f: string) {
    && (UpToDate(base, t, f) ==> base[f].from == {t[f]})
    && (forall b :: b in batches && f in b ==> f in t && b[f] == t[f])
    && (f in t ==> UpToDate(base, t, f) || SomeHas(batches, f))
  }

  lemma RowIsRight(batches: seq<Tree>, t: Tree, f: string)
    requires f in Merged(batches)
    ensures f in t && Merged(batches)[f] == Image(t)[f] <==>
      forall b :: b in batches && f in b ==> f in t && b[f] == t[f]
  {
    MergedMeans(batches, f);
    MergedAnchored(batches);
    var row := Merged(batches)[f];
    if f in t && row == Image(t)[f] {
      forall b | b in batches && f in b ensures b[f] == t[f] { assert b[f] in row.from; }
    }
    if forall b :: b in batches && f in b ==> f in t && b[f] == t[f] {
      var b :| b in batches && f in b;
      assert row.from == {t[f]};
    }
  }

  /** The file is in the graph as it is in the tree. */
  ghost predicate AsIn(g: Contents, t: Tree, f: string) { (f in g <==> f in t) && (f in t ==> g[f] == Image(t)[f]) }

  lemma ImageIff(g: Contents, t: Tree)
    ensures g == Image(t) <==> forall f :: AsIn(g, t, f)
  {
    if forall f :: AsIn(g, t, f) {
      forall f ensures (f in g <==> f in Image(t)) && (f in g ==> g[f] == Image(t)[f]) { assert AsIn(g, t, f); }
    }
  }

  lemma FileIsRightIff(base: Contents, t: Tree, batches: seq<Tree>, f: string)
    requires Anchored(base)
    ensures AsIn(IngestOf(base, t, batches), t, f) <==> FileRight(base, t, batches, f)
  {
    var rows := Merged(batches);
    LeftIff(base, t, f);
    MergedMeans(batches, f);
    if f in rows {
      RowIsRight(batches, t, f);
      MergedAnchored(batches);
      if UpToDate(base, t, f) { UnionIsOne(base[f].from, rows[f].from, t[f]); }
    }
  }

  lemma UnionIsOne(a: set<string>, b: set<string>, c: string)
    requires c in a && b != {}
    ensures a + b == {c} <==> a == {c} && b == {c}
  {
    if a + b == {c} {
      forall x | x in b ensures x == c { assert x in a + b; }
      forall x | x in a ensures x == c { assert x in a + b; }
      var x :| x in b;
    }
  }

  lemma EachIsRight(base: Contents, t: Tree, batches: seq<Tree>)
    requires forall f :: FileRight(base, t, batches, f)
    ensures ComesOutRight(base, t, batches)
  {
    forall b, f | b in batches && f in b ensures f in t && b[f] == t[f] { assert FileRight(base, t, batches, f); }
    forall f | UpToDate(base, t, f) ensures base[f].from == {t[f]} { assert FileRight(base, t, batches, f); }
    forall f | f in t ensures UpToDate(base, t, f) || SomeHas(batches, f) { assert FileRight(base, t, batches, f); }
  }

  lemma RightIsEach(base: Contents, t: Tree, batches: seq<Tree>, f: string)
    requires ComesOutRight(base, t, batches)
    ensures FileRight(base, t, batches, f)
  {
  }

  lemma IngestIsImageIff(base: Contents, t: Tree, batches: seq<Tree>)
    requires Anchored(base)
    ensures IngestOf(base, t, batches) == Image(t) <==> ComesOutRight(base, t, batches)
  {
    ImageIff(IngestOf(base, t, batches), t);
    forall f ensures AsIn(IngestOf(base, t, batches), t, f) <==> FileRight(base, t, batches, f) {
      FileIsRightIff(base, t, batches, f);
    }
    if ComesOutRight(base, t, batches) {
      forall f ensures FileRight(base, t, batches, f) { RightIsEach(base, t, batches, f); }
    }
    if forall f :: FileRight(base, t, batches, f) {
      EachIsRight(base, t, batches);
    }
  }

  /** On a clean base, the tree's own batches come out right. */
  lemma OwnComesOutRight(base: Contents, t: Tree, batches: seq<Tree>)
    requires Clean(base) && Merged(batches) == Image(t)
    ensures ComesOutRight(base, t, batches)
  {
    forall f | f in t ensures SomeHas(batches, f) { MergedMeans(batches, f); }
    forall b, f | b in batches && f in b ensures f in t && b[f] == t[f] {
      MergedMeans(batches, f);
      RowIsRight(batches, t, f);
    }
  }

  /** From nothing, exactly batches that merge to the tree come out right. */
  lemma WipedComesOutRightIff(t: Tree, batches: seq<Tree>)
    ensures ComesOutRight(map[], t, batches) <==> Merged(batches) == Image(t)
  {
    if ComesOutRight(map[], t, batches) {
      forall f ensures f in Merged(batches) <==> f in t { MergedMeans(batches, f); }
      forall f | f in Merged(batches) ensures Merged(batches)[f] == Image(t)[f] { RowIsRight(batches, t, f); }
    }
    if Merged(batches) == Image(t) {
      OwnComesOutRight(map[], t, batches);
    }
  }

  lemma ImageIsClean(t: Tree)
    ensures Clean(Image(t)) && Anchored(Image(t))
  {
  }

  /** What an ingest leaves is anchored again. */
  lemma IngestAnchored(base: Contents, t: Tree, batches: seq<Tree>)
    requires Anchored(base)
    ensures Anchored(IngestOf(base, t, batches))
  {
    MergedAnchored(batches);
  }
}
