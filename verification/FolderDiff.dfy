/** The folder diff as a patch (internal/fileservice/types.go). */
module FolderDiff {
  import opened Sequences

  datatype Entry = Entry(path: string, relPath: string, size: int, hash: string, modTime: int)

  type Manifest = map<string, Entry>

  datatype Diff = Diff(adds: seq<Entry>, mods: seq<Entry>, deletes: seq<string>)

  function Entries(m: Manifest, ps: seq<string>): (r: seq<Entry>)
    requires forall p :: p in ps ==> p in m
    ensures |r| == |ps| && forall i :: 0 <= i < |r| ==> r[i] == m[ps[i]]
  {
    seq(|ps|, i requires 0 <= i < |ps| => m[ps[i]])
  }

  function Added(before: Manifest, after: Manifest): set<string> {
    after.Keys - before.Keys
  }

  function Modified(before: Manifest, after: Manifest): set<string> {
    set p | p in after && p in before && before[p].hash != after[p].hash
  }

  function Deleted(before: Manifest, after: Manifest): set<string> {
    before.Keys - after.Keys
  }

  /** DiffFolders, whatever the order in which the maps are gone through. */
  method DiffFolders(before: Manifest, after: Manifest)
    returns (d: Diff, ghost added: seq<string>, ghost modified: seq<string>)
    ensures Lists(added, Added(before, after)) && d.adds == Entries(after, added)
    ensures Lists(modified, Modified(before, after)) && d.mods == Entries(after, modified)
    ensures Lists(d.deletes, Deleted(before, after))
  {
    var adds, mods, deletes := [], [], [];
    added, modified := [], [];
    var rest := after.Keys;
    while rest != {}
      invariant rest <= after.Keys
      invariant Lists(added, Added(before, after) - rest) && adds == Entries(after, added)
      invariant Lists(modified, Modified(before, after) - rest) && mods == Entries(after, modified)
      decreases rest
    {
      var p :| p in rest;
      assert p !in added && p !in modified;
      rest := rest - {p};
      if p !in before {
        adds, added := adds + [after[p]], added + [p];
      } else if before[p].hash != after[p].hash {
        mods, modified := mods + [after[p]], modified + [p];
      }
    }
    rest := before.Keys;
    while rest != {}
      invariant rest <= before.Keys
      invariant Lists(deletes, Deleted(before, after) - rest)
      decreases rest
    {
      var p :| p in rest;
      assert p !in deletes;
      rest := rest - {p};
      if p !in after {
        deletes := deletes + [p];
      }
    }
    d := Diff(adds, mods, deletes);
  }

  // ---------------------------------------------------------------- diffs as patches

  // As WalkFolder builds manifests: every entry is stored under its relative path.
  predicate Keyed(m: Manifest) {
    forall p :: p in m ==> m[p].relPath == p
  }

  function Store(m: Manifest, es: seq<Entry>): Manifest {
    if es == [] then m
    else
      var e := es[|es| - 1];
      Store(m, es[..|es| - 1])[e.relPath := e]
  }

  // What a receiver does with a diff.
  function Apply(m: Manifest, d: Diff): Manifest {
    Store(Store(m, d.adds), d.mods) - (set p | p in d.deletes)
  }

  ghost predicate SameContent(m: Manifest, n: Manifest) {
    m.Keys == n.Keys && forall p :: p in m && p in n ==> m[p].hash == n[p].hash
  }

  function PathsOf(es: seq<Entry>): set<string> {
    set i | 0 <= i < |es| :: es[i].relPath
  }

  // The paths a patch names.
  function Named(d: Diff): set<string> {
    PathsOf(d.adds) + PathsOf(d.mods) + set p | p in d.deletes
  }

  // Entries of the manifest, one for each path of s.
  ghost predicate Covers(es: seq<Entry>, m: Manifest, s: set<string>) {
    && PathsOf(es) == s && |es| == |s|
    && forall i :: 0 <= i < |es| ==> es[i].relPath in m && es[i] == m[es[i].relPath]
  }

  // What DiffFolders returns, order apart.
  ghost predicate IsDiff(before: Manifest, after: Manifest, d: Diff) {
    && Covers(d.adds, after, Added(before, after))
    && Covers(d.mods, after, Modified(before, after))
    && Lists(d.deletes, Deleted(before, after))
  }

  lemma {:induction false} ListSize(ps: seq<string>, s: set<string>)
    requires Lists(ps, s)
    ensures |ps| == |s|
  {
    if ps == [] {
      assert forall p :: p in s <==> p in {};
    } else {
      var k := |ps| - 1;
      var last := ps[k];
      assert ps == ps[..k] + [last];
      assert last in ps && last !in ps[..k];
      assert Lists(ps[..k], s - {last});
      ListSize(ps[..k], s - {last});
    }
  }

  lemma ListCovers(ps: seq<string>, m: Manifest, s: set<string>)
    requires Keyed(m) && s <= m.Keys && Lists(ps, s)
    ensures Covers(Entries(m, ps), m, s)
  {
    ListSize(ps, s);
    var es := Entries(m, ps);
    forall p | p in s ensures p in PathsOf(es) {
      assert p in ps;
      var i :| 0 <= i < |ps| && ps[i] == p;
      assert es[i].relPath == p;
    }
    forall p | p in PathsOf(es) ensures p in s {
      var i :| 0 <= i < |es| && es[i].relPath == p;
      assert ps[i] in ps;
    }
  }

  /** The method's result is a diff in this sense, for manifests as WalkFolder builds them. */
  lemma DiffFoldersIsDiff(before: Manifest, after: Manifest, d: Diff, added: seq<string>, modified: seq<string>)
    requires Keyed(after)
    requires Lists(added, Added(before, after)) && d.adds == Entries(after, added)
    requires Lists(modified, Modified(before, after)) && d.mods == Entries(after, modified)
    requires Lists(d.deletes, Deleted(before, after))
    ensures IsDiff(before, after, d)
  {
    ListCovers(added, after, Added(before, after));
    ListCovers(modified, after, Modified(before, after));
  }

  // r is m with n's entries on the paths of s.
  ghost predicate Overlays(r: Manifest, m: Manifest, n: Manifest, s: set<string>) {
    && s <= n.Keys && r.Keys == m.Keys + s
    && forall p :: p in r ==> r[p] == if p in s then n[p] else m[p]
  }

  lemma OverlayTwice(m: Manifest, m1: Manifest, m2: Manifest, n: Manifest, s: set<string>, t: set<string>)
    requires Overlays(m1, m, n, s) && Overlays(m2, m1, n, t)
    ensures Overlays(m2, m, n, s + t)
  {
  }

  lemma {:induction false} Stored(m: Manifest, n: Manifest, es: seq<Entry>)
    requires forall i :: 0 <= i < |es| ==> es[i].relPath in n && es[i] == n[es[i].relPath]
    ensures Overlays(Store(m, es), m, n, PathsOf(es))
  {
    if es != [] {
      var k := |es| - 1;
      Stored(m, n, es[..k]);
      PathsOfLast(es);
    }
  }

  lemma PathsOfLast(es: seq<Entry>)
    requires es != []
    ensures PathsOf(es) == PathsOf(es[..|es| - 1]) + {es[|es| - 1].relPath}
  {
    var k := |es| - 1;
    forall p | p in PathsOf(es[..k]) ensures p in PathsOf(es) {
      var i :| 0 <= i < k && es[..k][i].relPath == p;
      assert es[i].relPath == p;
    }
    forall p | p in PathsOf(es) ensures p in PathsOf(es[..k]) || p == es[k].relPath {
      var i :| 0 <= i < |es| && es[i].relPath == p;
      assert i < k ==> es[..k][i].relPath == p;
    }
  }

  // What applying a diff does: the new entries where the content differs, less the deleted paths.
  lemma Applied(m: Manifest, after: Manifest, d: Diff, added: set<string>, modified: set<string>) returns (r: Manifest)
    requires Covers(d.adds, after, added) && Covers(d.mods, after, modified)
    ensures Overlays(r, m, after, added + modified)
    ensures Apply(m, d) == r - set p | p in d.deletes
  {
    var m1 := Store(m, d.adds);
    r := Store(m1, d.mods);
    Stored(m, after, d.adds);
    Stored(m1, after, d.mods);
    OverlayTwice(m, m1, r, after, added, modified);
  }

  lemma DeletedPaths(before: Manifest, after: Manifest, d: Diff)
    requires IsDiff(before, after, d)
    ensures (set p | p in d.deletes) == Deleted(before, after)
  {
  }

  lemma OverlayIsNew(r: Manifest, m: Manifest, before: Manifest, after: Manifest)
    requires SameContent(m, before) && Overlays(r, m, after, Added(before, after) + Modified(before, after))
    ensures SameContent(r - Deleted(before, after), after)
  {
  }

  /** Exactness: applied to any manifest of the old one's content, the diff gives the new content. */
  lemma PatchIsExact(m: Manifest, before: Manifest, after: Manifest, d: Diff)
    requires IsDiff(before, after, d) && SameContent(m, before)
    ensures SameContent(Apply(m, d), after)
  {
    var r := Applied(m, after, d, Added(before, after), Modified(before, after));
    DeletedPaths(before, after, d);
    OverlayIsNew(r, m, before, after);
  }

  /** The adds, the modifies and the deletes name disjoint paths, each path once, and a path the diff does not name is
      left as it was. */
  lemma PatchIsTidy(before: Manifest, after: Manifest, d: Diff, p: string)
    requires IsDiff(before, after, d)
    ensures PathsOf(d.adds) !! PathsOf(d.mods) !! (set q | q in d.deletes)
    ensures |d.adds| == |PathsOf(d.adds)| && |d.mods| == |PathsOf(d.mods)| && |d.deletes| == |set q | q in d.deletes|
    ensures p in before && p !in Named(d) ==> p in Apply(before, d) && Apply(before, d)[p] == before[p]
  {
    DeletedPaths(before, after, d);
    ListSize(d.deletes, Deleted(before, after));
    if p !in Named(d) {
      UnnamedStays(before, d, p);
    }
  }

  lemma NamedDiffers(before: Manifest, after: Manifest, d: Diff, p: string)
    requires IsDiff(before, after, d)
    ensures p in Named(d) <==> !(p in before <==> p in after) || (p in before && before[p].hash != after[p].hash)
  {
    DeletedPaths(before, after, d);
  }

  /** Minimality: every patch that turns the old manifest into the new one up to content names at least the paths the
      diff names. */
  lemma PatchIsMinimal(before: Manifest, after: Manifest, d: Diff, other: Diff)
    requires IsDiff(before, after, d) && SameContent(Apply(before, other), after)
    ensures Named(d) <= Named(other)
  {
    forall p | p in Named(d) ensures p in Named(other) {
      NamedDiffers(before, after, d, p);
      if p !in Named(other) {
        UnnamedStays(before, other, p);
        assert false;
      }
    }
  }

  lemma UnnamedStays(m: Manifest, d: Diff, p: string)
    requires p !in Named(d)
    ensures (p in Apply(m, d) <==> p in m) && (p in m ==> Apply(m, d)[p] == m[p])
  {
    StoreElsewhere(m, d.adds, p);
    StoreElsewhere(Store(m, d.adds), d.mods, p);
  }

  lemma {:induction false} StoreElsewhere(m: Manifest, es: seq<Entry>, p: string)
    requires p !in PathsOf(es)
    ensures p in Store(m, es) <==> p in m
    ensures p in m ==> Store(m, es)[p] == m[p]
  {
    if es != [] {
      PathsOfLast(es);
      StoreElsewhere(m, es[..|es| - 1], p);
    }
  }

  /** The diff is empty exactly between manifests of the same content; so a manifest's diff with itself is. */
  lemma EmptyDiff(before: Manifest, after: Manifest, d: Diff)
    requires IsDiff(before, after, d)
    ensures d == Diff([], [], []) <==> SameContent(before, after)
  {
    DeletedPaths(before, after, d);
    if SameContent(before, after) {
      assert Added(before, after) == {} && Deleted(before, after) == {} && Modified(before, after) == {};
      ListSize(d.deletes, Deleted(before, after));
    }
    if d == Diff([], [], []) {
      forall p ensures p !in Named(d) {
      }
      forall p ensures (p in before <==> p in after) && (p in before ==> before[p].hash == after[p].hash) {
        NamedDiffers(before, after, d, p);
      }
    }
  }

  /** Composition: patching through a middle manifest, with each diff taken between the recorded manifests, ends at the
      content of the last one. */
  lemma PatchesCompose(first: Manifest, middle: Manifest, last: Manifest, d: Diff, e: Diff)
    requires IsDiff(first, middle, d) && IsDiff(middle, last, e)
    ensures SameContent(Apply(Apply(first, d), e), last)
  {
    PatchIsExact(first, first, middle, d);
    PatchIsExact(Apply(first, d), middle, last, e);
  }
}
