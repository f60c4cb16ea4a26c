/**
 * The extent items of the data runs, and that they count what refers to them:
 * `create_data_extent_items` against the image's and the files' EXTENT_DATA items.
 */
module ExtentItems {
  import opened ChunkMath
  import opened RunLists
  import opened ImageRollback
  import opened Protect
  import opened RoundTrip

  // A file's EXTENT_DATA item, in clusters.
  datatype FileExtent = FileExtent(inode: nat, vcn: nat, lcn: nat, len: nat)

  datatype Ref = ImageRef(off: nat) | FileRef(inode: nat, vcn: nat)

  datatype ExtentItem = ExtentItem(at: nat, len: nat, refs: seq<Ref>)

  predicate RelocatedHaveRelocs(list: seq<Alloc>, relocs: seq<Reloc>) {
    forall i :: 0 <= i < |list| && list[i].owner.inode != DUMMY && list[i].owner.relocated ==>
      HasNew(relocs, list[i].offset)
  }

  // Where the run is in the image.
  function ImageAddr(a: Alloc, relocs: seq<Reloc>): nat
    requires a.owner.relocated ==> HasNew(relocs, a.offset)
  {
    if a.owner.relocated then relocs[FindNew(relocs, a.offset)].old' else a.offset
  }

  // The references of a run; two are kept in the order of their hashes.
  function RefsOf(a: Alloc, img: nat, hash: Ref -> nat): seq<Ref> {
    var file, image := FileRef(a.owner.inode, a.owner.fileOffset), ImageRef(img);
    if a.owner.inode == 0 then [image]
    else if a.owner.notInImg then [file]
    else if hash(file) > hash(image) then [file, image]
    else [image, file]
  }

  function ItemOf(a: Alloc, relocs: seq<Reloc>, hash: Ref -> nat): ExtentItem
    requires a.owner.relocated ==> HasNew(relocs, a.offset)
  {
    ExtentItem(a.offset, a.length, RefsOf(a, ImageAddr(a, relocs), hash))
  }

  function ItemsOf(list: seq<Alloc>, relocs: seq<Reloc>, hash: Ref -> nat): seq<ExtentItem>
    requires RelocatedHaveRelocs(list, relocs)
  {
    if list == [] then []
    else
      var front, a := list[..|list| - 1], list[|list| - 1];
      ItemsOf(front, relocs, hash) + if IsDummy(a) then [] else [ItemOf(a, relocs, hash)]
  }

  // The items of one chunk's runs.
  method CreateItems(list: seq<Alloc>, relocs: seq<Reloc>, hash: Ref -> nat) returns (items: seq<ExtentItem>)
    requires RelocatedHaveRelocs(list, relocs)
    ensures items == ItemsOf(list, relocs, hash)
  {
    items := [];
    var i: nat := 0;
    while i < |list|
      invariant i <= |list| && items == ItemsOf(list[..i], relocs, hash)
    {
      var r := list[i];
      assert list[..i + 1][..i] == list[..i];
      if r.owner.inode == DUMMY {
        i := i + 1;
        continue;
      }
      var img := 0;
      if r.owner.relocated {
        var j: nat := 0;
        assert HasNew(relocs, r.offset);
        while j < |relocs| && relocs[j].new' != r.offset
          invariant j <= |relocs| && forall l :: 0 <= l < j ==> relocs[l].new' != r.offset
        {
          j := j + 1;
        }
        assert j == FindNew(relocs, r.offset);
        img := relocs[j].old';
      } else {
        img := r.offset;
      }
      var refs: seq<Ref>;
      if r.owner.inode == 0 {
        refs := [ImageRef(img)];
      } else if r.owner.notInImg {
        refs := [FileRef(r.owner.inode, r.owner.fileOffset)];
      } else {
        var e1, e2 := ImageRef(img), FileRef(r.owner.inode, r.owner.fileOffset);
        if hash(e2) > hash(e1) {
          e1, e2 := e2, e1;
        }
        refs := [e1, e2];
      }
      items := items + [ExtentItem(r.offset, r.length, refs)];
      i := i + 1;
    }
    assert list[..i] == list;
  }

  predicate Entry(runs: RunMap, a: Alloc) {
    exists k :: k in runs && a in runs[k]
  }

  predicate Owned(a: Alloc) {
    a.owner.inode != 0 && a.owner.inode != DUMMY
  }

  function FileOf(a: Alloc): FileExtent {
    FileExtent(a.owner.inode, a.owner.fileOffset, a.offset, a.length)
  }

  // The runs files own are the extents files have.
  ghost predicate FilesMatch(runs: RunMap, files: set<FileExtent>) {
    && (forall a :: Entry(runs, a) && Owned(a) ==> FileOf(a) in files)
    && (forall f :: f in files ==> exists a :: Entry(runs, a) && Owned(a) && f == FileOf(a))
  }

  // New file data is no one's image, and is a file's.
  ghost predicate NewDataOwned(runs: RunMap) {
    forall a :: Entry(runs, a) && a.owner.notInImg ==> Owned(a) && !a.owner.relocated
  }

  // Runs that begin at the same cluster are the same run.
  lemma SameStart(runs: RunMap, n: nat, a: Alloc, b: Alloc)
    requires 0 < n && RunsOk(runs, n) && Entry(runs, a) && Entry(runs, b) && a.offset == b.offset
    ensures a == b
  {
    var k :| k in runs && a in runs[k];
    var l :| l in runs && b in runs[l];
    EntryChunk(runs, n, k, a);
    EntryChunk(runs, n, l, b);
    SameStartIn(runs[k], a, b, First(k, n), First(k, n) + n);
  }

  lemma EntryChunk(runs: RunMap, n: nat, k: nat, a: Alloc)
    requires 0 < n && RunsOk(runs, n) && k in runs && a in runs[k]
    ensures 0 < a.length && Index(a.offset, n) == k && CoveredAt(runs, a.offset, n)
    ensures OwnerAt(runs, a.offset, n) == a.owner
  {
    RunIsNotEmpty(runs[k], a, First(k, n), First(k, n) + n);
    EntryOwns(runs[k], a, First(k, n), First(k, n) + n, a.offset);
    IndexIsUnique(a.offset, n, k);
  }

  lemma {:induction false} SameStartIn(list: seq<Alloc>, a: Alloc, b: Alloc, from: nat, to: nat)
    requires RunLists.Sorted(list, from, to) && a in list && b in list && a.offset == b.offset
    ensures a == b
    decreases |list|
  {
    var rest := list[1..];
    if a != list[0] && b != list[0] {
      SameStartIn(rest, a, b, list[0].End(), to);
    } else if a != list[0] {
      RunIsNotEmpty(rest, a, list[0].End(), to);
      EntryOwns(rest, a, list[0].End(), to, a.offset);
    } else if b != list[0] {
      RunIsNotEmpty(rest, b, list[0].End(), to);
      EntryOwns(rest, b, list[0].End(), to, b.offset);
    }
  }

  // The state the extent items are made in.
  ghost predicate Ready(runs: RunMap, relocs: seq<Reloc>, disk: seq<Cluster>, first: RunMap, d0: seq<Cluster>, n: nat,
                        files: set<FileExtent>)
    requires 0 < n
  {
    Kept(runs, relocs, disk, first, d0, n) && NewDataOwned(runs) && FilesMatch(runs, files)
  }

  lemma ItemsAreDefined(runs: RunMap, relocs: seq<Reloc>, disk: seq<Cluster>, first: RunMap, d0: seq<Cluster>, n: nat,
                        k: nat)
    requires 0 < n && Kept(runs, relocs, disk, first, d0, n) && k in runs
    ensures RelocatedHaveRelocs(runs[k], relocs) && DummiesHaveRelocs(runs[k], relocs)
  {
    ImageIsWellFormed(runs, relocs, disk, first, d0, n, 0);
    forall i | 0 <= i < |runs[k]| && runs[k][i].owner.relocated
      ensures HasNew(relocs, runs[k][i].offset)
    {
      EntryChunk(runs, n, k, runs[k][i]);
    }
  }

  // The image's extents at a run: the one its item names, or none for new file data.
  lemma ImageRefsAgree(runs: RunMap, relocs: seq<Reloc>, disk: seq<Cluster>, first: RunMap, d0: seq<Cluster>, n: nat,
                       files: set<FileExtent>, chunks: nat, a: Alloc, e: Extent)
    requires 0 < n && Ready(runs, relocs, disk, first, d0, n, files) && forall k :: k in runs ==> k < chunks
    requires Entry(runs, a) && !IsDummy(a)
    ensures a.owner.relocated ==> HasNew(relocs, a.offset)
    ensures forall k :: k in runs ==> DummiesHaveRelocs(runs[k], relocs)
    ensures e in ImageExtents(runs, relocs, chunks) && e.phys == a.offset
       <==> !a.owner.notInImg && e == Extent(ImageAddr(a, relocs), a.offset, a.length)
  {
    var k: nat :| k in runs && a in runs[k];
    EntryChunk(runs, n, k, a);
    ImageIsWellFormed(runs, relocs, disk, first, d0, n, 0);
    ImageIsOfRuns(runs, relocs, chunks, e);
    if e in ImageExtents(runs, relocs, chunks) && e.phys == a.offset {
      var l: nat :| l < chunks && FromRun(e, runs, relocs, l);
      var b :| b in ListOf(runs, l) && InImage(b) && e == SafeExtent(b, relocs);
      PointsOnlyAt(runs, relocs, disk, first, d0, n, a, b, l);
    }
    if !a.owner.notInImg && e == Extent(ImageAddr(a, relocs), a.offset, a.length) {
      PointedAt(runs, relocs, disk, first, d0, n, chunks, a, k, e);
    }
  }

  lemma SameReloc(relocs: seq<Reloc>, i: nat, j: nat)
    requires DistinctRelocs(relocs) && i < |relocs| && j < |relocs|
    requires relocs[i].new' == relocs[j].new' || relocs[i].old' == relocs[j].old'
    ensures i == j
  {
  }

  // The extent of image run `b`, when it points at run `a`, is the one of `a`'s item.
  lemma PointsOnlyAt(runs: RunMap, relocs: seq<Reloc>, disk: seq<Cluster>, first: RunMap, d0: seq<Cluster>, n: nat,
                     a: Alloc, b: Alloc, l: nat)
    requires 0 < n && Kept(runs, relocs, disk, first, d0, n) && NewDataOwned(runs)
    requires Entry(runs, a) && !IsDummy(a) && (a.owner.relocated ==> HasNew(relocs, a.offset))
    requires l in runs && b in runs[l] && InImage(b) && SafeExtent(b, relocs).phys == a.offset
    ensures !a.owner.notInImg && SafeExtent(b, relocs) == Extent(ImageAddr(a, relocs), a.offset, a.length)
  {
    var k: nat :| k in runs && a in runs[k];
    EntryChunk(runs, n, k, a);
    EntryChunk(runs, n, l, b);
    if IsDummy(b) {
      ImageRunsAreUsed(runs, relocs, disk, first, d0, n, l, b, b.offset);
      var i := FindReloc(relocs, b.offset);
      assert relocs[i] in relocs && RelocOk(relocs[i], runs, disk, first, d0, n);
      var j := FindNew(relocs, a.offset);
      SameReloc(relocs, i, j);
    } else {
      SameStart(runs, n, a, b);
    }
  }

  lemma PointedAt(runs: RunMap, relocs: seq<Reloc>, disk: seq<Cluster>, first: RunMap, d0: seq<Cluster>, n: nat,
                  chunks: nat,
                  a: Alloc, k: nat, e: Extent)
    requires 0 < n && Kept(runs, relocs, disk, first, d0, n) && forall k :: k in runs ==> k < chunks
    requires forall k :: k in runs ==> DummiesHaveRelocs(runs[k], relocs)
    requires k in runs && a in runs[k] && !IsDummy(a) && !a.owner.notInImg
    requires (a.owner.relocated ==> HasNew(relocs, a.offset))
    requires e == Extent(ImageAddr(a, relocs), a.offset, a.length)
    ensures e in ImageExtents(runs, relocs, chunks)
  {
    ImageIsOfRuns(runs, relocs, chunks, e);
    if a.owner.relocated {
      EntryChunk(runs, n, k, a);
      assert Units(runs[k]) && a.length == 1;
      var l := CopyPointedAt(runs, relocs, disk, first, d0, n, a.offset);
    } else {
      assert e == SafeExtent(a, relocs);
      assert FromRun(e, runs, relocs, k);
    }
  }

  // A copy is pointed at by the run it was copied from.
  lemma CopyPointedAt(runs: RunMap, relocs: seq<Reloc>, disk: seq<Cluster>, first: RunMap, d0: seq<Cluster>, n: nat,
                      at: nat)
    returns (l: nat)
    requires 0 < n && Kept(runs, relocs, disk, first, d0, n) && HasNew(relocs, at)
    ensures l in runs && FromRun(Extent(relocs[FindNew(relocs, at)].old', at, 1), runs, relocs, l)
  {
    hide RunsOk, First, Index;
    var j := FindNew(relocs, at);
    var r := relocs[j];
    var x := r.old';
    assert r in relocs && RelocOk(r, runs, disk, first, d0, n);
    assert UsedOk(x, runs, relocs, disk, d0, n);
    l := Index(x, n);
    var b := EntryOf(ListOf(runs, l), x);
    assert Units(runs[l]) && b.length == 1;
    SameReloc(relocs, FindReloc(relocs, x), j);
    assert b in ListOf(runs, l) && InImage(b) && SafeExtent(b, relocs) == Extent(x, at, 1);
  }

  // The files' extents at a run: the one its item names, or none for a run no file owns.
  lemma FileRefsAgree(runs: RunMap, n: nat, files: set<FileExtent>, a: Alloc, f: FileExtent)
    requires 0 < n && RunsOk(runs, n) && FilesMatch(runs, files) && Entry(runs, a) && !IsDummy(a)
    ensures f in files && f.lcn == a.offset <==> a.owner.inode != 0 && f == FileOf(a)
  {
    if f in files && f.lcn == a.offset {
      var b :| Entry(runs, b) && Owned(b) && f == FileOf(b);
      SameStart(runs, n, a, b);
    }
  }

  // What refers to the run that begins at `at`.
  ghost predicate ImageRefers(extents: seq<Extent>, at: nat, off: nat) {
    exists e :: e in extents && e.phys == at && e.off == off
  }

  ghost predicate FileRefers(files: set<FileExtent>, at: nat, inode: nat, vcn: nat) {
    exists f :: f in files && f.lcn == at && f.inode == inode && f.vcn == vcn
  }

  lemma ImageRefIff(runs: RunMap, relocs: seq<Reloc>, disk: seq<Cluster>, first: RunMap, d0: seq<Cluster>, n: nat,
                    files: set<FileExtent>, chunks: nat, a: Alloc, off: nat)
    requires 0 < n && Ready(runs, relocs, disk, first, d0, n, files) && forall k :: k in runs ==> k < chunks
    requires Entry(runs, a) && !IsDummy(a)
    ensures a.owner.relocated ==> HasNew(relocs, a.offset)
    ensures forall k :: k in runs ==> DummiesHaveRelocs(runs[k], relocs)
    ensures ImageRefers(ImageExtents(runs, relocs, chunks), a.offset, off)
       <==> !a.owner.notInImg && off == ImageAddr(a, relocs)
  {
    hide Ready, ImageExtents;
    ImageRefsAgree(runs, relocs, disk, first, d0, n, files, chunks, a, Extent(0, 0, 0));
    var extents, img := ImageExtents(runs, relocs, chunks), ImageAddr(a, relocs);
    ImageRefsAgree(runs, relocs, disk, first, d0, n, files, chunks, a, Extent(img, a.offset, a.length));
    if e :| e in extents && e.phys == a.offset && e.off == off {
      ImageRefsAgree(runs, relocs, disk, first, d0, n, files, chunks, a, e);
    }
  }

  // The references at `at` are those, each once, in falling order of their hashes.
  ghost predicate RefsAre(refs: seq<Ref>, extents: seq<Extent>, files: set<FileExtent>, at: nat, hash: Ref -> nat) {
    && (forall off: nat :: ImageRef(off) in refs <==> ImageRefers(extents, at, off))
    && (forall i: nat, v: nat :: FileRef(i, v) in refs <==> FileRefers(files, at, i, v))
    && (forall i, j :: 0 <= i < j < |refs| ==> refs[i] != refs[j] && hash(refs[i]) >= hash(refs[j]))
  }

  // Each run that is not protected has one item, which counts exactly the image's and the files'
  // extents that point at the run.
  lemma RefsAgree(runs: RunMap, relocs: seq<Reloc>, disk: seq<Cluster>, first: RunMap, d0: seq<Cluster>, n: nat,
                  files: set<FileExtent>, chunks: nat, a: Alloc, hash: Ref -> nat)
    requires 0 < n && Ready(runs, relocs, disk, first, d0, n, files) && forall k :: k in runs ==> k < chunks
    requires Entry(runs, a) && !IsDummy(a)
    ensures a.owner.relocated ==> HasNew(relocs, a.offset)
    ensures forall k :: k in runs ==> DummiesHaveRelocs(runs[k], relocs)
    ensures RefsAre(ItemOf(a, relocs, hash).refs, ImageExtents(runs, relocs, chunks), files, a.offset, hash)
  {
    ImageRefAll(runs, relocs, disk, first, d0, n, files, chunks, a);
    FileRefAll(runs, n, files, a);
    assert a.owner.notInImg ==> Owned(a);
    RefsCombine(a, ImageAddr(a, relocs), hash, ImageExtents(runs, relocs, chunks), files);
  }

  lemma ImageRefAll(runs: RunMap, relocs: seq<Reloc>, disk: seq<Cluster>, first: RunMap, d0: seq<Cluster>, n: nat,
                    files: set<FileExtent>, chunks: nat, a: Alloc)
    requires 0 < n && Ready(runs, relocs, disk, first, d0, n, files) && forall k :: k in runs ==> k < chunks
    requires Entry(runs, a) && !IsDummy(a)
    ensures a.owner.relocated ==> HasNew(relocs, a.offset)
    ensures forall k :: k in runs ==> DummiesHaveRelocs(runs[k], relocs)
    ensures forall off: nat ::
      ImageRefers(ImageExtents(runs, relocs, chunks), a.offset, off)
      <==> !a.owner.notInImg && off == ImageAddr(a, relocs)
  {
    hide Ready, Entry, ImageRefers, ImageExtents, DummiesHaveRelocs;
    ImageRefIff(runs, relocs, disk, first, d0, n, files, chunks, a, 0);
    forall off: nat
      ensures ImageRefers(ImageExtents(runs, relocs, chunks), a.offset, off)
         <==> !a.owner.notInImg && off == ImageAddr(a, relocs)
    {
      ImageRefIff(runs, relocs, disk, first, d0, n, files, chunks, a, off);
    }
  }

  lemma FileRefAll(runs: RunMap, n: nat, files: set<FileExtent>, a: Alloc)
    requires 0 < n && RunsOk(runs, n) && FilesMatch(runs, files) && Entry(runs, a) && !IsDummy(a)
    ensures forall i: nat, v: nat ::
      FileRefers(files, a.offset, i, v) <==> a.owner.inode != 0 && i == a.owner.inode && v == a.owner.fileOffset
  {
    hide RunsOk, FilesMatch, Entry, FileRefers;
    forall i: nat, v: nat
      ensures FileRefers(files, a.offset, i, v) <==> a.owner.inode != 0 && i == a.owner.inode && v == a.owner.fileOffset
    {
      FileRefersIff(runs, n, files, a, i, v);
    }
  }

  lemma RefsCombine(a: Alloc, img: nat, hash: Ref -> nat, extents: seq<Extent>, files: set<FileExtent>)
    requires a.owner.notInImg ==> Owned(a)
    requires forall off: nat :: ImageRefers(extents, a.offset, off) <==> !a.owner.notInImg && off == img
    requires forall i: nat, v: nat ::
      FileRefers(files, a.offset, i, v) <==> a.owner.inode != 0 && i == a.owner.inode && v == a.owner.fileOffset
    ensures RefsAre(RefsOf(a, img, hash), extents, files, a.offset, hash)
  {
    RefsHave(a, img, hash);
    hide ImageRefers, FileRefers, RefsOf;
  }

  lemma RefsHave(a: Alloc, img: nat, hash: Ref -> nat)
    ensures var refs := RefsOf(a, img, hash);
      && (forall off: nat :: ImageRef(off) in refs <==> (a.owner.inode == 0 || !a.owner.notInImg) && off == img)
      && (forall i: nat, v: nat :: FileRef(i, v) in refs <==>
            a.owner.inode != 0 && i == a.owner.inode && v == a.owner.fileOffset)
      && forall i, j :: 0 <= i < j < |refs| ==> refs[i] != refs[j] && hash(refs[i]) >= hash(refs[j])
  {
  }

  lemma FileRefersIff(runs: RunMap, n: nat, files: set<FileExtent>, a: Alloc, inode: nat, vcn: nat)
    requires 0 < n && RunsOk(runs, n) && FilesMatch(runs, files) && Entry(runs, a) && !IsDummy(a)
    ensures FileRefers(files, a.offset, inode, vcn)
       <==> a.owner.inode != 0 && inode == a.owner.inode && vcn == a.owner.fileOffset
  {
    hide RunsOk, FilesMatch, Entry;
    FileRefsAgree(runs, n, files, a, FileOf(a));
    if f :| f in files && f.lcn == a.offset && f.inode == inode && f.vcn == vcn {
      FileRefsAgree(runs, n, files, a, f);
    }
  }

  // Giving clusters of a run that no file owns to a file, and giving the file an extent there,
  // keeps files and runs matched.
  lemma GiveKeepsMatch(runs: RunMap, runs': RunMap, files: set<FileExtent>, n: nat, k: nat, offset: nat, length: nat,
                       inode: nat, vcn: nat)
    requires 0 < n && RunsOk(runs, n) && 0 < length && FilesMatch(runs, files) && NewDataOwned(runs)
    requires IsCutIn(runs, runs', k, offset, length, inode, vcn) && inode != 0 && inode != DUMMY
    requires SplitOf(runs[k], offset, length, 0, 0) != Untouched ==> Hit(runs[k], offset, length).owner.inode == 0
    ensures FilesMatch(runs', files + {FileExtent(inode, vcn, offset, length)}) && NewDataOwned(runs')
  {
    hide IsCutIn, RunsOk, Entry, SplitOf, RunLists.Sorted, Hit;
    var mid := FileExtent(inode, vcn, offset, length);
    var new' := NewEntry(runs, runs', n, k, offset, length, inode, vcn);
    forall a
      ensures Entry(runs', a) && Owned(a)
         <==> (Entry(runs, a) && Owned(a)) || (Entry(runs', a) && Owned(a) && FileOf(a) == mid)
      ensures Entry(runs', a) && a.owner.notInImg ==> Owned(a) && !a.owner.relocated
    {
      CutEntries(runs, runs', n, k, offset, length, inode, vcn, a);
    }
    forall f | f in files + {mid}
      ensures exists a :: Entry(runs', a) && Owned(a) && f == FileOf(a)
    {
      if f in files {
        var a :| Entry(runs, a) && Owned(a) && f == FileOf(a);
        assert Entry(runs', a);
      }
    }
  }

  lemma NewEntry(runs: RunMap, runs': RunMap, n: nat, k: nat, offset: nat, length: nat, inode: nat, vcn: nat)
    returns (a: Alloc)
    requires 0 < n && RunsOk(runs, n) && 0 < length && IsCutIn(runs, runs', k, offset, length, inode, vcn)
    requires inode != 0 && inode != DUMMY
    ensures Entry(runs', a) && Owned(a) && FileOf(a) == FileExtent(inode, vcn, offset, length)
  {
    hide SplitOf, RunLists.Sorted;
    var list := runs[k];
    SplitEntries(list, offset, length, inode, vcn, Alloc(0, 0, PLAIN), First(k, n), First(k, n) + n);
    var h := Hit(list, offset, length);
    a := Alloc(offset, length, Owner(inode, vcn, h.owner.relocated, false));
    SplitEntries(list, offset, length, inode, vcn, a, First(k, n), First(k, n) + n);
    assert a in Pieces(h, offset, length, inode, vcn);
    assert a in runs'[k];
  }

  lemma CutEntries(runs: RunMap, runs': RunMap, n: nat, k: nat, offset: nat, length: nat, inode: nat, vcn: nat,
                   a: Alloc)
    requires 0 < n && RunsOk(runs, n) && 0 < length && NewDataOwned(runs)
    requires IsCutIn(runs, runs', k, offset, length, inode, vcn) && inode != 0 && inode != DUMMY
    requires SplitOf(runs[k], offset, length, 0, 0) != Untouched ==> Hit(runs[k], offset, length).owner.inode == 0
    ensures Entry(runs', a) && Owned(a) <==>
      || (Entry(runs, a) && Owned(a))
      || (Entry(runs', a) && Owned(a) && FileOf(a) == FileExtent(inode, vcn, offset, length))
    ensures Entry(runs', a) && a.owner.notInImg ==> Owned(a) && !a.owner.relocated
  {
    hide RunLists.Sorted, SplitOf, Hit, Within;
    SplitEntries(runs[k], offset, length, inode, vcn, a, First(k, n), First(k, n) + n);
    var h := Hit(runs[k], offset, length);
    HitIsThere(runs[k], offset, length);
    assert Entry(runs, h);
    if Entry(runs, a) {
      var l :| l in runs && a in runs[l];
      assert l != k ==> l in runs' && a in runs'[l];
    }
    if Entry(runs', a) {
      var l :| l in runs' && a in runs'[l];
      assert l != k ==> l in runs && a in runs[l];
    }
  }
}
