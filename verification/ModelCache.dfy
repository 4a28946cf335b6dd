/**
 Eviction from the model cache: files are dropped oldest first until the rest fits the quota, never
 the active one. The result is compared with a definition of least-recently-used eviction that does
 not mention the loop.
 */
module ModelCache {
  import opened Options
  import opened Sums
  import Text

  type Time = int
  /** An entry of the listing, read first, and what the system says about a file, asked for later. */
  datatype DirEntry = DirEntry(name: string, isDir: bool)
  datatype Info = Info(size: nat, modTime: Time)
  datatype File = File(name: string, size: nat, age: Time)

  const SUFFIX: string := ".gguf"

  ghost function SizeOf(): File -> int {
    (f: File) => f.size
  }

  ghost function Bytes(files: seq<File>): int {
    Sum(files, SizeOf())
  }

  predicate LooksLikeModel(entry: DirEntry) {
    !entry.isDir && Text.HasSuffix(entry.name, SUFFIX)
  }

  /** The names of the listing's model files, in listing order. */
  function ModelNames(listing: seq<DirEntry>): seq<string> {
    if listing == [] then []
    else
      var n := |listing| - 1;
      ModelNames(listing[..n]) + if LooksLikeModel(listing[n]) then [listing[n].name] else []
  }

  /** Every listed model file is still there when it is asked for. */
  predicate Readable(dir: map<string, Info>, listing: seq<DirEntry>) {
    forall name | name in ModelNames(listing) :: name in dir
  }

  lemma {:induction false} ModelNamesMembers(listing: seq<DirEntry>, name: string)
    ensures name in ModelNames(listing) <==> DirEntry(name, false) in listing && Text.HasSuffix(name, ".gguf")
  {
    if listing != [] {
      var n := |listing| - 1;
      ModelNamesMembers(listing[..n], name);
      assert listing == listing[..n] + [listing[n]];
    }
  }

  predicate IsModel(dir: map<string, Info>, entry: string) {
    entry in dir && Text.HasSuffix(entry, SUFFIX)
  }

  function FileOf(dir: map<string, Info>, entry: string): File
    requires entry in dir
  {
    File(Text.TrimSuffix(entry, SUFFIX), dir[entry].size, dir[entry].modTime)
  }

  /** The model files among these names, in their order. */
  function ModelFiles(dir: map<string, Info>, listing: seq<string>): seq<File> {
    if listing == [] then []
    else
      var n := |listing| - 1;
      ModelFiles(dir, listing[..n]) + Listing(dir, listing[n])
  }

  function Listing(dir: map<string, Info>, entry: string): seq<File> {
    if IsModel(dir, entry) then [FileOf(dir, entry)] else []
  }

  predicate OldestFirst(files: seq<File>) {
    forall i, j | 0 <= i < j < |files| :: files[i].age <= files[j].age
  }

  // ---------------------------------------------------------------- the loop, as a function

  /** What the loop removes from here on, and whether it ends without an error; `stuck` files cannot be removed. */
  function Victims(files: seq<File>, active: string, quota: int, stuck: set<string>, total: int): (seq<File>, bool) {
    if files == [] || total <= quota then ([], true)
    else if files[0].name == active then Victims(files[1..], active, quota, stuck, total)
    else if files[0].name in stuck then ([], false)
    else
      var (more, ok) := Victims(files[1..], active, quota, stuck, total - files[0].size);
      ([files[0]] + more, ok)
  }

  // ---------------------------------------------------------------- least recently used

  /** The files that may go, in order. */
  function Evictable(files: seq<File>, active: string): (r: seq<File>)
    ensures forall i | 0 <= i < |r| :: r[i].name != active && r[i] in files
  {
    if files == [] then []
    else (if files[0].name == active then [] else [files[0]]) + Evictable(files[1..], active)
  }

  /** Taking the first k candidates was called for at every step, and none of them is stuck. */
  ghost predicate CalledFor(candidates: seq<File>, k: nat, quota: int, stuck: set<string>, total: int) {
    && k <= |candidates|
    && (forall j | 0 <= j < k :: total - Bytes(candidates[..j]) > quota)
    && (forall j | 0 <= j < k :: candidates[j].name !in stuck)
  }

  /** Stopping there is right: enough, or nothing left, or the next candidate is stuck. */
  ghost predicate StopsAt(candidates: seq<File>, k: nat, quota: int, stuck: set<string>, total: int, ok: bool)
    requires k <= |candidates|
  {
    if ok then k == |candidates| || total - Bytes(candidates[..k]) <= quota
    else k < |candidates| && total - Bytes(candidates[..k]) > quota && candidates[k].name in stuck
  }

  /** The removed files are the shortest prefix, oldest first, that brings the rest within the quota. */
  ghost predicate IsLru(files: seq<File>, active: string, quota: int, stuck: set<string>, total: int,
                        removed: seq<File>, ok: bool)
  {
    var candidates := Evictable(files, active);
    && |removed| <= |candidates| && removed == candidates[..|removed|]
    && CalledFor(candidates, |removed|, quota, stuck, total)
    && StopsAt(candidates, |removed|, quota, stuck, total, ok)
  }

  lemma {:induction false} BytesCons(f: File, files: seq<File>)
    ensures Bytes([f] + files) == f.size + Bytes(files)
  {
    SumConcat([f], files, SizeOf());
    assert [f][..0] == [];
  }

  lemma BytesBehind(f: File, candidates: seq<File>, j: nat)
    requires 0 < j <= |candidates| + 1
    ensures Bytes(([f] + candidates)[..j]) == f.size + Bytes(candidates[..j - 1])
  {
    assert ([f] + candidates)[..j] == [f] + candidates[..j - 1];
    BytesCons(f, candidates[..j - 1]);
  }

  lemma LruCons(f: File, candidates: seq<File>, k: nat, quota: int, stuck: set<string>, total: int, ok: bool)
    requires CalledFor(candidates, k, quota, stuck, total - f.size)
             && StopsAt(candidates, k, quota, stuck, total - f.size, ok)
    requires total > quota && f.name !in stuck
    ensures var more := [f] + candidates;
            CalledFor(more, k + 1, quota, stuck, total) && StopsAt(more, k + 1, quota, stuck, total, ok)
  {
    var more := [f] + candidates;
    forall j | 0 <= j < k + 1 ensures total - Bytes(more[..j]) > quota && more[j].name !in stuck {
      if j == 0 {
        assert more[..0] == [];
      } else {
        BytesBehind(f, candidates, j);
      }
    }
    BytesBehind(f, candidates, k + 1);
  }

  lemma LruStep(files: seq<File>, active: string, quota: int, stuck: set<string>, total: int, more: seq<File>, ok: bool)
    requires files != [] && total > quota && files[0].name != active && files[0].name !in stuck
    requires IsLru(files[1..], active, quota, stuck, total - files[0].size, more, ok)
    ensures IsLru(files, active, quota, stuck, total, [files[0]] + more, ok)
  {
    var rest := Evictable(files[1..], active);
    var candidates := [files[0]] + rest;
    LruCons(files[0], rest, |more|, quota, stuck, total, ok);
    assert Evictable(files, active) == candidates;
    assert [files[0]] + more == candidates[..|more| + 1];
  }

  /** The loop's eviction is the least-recently-used one. */
  lemma {:induction false} EvictionIsLru(files: seq<File>, active: string, quota: int, stuck: set<string>, total: int)
    ensures var (removed, ok) := Victims(files, active, quota, stuck, total);
            IsLru(files, active, quota, stuck, total, removed, ok)
  {
    var candidates := Evictable(files, active);
    if files == [] || total <= quota {
      assert candidates[..0] == [];
    } else if files[0].name == active {
      EvictionIsLru(files[1..], active, quota, stuck, total);
      assert candidates == Evictable(files[1..], active);
    } else if files[0].name in stuck {
      assert candidates[..0] == [] && candidates[0] == files[0];
    } else {
      EvictionIsLru(files[1..], active, quota, stuck, total - files[0].size);
      var (more, ok) := Victims(files[1..], active, quota, stuck, total - files[0].size);
      LruStep(files, active, quota, stuck, total, more, ok);
    }
  }

  /** There is only one such eviction, so the loop and the definition are the same thing. */
  lemma LruIsUnique(files: seq<File>, active: string, quota: int, stuck: set<string>, total: int,
                    removed: seq<File>, ok: bool, removed': seq<File>, ok': bool)
    requires IsLru(files, active, quota, stuck, total, removed, ok)
             && IsLru(files, active, quota, stuck, total, removed', ok')
    ensures removed == removed' && ok == ok'
  {
    var candidates := Evictable(files, active);
    NotShorter(candidates, |removed|, |removed'|, quota, stuck, total, ok);
    NotShorter(candidates, |removed'|, |removed|, quota, stuck, total, ok');
  }

  lemma NotShorter(candidates: seq<File>, k: nat, k': nat, quota: int, stuck: set<string>, total: int, ok: bool)
    requires k <= |candidates| && StopsAt(candidates, k, quota, stuck, total, ok)
             && CalledFor(candidates, k', quota, stuck, total)
    ensures k' <= k
  {
  }

  // ---------------------------------------------------------------- what it means for the cache

  lemma {:induction false} EvictableInOrder(files: seq<File>, active: string)
    requires OldestFirst(files)
    ensures OldestFirst(Evictable(files, active))
  {
    if files != [] {
      EvictableInOrder(files[1..], active);
      var rest := Evictable(files[1..], active);
      forall i | 0 <= i < |rest| ensures files[0].age <= rest[i].age {
        var j :| 0 <= j < |files[1..]| && files[1..][j] == rest[i];
        assert files[j + 1] == rest[i];
      }
    }
  }

  lemma NoYoungerThanRest(files: seq<File>, active: string, k: nat)
    requires OldestFirst(files) && k <= |Evictable(files, active)|
    ensures var candidates := Evictable(files, active);
            && (forall i, j | 0 <= i < k <= j < |candidates| :: candidates[..k][i].age <= candidates[j].age)
            && (forall i | 0 <= i < k :: candidates[..k][i].name != active)
  {
    EvictableInOrder(files, active);
  }

  lemma NoMoreThanNeeded(candidates: seq<File>, k: nat, quota: int, stuck: set<string>, total: int, ok: bool)
    requires CalledFor(candidates, k, quota, stuck, total) && StopsAt(candidates, k, quota, stuck, total, ok)
    ensures var removed := candidates[..k];
            && (total <= quota ==> k == 0 && ok)
            && (k > 0 ==> total - Bytes(removed[..k - 1]) > quota)
            && (ok ==> total - Bytes(removed) <= quota || removed == candidates)
  {
    if k > 0 {
      assert candidates[..k][..k - 1] == candidates[..k - 1] && candidates[..0] == [];
      assert total - Bytes(candidates[..0]) > quota && Bytes([]) == 0;
    } else {
      assert candidates[..0] == [] && Bytes([]) == 0;
    }
  }

  /**
   Sorted oldest first: nothing goes while the cache is within its quota, no removed file is younger
   than an evictable one that stays, the active file is not among the removed, the last removal was
   still needed, and without an error the rest fits the quota or only the active file is left.
   */
  lemma EvictionLaws(files: seq<File>, active: string, quota: int, stuck: set<string>, total: int)
    requires OldestFirst(files) && total == Bytes(files)
    ensures var (removed, ok) := Victims(files, active, quota, stuck, total);
            var candidates := Evictable(files, active);
            && (total <= quota ==> removed == [] && ok)
            && |removed| <= |candidates| && removed == candidates[..|removed|]
            && (forall i, j | 0 <= i < |removed| <= j < |candidates| :: removed[i].age <= candidates[j].age)
            && (forall i | 0 <= i < |removed| :: removed[i].name != active)
            && (removed != [] ==> total - Bytes(removed[..|removed| - 1]) > quota)
            && (ok ==> total - Bytes(removed) <= quota || removed == candidates)
  {
    var (removed, ok) := Victims(files, active, quota, stuck, total);
    var candidates := Evictable(files, active);
    EvictionIsLru(files, active, quota, stuck, total);
    NoYoungerThanRest(files, active, |removed|);
    NoMoreThanNeeded(candidates, |removed|, quota, stuck, total, ok);
  }

  // ---------------------------------------------------------------- the methods

  lemma InsertedAt(sorted: seq<File>, k: nat, f: File)
    requires k <= |sorted| && OldestFirst(sorted)
    requires forall j | 0 <= j < k :: sorted[j].age <= f.age
    requires forall j | k <= j < |sorted| :: sorted[j].age > f.age
    ensures var r := sorted[..k] + [f] + sorted[k..];
            OldestFirst(r) && multiset(r) == multiset(sorted) + multiset{f}
  {
    assert sorted == sorted[..k] + sorted[k..];
  }

  method Insert(sorted: seq<File>, f: File) returns (r: seq<File>)
    requires OldestFirst(sorted)
    ensures OldestFirst(r) && multiset(r) == multiset(sorted) + multiset{f}
  {
    var k := |sorted|;
    while k > 0 && sorted[k - 1].age > f.age
      invariant 0 <= k <= |sorted| && forall j | k <= j < |sorted| :: sorted[j].age > f.age
    {
      k := k - 1;
    }
    InsertedAt(sorted, k, f);
    r := sorted[..k] + [f] + sorted[k..];
  }

  /** Stands for the library sort: some oldest-first arrangement of the files. */
  method SortByAge(files: seq<File>) returns (sorted: seq<File>)
    ensures multiset(sorted) == multiset(files) && OldestFirst(sorted)
  {
    sorted := [];
    for i := 0 to |files|
      invariant multiset(sorted) == multiset(files[..i]) && OldestFirst(sorted)
    {
      sorted := Insert(sorted, files[i]);
      assert files[..i + 1] == files[..i] + [files[i]];
    }
    assert files[..|files|] == files;
  }

  /** The scan of the directory: its model files and their bytes; it fails where one of them cannot be read. */
  method Scan(dir: map<string, Info>, listing: seq<DirEntry>) returns (ok: bool, files: seq<File>, total: int)
    ensures ok <==> Readable(dir, listing)
    ensures ok ==> files == ModelFiles(dir, ModelNames(listing)) && total == Bytes(files)
  {
    ok, files, total := true, [], 0;
    for i := 0 to |listing|
      invariant ok && Scanned(dir, ModelNames(listing[..i]), files, total)
    {
      NextName(listing, i);
      if !LooksLikeModel(listing[i]) { continue; }
      var name := listing[i].name;
      if name !in dir {
        OneUnread(dir, listing, i);
        ok := false;
        return;
      }
      NextFile(dir, ModelNames(listing[..i]), files, total, name);
      total := total + dir[name].size;
      files := files + [FileOf(dir, name)];
    }
    assert listing[..|listing|] == listing;
    AllRead(dir, listing, files, total);
  }

  lemma OneUnread(dir: map<string, Info>, listing: seq<DirEntry>, i: nat)
    requires i < |listing| && LooksLikeModel(listing[i]) && listing[i].name !in dir
    ensures !Readable(dir, listing)
  {
    ModelNamesMembers(listing, listing[i].name);
  }

  lemma AllRead(dir: map<string, Info>, listing: seq<DirEntry>, files: seq<File>, total: int)
    requires Scanned(dir, ModelNames(listing), files, total)
    ensures Readable(dir, listing)
  {
  }

  ghost predicate Scanned(dir: map<string, Info>, names: seq<string>, files: seq<File>, total: int) {
    (forall name | name in names :: name in dir) && files == ModelFiles(dir, names) && total == Bytes(files)
  }

  lemma NextName(listing: seq<DirEntry>, i: nat)
    requires i < |listing|
    ensures var before := ModelNames(listing[..i]);
            ModelNames(listing[..i + 1]) == if LooksLikeModel(listing[i]) then before + [listing[i].name] else before
  {
    assert listing[..i + 1][..i] == listing[..i];
  }

  lemma NextFile(dir: map<string, Info>, names: seq<string>, files: seq<File>, total: int, name: string)
    requires Scanned(dir, names, files, total) && IsModel(dir, name)
    ensures Scanned(dir, names + [name], files + [FileOf(dir, name)], total + dir[name].size)
  {
    assert (names + [name])[..|names|] == names;
    SumAppend(files, FileOf(dir, name), SizeOf());
  }

  lemma WithoutOne(files: seq<File>, k: nat) returns (rest: seq<File>)
    requires k < |files|
    ensures |rest| == |files| - 1
    ensures multiset(files) == multiset(rest) + multiset{files[k]} && Bytes(files) == Bytes(rest) + files[k].size
  {
    rest := files[..k] + files[k + 1..];
    var front, back := files[..k], files[k + 1..];
    assert files == front + ([files[k]] + back);
    SumConcat(front, [files[k]] + back, SizeOf());
    BytesCons(files[k], back);
    SumConcat(front, back, SizeOf());
  }

  lemma CancelOne(a: multiset<File>, b: multiset<File>, f: File)
    requires a + multiset{f} == b + multiset{f}
    ensures a == b
  {
    assert a == (a + multiset{f}) - multiset{f} && b == (b + multiset{f}) - multiset{f};
  }

  lemma {:induction false} SamePermutationBytes(files: seq<File>, sorted: seq<File>)
    requires multiset(files) == multiset(sorted)
    ensures Bytes(files) == Bytes(sorted)
    decreases |files|
  {
    if files == [] {
      assert |multiset(sorted)| == 0;
    } else {
      assert files[0] in multiset(sorted);
      var k :| 0 <= k < |sorted| && sorted[k] == files[0];
      var fewer := WithoutOne(files, 0);
      var rest := WithoutOne(sorted, k);
      CancelOne(multiset(fewer), multiset(rest), files[0]);
      SamePermutationBytes(fewer, rest);
    }
  }

  function Without(dir: map<string, Info>, removed: seq<File>): map<string, Info> {
    if removed == [] then dir else Without(dir, removed[..|removed| - 1]) - {removed[|removed| - 1].name + SUFFIX}
  }

  lemma WithoutSnoc(dir: map<string, Info>, removed: seq<File>, f: File)
    ensures Without(dir, removed + [f]) == Without(dir, removed) - {f.name + SUFFIX}
  {
    assert (removed + [f])[..|removed|] == removed;
  }

  /** What the loop will have removed in the end, when it has removed these and stands before the rest. */
  function InTheEnd(removed: seq<File>, rest: seq<File>, active: string, quota: int, stuck: set<string>,
                    total: int): (seq<File>, bool)
  {
    var (more, ok) := Victims(rest, active, quota, stuck, total);
    (removed + more, ok)
  }

  lemma NothingMore(removed: seq<File>, rest: seq<File>, active: string, quota: int, stuck: set<string>, total: int)
    requires Victims(rest, active, quota, stuck, total).0 == []
    ensures InTheEnd(removed, rest, active, quota, stuck, total)
            == (removed, Victims(rest, active, quota, stuck, total).1)
  {
    assert removed + [] == removed;
  }

  lemma OneGone(removed: seq<File>, rest: seq<File>, active: string, quota: int, stuck: set<string>, total: int)
    requires rest != [] && total > quota && rest[0].name != active && rest[0].name !in stuck
    ensures InTheEnd(removed, rest, active, quota, stuck, total)
            == InTheEnd(removed + [rest[0]], rest[1..], active, quota, stuck, total - rest[0].size)
  {
    var (more, ok) := Victims(rest[1..], active, quota, stuck, total - rest[0].size);
    assert removed + ([rest[0]] + more) == (removed + [rest[0]]) + more;
  }

  lemma OneSkipped(removed: seq<File>, rest: seq<File>, active: string, quota: int, stuck: set<string>, total: int)
    requires rest != [] && total > quota && rest[0].name == active
    ensures InTheEnd(removed, rest, active, quota, stuck, total)
            == InTheEnd(removed, rest[1..], active, quota, stuck, total)
  {
  }

  /** The directory and the running total after these removals. */
  ghost predicate TakenOff(dir: map<string, Info>, bytes: int, removed: seq<File>, left: map<string, Info>,
                           total: int)
  {
    left == Without(dir, removed) && total == bytes - Bytes(removed)
  }

  lemma OneTakenOff(dir: map<string, Info>, bytes: int, removed: seq<File>, left: map<string, Info>, total: int,
                    f: File)
    requires TakenOff(dir, bytes, removed, left, total)
    ensures TakenOff(dir, bytes, removed + [f], left - {f.name + SUFFIX}, total - f.size)
  {
    WithoutSnoc(dir, removed, f);
    SumAppend(removed, f, SizeOf());
  }

  /** The eviction loop over the sorted files. */
  method RemoveOldest(dir: map<string, Info>, order: seq<File>, active: string, quota: int, stuck: set<string>,
                      bytes: int)
    returns (left: map<string, Info>, removed: seq<File>, ok: bool, total: int)
    ensures total == bytes - Bytes(removed)
    ensures (removed, ok) == Victims(order, active, quota, stuck, bytes)
    ensures left == Without(dir, removed)
  {
    left, removed, ok, total := dir, [], true, bytes;
    var rest := order;
    ghost var goal := Victims(order, active, quota, stuck, bytes);
    assert [] + goal.0 == goal.0;
    while rest != []
      invariant ok && TakenOff(dir, bytes, removed, left, total)
      invariant goal == InTheEnd(removed, rest, active, quota, stuck, total)
      decreases |rest|
    {
      if total <= quota {
        NothingMore(removed, rest, active, quota, stuck, total);
        return;
      }
      var file := rest[0];
      if file.name == active {
        OneSkipped(removed, rest, active, quota, stuck, total);
        rest := rest[1..];
        continue;
      }
      if file.name in stuck {
        NothingMore(removed, rest, active, quota, stuck, total);
        ok := false;
        return;
      }
      OneGone(removed, rest, active, quota, stuck, total);
      OneTakenOff(dir, bytes, removed, left, total, file);
      left := left - {file.name + SUFFIX};
      removed := removed + [file];
      total := total - file.size;
      rest := rest[1..];
    }
    NothingMore(removed, rest, active, quota, stuck, total);
  }

  // ---------------------------------------------------------------- the directory afterwards

  predicate Distinct(listing: seq<string>) {
    forall i, j | 0 <= i < j < |listing| :: listing[i] != listing[j]
  }

  /** A listed model file, with what the directory says about it. */
  predicate Listed(dir: map<string, Info>, listing: seq<string>, f: File) {
    f.name + SUFFIX in listing && IsModel(dir, f.name + SUFFIX) && f == FileOf(dir, f.name + SUFFIX)
  }

  lemma TrimmedName(entry: string)
    requires Text.HasSuffix(entry, SUFFIX)
    ensures Text.TrimSuffix(entry, SUFFIX) + SUFFIX == entry
  {
  }

  lemma {:induction false} ModelFilesAreListed(dir: map<string, Info>, listing: seq<string>, f: File)
    requires Distinct(listing)
    ensures f in ModelFiles(dir, listing) <==> Listed(dir, listing, f)
    ensures multiset(ModelFiles(dir, listing))[f] <= 1
  {
    if listing != [] {
      var n := |listing| - 1;
      var entry := listing[n];
      ModelFilesAreListed(dir, listing[..n], f);
      assert f.name + SUFFIX in listing <==> f.name + SUFFIX in listing[..n] || f.name + SUFFIX == entry;
      if IsModel(dir, entry) {
        TrimmedName(entry);
        SuffixedName(f.name);
      }
    }
  }

  lemma SuffixedName(name: string)
    ensures Text.HasSuffix(name + SUFFIX, SUFFIX) && Text.TrimSuffix(name + SUFFIX, SUFFIX) == name
  {
  }

  lemma {:induction false} EvictableMembers(files: seq<File>, active: string, f: File)
    ensures multiset(Evictable(files, active))[f] == if f.name == active then 0 else multiset(files)[f]
  {
    if files != [] {
      var first, rest := files[0], files[1..];
      EvictableMembers(rest, active, f);
      assert files == [first] + rest;
      ConsCount(first, rest, f);
      ConsCount(first, Evictable(rest, active), f);
      assert Evictable(files, active)
             == if first.name == active then Evictable(rest, active) else [first] + Evictable(rest, active);
    }
  }

  lemma ConsCount(first: File, rest: seq<File>, f: File)
    ensures multiset([first] + rest)[f] == multiset(rest)[f] + if f == first then 1 else 0
  {
  }

  lemma {:induction false} EntryStays(dir: map<string, Info>, removed: seq<File>, entry: string)
    ensures entry in Without(dir, removed)
            <==> entry in dir && forall i | 0 <= i < |removed| :: removed[i].name + SUFFIX != entry
    ensures entry in Without(dir, removed) ==> Without(dir, removed)[entry] == dir[entry]
  {
    if removed != [] {
      EntryStays(dir, removed[..|removed| - 1], entry);
    }
  }

  lemma {:induction false} RemovingOne(dir: map<string, Info>, listing: seq<string>, entry: string)
    requires Distinct(listing) && IsModel(dir, entry)
    ensures Bytes(ModelFiles(dir - {entry}, listing)) == Bytes(ModelFiles(dir, listing)) - if entry in listing
            then dir[entry].size else 0
  {
    if listing != [] {
      var n := |listing| - 1;
      RemovingOne(dir, listing[..n], entry);
      assert entry in listing <==> entry in listing[..n] || entry == listing[n];
      ListingBytes(ModelFiles(dir, listing[..n]), dir, listing[n]);
      ListingBytes(ModelFiles(dir - {entry}, listing[..n]), dir - {entry}, listing[n]);
    }
  }

  lemma ListingBytes(files: seq<File>, dir: map<string, Info>, entry: string)
    ensures Bytes(files + Listing(dir, entry)) == Bytes(files) + if IsModel(dir, entry) then dir[entry].size else 0
  {
    if IsModel(dir, entry) {
      SumAppend(files, FileOf(dir, entry), SizeOf());
    } else {
      assert files + [] == files;
    }
  }

  /** Removing distinct listed files leaves exactly their bytes less. */
  lemma {:induction false} BytesLeft(dir: map<string, Info>, listing: seq<string>, removed: seq<File>)
    requires Distinct(listing)
    requires forall i | 0 <= i < |removed| :: Listed(dir, listing, removed[i])
    requires forall i, j | 0 <= i < j < |removed| :: removed[i] != removed[j]
    ensures Bytes(ModelFiles(Without(dir, removed), listing)) == Bytes(ModelFiles(dir, listing)) - Bytes(removed)
  {
    if removed != [] {
      var n := |removed| - 1;
      var f, before := removed[n], Without(dir, removed[..n]);
      BytesLeft(dir, listing, removed[..n]);
      EntryStays(dir, removed[..n], f.name + SUFFIX);
      forall i | 0 <= i < n ensures removed[..n][i].name + SUFFIX != f.name + SUFFIX {
        SameEntry(dir, listing, removed[i], f);
      }
      RemovingOne(before, listing, f.name + SUFFIX);
    }
  }

  /** Listed files with one entry are one file. */
  lemma SameEntry(dir: map<string, Info>, listing: seq<string>, f: File, g: File)
    requires Listed(dir, listing, f) && Listed(dir, listing, g)
    ensures f.name + SUFFIX == g.name + SUFFIX ==> f == g
  {
  }

  lemma OnceEach(files: seq<File>, k: nat)
    requires k <= |files| && forall f :: multiset(files)[f] <= 1
    ensures forall i, j | 0 <= i < j < k :: files[..k][i] != files[..k][j]
  {
    forall i, j | 0 <= i < j < k ensures files[i] != files[j] {
      assert files == files[..j] + [files[j]] + files[j + 1..];
      assert files[..j][i] == files[i] && multiset(files)[files[j]] <= 1;
    }
  }

  /** The removed files are listed, each at most once. */
  lemma RemovedAreListed(dir: map<string, Info>, listing: seq<string>, order: seq<File>, active: string, k: nat)
    requires Distinct(listing) && multiset(order) == multiset(ModelFiles(dir, listing))
             && k <= |Evictable(order, active)|
    ensures var removed := Evictable(order, active)[..k];
            && (forall i | 0 <= i < k :: Listed(dir, listing, removed[i]))
            && (forall i, j | 0 <= i < j < k :: removed[i] != removed[j])
  {
    var candidates := Evictable(order, active);
    forall f ensures multiset(candidates)[f] <= 1 {
      EvictableMembers(order, active, f);
      ModelFilesAreListed(dir, listing, f);
    }
    OnceEach(candidates, k);
    forall i | 0 <= i < k ensures Listed(dir, listing, candidates[..k][i]) {
      assert candidates[i] in multiset(order);
      ModelFilesAreListed(dir, listing, candidates[i]);
    }
  }

  /**
   The directory after an eviction: it holds exactly the bytes the loop counted, still has the
   active file, and without an error fits the quota or holds no model but the active one.
   */
  lemma CacheAfterEviction(dir: map<string, Info>, entries: seq<DirEntry>, order: seq<File>, active: string, quota: int,
                           stuck: set<string>)
    requires forall i, j | 0 <= i < j < |entries| :: entries[i].name != entries[j].name
    requires multiset(order) == multiset(ModelFiles(dir, ModelNames(entries)))
    ensures var listing := ModelNames(entries);
            var (removed, ok) := Victims(order, active, quota, stuck, Bytes(order));
            var left := Without(dir, removed);
            && Bytes(ModelFiles(left, listing)) == Bytes(order) - Bytes(removed)
            && (active + SUFFIX in dir ==> active + SUFFIX in left && left[active + SUFFIX] == dir[active + SUFFIX])
            && (ok ==> Bytes(ModelFiles(left, listing)) <= quota || forall f | f in ModelFiles(left, listing) ::
               f.name == active)
  {
    var listing := ModelNames(entries);
    NamesDistinct(entries);
    var (removed, ok) := Victims(order, active, quota, stuck, Bytes(order));
    EvictionIsLru(order, active, quota, stuck, Bytes(order));
    RemovedAreListed(dir, listing, order, active, |removed|);
    BytesLeft(dir, listing, removed);
    SamePermutationBytes(ModelFiles(dir, listing), order);
    ActiveStays(dir, order, active, removed);
    if removed == Evictable(order, active) {
      OnlyActiveLeft(dir, listing, order, active);
    }
  }

  lemma {:induction false} NamesDistinct(entries: seq<DirEntry>)
    requires forall i, j | 0 <= i < j < |entries| :: entries[i].name != entries[j].name
    ensures Distinct(ModelNames(entries))
  {
    if entries != [] {
      var n := |entries| - 1;
      NamesDistinct(entries[..n]);
      ModelNamesMembers(entries[..n], entries[n].name);
    }
  }

  lemma ActiveStays(dir: map<string, Info>, order: seq<File>, active: string, removed: seq<File>)
    requires |removed| <= |Evictable(order, active)| && removed == Evictable(order, active)[..|removed|]
    ensures var left := Without(dir, removed);
            active + SUFFIX in dir ==> active + SUFFIX in left && left[active + SUFFIX] == dir[active + SUFFIX]
  {
    forall i | 0 <= i < |removed| ensures removed[i].name + SUFFIX != active + SUFFIX {
      SuffixedName(removed[i].name);
      SuffixedName(active);
    }
    EntryStays(dir, removed, active + SUFFIX);
  }

  lemma OnlyActiveLeft(dir: map<string, Info>, listing: seq<string>, order: seq<File>, active: string)
    requires Distinct(listing) && multiset(order) == multiset(ModelFiles(dir, listing))
    ensures forall f | f in ModelFiles(Without(dir, Evictable(order, active)), listing) :: f.name == active
  {
    var removed := Evictable(order, active);
    var left := Without(dir, removed);
    forall f | f in ModelFiles(left, listing) ensures f.name == active {
      ModelFilesAreListed(left, listing, f);
      EntryStays(dir, removed, f.name + SUFFIX);
      ModelFilesAreListed(dir, listing, f);
      EvictableMembers(order, active, f);
      assert f in multiset(ModelFiles(dir, listing));
      assert f.name != active ==> f in multiset(removed);
    }
  }

  class Cache {
    var dir: map<string, Info>
    const quota: int

    constructor (dir: map<string, Info>, quota: int)
      ensures this.dir == dir && this.quota == quota
    {
      this.dir := dir;
      this.quota := quota;
    }

    /**
     `entries` is what reading the directory gives, if it can be read; `stuck` names the files the
     system will not remove. Nothing is removed when the directory or a listed model cannot be read.
     */
    method Evict(activeSHA256: string, entries: Option<seq<DirEntry>>, stuck: set<string>)
      returns (ok: bool, order: seq<File>, removed: seq<File>)
      modifies this`dir
      ensures quota <= 0 ==> ok && removed == [] && dir == old(dir)
      ensures quota > 0 && (entries.None? || !Readable(old(dir), entries.value)) ==>
              !ok && removed == [] && dir == old(dir)
      ensures quota > 0 && entries.Some? && Readable(old(dir), entries.value) ==>
                && multiset(order) == multiset(ModelFiles(old(dir), ModelNames(entries.value))) && OldestFirst(order)
                && (removed, ok) == Victims(order, Text.TrimPrefix(activeSHA256, "sha256:"), quota, stuck, Bytes(order))
      ensures dir == Without(old(dir), removed)
    {
      order, removed, ok := [], [], true;
      if quota <= 0 { return; }
      if entries.None? { ok := false; return; }
      var files, total;
      ok, files, total := Scan(dir, entries.value);
      if !ok { return; }
      order := SortByAge(files);
      SamePermutationBytes(files, order);
      dir, removed, ok, total :=
        RemoveOldest(dir, order, Text.TrimPrefix(activeSHA256, "sha256:"), quota, stuck, total);
    }
  }
}
