/**
 One ticket's artifact directory and its collection from a workspace
 (src/symphony/artifacts.py, ArtifactStore).

 File contents are blobs compared as a whole, so a digest stands for its
 content. What each read of a source returns is given, read by read.
 */
module Artifacts {
  import opened Prelude

  datatype Blob = Blob(id: nat, size: nat)

  datatype Record = Record(name: string, size: nat, sha: Blob)

  datatype Index = Missing | Corrupt | Entries(records: seq<Record>)

  /**
   A workspace file: its size at the scan, its content when hashed and when
   copied, each None when that read fails; and whether a discard succeeds.
   */
  datatype Source = Source(
    relative: string, statted: Option<nat>, hashed: Option<Blob>, copied: Option<Blob>, discards: bool)

  datatype Reason = Unreadable | TooLarge | QuotaExceeded | Duplicate | GrewPastCap | CopyFailed

  datatype Limits = Limits(file: nat, ticket: nat, sanitize: string -> string)

  // ---------------------------------------------------------------------
  // A free name
  // ---------------------------------------------------------------------

  function Digits(n: nat): string {
    if n < 10 then [('0' as int + n) as char] else Digits(n / 10) + [('0' as int + n % 10) as char]
  }

  /** Position of the last dot, or None. */
  function LastDot(s: string): (r: Option<nat>)
    ensures r.Some? ==> r.value < |s|
  {
    if s == "" then None
    else if s[|s| - 1] == '.' then Some(|s| - 1)
    else LastDot(s[..|s| - 1])
  }

  function Candidate(name: string, k: nat): string {
    var dot := LastDot(name);
    var (base, ext) := if dot.Some? then (name[..dot.value], name[dot.value..]) else (name, "");
    base + "-" + Digits(k) + ext
  }

  /** The name itself, or its first free variant from 2 to 999. */
  function FreeFrom(name: string, taken: set<string>, k: nat): (r: Option<string>)
    ensures r.Some? ==> r.value !in taken
    decreases 1000 - k
  {
    if k >= 1000 then None
    else if Candidate(name, k) !in taken then Some(Candidate(name, k))
    else FreeFrom(name, taken, k + 1)
  }

  function UniqueName(name: string, taken: set<string>): (r: Option<string>)
    ensures r.Some? ==> r.value !in taken
  {
    if name !in taken then Some(name) else FreeFrom(name, taken, 2)
  }

  method FindUniqueName(name: string, taken: set<string>) returns (r: Option<string>)
    ensures r == UniqueName(name, taken)
    ensures r.None? ==> name in taken && forall k :: 2 <= k < 1000 ==> Candidate(name, k) in taken
  {
    hide Candidate;
    if name !in taken { return Some(name); }
    for counter := 2 to 1000
      invariant FreeFrom(name, taken, 2) == FreeFrom(name, taken, counter)
      invariant forall k :: 2 <= k < counter ==> Candidate(name, k) in taken
    {
      if Candidate(name, counter) !in taken { return Some(Candidate(name, counter)); }
    }
    return None;
  }

  // ---------------------------------------------------------------------
  // One pass over the sources
  // ---------------------------------------------------------------------

  function Names(rs: seq<Record>): set<string> { set r | r in rs :: r.name }

  function Hashes(rs: seq<Record>): set<Blob> { set r | r in rs :: r.sha }

  function TotalSize(rs: seq<Record>): nat {
    if |rs| == 0 then 0 else TotalSize(rs[..|rs| - 1]) + rs[|rs| - 1].size
  }

  datatype Progress = Progress(
    records: seq<Record>, files: map<string, Blob>, total: nat,
    collected: seq<Record>, skipped: seq<(string, Reason)>, failed: bool)

  function Skip(s: Progress, src: Source, why: Reason): Progress {
    s.(skipped := s.skipped + [(src.relative, why)])
  }

  /** Copy first, measure what landed, then keep or discard it. */
  function Copy(l: Limits, s: Progress, src: Source, size: nat, digest: Blob, name: string): Progress {
    if src.copied.None? then Skip(s, src, CopyFailed)
    else
      var landed := src.copied.value;
      var files := s.files[name := landed];
      if landed.size > l.file || s.total + landed.size > l.ticket then
        Skip(s.(files := if src.discards then files - {name} else files), src, GrewPastCap)
      else
        var record := Record(name, size, digest);
        s.(records := s.records + [record], files := files, total := s.total + landed.size,
           collected := s.collected + [record])
  }

  /** The loop body; running out of names raises and ends the loop. */
  function Take(l: Limits, s: Progress, src: Source): Progress {
    if s.failed then s
    else if src.statted.None? then Skip(s, src, Unreadable)
    else if src.statted.value > l.file then Skip(s, src, TooLarge)
    else if s.total + src.statted.value > l.ticket then Skip(s, src, QuotaExceeded)
    else if src.hashed.None? then Skip(s, src, Unreadable)
    else if src.hashed.value in Hashes(s.records) then Skip(s, src, Duplicate)
    else
      var name := UniqueName(l.sanitize(src.relative), Names(s.records));
      if name.None? then s.(failed := true)
      else Copy(l, s, src, src.statted.value, src.hashed.value, name.value)
  }

  function TakeAll(l: Limits, s: Progress, sources: seq<Source>): Progress {
    if |sources| == 0 then s else Take(l, TakeAll(l, s, sources[..|sources| - 1]), sources[|sources| - 1])
  }

  function Start(records: seq<Record>, files: map<string, Blob>): Progress {
    Progress(records, files, TotalSize(records), [], [], false)
  }

  // ---------------------------------------------------------------------
  // What a listing promises
  // ---------------------------------------------------------------------

  ghost predicate Listed(rs: seq<Record>, files: map<string, Blob>) {
    && (forall i, j :: 0 <= i < j < |rs| ==> rs[i].name != rs[j].name)
    && (forall r :: r in rs ==> r.name in files && files[r.name] == r.sha && r.size == r.sha.size)
  }

  /** Distinct names and contents, each within the file cap, together within the quota. */
  ghost predicate Sound(l: Limits, rs: seq<Record>, files: map<string, Blob>) {
    && Listed(rs, files)
    && (forall i, j :: 0 <= i < j < |rs| ==> rs[i].sha != rs[j].sha)
    && (forall r :: r in rs ==> r.size <= l.file)
    && TotalSize(rs) <= l.ticket
  }

  /** The source does not change during the scan. */
  predicate Unchanged(src: Source) {
    && (src.statted.Some? && src.hashed.Some? ==> src.statted.value == src.hashed.value.size)
    && (src.hashed.Some? && src.copied.Some? ==> src.hashed == src.copied)
  }

  /** Nor does any read of it fail. */
  predicate Steady(src: Source) {
    Unchanged(src) && src.statted.Some? && src.hashed.Some? && src.copied.Some?
  }

  lemma TotalSnoc(rs: seq<Record>, r: Record)
    ensures TotalSize(rs + [r]) == TotalSize(rs) + r.size
  {
    assert (rs + [r])[..|rs|] == rs;
  }

  /** Whatever the source does, files listed before stay as they are. */
  ghost predicate Keeps(rs: seq<Record>, files: map<string, Blob>, next: map<string, Blob>) {
    forall n :: n in Names(rs) && n in files ==> n in next && next[n] == files[n]
  }

  lemma TakeKeepsListed(l: Limits, s: Progress, src: Source)
    ensures s.records <= Take(l, s, src).records
    ensures Keeps(s.records, s.files, Take(l, s, src).files)
  {
    hide UniqueName, Names, Hashes;
    var next := Take(l, s, src);
    if next.files != s.files {
      var name := UniqueName(l.sanitize(src.relative), Names(s.records)).value;
      assert name !in Names(s.records);
    }
  }

  lemma {:induction false} CollectKeepsListed(l: Limits, s: Progress, sources: seq<Source>)
    ensures s.records <= TakeAll(l, s, sources).records
    ensures Keeps(s.records, s.files, TakeAll(l, s, sources).files)
  {
    hide Take;
    if |sources| > 0 {
      var before := TakeAll(l, s, sources[..|sources| - 1]);
      CollectKeepsListed(l, s, sources[..|sources| - 1]);
      TakeKeepsListed(l, before, sources[|sources| - 1]);
      assert Names(s.records) <= Names(before.records);
    }
  }

  lemma SoundSnoc(l: Limits, rs: seq<Record>, files: map<string, Blob>, r: Record)
    requires Sound(l, rs, files) && r.name !in Names(rs) && r.sha !in Hashes(rs)
    requires r.size == r.sha.size <= l.file && TotalSize(rs) + r.size <= l.ticket
    ensures Sound(l, rs + [r], files[r.name := r.sha])
    ensures files.Keys == Names(rs) ==> files[r.name := r.sha].Keys == Names(rs + [r])
  {
    hide TotalSize;
    TotalSnoc(rs, r);
    forall i | 0 <= i < |rs| ensures rs[i].name != r.name && rs[i].sha != r.sha {
      assert rs[i] in rs;
      assert rs[i].name in Names(rs) && rs[i].sha in Hashes(rs);
    }
    assert forall x :: x in rs + [r] <==> x in rs || x == r;
  }

  /** Adding an unchanged source keeps the promises; and files nobody listed do not appear. */
  lemma TakeKeepsSound(l: Limits, s: Progress, src: Source)
    requires Sound(l, s.records, s.files) && s.total == TotalSize(s.records) && Unchanged(src)
    ensures var next := Take(l, s, src);
            && Sound(l, next.records, next.files) && next.total == TotalSize(next.records)
            && (s.files.Keys == Names(s.records) ==> next.files.Keys == Names(next.records))
  {
    hide UniqueName, Sound, TotalSize, Names, Hashes;
    var next := Take(l, s, src);
    if next.records != s.records {
      var r := next.records[|s.records|];
      TotalSnoc(s.records, r);
      SoundSnoc(l, s.records, s.files, r);
    }
  }

  lemma {:induction false} CollectKeepsSound(l: Limits, s: Progress, sources: seq<Source>)
    requires Sound(l, s.records, s.files) && s.total == TotalSize(s.records)
    requires forall src :: src in sources ==> Unchanged(src)
    ensures var end := TakeAll(l, s, sources);
            && Sound(l, end.records, end.files) && end.total == TotalSize(end.records)
            && (s.files.Keys == Names(s.records) ==> end.files.Keys == Names(end.records))
  {
    hide Sound, Take, Unchanged, Names, TotalSize;
    if |sources| > 0 {
      CollectKeepsSound(l, s, sources[..|sources| - 1]);
      TakeKeepsSound(l, TakeAll(l, s, sources[..|sources| - 1]), sources[|sources| - 1]);
    }
  }

  // ---------------------------------------------------------------------
  // Collecting again
  // ---------------------------------------------------------------------

  /** A source that can add nothing any more. */
  ghost predicate Settled(l: Limits, s: Progress, src: Source) {
    && src.statted.Some? && src.hashed.Some?
    && (|| src.statted.value > l.file
        || s.total + src.statted.value > l.ticket
        || src.hashed.value in Hashes(s.records))
  }

  lemma TakeSettles(l: Limits, s: Progress, src: Source)
    requires Steady(src) && !Take(l, s, src).failed
    ensures Settled(l, Take(l, s, src), src)
  {
    var next := Take(l, s, src);
    if next.records != s.records {
      assert next.records[|s.records|].sha == src.hashed.value;
    }
  }

  lemma TakeKeepsSettled(l: Limits, s: Progress, src: Source, other: Source)
    requires Settled(l, s, other)
    ensures Settled(l, Take(l, s, src), other)
  {
    hide UniqueName;
  }

  lemma {:induction false} CollectSettles(l: Limits, s: Progress, sources: seq<Source>, i: nat)
    requires i < |sources| && (forall src :: src in sources ==> Steady(src))
    requires !TakeAll(l, s, sources).failed
    ensures Settled(l, TakeAll(l, s, sources), sources[i])
  {
    hide Take, Settled, Steady;
    var n := |sources| - 1;
    var before := TakeAll(l, s, sources[..n]);
    if i == n {
      TakeSettles(l, before, sources[n]);
    } else {
      FailedStays(l, before, sources[n]);
      CollectSettles(l, s, sources[..n], i);
      TakeKeepsSettled(l, before, sources[n], sources[i]);
    }
  }

  lemma FailedStays(l: Limits, s: Progress, src: Source)
    ensures s.failed ==> Take(l, s, src).failed
  {
  }

  lemma SettledTake(l: Limits, s: Progress, src: Source)
    requires !s.failed && Settled(l, s, src)
    ensures Take(l, s, src).(skipped := s.skipped) == s
  {
  }

  lemma {:induction false} SettledAddNothing(l: Limits, s: Progress, sources: seq<Source>)
    requires !s.failed && forall src :: src in sources ==> Settled(l, s, src)
    ensures TakeAll(l, s, sources).(skipped := s.skipped) == s
  {
    hide Take, Settled;
    if |sources| > 0 {
      var n := |sources| - 1;
      var before := TakeAll(l, s, sources[..n]);
      SettledAddNothing(l, s, sources[..n]);
      assert sources[n] in sources;
      SameTotal(l, s, before, sources[n]);
      SettledTake(l, before, sources[n]);
    }
  }

  /** Collecting an unchanged directory again adds nothing and touches no file. */
  lemma RecollectAddsNothing(l: Limits, records: seq<Record>, files: map<string, Blob>, sources: seq<Source>)
    requires Sound(l, records, files) && forall src :: src in sources ==> Steady(src)
    requires !TakeAll(l, Start(records, files), sources).failed
    ensures var first := TakeAll(l, Start(records, files), sources);
            var again := TakeAll(l, Start(first.records, first.files), sources);
            && again.collected == [] && again.records == first.records && again.files == first.files
            && !again.failed
  {
    hide Take, Sound, Settled;
    var first := TakeAll(l, Start(records, files), sources);
    CollectKeepsSound(l, Start(records, files), sources);
    forall src | src in sources ensures Settled(l, Start(first.records, first.files), src) {
      var i :| 0 <= i < |sources| && sources[i] == src;
      CollectSettles(l, Start(records, files), sources, i);
      SameTotal(l, first, Start(first.records, first.files), src);
    }
    SettledAddNothing(l, Start(first.records, first.files), sources);
  }

  lemma SameTotal(l: Limits, a: Progress, b: Progress, src: Source)
    requires a.records == b.records && a.total == b.total && Settled(l, a, src)
    ensures Settled(l, b, src)
  {
  }

  /**
   A record just added tells the truth about the stored file exactly when the
   source did not change between its size, its hash and its copy.
   */
  lemma NewRecordIsTrueIff(l: Limits, s: Progress, src: Source)
    requires Take(l, s, src).records != s.records
    ensures var next := Take(l, s, src);
            var r := next.records[|s.records|];
            && next.records == s.records + [r] && r.name in next.files
            && (next.files[r.name] == r.sha && r.size == next.files[r.name].size <==> Unchanged(src))
  {
    hide UniqueName;
    var name := UniqueName(l.sanitize(src.relative), Names(s.records)).value;
    assert Take(l, s, src).files[name] == src.copied.value;
  }

  /**
   A source that grows between the scan and the copy is recorded at its old
   size, so the recorded sizes understate what the next scan allows for.
   */
  lemma GrownSourceBreaksQuota(l: Limits)
    requires l.file == 3 && l.ticket == 3 && l.sanitize("a") == "a" && l.sanitize("b") == "b"
    ensures var grows := Source("a", Some(0), Some(Blob(0, 0)), Some(Blob(1, 2)), true);
            var later := Source("b", Some(3), Some(Blob(2, 3)), Some(Blob(2, 3)), true);
            var first := Take(l, Start([], map[]), grows);
            var second := Take(l, Start(first.records, first.files), later);
            && Steady(later) && !Unchanged(grows)
            && second.files == map["a" := Blob(1, 2), "b" := Blob(2, 3)]
            && |second.records| == 2 && TotalSize(second.records) == l.ticket
  {
    var grows := Source("a", Some(0), Some(Blob(0, 0)), Some(Blob(1, 2)), true);
    var later := Source("b", Some(3), Some(Blob(2, 3)), Some(Blob(2, 3)), true);
    var first := Take(l, Start([], map[]), grows);
    var r := Record("a", 0, Blob(0, 0));
    assert first.records == [r];
    TotalSnoc([], r);
    assert [] + [r] == [r];
    assert "a"[0] != "b"[0];
    assert Names([r]) == {"a"} && Hashes([r]) == {Blob(0, 0)};
    var second := Take(l, Start(first.records, first.files), later);
    assert second.records == [r] + [Record("b", 3, Blob(2, 3))];
    TotalSnoc([r], Record("b", 3, Blob(2, 3)));
  }

  // ---------------------------------------------------------------------
  // A lost index
  // ---------------------------------------------------------------------

  lemma {:induction false} TotalWithout(rs: seq<Record>, i: nat)
    requires i < |rs|
    ensures TotalSize(rs) == TotalSize(rs[..i] + rs[i + 1..]) + rs[i].size
  {
    var n := |rs| - 1;
    if i == n {
      assert rs[..i] + rs[i + 1..] == rs[..n];
    } else {
      TotalWithout(rs[..n], i);
      var rest := rs[..n][..i] + rs[..n][i + 1..];
      assert rs[..i] + rs[i + 1..] == rest + [rs[n]];
      TotalSnoc(rest, rs[n]);
    }
  }

  lemma ListedWithout(all: seq<Record>, i: nat, files: map<string, Blob>)
    requires i < |all| && Listed(all, files)
    ensures Listed(all[..i] + all[i + 1..], files)
    ensures forall r :: r in all && r != all[i] ==> r in all[..i] + all[i + 1..]
  {
    var rest := all[..i] + all[i + 1..];
    forall r | r in all && r != all[i] ensures r in rest {
      var j :| 0 <= j < |all| && all[j] == r;
      assert if j < i then rest[j] == r else rest[j - 1] == r;
    }
  }

  /** A listing of some of the files another listing names is no larger. */
  lemma {:induction false} SubListingIsSmaller(rs: seq<Record>, all: seq<Record>, files: map<string, Blob>)
    requires Listed(rs, files) && Listed(all, files)
    requires forall r :: r in rs ==> r in all
    ensures TotalSize(rs) <= TotalSize(all)
  {
    if |rs| > 0 {
      var n := |rs| - 1;
      assert rs[n] in all;
      var i :| 0 <= i < |all| && all[i] == rs[n];
      TotalWithout(all, i);
      ListedWithout(all, i, files);
      assert forall r :: r in rs[..n] ==> r in rs && r != rs[n];
      SubListingIsSmaller(rs[..n], all[..i] + all[i + 1..], files);
    }
  }

  /**
   A lost index is rebuilt from the files: if every stored file was listed, any
   such listing is as sound as the lost one.
   */
  lemma LostIndexIsHarmless(l: Limits, rs: seq<Record>, files: map<string, Blob>, rebuilt: seq<Record>)
    requires Sound(l, rs, files) && files.Keys == Names(rs) && Listed(rebuilt, files)
    ensures Sound(l, rebuilt, files)
  {
    forall r | r in rebuilt ensures r in rs {
      assert r.name in Names(rs);
      var known :| known in rs && known.name == r.name;
      assert known == r;
    }
    SubListingIsSmaller(rebuilt, rs, files);
    forall i, j | 0 <= i < j < |rebuilt| ensures rebuilt[i].sha != rebuilt[j].sha {
      var a :| 0 <= a < |rs| && rs[a] == rebuilt[i];
      var b :| 0 <= b < |rs| && rs[b] == rebuilt[j];
      assert a != b;
    }
  }

  // ---------------------------------------------------------------------
  // One collection
  // ---------------------------------------------------------------------

  /**
   What fails during a collection: reads of stored files while rebuilding, the
   write-back of a rebuilt index, and the write of the new index.
   */
  datatype Faults = Faults(unreadable: set<string>, restorable: bool, writable: bool)

  ghost predicate IsListing(index: Index, files: map<string, Blob>, faults: Faults, listing: seq<Record>) {
    if index.Entries? then listing == index.records
    else Listed(listing, files) && Names(listing) == files.Keys - faults.unreadable
  }

  predicate RestoreFails(index: Index, listing: seq<Record>, faults: Faults) {
    index == Corrupt && listing != [] && !faults.restorable
  }

  function Restored(index: Index, listing: seq<Record>): Index {
    if index == Corrupt && listing != [] then Entries(listing) else index
  }

  /** One collection as the store sees it: its index and files before and after. */
  ghost predicate Collection(
      l: Limits, index: Index, files: map<string, Blob>, sources: seq<Source>, faults: Faults,
      listing: seq<Record>, index': Index, files': map<string, Blob>)
  {
    if sources == [] then listing == [] && index' == index && files' == files
    else
      && IsListing(index, files, faults, listing)
      && if RestoreFails(index, listing, faults) then index' == index && files' == files
         else
           var end := TakeAll(l, Start(listing, files), sources);
           && files' == end.files
           && index' == (if !end.failed && end.collected != [] && faults.writable then Entries(end.records)
                         else Restored(index, listing))
  }

  // ---------------------------------------------------------------------
  // The store
  // ---------------------------------------------------------------------

  class ArtifactStore {
    const limits: Limits
    var index: Index
    var files: map<string, Blob>

    constructor (limits: Limits)
      ensures this.limits == limits && index == Missing && files == map[]
    {
      this.limits, index, files := limits, Missing, map[];
    }

    /**
     A missing or corrupt index is rebuilt from the readable files; only a
     corrupt one is written back, and that write may raise.
     */
    method LoadIndex(faults: Faults) returns (records: seq<Record>, raised: bool)
      modifies `index
      ensures IsListing(old(index), files, faults, records)
      ensures raised <==> RestoreFails(old(index), records, faults)
      ensures index == if raised then old(index) else Restored(old(index), records)
    {
      hide Listed, Names;
      if index.Entries? { return index.records, false; }
      records := RebuildFromFiles(faults.unreadable);
      raised := false;
      if records != [] && index == Corrupt {
        if faults.restorable {
          index := Entries(records);
        } else {
          raised := true;
        }
      }
    }

    method RebuildFromFiles(unreadable: set<string>) returns (records: seq<Record>)
      ensures Listed(records, files) && Names(records) == files.Keys - unreadable
    {
      hide Listed;
      records := [];
      EmptyListing(files);
      var left := files.Keys;
      while left != {}
        invariant left <= files.Keys && Listed(records, files)
        invariant Names(records) == files.Keys - left - unreadable
        decreases |left|
      {
        var name :| name in left;
        left := left - {name};
        if name !in unreadable {
          var r := Record(name, files[name].size, files[name]);
          ListedSnoc(records, files, r);
          records := records + [r];
        }
      }
    }

    /** Copy to a temporary file, then replace; the size is what landed. */
    method CopyIntoStore(src: Source, name: string) returns (written: Option<nat>)
      modifies `files
      ensures src.copied.None? ==> written == None && files == old(files)
      ensures src.copied.Some? ==>
                && written == Some(src.copied.value.size)
                && files == old(files)[name := src.copied.value]
    {
      if src.copied.None? { return None; }
      files := files[name := src.copied.value];
      return Some(src.copied.value.size);
    }

    method DiscardFromStore(src: Source, name: string)
      modifies `files
      ensures files == if src.discards then old(files) - {name} else old(files)
    {
      if src.discards {
        files := files - {name};
      }
    }

    method CollectFromWorkspace(sources: seq<Source>, faults: Faults)
      returns (collected: seq<Record>, skipped: seq<(string, Reason)>, raised: bool, ghost listing: seq<Record>)
      modifies this
      ensures Collection(limits, old(index), old(files), sources, faults, listing, index, files)
      ensures sources == [] ==> collected == [] && !raised
      ensures sources != [] && !RestoreFails(old(index), listing, faults) ==>
                var end := TakeAll(limits, Start(listing, old(files)), sources);
                && collected == end.collected && skipped == end.skipped
                && (raised <==> end.failed || (collected != [] && !faults.writable))
      ensures Keeps(listing, old(files), files)
    {
      collected, skipped, raised, listing := [], [], false, [];
      if sources == [] { return; }
      var records;
      records, raised := LoadIndex(faults);
      listing := records;
      if raised { return; }
      collected, skipped, raised := Scan(records, sources, faults.writable);
    }

    /** The pass over the sources, and the index write. */
    method Scan(listing: seq<Record>, sources: seq<Source>, writable: bool)
      returns (collected: seq<Record>, skipped: seq<(string, Reason)>, raised: bool)
      modifies this
      ensures var end := TakeAll(limits, Start(listing, old(files)), sources);
              && files == end.files && collected == end.collected && skipped == end.skipped
              && (raised <==> end.failed || (collected != [] && !writable))
              && index == (if !end.failed && end.collected != [] && writable then Entries(end.records) else old(index))
      ensures Keeps(listing, old(files), files)
    {
      collected, skipped, raised := [], [], false;
      var records := listing;
      ghost var start := Start(listing, files);
      CollectKeepsListed(limits, start, sources);
      hide Take, Keeps;
      var total := TotalSize(records);
      for i := 0 to |sources|
        invariant Progress(records, files, total, collected, skipped, false) == TakeAll(limits, start, sources[..i])
        invariant index == old(index)
      {
        assert sources[..i + 1][..i] == sources[..i];
        ghost var next := Take(limits, TakeAll(limits, start, sources[..i]), sources[i]);
        assert next == TakeAll(limits, start, sources[..i + 1]);
        records, total, collected, skipped, raised := TakeSource(sources[i], records, total, collected, skipped);
        if raised {
          FailedForGood(limits, start, sources, i + 1);
          return;
        }
      }
      assert sources[..|sources|] == sources;
      if collected != [] {
        if writable {
          index := Entries(records);
        } else {
          raised := true;
        }
      }
    }

    /** The loop body. */
    method TakeSource(src: Source, records: seq<Record>, total: nat, collected: seq<Record>,
                      skipped: seq<(string, Reason)>)
      returns (records': seq<Record>, total': nat, collected': seq<Record>, skipped': seq<(string, Reason)>,
               raised: bool)
      modifies `files
      ensures Progress(records', files, total', collected', skipped', raised)
           == Take(limits, Progress(records, old(files), total, collected, skipped, false), src)
    {
      hide UniqueName;
      records', total', collected', skipped', raised := records, total, collected, skipped, false;
      if src.statted.None? {
        skipped' := skipped + [(src.relative, Unreadable)];
      } else if src.statted.value > limits.file {
        skipped' := skipped + [(src.relative, TooLarge)];
      } else if total + src.statted.value > limits.ticket {
        skipped' := skipped + [(src.relative, QuotaExceeded)];
      } else if src.hashed.None? {
        skipped' := skipped + [(src.relative, Unreadable)];
      } else if src.hashed.value in Hashes(records) {
        skipped' := skipped + [(src.relative, Duplicate)];
      } else {
        var name := FindUniqueName(limits.sanitize(src.relative), Names(records));
        if name.None? {
          raised := true;
          return;
        }
        var record := Record(name.value, src.statted.value, src.hashed.value);
        var written := CopyIntoStore(src, name.value);
        if written.None? {
          skipped' := skipped + [(src.relative, CopyFailed)];
        } else if written.value > limits.file || total + written.value > limits.ticket {
          DiscardFromStore(src, name.value);
          skipped' := skipped + [(src.relative, GrewPastCap)];
        } else {
          records' := records + [record];
          total' := total + written.value;
          collected' := collected + [record];
        }
      }
    }
  }

  lemma {:induction false} FailedForGood(l: Limits, s: Progress, sources: seq<Source>, i: nat)
    requires i <= |sources| && TakeAll(l, s, sources[..i]).failed
    ensures TakeAll(l, s, sources) == TakeAll(l, s, sources[..i])
    decreases |sources|
  {
    if i == |sources| {
      assert sources[..i] == sources;
    } else {
      var n := |sources| - 1;
      assert sources[..n][..i] == sources[..i];
      FailedForGood(l, s, sources[..n], i);
    }
  }

  lemma NamesSnoc(rs: seq<Record>, r: Record)
    ensures Names(rs + [r]) == Names(rs) + {r.name}
  {
  }

  lemma EmptyListing(files: map<string, Blob>)
    ensures Listed([], files) && Names([]) == {}
  {
  }

  lemma ListedSnoc(rs: seq<Record>, files: map<string, Blob>, r: Record)
    requires Listed(rs, files) && r.name in files && r.name !in Names(rs)
    requires r.sha == files[r.name] && r.size == r.sha.size
    ensures Listed(rs + [r], files) && Names(rs + [r]) == Names(rs) + {r.name}
  {
    NamesSnoc(rs, r);
    forall i | 0 <= i < |rs| ensures rs[i].name != r.name {
      assert rs[i] in rs;
      assert rs[i].name in Names(rs);
    }
  }

  // ---------------------------------------------------------------------
  // Any sequence of collections
  // ---------------------------------------------------------------------

  /** Every listing the next load could return is sound. */
  ghost predicate Good(l: Limits, index: Index, files: map<string, Blob>) {
    if index.Entries? then Sound(l, index.records, files)
    else forall rs: seq<Record> :: Listed(rs, files) ==> Sound(l, rs, files)
  }

  lemma KeepsSound(l: Limits, rs: seq<Record>, files: map<string, Blob>, next: map<string, Blob>)
    requires Sound(l, rs, files) && Keeps(rs, files, next)
    ensures Sound(l, rs, next)
  {
    forall r | r in rs ensures r.name in next && next[r.name] == files[r.name] {
      assert r.name in Names(rs) && r.name in files;
    }
  }

  /**
   A pass is covered when it ends with an index, every stored file was readable, or
   it stored nothing.
   */
  predicate Covered(files: map<string, Blob>, faults: Faults, index': Index, files': map<string, Blob>) {
    index'.Entries? || files.Keys !! faults.unreadable || files' == files
  }

  lemma GoodListing(l: Limits, index: Index, files: map<string, Blob>, faults: Faults, listing: seq<Record>)
    requires Good(l, index, files) && IsListing(index, files, faults, listing)
    ensures Sound(l, listing, files)
  {
    hide Sound;
  }

  lemma CollectionKeepsGood(
      l: Limits, index: Index, files: map<string, Blob>, sources: seq<Source>, faults: Faults,
      listing: seq<Record>, index': Index, files': map<string, Blob>)
    requires Good(l, index, files) && Collection(l, index, files, sources, faults, listing, index', files')
    requires forall src :: src in sources ==> Unchanged(src)
    ensures Covered(files, faults, index', files') ==> Good(l, index', files')
    ensures forall r :: r in listing ==> r.name in files' && files'[r.name] == r.sha
  {
    hide Sound, Take, Unchanged, TakeAll, Keeps, Good, Listed;
    if sources != [] {
      GoodListing(l, index, files, faults, listing);
      SoundIsListed(l, listing, files);
      if !RestoreFails(index, listing, faults) {
        ScanKeepsGood(l, index, files, sources, faults, listing, index', files');
      }
    }
  }

  lemma ScanKeepsGood(
      l: Limits, index: Index, files: map<string, Blob>, sources: seq<Source>, faults: Faults,
      listing: seq<Record>, index': Index, files': map<string, Blob>)
    requires Good(l, index, files) && Collection(l, index, files, sources, faults, listing, index', files')
    requires sources != [] && !RestoreFails(index, listing, faults) && Sound(l, listing, files)
    requires forall src :: src in sources ==> Unchanged(src)
    ensures Covered(files, faults, index', files') ==> Good(l, index', files')
    ensures forall r :: r in listing ==> r.name in files' && files'[r.name] == r.sha
  {
    hide Sound, Take, Unchanged, TakeAll, Keeps, Listed;
    var start := Start(listing, files);
    var end := TakeAll(l, start, sources);
    CollectKeepsSound(l, start, sources);
    CollectKeepsListed(l, start, sources);
    KeepsSound(l, listing, files, files');
    SoundIsListed(l, listing, files');
    if !index'.Entries? && files.Keys !! faults.unreadable {
      assert files.Keys == Names(listing);
      forall rs: seq<Record> | Listed(rs, files') ensures Sound(l, rs, files') {
        LostIndexIsHarmless(l, end.records, files', rs);
      }
    }
  }

  lemma SoundIsListed(l: Limits, rs: seq<Record>, files: map<string, Blob>)
    requires Sound(l, rs, files)
    ensures forall r :: r in rs ==> r.name in files && files[r.name] == r.sha
  {
  }

  /** Any set of stored files can be listed. */
  lemma {:induction false} ListingOf(files: map<string, Blob>, names: set<string>) returns (rs: seq<Record>)
    requires names <= files.Keys
    ensures Listed(rs, files) && Names(rs) == names
    decreases |names|
  {
    hide Listed;
    rs := [];
    EmptyListing(files);
    if n :| n in names {
      rs := ListingOf(files, names - {n});
      var r := Record(n, files[n].size, files[n]);
      ListedSnoc(rs, files, r);
      rs := rs + [r];
    }
  }

  /**
   A stored file the rebuild could not read, and a source with its content: the
   source is stored a second time.
   */
  lemma UnreadFileIsStoredAgain(
      l: Limits, files: map<string, Blob>, listing: seq<Record>, lost: string, relative: string)
    requires Good(l, Missing, files) && Listed(listing, files)
    requires lost in files && lost !in Names(listing) && l.sanitize(relative) !in files
    ensures var b := files[lost];
            var src := Source(relative, Some(b.size), Some(b), Some(b), true);
            Take(l, Start(listing, files), src).files == files[l.sanitize(relative) := b]
  {
    hide Sound, Names, Hashes;
    var b := files[lost];
    var r := Record(lost, b.size, b);
    ListedSnoc(listing, files, r);
    assert Sound(l, listing + [r], files);
    LastOfSound(l, listing, files, r);
    assert l.sanitize(relative) !in Names(listing) by { ListedNames(listing, files); }
  }

  lemma LastOfSound(l: Limits, rs: seq<Record>, files: map<string, Blob>, r: Record)
    requires Sound(l, rs + [r], files)
    ensures r.size <= l.file && TotalSize(rs) + r.size <= l.ticket && r.sha !in Hashes(rs)
  {
    TotalSnoc(rs, r);
    var all := rs + [r];
    assert all[|rs|] == r && r in all;
    forall x | x in rs ensures x.sha != r.sha {
      var i :| 0 <= i < |rs| && rs[i] == x;
      assert all[i] == x;
    }
  }

  lemma ListedNames(rs: seq<Record>, files: map<string, Blob>)
    requires Listed(rs, files)
    ensures Names(rs) <= files.Keys
  {
  }

  /** Two files with one content cannot be listed soundly. */
  lemma TwiceStoredIsBad(l: Limits, files: map<string, Blob>, a: string, b: string)
    requires a in files && b in files && a != b && files[a] == files[b]
    ensures !Good(l, Missing, files)
  {
    var r, s := Record(a, files[a].size, files[a]), Record(b, files[b].size, files[b]);
    assert Listed([r, s], files);
    assert [r, s][0].sha == [r, s][1].sha;
    assert !Sound(l, [r, s], files);
  }

  /**
   Every collection of unchanged sources that meets these unreadable files, whatever
   else fails, leaves listings that keep their promises.
   */
  ghost predicate AlwaysGood(l: Limits, index: Index, files: map<string, Blob>, unreadable: set<string>) {
    forall sources, faults: Faults, listing, index', files' ::
      && Collection(l, index, files, sources, faults, listing, index', files')
      && faults.unreadable == unreadable && (forall src :: src in sources ==> Unchanged(src))
      ==> Good(l, index', files')
  }

  /**
   Exactly when: an index was found, or no stored file was unreadable; or a corrupt
   index is written back, which happens once any file was readable.
   */
  lemma RebuildIsHarmlessIff(
      l: Limits, index: Index, files: map<string, Blob>, unreadable: set<string>, relative: string)
    requires Good(l, index, files) && l.sanitize(relative) !in files
    ensures AlwaysGood(l, index, files, unreadable)
       <==> || index.Entries?
            || files.Keys !! unreadable
            || (index == Corrupt && !(files.Keys <= unreadable))
  {
    hide Good, Listed, Names, Take, Collection;
    if index.Entries? || files.Keys !! unreadable || (index == Corrupt && !(files.Keys <= unreadable)) {
      forall sources, faults: Faults, listing, index', files' |
        && Collection(l, index, files, sources, faults, listing, index', files')
        && faults.unreadable == unreadable && (forall src :: src in sources ==> Unchanged(src))
        ensures Good(l, index', files')
      {
        HarmlessIsCovered(l, index, files, sources, faults, listing, index', files');
        CollectionKeepsGood(l, index, files, sources, faults, listing, index', files');
      }
    } else {
      var lost :| lost in files && lost in unreadable;
      UnreadFileDoesHarm(l, index, files, unreadable, lost, relative);
    }
  }

  lemma HarmlessIsCovered(
      l: Limits, index: Index, files: map<string, Blob>, sources: seq<Source>, faults: Faults,
      listing: seq<Record>, index': Index, files': map<string, Blob>)
    requires Collection(l, index, files, sources, faults, listing, index', files')
    requires || index.Entries?
             || files.Keys !! faults.unreadable
             || (index == Corrupt && !(files.Keys <= faults.unreadable))
    ensures Covered(files, faults, index', files')
  {
    hide Listed, TakeAll, TotalSize;
    if sources != [] && index == Corrupt && !(files.Keys <= faults.unreadable) {
      var name :| name in files.Keys && name !in faults.unreadable;
      assert name in Names(listing);
    }
  }

  lemma UnreadFileDoesHarm(
      l: Limits, index: Index, files: map<string, Blob>, unreadable: set<string>, lost: string, relative: string)
    requires !index.Entries? && Good(l, index, files) && l.sanitize(relative) !in files
    requires lost in files && lost in unreadable
    requires index == Corrupt ==> files.Keys <= unreadable
    ensures !AlwaysGood(l, index, files, unreadable)
  {
    hide Good, Listed, Take;
    var listing := ListingOf(files, files.Keys - unreadable);
    if index == Corrupt {
      NoNames(listing);
    }
    var b := files[lost];
    var src := Source(relative, Some(b.size), Some(b), Some(b), true);
    GoodWithout(l, index, files);
    UnreadFileIsStoredAgain(l, files, listing, lost, relative);
    TakeOne(l, Start(listing, files), src);
    var files' := files[l.sanitize(relative) := b];
    var faults := Faults(unreadable, true, false);
    assert Collection(l, index, files, [src], faults, listing, index, files');
    TwiceStoredIsBad(l, files', lost, l.sanitize(relative));
    GoodWithout(l, index, files');
    assert Unchanged(src);
  }

  lemma NoNames(rs: seq<Record>)
    ensures Names(rs) == {} ==> rs == []
  {
    if rs != [] {
      assert rs[0].name in Names(rs);
    }
  }

  lemma GoodWithout(l: Limits, index: Index, files: map<string, Blob>)
    requires !index.Entries?
    ensures Good(l, index, files) == Good(l, Missing, files)
  {
  }

  lemma TakeOne(l: Limits, s: Progress, src: Source)
    ensures TakeAll(l, s, [src]) == Take(l, s, src)
  {
    hide Take;
    assert [src][..0] == [];
  }

  /**
   The quota too: a stored file of size 2 that the rebuild could not read, then
   an unchanged source of size 3, within a quota of 3.
   */
  lemma UnreadFileBreaksQuota(l: Limits)
    requires l.file == 3 && l.ticket == 3 && l.sanitize("b") == "b"
    ensures var files: map<string, Blob> := map["a" := Blob(0, 2)];
            var src := Source("b", Some(3), Some(Blob(1, 3)), Some(Blob(1, 3)), true);
            var files' := files["b" := Blob(1, 3)];
            && Steady(src) && Collection(l, Missing, files, [src], Faults({"a"}, true, false), [], Missing, files')
            && exists rs :: Listed(rs, files') && TotalSize(rs) == 5
  {
    hide Take, Listed, Names, TotalSize;
    var files: map<string, Blob> := map["a" := Blob(0, 2)];
    var src := Source("b", Some(3), Some(Blob(1, 3)), Some(Blob(1, 3)), true);
    TakeOne(l, Start([], files), src);
    TakeIntoEmpty(l, files, src);
    EmptyListing(files);
    assert files.Keys - {"a"} == {};
    PairListed();
  }

  lemma TakeIntoEmpty(l: Limits, files: map<string, Blob>, src: Source)
    requires Steady(src) && src.statted.value <= l.file && src.statted.value <= l.ticket
    ensures Take(l, Start([], files), src).files == files[l.sanitize(src.relative) := src.copied.value]
  {
    assert Names([]) == {} && Hashes([]) == {};
  }

  lemma PairListed()
    ensures var files: map<string, Blob> := map["a" := Blob(0, 2)]["b" := Blob(1, 3)];
            exists rs :: Listed(rs, files) && TotalSize(rs) == 5
  {
    hide Names;
    var a, b := Record("a", 2, Blob(0, 2)), Record("b", 3, Blob(1, 3));
    var files: map<string, Blob> := map["a" := Blob(0, 2)]["b" := Blob(1, 3)];
    assert "a"[0] != "b"[0];
    TotalSnoc([], a);
    TotalSnoc([a], b);
    assert [] + [a] == [a] && [a] + [b] == [a, b];
    assert Listed([a, b], files);
  }

  /** Whatever the load after these unreadable files leads to, the stored file stays as it is. */
  ghost predicate AlwaysKept(
      l: Limits, index: Index, files: map<string, Blob>, unreadable: set<string>, name: string)
    requires name in files
  {
    forall sources, faults: Faults, listing, index', files' ::
      && Collection(l, index, files, sources, faults, listing, index', files')
      && faults.unreadable == unreadable && (forall src :: src in sources ==> Unchanged(src))
      ==> name in files' && files'[name] == files[name]
  }

  /** The load knows of the file: the index lists it, or the rebuild could read it. */
  predicate Known(index: Index, unreadable: set<string>, name: string) {
    if index.Entries? then name in Names(index.records) else name !in unreadable
  }

  /**
   A stored file that a source can be named like is safe in every collection exactly
   when the load knows of it.
   */
  lemma FileKeptIff(
      l: Limits, index: Index, files: map<string, Blob>, unreadable: set<string>, name: string, relative: string)
    requires Good(l, index, files) && name in files && l.sanitize(relative) == name
    ensures AlwaysKept(l, index, files, unreadable, name) <==> Known(index, unreadable, name)
  {
    hide Good, Collection, Known;
    if Known(index, unreadable, name) {
      forall sources, faults: Faults, listing, index', files' |
        && Collection(l, index, files, sources, faults, listing, index', files')
        && faults.unreadable == unreadable && (forall src :: src in sources ==> Unchanged(src))
        ensures name in files' && files'[name] == files[name]
      {
        KnownFileKept(l, index, files, sources, faults, listing, index', files', name);
      }
    } else {
      UnknownFileLost(l, index, files, unreadable, name, relative);
    }
  }

  /**
   Whatever the sources do, a collection whose load knows of a file leaves it alone,
   and an index it leaves lists it.
   */
  lemma KnownFileKept(
      l: Limits, index: Index, files: map<string, Blob>, sources: seq<Source>, faults: Faults,
      listing: seq<Record>, index': Index, files': map<string, Blob>, name: string)
    requires Collection(l, index, files, sources, faults, listing, index', files')
    requires name in files && Known(index, faults.unreadable, name)
    ensures name in files' && files'[name] == files[name]
    ensures index'.Entries? ==> name in Names(index'.records)
  {
    hide TakeAll, Listed, TotalSize;
    if sources != [] {
      assert name in Names(listing);
      ListedFileKept(l, index, files, sources, faults, listing, index', files', name);
    }
  }

  lemma ListedFileKept(
      l: Limits, index: Index, files: map<string, Blob>, sources: seq<Source>, faults: Faults,
      listing: seq<Record>, index': Index, files': map<string, Blob>, name: string)
    requires Collection(l, index, files, sources, faults, listing, index', files')
    requires name in files && name in Names(listing)
    ensures name in files' && files'[name] == files[name]
    ensures index'.Entries? ==> name in Names(index'.records)
  {
    hide TakeAll, Listed, TotalSize;
    var start := Start(listing, files);
    CollectKeepsListed(l, start, sources);
    PrefixNames(listing, TakeAll(l, start, sources).records);
  }

  lemma PrefixNames(a: seq<Record>, b: seq<Record>)
    requires a <= b
    ensures Names(a) <= Names(b)
  {
    forall x | x in a ensures x in b {
      var i :| 0 <= i < |a| && a[i] == x;
      assert b[i] == x;
    }
  }

  /** An id no listed content has, and not this one either. */
  function NewId(rs: seq<Record>, not: nat): (id: nat)
    ensures id != not && forall r :: r in rs ==> r.sha.id < id
  {
    if |rs| == 0 then not + 1
    else
      var id, last := NewId(rs[..|rs| - 1], not), rs[|rs| - 1].sha.id;
      if last < id then id else last + not + 1
  }

  lemma UnknownFileLost(
      l: Limits, index: Index, files: map<string, Blob>, unreadable: set<string>, name: string, relative: string)
    requires Good(l, index, files) && name in files && l.sanitize(relative) == name
    requires !Known(index, unreadable, name)
    ensures !AlwaysKept(l, index, files, unreadable, name)
  {
    hide Sound, Listed, Take, Good;
    var listing;
    if index.Entries? {
      listing := index.records;
    } else {
      listing := ListingOf(files, files.Keys - unreadable);
    }
    var faults := Faults(unreadable, true, true);
    GoodListing(l, index, files, faults, listing);
    var b := Blob(NewId(listing, files[name].id), 0);
    var src := Source(relative, Some(0), Some(b), Some(b), true);
    OverwriteStored(l, listing, files, src, name);
    TakeOne(l, Start(listing, files), src);
    var end := TakeAll(l, Start(listing, files), [src]);
    assert Collection(l, index, files, [src], faults, listing, Entries(end.records), end.files);
    assert Unchanged(src);
  }

  lemma OverwriteStored(l: Limits, listing: seq<Record>, files: map<string, Blob>, src: Source, name: string)
    requires Sound(l, listing, files) && name !in Names(listing) && l.sanitize(src.relative) == name
    requires Steady(src) && src.statted.value == 0 && forall r :: r in listing ==> r.sha != src.hashed.value
    ensures var end := Take(l, Start(listing, files), src);
            !end.failed && end.collected != [] && end.files == files[name := src.copied.value]
  {
    hide TotalSize;
    assert src.hashed.value !in Hashes(listing);
  }

  /** One collection of a sequence: the index its load finds, and what it leaves. */
  datatype Pass = Pass(
    found: Index, sources: seq<Source>, faults: Faults, listing: seq<Record>, index: Index, files: map<string, Blob>)

  /** Between two collections the index may be lost or spoilt; the files stay. */
  ghost predicate Passes(l: Limits, index: Index, files: map<string, Blob>, passes: seq<Pass>)
    decreases |passes|
  {
    |passes| == 0 ||
    (var p := passes[0];
     && (p.found == index || !p.found.Entries?)
     && Collection(l, p.found, files, p.sources, p.faults, p.listing, p.index, p.files)
     && Passes(l, p.index, p.files, passes[1..]))
  }

  /**
   Every pass ended with an index, found every stored file readable, or stored nothing;
   and an index was lost only while it listed every stored file.
   */
  ghost predicate AllCovered(index: Index, files: map<string, Blob>, passes: seq<Pass>)
    decreases |passes|
  {
    |passes| == 0 ||
    (var p := passes[0];
     && (p.found == index || (index.Entries? ==> files.Keys == Names(index.records)))
     && Covered(files, p.faults, p.index, p.files)
     && (forall src :: src in p.sources ==> Unchanged(src))
     && AllCovered(p.index, p.files, passes[1..]))
  }

  ghost predicate KeepsListing(p: Pass) {
    forall r :: r in p.listing ==> r.name in p.files && p.files[r.name] == r.sha
  }

  /**
   Over any sequence of such collections with sources unchanged during each scan:
   listings stay sound, and no pass loses a file of its own listing.
   */
  lemma {:induction false} PassesKeepGood(l: Limits, index: Index, files: map<string, Blob>, passes: seq<Pass>)
    requires Good(l, index, files) && Passes(l, index, files, passes) && AllCovered(index, files, passes)
    ensures forall i :: 0 <= i < |passes| ==> Good(l, passes[i].index, passes[i].files) && KeepsListing(passes[i])
    decreases |passes|
  {
    hide Good, Collection, Unchanged, Names;
    if |passes| > 0 {
      var p := passes[0];
      FoundIsGood(l, index, files, p.found);
      CollectionKeepsGood(l, p.found, files, p.sources, p.faults, p.listing, p.index, p.files);
      PassesKeepGood(l, p.index, p.files, passes[1..]);
      forall i | 0 < i < |passes| ensures Good(l, passes[i].index, passes[i].files) && KeepsListing(passes[i]) {
        assert passes[i] == passes[1..][i - 1];
      }
    }
  }

  lemma FoundIsGood(l: Limits, index: Index, files: map<string, Blob>, found: Index)
    requires Good(l, index, files) && (found == index || !found.Entries?)
    requires found == index || (index.Entries? ==> files.Keys == Names(index.records))
    ensures Good(l, found, files)
  {
    hide Sound, Names, Listed;
    if found != index && index.Entries? {
      forall rs: seq<Record> | Listed(rs, files) ensures Sound(l, rs, files) {
        LostIndexIsHarmless(l, index.records, files, rs);
      }
    }
  }

  /** The loads of the passes after i, up to j, know of the file. */
  ghost predicate StaysKnown(passes: seq<Pass>, i: nat, j: nat, name: string)
    requires i <= j < |passes|
  {
    forall k :: i < k <= j ==>
      passes[k].sources == [] || passes[k].found.Entries? || name !in passes[k].faults.unreadable
  }

  /**
   Across passes, whatever the sources do: a file that one pass listed is unchanged after
   every later one, as long as each load in between had an index or could read the file.
   */
  lemma {:induction false} ListedStays(
      l: Limits, index: Index, files: map<string, Blob>, passes: seq<Pass>, i: nat, j: nat, name: string)
    requires Passes(l, index, files, passes) && i <= j < |passes| && StaysKnown(passes, i, j, name)
    requires name in FilesBefore(files, passes, i) && name in Names(passes[i].listing)
    ensures name in passes[j].files && passes[j].files[name] == FilesBefore(files, passes, i)[name]
    ensures passes[j].index.Entries? ==> name in Names(passes[j].index.records)
    decreases j
  {
    hide Collection, Names, Passes;
    PassAt(l, index, files, passes, j);
    var p, before := passes[j], FilesBefore(files, passes, j);
    if i == j {
      ListedFileKept(l, p.found, before, p.sources, p.faults, p.listing, p.index, p.files, name);
    } else {
      ListedStays(l, index, files, passes, i, j - 1, name);
      if p.sources == [] {
        NothingToCollect(l, p.found, before, p.faults, p.listing, p.index, p.files);
      } else {
        KnownFileKept(l, p.found, before, p.sources, p.faults, p.listing, p.index, p.files, name);
      }
    }
  }

  function FilesBefore(files: map<string, Blob>, passes: seq<Pass>, i: nat): map<string, Blob>
    requires i <= |passes|
  {
    if i == 0 then files else passes[i - 1].files
  }

  function IndexBefore(index: Index, passes: seq<Pass>, i: nat): Index
    requires i <= |passes|
  {
    if i == 0 then index else passes[i - 1].index
  }

  lemma {:induction false} PassAt(l: Limits, index: Index, files: map<string, Blob>, passes: seq<Pass>, i: nat)
    requires Passes(l, index, files, passes) && i < |passes|
    ensures var p := passes[i];
            && (p.found == IndexBefore(index, passes, i) || !p.found.Entries?)
            && Collection(l, p.found, FilesBefore(files, passes, i), p.sources, p.faults, p.listing, p.index, p.files)
    decreases i
  {
    hide Collection;
    if i > 0 {
      PassAt(l, passes[0].index, passes[0].files, passes[1..], i - 1);
    }
  }

  lemma NothingToCollect(
      l: Limits, index: Index, files: map<string, Blob>, faults: Faults,
      listing: seq<Record>, index': Index, files': map<string, Blob>)
    requires Collection(l, index, files, [], faults, listing, index', files')
    ensures listing == [] && index' == index && files' == files
  {
  }

  /**
   Without it the promise fails: a first pass lists "a" and writes no index, the second
   cannot read "a" and stores another content under its name.
   */
  lemma ListedFileOverwritten(l: Limits)
    requires l.file >= 1 && l.ticket >= 1 && l.sanitize("a") == "a"
    ensures var files: map<string, Blob> := map["a" := Blob(0, 1)];
            var gone := Source("a", None, None, None, true);
            var other := Source("a", Some(1), Some(Blob(7, 1)), Some(Blob(7, 1)), true);
            var r, s := Record("a", 1, Blob(0, 1)), Record("a", 1, Blob(7, 1));
            var first := Pass(Missing, [gone], Faults({}, true, true), [r], Missing, files);
            var second := Pass(Missing, [other], Faults({"a"}, true, true), [], Entries([s]), map["a" := Blob(7, 1)]);
            && Good(l, Missing, files) && Passes(l, Missing, files, [first, second])
            && AllCovered(Missing, files, [first, second])
            && r in first.listing && first.files["a"] == r.sha && second.files["a"] != r.sha
  {
    hide Take, Names, Listed, TotalSize, Sound, Collection;
    var files: map<string, Blob> := map["a" := Blob(0, 1)];
    var gone := Source("a", None, None, None, true);
    var other := Source("a", Some(1), Some(Blob(7, 1)), Some(Blob(7, 1)), true);
    var r, s := Record("a", 1, Blob(0, 1)), Record("a", 1, Blob(7, 1));
    var first := Pass(Missing, [gone], Faults({}, true, true), [r], Missing, files);
    var second := Pass(Missing, [other], Faults({"a"}, true, true), [], Entries([s]), map["a" := Blob(7, 1)]);
    OneFileGood(l, r);
    FirstPass(l, r, gone);
    SecondPass(l, files, other, s);
    assert files["a" := Blob(7, 1)] == second.files;
    var passes := [first, second];
    assert passes[1..] == [second] && [second][1..] == [];
    assert Passes(l, Entries([s]), second.files, []);
    assert Passes(l, Missing, files, [second]);
    assert AllCovered(Entries([s]), second.files, []);
    assert AllCovered(Missing, files, [second]);
  }

  lemma OneFileGood(l: Limits, r: Record)
    requires r.size == r.sha.size <= l.file && r.size <= l.ticket
    ensures Good(l, Missing, map[r.name := r.sha])
  {
    forall rs: seq<Record> | Listed(rs, map[r.name := r.sha]) ensures Sound(l, rs, map[r.name := r.sha]) {
      AtMostOne(rs, r);
      if |rs| == 1 {
        TotalSnoc([], rs[0]);
        assert rs == [] + [rs[0]];
      }
    }
  }

  lemma AtMostOne(rs: seq<Record>, r: Record)
    requires Listed(rs, map[r.name := r.sha])
    ensures |rs| <= 1
  {
    FirstTwo(rs, map[r.name := r.sha]);
  }

  lemma FirstTwo(rs: seq<Record>, files: map<string, Blob>)
    requires Listed(rs, files)
    ensures |rs| >= 2 ==> rs[0].name != rs[1].name && rs[0].name in files && rs[1].name in files
  {
  }

  lemma FirstPass(l: Limits, r: Record, gone: Source)
    requires gone.statted.None? && r.size == r.sha.size
    ensures var files := map[r.name := r.sha];
            Collection(l, Missing, files, [gone], Faults({}, true, true), [r], Missing, files)
  {
    var files := map[r.name := r.sha];
    TakeOne(l, Start([r], files), gone);
    assert Names([r]) == {r.name} == files.Keys - {};
  }

  lemma SecondPass(l: Limits, files: map<string, Blob>, src: Source, s: Record)
    requires files.Keys == {s.name} && l.sanitize(src.relative) == s.name && Steady(src)
    requires s.sha == src.hashed.value && s.size == s.sha.size <= l.file && s.size <= l.ticket
    ensures Collection(l, Missing, files, [src], Faults({s.name}, true, true), [], Entries([s]), files[s.name := s.sha])
  {
    TakeOne(l, Start([], files), src);
    EmptyListing(files);
    assert files.Keys - {s.name} == {};
    assert Hashes([]) == {} && Names([]) == {};
    assert [] + [s] == [s];
  }
}
