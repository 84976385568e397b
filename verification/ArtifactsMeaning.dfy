/**
 What becomes of each file a collection looks at (src/symphony/artifacts.py),
 stated on the file and on the listing before it, apart from the loop's order of
 tests: which are collected and under which name, and why the others are not.
 */
module ArtifactsMeaning {
  import opened Prelude
  import opened Artifacts

  // ---------------------------------------------------------------------
  // The free name
  // ---------------------------------------------------------------------

  function NumberOf(s: string): int {
    if |s| == 0 then 0 else 10 * NumberOf(s[..|s| - 1]) + (s[|s| - 1] as int - '0' as int)
  }

  predicate IsDigit(c: char) { '0' <= c <= '9' }

  /** A number in decimal, with no zero in front. */
  predicate Decimal(s: string, n: nat) {
    && NumberOf(s) == n && |s| >= 1
    && (forall i :: 0 <= i < |s| ==> IsDigit(s[i]))
    && (s[0] == '0' ==> n == 0)
  }

  lemma {:induction false} DigitsSpell(n: nat)
    ensures Decimal(Digits(n), n)
  {
    if n < 10 {
      assert Digits(n)[..0] == [];
      assert NumberOf([]) == 0;
    } else {
      DigitsSpell(n / 10);
      assert Digits(n)[..|Digits(n)| - 1] == Digits(n / 10);
    }
  }

  predicate HasDot(s: string) { '.' in s }

  lemma {:induction false} LastDotIs(s: string)
    ensures LastDot(s).None? <==> !HasDot(s)
    ensures LastDot(s).Some? ==> s[LastDot(s).value] == '.' && !HasDot(s[LastDot(s).value + 1..])
  {
    if s != "" && s[|s| - 1] != '.' {
      var init := s[..|s| - 1];
      LastDotIs(init);
      assert s == init + [s[|s| - 1]];
      if LastDot(init).Some? {
        var at := LastDot(init).value;
        assert s[at + 1..] == init[at + 1..] + [s[|s| - 1]];
      }
    }
  }

  /** `base` and `ext` are the two parts of a name: the suffix starts at the last dot. */
  predicate Parts(name: string, base: string, ext: string) {
    && name == base + ext
    && (ext == "" ==> !HasDot(name))
    && (ext != "" ==> ext[0] == '.' && !HasDot(ext[1..]))
  }

  /** A variant puts a dash and a plain decimal number before the suffix. */
  lemma VariantIs(name: string, k: nat, base: string, ext: string)
    requires Parts(name, base, ext)
    ensures exists number :: Decimal(number, k) && Candidate(name, k) == base + "-" + number + ext
  {
    hide Digits, LastDot, Decimal;
    DigitsSpell(k);
    LastDotIs(name);
    if ext == "" {
      assert name == base;
    } else {
      PartsAreUnique(name, base, ext);
    }
    assert Candidate(name, k) == base + "-" + Digits(k) + ext;
  }

  lemma DotAt(s: string, i: nat)
    requires i < |s| && s[i] == '.'
    ensures HasDot(s)
  {
  }

  lemma PartsAreUnique(name: string, base: string, ext: string)
    requires Parts(name, base, ext) && ext != ""
    ensures LastDot(name) == Some(|base|)
    ensures name[..|base|] == base && name[|base|..] == ext
  {
    hide LastDot, HasDot;
    LastDotIs(name);
    DotAt(name, |base|);
    var at := LastDot(name).value;
    if at < |base| {
      DotAt(name[at + 1..], |base| - at - 1);
    } else if at > |base| {
      DotAt(ext[1..], at - |base| - 1);
    }
  }

  lemma VariantsDiffer(name: string, j: nat, k: nat)
    requires Candidate(name, j) == Candidate(name, k)
    ensures j == k
  {
    hide Digits, LastDot, NumberOf;
    DigitsSpell(j);
    DigitsSpell(k);
    var dot := LastDot(name);
    var (base, ext) := if dot.Some? then (name[..dot.value], name[dot.value..]) else (name, "");
    var a, b := Candidate(name, j), Candidate(name, k);
    assert |Digits(j)| == |Digits(k)|;
    assert Digits(j) == a[|base| + 1..|a| - |ext|] && Digits(k) == b[|base| + 1..|b| - |ext|];
  }

  predicate Used(name: string, taken: set<string>, low: nat, high: nat) {
    forall k :: low <= k < high ==> Candidate(name, k) in taken
  }

  predicate FirstUnused(name: string, taken: set<string>, k: nat) {
    2 <= k < 1000 && Candidate(name, k) !in taken && Used(name, taken, 2, k)
  }

  lemma {:induction false} FreeFromIs(name: string, taken: set<string>, from: nat)
    requires 2 <= from <= 1000 && Used(name, taken, 2, from)
    ensures FreeFrom(name, taken, from).None? <==> Used(name, taken, 2, 1000)
    ensures FreeFrom(name, taken, from).Some? ==>
              exists k :: FirstUnused(name, taken, k) && FreeFrom(name, taken, from).value == Candidate(name, k)
    decreases 1000 - from
  {
    hide Candidate;
    if from < 1000 {
      if Candidate(name, from) in taken {
        FreeFromIs(name, taken, from + 1);
      } else {
        assert FirstUnused(name, taken, from);
      }
    }
  }

  lemma OneIsFirst(name: string, taken: set<string>, j: nat, k: nat)
    requires FirstUnused(name, taken, j) && FirstUnused(name, taken, k)
    ensures j == k
  {
    hide Candidate, Used;
    if j < k {
      UsedAt(name, taken, k, j);
    } else if k < j {
      UsedAt(name, taken, j, k);
    }
  }

  lemma UsedAt(name: string, taken: set<string>, high: nat, k: nat)
    requires Used(name, taken, 2, high) && 2 <= k < high
    ensures Candidate(name, k) in taken
  {
    hide Candidate;
  }

  /**
   The name used is the wanted one if it is free, and else its variant with the
   lowest unused number from 2; no name is left exactly when all up to 999 are used.
   */
  lemma UniqueNameIff(name: string, taken: set<string>, r: string)
    ensures UniqueName(name, taken) == Some(r)
       <==> if name !in taken then r == name
            else exists k :: FirstUnused(name, taken, k) && r == Candidate(name, k)
    ensures UniqueName(name, taken) == None <==> name in taken && Used(name, taken, 2, 1000)
  {
    hide Candidate, FreeFrom;
    FreeFromIs(name, taken, 2);
    forall j, k | FirstUnused(name, taken, j) && FirstUnused(name, taken, k) ensures j == k {
      OneIsFirst(name, taken, j, k);
    }
  }

  // ---------------------------------------------------------------------
  // One file
  // ---------------------------------------------------------------------

  /** A size the cap and what is left of the quota allow. */
  predicate Fits(l: Limits, s: Progress, size: nat) {
    size <= l.file && s.total + size <= l.ticket
  }

  predicate KnownContent(rs: seq<Record>, content: Blob) {
    exists r :: r in rs && r.sha == content
  }

  predicate NameLeft(l: Limits, s: Progress, src: Source) {
    var wanted := l.sanitize(src.relative);
    wanted !in Names(s.records) || !Used(wanted, Names(s.records), 2, 1000)
  }

  /** Measured, within the limits, readable, and of a content not listed yet. */
  predicate Wanted(l: Limits, s: Progress, src: Source) {
    && src.statted.Some? && Fits(l, s, src.statted.value)
    && src.hashed.Some? && !KnownContent(s.records, src.hashed.value)
  }

  predicate Cause(l: Limits, s: Progress, src: Source, why: Reason) {
    match why
    case Unreadable => src.statted.None? || (Fits(l, s, src.statted.value) && src.hashed.None?)
    case TooLarge => src.statted.Some? && src.statted.value > l.file
    case QuotaExceeded => src.statted.Some? && src.statted.value <= l.file && l.ticket < s.total + src.statted.value
    case Duplicate =>
      && src.statted.Some? && Fits(l, s, src.statted.value)
      && src.hashed.Some? && KnownContent(s.records, src.hashed.value)
    case CopyFailed => Wanted(l, s, src) && NameLeft(l, s, src) && src.copied.None?
    case GrewPastCap =>
      Wanted(l, s, src) && NameLeft(l, s, src) && src.copied.Some? && !Fits(l, s, src.copied.value.size)
  }

  predicate Collectable(l: Limits, s: Progress, src: Source) {
    Wanted(l, s, src) && NameLeft(l, s, src) && src.copied.Some? && Fits(l, s, src.copied.value.size)
  }

  lemma KnownIsHashed(rs: seq<Record>, content: Blob)
    ensures KnownContent(rs, content) <==> content in Hashes(rs)
  {
  }

  lemma NameLeftIs(l: Limits, s: Progress, src: Source)
    ensures NameLeft(l, s, src) <==> UniqueName(l.sanitize(src.relative), Names(s.records)).Some?
  {
    hide UniqueName, Used;
    UniqueNameIff(l.sanitize(src.relative), Names(s.records), "");
  }

  /**
   What the loop does with one file, for every file and every listing so far: it
   reports a reason exactly when that reason is the case, collects exactly when
   none is, and raises exactly when a file to be collected finds every name used.
   */
  lemma TakeIff(l: Limits, s: Progress, src: Source, why: Reason)
    requires !s.failed
    ensures var next := Take(l, s, src);
            && (next.skipped == s.skipped + [(src.relative, why)] <==> Cause(l, s, src, why))
            && (next.collected != s.collected <==> Collectable(l, s, src))
            && (next.failed <==> Wanted(l, s, src) && !NameLeft(l, s, src))
  {
    hide UniqueName, NameLeft, KnownContent, Hashes, Names;
    NameLeftIs(l, s, src);
    if src.hashed.Some? {
      KnownIsHashed(s.records, src.hashed.value);
    }
    var next := Take(l, s, src);
    if next.skipped != s.skipped {
      assert next.skipped[|s.skipped|].0 == src.relative;
    }
  }

  /** What is added for a file that is collected, and what is left of one that grew too far. */
  lemma TakeAdds(l: Limits, s: Progress, src: Source)
    requires !s.failed
    ensures var next, name := Take(l, s, src), UniqueName(l.sanitize(src.relative), Names(s.records));
            && (Collectable(l, s, src) ==>
                  && name.Some?
                  && next.collected == s.collected + [Record(name.value, src.statted.value, src.hashed.value)]
                  && next.records == s.records + [Record(name.value, src.statted.value, src.hashed.value)]
                  && next.files == s.files[name.value := src.copied.value]
                  && next.total == s.total + src.copied.value.size)
            && (!Collectable(l, s, src) ==>
                  next.records == s.records && next.collected == s.collected && next.total == s.total)
            && (Cause(l, s, src, GrewPastCap) ==>
                  && name.Some?
                  && next.files == if src.discards then s.files - {name.value}
                                   else s.files[name.value := src.copied.value])
            && (!Collectable(l, s, src) && !Cause(l, s, src, GrewPastCap) ==> next.files == s.files)
  {
    hide UniqueName, NameLeft, KnownContent, Hashes, Names;
    NameLeftIs(l, s, src);
    if src.hashed.Some? {
      KnownIsHashed(s.records, src.hashed.value);
    }
    if Cause(l, s, src, GrewPastCap) {
      var name := UniqueName(l.sanitize(src.relative), Names(s.records)).value;
      assert s.files[name := src.copied.value] - {name} == s.files - {name};
    }
  }

  // ---------------------------------------------------------------------
  // One pass
  // ---------------------------------------------------------------------

  /** The listing and the reports before the i-th file. */
  function Before(l: Limits, s: Progress, sources: seq<Source>, i: nat): Progress
    requires i <= |sources|
  {
    TakeAll(l, s, sources[..i])
  }

  /** Which files of the pass were collected, in order. */
  function CollectedOf(l: Limits, s: Progress, sources: seq<Source>): seq<Source> {
    if |sources| == 0 then []
    else
      var n := |sources| - 1;
      var takes := Collectable(l, Before(l, s, sources, n), sources[n]);
      CollectedOf(l, s, sources[..n]) + if takes then [sources[n]] else []
  }

  lemma OneMore(l: Limits, s: Progress, sources: seq<Source>)
    requires |sources| > 0
    ensures var n := |sources| - 1;
            TakeAll(l, s, sources) == Take(l, TakeAll(l, s, sources[..n]), sources[n])
            && Before(l, s, sources, n) == TakeAll(l, s, sources[..n])
  {
  }

  /**
   A pass that ends accounts for every file once, collected or skipped with its
   cause; what it collected carries the size and content first read, in order,
   after everything listed before.
   */
  lemma {:induction false} PassAccounts(l: Limits, s: Progress, sources: seq<Source>)
    requires !TakeAll(l, s, sources).failed
    ensures var end, took := TakeAll(l, s, sources), CollectedOf(l, s, sources);
            && |end.collected| - |s.collected| + |end.skipped| - |s.skipped| == |sources|
            && |end.collected| - |s.collected| == |took|
            && s.collected <= end.collected && s.skipped <= end.skipped
            && end.records == s.records + end.collected[|s.collected|..]
            && (forall i {:trigger took[i]} :: 0 <= i < |took| ==>
                  && took[i].statted == Some(end.collected[|s.collected| + i].size)
                  && took[i].hashed == Some(end.collected[|s.collected| + i].sha))
  {
    hide Take, TakeAll, Collectable, Before, Cause;
    if |sources| == 0 {
      NoSources(l, s);
      assert s.collected[|s.collected|..] == [];
      assert s.records + [] == s.records;
    } else {
      var n := |sources| - 1;
      OneMore(l, s, sources);
      var before := TakeAll(l, s, sources[..n]);
      FailedStays(l, before, sources[n]);
      PassAccounts(l, s, sources[..n]);
      TakeReportsOnce(l, before, sources[n]);
      var end := TakeAll(l, s, sources);
      if Collectable(l, before, sources[n]) {
        var added := end.collected[|before.collected|..];
        assert end.collected == before.collected + added;
        assert end.collected[|s.collected|..] == before.collected[|s.collected|..] + added;
      }
    }
  }

  lemma NoSources(l: Limits, s: Progress)
    ensures TakeAll(l, s, []) == s && CollectedOf(l, s, []) == []
  {
  }

  lemma TakeReportsOnce(l: Limits, s: Progress, src: Source)
    requires !s.failed && !Take(l, s, src).failed
    ensures var next := Take(l, s, src);
            if Collectable(l, s, src) then
              && src.statted.Some? && src.hashed.Some? && next.skipped == s.skipped
              && (exists r :: next.collected == s.collected + [r] && next.records == s.records + [r]
                              && src.statted == Some(r.size) && src.hashed == Some(r.sha))
            else
              && next.collected == s.collected && next.records == s.records
              && (exists why :: next.skipped == s.skipped + [(src.relative, why)] && Cause(l, s, src, why))
  {
    hide Take, UniqueName, NameLeft, KnownContent, Hashes, Names;
    TakeIff(l, s, src, Unreadable);
    TakeIff(l, s, src, TooLarge);
    TakeIff(l, s, src, QuotaExceeded);
    TakeIff(l, s, src, Duplicate);
    TakeIff(l, s, src, GrewPastCap);
    TakeIff(l, s, src, CopyFailed);
    TakeAdds(l, s, src);
    if Collectable(l, s, src) {
      SkipsNothing(l, s, src);
    }
  }

  lemma SkipsNothing(l: Limits, s: Progress, src: Source)
    requires !s.failed && Collectable(l, s, src)
    ensures Take(l, s, src).skipped == s.skipped
  {
    hide UniqueName, NameLeft, KnownContent, Hashes, Names;
    NameLeftIs(l, s, src);
    KnownIsHashed(s.records, src.hashed.value);
  }
}
