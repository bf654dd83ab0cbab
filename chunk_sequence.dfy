/** Chunk ordering and the continuity check of the Electron main process
    (src-electron/electron-main.js, sortChunksNumerically and
    validateChunkSequence). A chunk file is named `chunk_<index><ext>`; its
    number is parseInt of the name with the first `chunk_` and the first
    extension removed. */
module ChunkSequence {
  import opened Wrappers
  import opened Text

  /** The name under which a desktop chunk is saved. */
  function ChunkFileName(index: nat, ext: string): string
  {
    "chunk_" + NatToString(index) + ext
  }

  /** The number sortChunksNumerically reads from a name; None is NaN. */
  function ChunkKey(name: string, ext: string): Option<int>
  {
    ParseInt(ReplaceFirst(ReplaceFirst(name, "chunk_", ""), ext, ""))
  }

  /** Removing the first `chunk_` from a name that starts with it. */
  lemma DropPrefix(t: string)
    ensures ReplaceFirst("chunk_" + t, "chunk_", "") == t
  {
    var name := "chunk_" + t;
    assert OccursAt(name, "chunk_", 0);
    assert name[6..] == t;
  }

  /** Removing the first extension from digits followed by an extension
      that starts with a dot. */
  lemma DropExtension(d: string, ext: string)
    requires forall i :: 0 <= i < |d| ==> IsDecimalDigit(d[i])
    requires ext != [] && ext[0] == '.'
    ensures ReplaceFirst(d + ext, ext, "") == d
  {
    var t := d + ext;
    assert t[|d|..|d| + |ext|] == ext;
    assert OccursAt(t, ext, |d|);
    forall j | 0 <= j < |d| ensures !OccursAt(t, ext, j) {
      assert t[j..j + |ext|][0] == d[j] != ext[0];
    }
    assert IndexOfFrom(t, ext, 0) == Some(|d|);
    assert t[..|d|] == d;
  }

  /** A saved name reads back as its index, for an extension that starts
      with a dot, as every validated extension does. */
  lemma ChunkKeyOfName(index: nat, ext: string)
    requires ext != [] && ext[0] == '.'
    ensures ChunkKey(ChunkFileName(index, ext), ext) == Some(index)
  {
    var d := NatToString(index);
    assert ChunkFileName(index, ext) == "chunk_" + (d + ext);
    DropPrefix(d + ext);
    DropExtension(d, ext);
    ParseIntOfDecimal(index, []);
    assert d + [] == d;
  }

  /** The order the comparator `numA - numB` gives: by number, and in this
      model the names without a number (NaN) last. */
  predicate KeyLe(a: Option<int>, b: Option<int>)
  {
    match a
    case None => b.None?
    case Some(x) => b.None? || x <= b.value
  }

  /** A name with the number the comparator reads from it. */
  datatype Entry = Entry(key: Option<int>, name: string)

  predicate Sorted(entries: seq<Entry>)
  {
    forall i, j :: 0 <= i < j < |entries| ==> KeyLe(entries[i].key, entries[j].key)
  }

  /** `e` placed after every entry whose number is not greater. */
  function Insert(e: Entry, sorted: seq<Entry>): (r: seq<Entry>)
    ensures |r| == |sorted| + 1 && multiset(r) == multiset(sorted) + multiset{e}
  {
    if sorted == [] then [e]
    else if !KeyLe(sorted[0].key, e.key) then [e] + sorted
    else
      assert sorted == [sorted[0]] + sorted[1..];
      [sorted[0]] + Insert(e, sorted[1..])
  }

  lemma {:induction false} InsertSorted(e: Entry, sorted: seq<Entry>)
    requires Sorted(sorted)
    ensures Sorted(Insert(e, sorted))
  {
    if sorted != [] && KeyLe(sorted[0].key, e.key) {
      InsertSorted(e, sorted[1..]);
      var r := Insert(e, sorted);
      forall j | 1 <= j < |r| ensures KeyLe(r[0].key, r[j].key) {
        assert r[j] in multiset(sorted[1..]) + multiset{e};
        if r[j] != e {
          assert r[j] in sorted[1..];
        }
      }
    }
  }

  /** The stable library sort with the numeric comparator (an insertion
      sort). */
  function SortEntries(entries: seq<Entry>): (r: seq<Entry>)
    ensures |r| == |entries| && multiset(r) == multiset(entries)
  {
    if entries == [] then []
    else
      assert entries == entries[..|entries| - 1] + [entries[|entries| - 1]];
      Insert(entries[|entries| - 1], SortEntries(entries[..|entries| - 1]))
  }

  /** The sort orders the entries and keeps each of them. */
  lemma {:induction false} SortEntriesSorted(entries: seq<Entry>)
    ensures Sorted(SortEntries(entries))
  {
    if entries != [] {
      SortEntriesSorted(entries[..|entries| - 1]);
      InsertSorted(entries[|entries| - 1], SortEntries(entries[..|entries| - 1]));
    }
  }

  /** The number the comparator reads from a name, as a function value. */
  function KeyReader(ext: string): string -> Option<int>
  {
    name => ChunkKey(name, ext)
  }

  lemma ReadKey(name: string, ext: string)
    ensures KeyReader(ext)(name) == ChunkKey(name, ext)
  {
  }

  /** Every entry carries the number `key` reads from its name. */
  predicate KeyedBy(entries: seq<Entry>, key: string -> Option<int>)
  {
    forall e :: e in entries ==> e.key == key(e.name)
  }

  /** Sorting keeps each entry with its own number. */
  lemma SortKeepsKeys(entries: seq<Entry>, key: string -> Option<int>)
    requires KeyedBy(entries, key)
    ensures KeyedBy(SortEntries(entries), key)
  {
    var r := SortEntries(entries);
    forall e | e in r ensures e.key == key(e.name) {
      assert e in multiset(r);
    }
  }

  function Tag(names: seq<string>, ext: string): (r: seq<Entry>)
    ensures |r| == |names|
  {
    seq(|names|, i requires 0 <= i < |names| => Entry(KeyReader(ext)(names[i]), names[i]))
  }

  function SortedEntries(names: seq<string>, ext: string): (r: seq<Entry>)
    ensures |r| == |names|
  {
    SortEntries(Tag(names, ext))
  }

  function NamesOf(entries: seq<Entry>): (r: seq<string>)
    ensures |r| == |entries| && forall i :: 0 <= i < |r| ==> r[i] == entries[i].name
  {
    if entries == [] then [] else [entries[0].name] + NamesOf(entries[1..])
  }

  lemma NamesOfSnoc(init: seq<Entry>, last: Entry)
    ensures NamesOf(init + [last]) == NamesOf(init) + [last.name]
  {
  }

  lemma {:induction false} InsertNames(e: Entry, sorted: seq<Entry>)
    ensures multiset(NamesOf(Insert(e, sorted))) == multiset(NamesOf(sorted)) + multiset{e.name}
  {
    if sorted == [] {
    } else if !KeyLe(sorted[0].key, e.key) {
      assert NamesOf([e] + sorted) == [e.name] + NamesOf(sorted);
    } else {
      var tail := Insert(e, sorted[1..]);
      InsertNames(e, sorted[1..]);
      assert NamesOf([sorted[0]] + tail) == [sorted[0].name] + NamesOf(tail);
      assert NamesOf(sorted) == [sorted[0].name] + NamesOf(sorted[1..]);
    }
  }

  lemma {:induction false} SortNames(entries: seq<Entry>)
    ensures multiset(NamesOf(SortEntries(entries))) == multiset(NamesOf(entries))
  {
    if entries != [] {
      var init, last := entries[..|entries| - 1], entries[|entries| - 1];
      var sortedInit := SortEntries(init);
      calc {
        multiset(NamesOf(SortEntries(entries)));
        multiset(NamesOf(Insert(last, sortedInit)));
        { InsertNames(last, sortedInit); }
        multiset(NamesOf(sortedInit)) + multiset{last.name};
        { SortNames(init); }
        multiset(NamesOf(init)) + multiset{last.name};
        multiset(NamesOf(init) + [last.name]);
        { NamesOfSnoc(init, last); }
        multiset(NamesOf(init + [last]));
        { assert init + [last] == entries; }
        multiset(NamesOf(entries));
      }
    }
  }

  /** sortChunksNumerically. */
  function SortChunks(names: seq<string>, ext: string): (r: seq<string>)
    ensures |r| == |names|
  {
    NamesOf(SortedEntries(names, ext))
  }

  /** The numbers validateChunkSequence reads from the sorted names. */
  function SortedKeys(names: seq<string>, ext: string): (r: seq<Option<int>>)
    ensures |r| == |names|
  {
    KeysOf(SortChunks(names, ext), KeyReader(ext))
  }

  /** The numbers `key` reads from the names, position by position. */
  function KeysOf(names: seq<string>, key: string -> Option<int>): (r: seq<Option<int>>)
    ensures |r| == |names|
  {
    seq(|names|, i requires 0 <= i < |names| => key(names[i]))
  }

  /** The sorted names are the given names, reordered. */
  lemma SortChunksPermutes(names: seq<string>, ext: string)
    ensures multiset(SortChunks(names, ext)) == multiset(names)
  {
    var tagged := Tag(names, ext);
    SortNames(tagged);
    assert NamesOf(tagged) == names;
  }

  /** The sorted names are in non-decreasing order of their numbers (names
      without a number last). */
  lemma SortChunksOrdered(names: seq<string>, ext: string)
    ensures forall i, j :: 0 <= i < j < |names| ==> KeyLe(SortedKeys(names, ext)[i], SortedKeys(names, ext)[j])
  {
    var tagged := Tag(names, ext);
    var sorted := SortedEntries(names, ext);
    var keys := SortedKeys(names, ext);
    SortEntriesSorted(tagged);
    SortKeepsKeys(tagged, KeyReader(ext));
    forall i | 0 <= i < |names| ensures keys[i] == sorted[i].key {
      assert sorted[i] in sorted;
      ReadKey(sorted[i].name, ext);
    }
  }

  /** [lo, hi) in increasing order. */
  function Range(lo: nat, hi: nat): (r: seq<nat>)
    ensures |r| == if hi <= lo then 0 else hi - lo
    ensures forall k :: 0 <= k < |r| ==> r[k] == lo + k
  {
    if hi <= lo then [] else seq(hi - lo, k requires 0 <= k < hi - lo => lo + k)
  }

  /** One more index at the top of a range. */
  lemma RangeStep(lo: nat, hi: nat)
    requires lo <= hi
    ensures Range(lo, hi + 1) == Range(lo, hi) + [hi]
  {
  }

  /** What the inner loop adds at position i: i up to the key found there. */
  function Span(i: nat, key: Option<int>): seq<nat>
  {
    if key.Some? && key.value > i then Range(i, key.value) else []
  }

  /** validateChunkSequence's missingChunks after the first `n` positions. */
  function GapsUpTo(keys: seq<Option<int>>, n: nat): seq<nat>
    requires n <= |keys|
  {
    if n == 0 then [] else GapsUpTo(keys, n - 1) + Span(n - 1, keys[n - 1])
  }

  /** One more position adds that position's span. */
  lemma GapsStep(keys: seq<Option<int>>, i: nat)
    requires i < |keys|
    ensures GapsUpTo(keys, i + 1) == GapsUpTo(keys, i) + Span(i, keys[i])
  {
  }

  datatype SequenceReport = SequenceReport(valid: bool, missingChunks: seq<nat>, message: string)

  /** The warning for a non-empty list: the first five indices, then `...`
      when there are more. */
  function MissingMessage(missing: seq<nat>): string
  {
    if missing == [] then ""
    else
      var shown := missing[..if |missing| < 5 then |missing| else 5];
      "Warning: Missing chunks detected (indices: "
        + Join(seq(|shown|, k requires 0 <= k < |shown| => NatToString(shown[k])), ", ")
        + (if |missing| > 5 then "..." else "") + "). Audio may have gaps."
  }

  /** The inner loop: when the number read at position `i` is another
      one, every index from `i` up to that number is pushed. */
  method PushGap(missing: seq<nat>, i: nat, actualIndex: Option<int>) returns (r: seq<nat>)
    ensures r == missing + Span(i, actualIndex)
  {
    r := missing;
    if actualIndex != Some(i) && actualIndex.Some? {
      var m: nat := i;
      while m < actualIndex.value
        invariant i <= m && (m <= actualIndex.value || m == i)
        invariant r == missing + Range(i, m)
      {
        r := r + [m];
        RangeStep(i, m);
        m := m + 1;
      }
    }
  }

  /** The outer loop of validateChunkSequence over the numbers read from
      the sorted names: at each position, the gap up to the number there. */
  method CollectGaps(keys: seq<Option<int>>) returns (missing: seq<nat>)
    ensures missing == GapsUpTo(keys, |keys|)
  {
    missing := [];
    var i: nat := 0;
    while i < |keys|
      invariant i <= |keys| && missing == GapsUpTo(keys, i)
    {
      var actualIndex := keys[i];
      missing := PushGap(missing, i, actualIndex);
      GapsStep(keys, i);
      i := i + 1;
    }
  }

  /** validateChunkSequence as written. */
  method ValidateChunkSequence(chunks: seq<string>, ext: string) returns (report: SequenceReport)
    ensures report.missingChunks == GapsUpTo(SortedKeys(chunks, ext), |chunks|)
    ensures report.valid <==> report.missingChunks == []
    ensures report.message == MissingMessage(report.missingChunks)
  {
    var sorted := SortChunks(chunks, ext);
    // parseInt of each sorted name; reading them before the loop gives the
    // same numbers, since the reading has no effect.
    var keys := KeysOf(sorted, KeyReader(ext));
    var missing := CollectGaps(keys);
    report := SequenceReport(|missing| == 0, missing, MissingMessage(missing));
  }

  /** validateChunkSequence as written lists an index that is present: for indices 0, 2
      and 3 it reports 1 and 2 missing. */
  lemma ListsPresentIndex()
    ensures GapsUpTo([Some(0), Some(2), Some(3)], 3) == [1, 2]
  {
    assert Span(1, Some(2)) == [1];
    assert Span(2, Some(3)) == [2];
  }

  /** ... and it accepts a repeated index: indices 0 and 0 pass as valid. */
  lemma AcceptsRepeatedIndex()
    ensures GapsUpTo([Some(0), Some(0)], 2) == []
  {
  }

  /** No position below `n` holds a number above it. */
  predicate NoneAbove(keys: seq<Option<int>>, n: nat)
    requires n <= |keys|
  {
    forall i :: 0 <= i < n ==> NotAbove(keys[i], i)
  }

  /** The number at position i, if any, is not above i. */
  predicate NotAbove(key: Option<int>, i: nat)
  {
    key.None? || key.value <= i
  }

  /** Exactly what validateChunkSequence as written accepts: no position holds a
      number above it. Repeats and numbers below their position pass. */
  lemma GapsEmptyIff(keys: seq<Option<int>>, n: nat)
    requires n <= |keys|
    ensures GapsUpTo(keys, n) == [] <==>
      forall i :: 0 <= i < n ==> keys[i].None? || keys[i].value <= i
  {
    if GapsUpTo(keys, n) == [] {
      forall i | 0 <= i < n ensures NotAbove(keys[i], i) {
        SpanWithin(keys, n, i);
        SpanEmptyIff(i, keys[i]);
      }
    }
    if NoneAbove(keys, n) {
      NoneAboveNoGaps(keys, n);
    }
  }

  /** Each position's span is part of the list. */
  lemma {:induction false} SpanWithin(keys: seq<Option<int>>, n: nat, i: nat)
    requires i < n <= |keys|
    ensures |Span(i, keys[i])| <= |GapsUpTo(keys, n)|
  {
    GapsLength(keys, n - 1);
    if i < n - 1 {
      SpanWithin(keys, n - 1, i);
    }
  }

  /** With no number above its position, no span adds anything. */
  lemma {:induction false} NoneAboveNoGaps(keys: seq<Option<int>>, n: nat)
    requires n <= |keys| && NoneAbove(keys, n)
    ensures |GapsUpTo(keys, n)| == 0
  {
    if n > 0 {
      assert NoneAbove(keys, n - 1) && NotAbove(keys[n - 1], n - 1);
      NoneAboveNoGaps(keys, n - 1);
      NoGapsStep(keys, n - 1);
    }
  }

  /** A position whose number is not above it keeps an empty list empty. */
  lemma NoGapsStep(keys: seq<Option<int>>, i: nat)
    requires i < |keys| && |GapsUpTo(keys, i)| == 0 && NotAbove(keys[i], i)
    ensures |GapsUpTo(keys, i + 1)| == 0
  {
    GapsLength(keys, i);
    SpanEmptyIff(i, keys[i]);
  }

  lemma GapsLength(keys: seq<Option<int>>, i: nat)
    requires i < |keys|
    ensures |GapsUpTo(keys, i + 1)| == |GapsUpTo(keys, i)| + |Span(i, keys[i])|
  {
    GapsStep(keys, i);
  }

  /** Position i adds nothing exactly when its number is not above i. */
  lemma SpanEmptyIff(i: nat, key: Option<int>)
    ensures |Span(i, key)| == 0 <==> NotAbove(key, i)
  {
  }

  // --------------------------------------------- the sequence check as intended

  /** The expected indices below `n` that no chunk carries, in order. */
  function AbsentBelow(keys: seq<Option<int>>, n: nat): (r: seq<nat>)
    ensures forall k :: 0 <= k < |r| ==> r[k] < n && Some(r[k] as int) !in keys
    ensures forall m: nat :: m < n && Some(m as int) !in keys ==> m in r
  {
    if n == 0 then []
    else if Some((n - 1) as int) in keys then AbsentBelow(keys, n - 1)
    else AbsentBelow(keys, n - 1) + [n - 1]
  }

  /** When position i holds number i everywhere, no index below n is absent. */
  lemma {:induction false} NoneAbsentBelow(keys: seq<Option<int>>, n: nat)
    requires n <= |keys|
    requires forall i :: 0 <= i < |keys| ==> keys[i] == Some(i)
    ensures AbsentBelow(keys, n) == []
  {
    if n > 0 {
      assert keys[n - 1] == Some((n - 1) as int);
      NoneAbsentBelow(keys, n - 1);
    }
  }

  /** The largest number any chunk carries, or -1 when none carries one. */
  function LargestKey(keys: seq<Option<int>>): (r: int)
    ensures forall k :: 0 <= k < |keys| && keys[k].Some? ==> keys[k].value <= r
    ensures r == -1 || Some(r) in keys
    ensures r >= -1
  {
    if keys == [] then -1
    else
      var rest := LargestKey(keys[1..]);
      assert forall k :: 1 <= k < |keys| ==> keys[k] == keys[1..][k - 1];
      if keys[0].Some? && keys[0].value > rest then keys[0].value else rest
  }

  /** How many chunks the largest number says there should be. */
  function ExpectedCount(keys: seq<Option<int>>): nat
  {
    LargestKey(keys) + 1
  }

  /** The corrected check on the sorted numbers: valid exactly when they
      are 0, 1, ..., n-1; the missing indices are those below the largest
      number that no chunk carries, so a present index is never listed and
      every gap is. */
  function IntendedCheck(keys: seq<Option<int>>): (report: SequenceReport)
    ensures report.valid <==> forall i :: 0 <= i < |keys| ==> keys[i] == Some(i)
    ensures forall k :: 0 <= k < |report.missingChunks| ==>
      report.missingChunks[k] < LargestKey(keys) && Some(report.missingChunks[k] as int) !in keys
    ensures forall m: nat :: m < LargestKey(keys) && Some(m as int) !in keys ==> m in report.missingChunks
    ensures report.valid ==> report.missingChunks == []
    ensures report.message == MissingMessage(report.missingChunks)
  {
    var valid := forall i :: 0 <= i < |keys| ==> keys[i] == Some(i);
    var missing := AbsentBelow(keys, ExpectedCount(keys));
    if valid then
      assert forall m: nat :: m < LargestKey(keys) ==> m < |keys| && keys[m] == Some(m as int);
      SequenceReport(true, [], "")
    else SequenceReport(false, missing, MissingMessage(missing))
  }

  /** A check that passes leaves nothing absent below the largest number. */
  lemma ValidHasNoGaps(keys: seq<Option<int>>)
    requires IntendedCheck(keys).valid
    ensures AbsentBelow(keys, ExpectedCount(keys)) == []
  {
    assert forall k :: 0 <= k < |keys| ==> keys[k] == Some(k) && keys[k].value < |keys|;
    NoneAbsentBelow(keys, ExpectedCount(keys));
  }

  /** Sorted numbers [0, 5] report every one of 1 to 4. */
  lemma IntendedReportsEveryGap()
    ensures IntendedCheck([Some(0), Some(5)]).missingChunks == [1, 2, 3, 4]
  {
    var keys := [Some(0), Some(5)];
    assert LargestKey(keys) == 5;
    assert Some(4) !in keys && Some(3) !in keys && Some(2) !in keys && Some(1) !in keys && Some(0) in keys;
    assert AbsentBelow(keys, 1) == [];
    assert AbsentBelow(keys, 5) == [1, 2, 3, 4];
  }

  /** validateChunkSequence as intended. */
  function IntendedReport(chunks: seq<string>, ext: string): SequenceReport
  {
    IntendedCheck(SortedKeys(chunks, ext))
  }

  /** Inserting an entry whose number is not below any other appends it. */
  lemma {:induction false} InsertLast(e: Entry, sorted: seq<Entry>)
    requires forall k :: 0 <= k < |sorted| ==> KeyLe(sorted[k].key, e.key)
    ensures Insert(e, sorted) == sorted + [e]
  {
    if sorted != [] {
      InsertLast(e, sorted[1..]);
      assert [sorted[0]] + (sorted[1..] + [e]) == sorted + [e];
    }
  }

  /** Entries already in order are left as they are. */
  lemma {:induction false} SortSortedIsIdentity(entries: seq<Entry>)
    requires Sorted(entries)
    ensures SortEntries(entries) == entries
  {
    if entries != [] {
      var init := entries[..|entries| - 1];
      assert Sorted(init);
      SortSortedIsIdentity(init);
      InsertLast(entries[|entries| - 1], init);
      assert init + [entries[|entries| - 1]] == entries;
    }
  }

  /** The names the recorder saves for chunks 0 to n-1. */
  function SavedNames(n: nat, ext: string): (r: seq<string>)
    ensures |r| == n && forall i :: 0 <= i < n ==> r[i] == ChunkFileName(i, ext)
  {
    seq(n, i requires 0 <= i < n => ChunkFileName(i, ext))
  }

  /** Each saved name reads back as its position. */
  lemma SavedKeys(n: nat, ext: string)
    requires ext != [] && ext[0] == '.'
    ensures forall i :: 0 <= i < n ==> Tag(SavedNames(n, ext), ext)[i].key == Some(i)
  {
    var names := SavedNames(n, ext);
    var tagged := Tag(names, ext);
    forall i | 0 <= i < n ensures tagged[i].key == Some(i) {
      var name := names[i];
      assert tagged[i].key == KeyReader(ext)(name);
      ReadKey(name, ext);
      ChunkKeyOfName(i, ext);
    }
  }

  /** The saved names are already in order, so sorting keeps them. */
  lemma SavedNamesSorted(n: nat, ext: string)
    requires ext != [] && ext[0] == '.'
    ensures SortChunks(SavedNames(n, ext), ext) == SavedNames(n, ext)
  {
    var names := SavedNames(n, ext);
    var tagged := Tag(names, ext);
    SavedKeys(n, ext);
    assert Sorted(tagged);
    SortSortedIsIdentity(tagged);
    assert NamesOf(tagged) == names;
  }

  /** The names the recorder saved, chunk_0 to chunk_(n-1), pass the sequence check
      as written and as intended. */
  lemma SavedChunksPass(n: nat, ext: string)
    requires ext != [] && ext[0] == '.'
    ensures GapsUpTo(SortedKeys(SavedNames(n, ext), ext), n) == []
    ensures IntendedReport(SavedNames(n, ext), ext).valid
  {
    var names := SavedNames(n, ext);
    SavedNamesSorted(n, ext);
    var keys := SortedKeys(names, ext);
    forall i | 0 <= i < n ensures keys[i] == Some(i) {
      ChunkKeyOfName(i, ext);
    }
    GapsEmptyIff(keys, n);
  }
}
