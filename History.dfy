/**
 * The per-metric sample history of the monitor: a deque bounded at 1440 entries that
 * drops its oldest entry on overflow, read back through a time window.
 */
module History {

  /** deque(maxlen=1440): one day at one sample a minute. */
  const HistoryCapacity := 1440

  /** get_history's default window, in minutes. */
  const DefaultWindowMinutes := 60

  /** One stored sample; the timestamp is integer seconds instead of an isoformat string. */
  datatype HistoryEntry = HistoryEntry(timestamp: int, value: real)

  /**
   * Appending to the bounded deque: the new entry goes last and, once the deque is full,
   * the entry at the front falls off. Nothing else moves.
   */
  function Append(buffer: seq<HistoryEntry>, entry: HistoryEntry): (r: seq<HistoryEntry>)
    ensures |r| == if |buffer| < HistoryCapacity then |buffer| + 1 else HistoryCapacity
    ensures r[|r| - 1] == entry
    ensures r[..|r| - 1] == buffer[|buffer| + 1 - |r|..]
  {
    var s := buffer + [entry];
    if |s| > HistoryCapacity then s[|s| - HistoryCapacity..] else s
  }

  /** A full deque loses exactly its oldest entry. */
  lemma AppendEvictsOldest(buffer: seq<HistoryEntry>, entry: HistoryEntry)
    requires |buffer| == HistoryCapacity
    ensures Append(buffer, entry) == buffer[1..] + [entry]
  {
    var r := Append(buffer, entry);
    assert r[..|r| - 1] == buffer[1..];
    assert r == r[..|r| - 1] + [r[|r| - 1]];
  }

  /** Any run of appends leaves the newest entries of everything recorded, in order. */
  lemma {:induction false} AppendAllKeepsNewest(buffer: seq<HistoryEntry>, entries: seq<HistoryEntry>)
    requires |buffer| <= HistoryCapacity
    ensures |AppendAll(buffer, entries)| == Min(|buffer| + |entries|, HistoryCapacity)
    ensures AppendAll(buffer, entries) == (buffer + entries)[|buffer| + |entries| - |AppendAll(buffer, entries)|..]
    decreases |entries|
  {
    if entries == [] {
      assert buffer + entries == buffer;
    } else {
      var last := entries[|entries| - 1];
      var init := entries[..|entries| - 1];
      AppendAllKeepsNewest(buffer, init);
      assert buffer + entries == (buffer + init) + [last] by { assert entries == init + [last]; }
      AppendKeepsSuffix(buffer + init, AppendAll(buffer, init), last);
    }
  }

  /** If the deque holds the newest entries of `whole`, after an append it holds the newest of `whole + [last]`. */
  lemma AppendKeepsSuffix(whole: seq<HistoryEntry>, before: seq<HistoryEntry>, last: HistoryEntry)
    requires |before| <= |whole| && before == whole[|whole| - |before|..]
    ensures Append(before, last) == (whole + [last])[|whole| + 1 - |Append(before, last)|..]
  {
    var a := |whole| - |before|;
    var after := Append(before, last);
    var b := |before| + 1 - |after|;
    AppendIsSuffix(before, last);
    assert before + [last] == (whole + [last])[a..];
    SuffixOfSuffix(whole + [last], a, b);
  }

  lemma AppendIsSuffix(buffer: seq<HistoryEntry>, entry: HistoryEntry)
    ensures Append(buffer, entry) == (buffer + [entry])[|buffer| + 1 - |Append(buffer, entry)|..]
  {
  }

  lemma SuffixOfSuffix(s: seq<HistoryEntry>, a: nat, b: nat)
    requires a + b <= |s|
    ensures s[a..][b..] == s[a + b..]
  {
  }

  /** Recording one more sample than the capacity into an empty deque keeps all but the first, in order. */
  lemma OverflowDropsFirst(entries: seq<HistoryEntry>)
    requires |entries| == HistoryCapacity + 1
    ensures AppendAll([], entries) == entries[1..]
  {
    AppendAllKeepsNewest([], entries);
    assert [] + entries == entries;
  }

  function Min(a: int, b: int): int {
    if a < b then a else b
  }

  /** A run of appends, oldest first: the deque after the monitor recorded `entries` in turn. */
  function AppendAll(buffer: seq<HistoryEntry>, entries: seq<HistoryEntry>): seq<HistoryEntry>
    decreases |entries|
  {
    if entries == [] then buffer
    else Append(AppendAll(buffer, entries[..|entries| - 1]), entries[|entries| - 1])
  }

  /**
   * get_history's comprehension: the entries strictly newer than the cutoff, in stored order.
   */
  function Window(buffer: seq<HistoryEntry>, cutoff: int): (r: seq<HistoryEntry>)
    ensures |r| <= |buffer|
    ensures forall e :: e in r ==> e in buffer && e.timestamp > cutoff
    ensures forall e :: e in buffer && e.timestamp > cutoff ==> e in r
  {
    if buffer == [] then []
    else (if buffer[0].timestamp > cutoff then [buffer[0]] else []) + Window(buffer[1..], cutoff)
  }

  /** The window keeps every recent entry as often as it is stored, and no other entry. */
  lemma {:induction false} WindowCounts(buffer: seq<HistoryEntry>, cutoff: int)
    ensures forall e :: multiset(Window(buffer, cutoff))[e] == if e.timestamp > cutoff then multiset(buffer)[e] else 0
    decreases |buffer|
  {
    if buffer != [] {
      WindowCounts(buffer[1..], cutoff);
      assert buffer == [buffer[0]] + buffer[1..];
    }
  }

  /** `a` can be obtained from `b` by deleting entries: order is kept. */
  predicate IsSubsequence(a: seq<HistoryEntry>, b: seq<HistoryEntry>)
    decreases |b|
  {
    a == [] || (b != [] && ((a[0] == b[0] && IsSubsequence(a[1..], b[1..])) || IsSubsequence(a, b[1..])))
  }

  /** The window keeps the stored order of the entries it returns. */
  lemma {:induction false} WindowIsSubsequence(buffer: seq<HistoryEntry>, cutoff: int)
    ensures IsSubsequence(Window(buffer, cutoff), buffer)
    decreases |buffer|
  {
    if buffer != [] {
      WindowIsSubsequence(buffer[1..], cutoff);
      var rest := Window(buffer[1..], cutoff);
      if buffer[0].timestamp > cutoff {
        assert Window(buffer, cutoff) == [buffer[0]] + rest;
        assert ([buffer[0]] + rest)[1..] == rest;
      } else {
        assert Window(buffer, cutoff) == rest;
      }
    }
  }

  /** The window distributes over concatenation: it is decided entry by entry. */
  lemma {:induction false} WindowConcat(a: seq<HistoryEntry>, b: seq<HistoryEntry>, cutoff: int)
    ensures Window(a + b, cutoff) == Window(a, cutoff) + Window(b, cutoff)
    decreases |a|
  {
    if a != [] {
      assert (a + b)[1..] == a[1..] + b;
      WindowConcat(a[1..], b, cutoff);
    } else {
      assert a + b == b;
    }
  }

  /**
   * Reading after an append returns the earlier window, less the evicted front entry when the
   * deque was full, followed by the new entry if it is newer than the cutoff.
   */
  lemma WindowAfterAppend(buffer: seq<HistoryEntry>, entry: HistoryEntry, cutoff: int)
    requires |buffer| <= HistoryCapacity
    ensures Window(Append(buffer, entry), cutoff)
      == Window(if |buffer| < HistoryCapacity then buffer else buffer[1..], cutoff)
         + (if entry.timestamp > cutoff then [entry] else [])
  {
    var kept := if |buffer| < HistoryCapacity then buffer else buffer[1..];
    if |buffer| < HistoryCapacity {
      var s := buffer + [entry];
      assert |s| <= HistoryCapacity;
      assert Append(buffer, entry) == s;
    } else {
      AppendEvictsOldest(buffer, entry);
    }
    assert Append(buffer, entry) == kept + [entry];
    WindowConcat(kept, [entry], cutoff);
    assert Window([entry], cutoff) == (if entry.timestamp > cutoff then [entry] else []) + Window([], cutoff);
  }

  /** Entries stored in time order, as the monitor's clock produces them. */
  predicate Chronological(buffer: seq<HistoryEntry>) {
    forall i, j :: 0 <= i < j < |buffer| ==> buffer[i].timestamp <= buffer[j].timestamp
  }

  /** On a chronological history the window is a suffix: the most recent entries, all of them. */
  lemma {:induction false} WindowOfChronologicalIsSuffix(buffer: seq<HistoryEntry>, cutoff: int)
    requires Chronological(buffer)
    ensures exists k :: 0 <= k <= |buffer| && Window(buffer, cutoff) == buffer[k..]
    decreases |buffer|
  {
    if buffer == [] {
      assert Window(buffer, cutoff) == buffer[0..];
    } else if buffer[0].timestamp > cutoff {
      assert forall e :: e in buffer ==> e.timestamp > cutoff by {
        forall e | e in buffer ensures e.timestamp > cutoff {
          var i :| 0 <= i < |buffer| && buffer[i] == e;
          assert i == 0 || buffer[0].timestamp <= buffer[i].timestamp;
        }
      }
      WindowAll(buffer, cutoff);
      assert Window(buffer, cutoff) == buffer[0..];
    } else {
      WindowOfChronologicalIsSuffix(buffer[1..], cutoff);
      var k :| 0 <= k <= |buffer[1..]| && Window(buffer[1..], cutoff) == buffer[1..][k..];
      assert Window(buffer, cutoff) == buffer[k + 1..];
    }
  }

  lemma {:induction false} WindowAll(buffer: seq<HistoryEntry>, cutoff: int)
    requires forall e :: e in buffer ==> e.timestamp > cutoff
    ensures Window(buffer, cutoff) == buffer
    decreases |buffer|
  {
    if buffer != [] {
      assert forall e :: e in buffer[1..] ==> e in buffer;
      WindowAll(buffer[1..], cutoff);
      assert buffer == [buffer[0]] + buffer[1..];
    }
  }

  /** Appending an entry no older than the last keeps the history chronological. */
  lemma AppendKeepsChronological(buffer: seq<HistoryEntry>, entry: HistoryEntry)
    requires Chronological(buffer)
    requires buffer != [] ==> buffer[|buffer| - 1].timestamp <= entry.timestamp
    ensures Chronological(Append(buffer, entry))
  {
    ChronologicalSnoc(buffer, entry);
    var s := buffer + [entry];
    AppendIsSuffix(buffer, entry);
    ChronologicalSuffix(s, |s| - |Append(buffer, entry)|);
  }

  lemma ChronologicalSnoc(buffer: seq<HistoryEntry>, entry: HistoryEntry)
    requires Chronological(buffer)
    requires buffer != [] ==> buffer[|buffer| - 1].timestamp <= entry.timestamp
    ensures Chronological(buffer + [entry])
  {
    var s := buffer + [entry];
    forall i, j | 0 <= i < j < |s| ensures s[i].timestamp <= s[j].timestamp {
      if j == |buffer| {
        assert i == |buffer| - 1 || buffer[i].timestamp <= buffer[|buffer| - 1].timestamp;
      }
    }
  }

  lemma ChronologicalSuffix(s: seq<HistoryEntry>, k: nat)
    requires Chronological(s) && k <= |s|
    ensures Chronological(s[k..])
  {
    var r := s[k..];
    forall i, j | 0 <= i < j < |r| ensures r[i].timestamp <= r[j].timestamp {
      assert r[i] == s[i + k] && r[j] == s[j + k];
    }
  }
}
