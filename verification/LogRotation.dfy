/**
 * The runtime log: events are appended to a current file, which is renamed out of the way when the
 * next event would make it too long. A file is the list of its event lines; an event line is one
 * line of JSON, which has no line break of its own.
 */
module LogRotation {
  import opened Wrappers
  import opened Lines

  type File = seq<string>

  /** The current file, if it exists, and the rotated files by number, 1 being the newest. */
  datatype Log = Log(current: Option<File>, rotated: map<int, File>)

  const EMPTY := Log(None, map[])

  /** One rename of file i to i + 1, over whatever was there. */
  function MoveUp(rotated: map<int, File>, i: int): map<int, File> {
    if i in rotated then (rotated - {i})[i + 1 := rotated[i]] else rotated
  }

  /** The renames of i, i - 1, ..., 1. */
  function MoveAll(rotated: map<int, File>, i: int): map<int, File>
    decreases i
  {
    if i < 1 then rotated else MoveAll(MoveUp(rotated, i), i - 1)
  }

  /** Makes room for `incoming` more bytes. */
  function Rotated(log: Log, maxBytes: int, maxFiles: int, incoming: int): Log {
    if maxBytes <= 0 || log.current.None? || Size(log.current.value) + incoming <= maxBytes then log
    else if maxFiles > 0 then Log(None, MoveAll(log.rotated, maxFiles - 1)[1 := log.current.value])
    else Log(None, MoveAll(log.rotated, maxFiles - 1))
  }

  function Contents(log: Log): File { if log.current.Some? then log.current.value else [] }

  function Written(log: Log, maxBytes: int, maxFiles: int, event: string): Log {
    var l := Rotated(log, maxBytes, maxFiles, |event| + 1);
    l.(current := Some(Contents(l) + [event]))
  }

  /** The last `limit` events, 50 when no positive limit is given. */
  function LastEvents(file: File, limit: int): File {
    var n := if limit <= 0 then 50 else limit;
    if |file| <= n then file else file[|file| - n..]
  }

  /** The last n events before i, one event later. */
  lemma WindowMoves(file: File, i: nat, n: nat)
    requires n <= i < |file|
    ensures n > 0 ==> file[i + 1 - n..i + 1] == file[i - n..i][1..] + [file[i]]
    ensures file[i - n..i + 1] == file[i - n..i] + [file[i]]
  {
  }

  class Logger {
    const maxBytes: int
    const maxFiles: int
    var current: Option<File>
    var rotated: map<int, File>

    function View(): Log
      reads this
    {
      Log(current, rotated)
    }

    /** Opens a log over whatever files are there. */
    constructor (found: Log, maxBytes: int, maxFiles: int)
      ensures View() == found
      ensures this.maxBytes == if 0 < maxBytes then maxBytes else 5_242_880
      ensures this.maxFiles == if 0 < maxFiles then maxFiles else 5
    {
      this.maxBytes := if maxBytes <= 0 then 5 * 1024 * 1024 else maxBytes;
      this.maxFiles := if maxFiles <= 0 then 5 else maxFiles;
      current := found.current;
      rotated := found.rotated;
    }

    method RotateIfNeeded(incoming: int)
      modifies this
      ensures View() == Rotated(old(View()), maxBytes, maxFiles, incoming)
    {
      if maxBytes <= 0 || current.None? { return; }
      if Size(current.value) + incoming <= maxBytes { return; }
      var i := maxFiles - 1;
      while i >= 1
        invariant current == old(current)
        invariant MoveAll(old(rotated), maxFiles - 1) == MoveAll(rotated, i)
      {
        if i in rotated {
          rotated := (rotated - {i})[i + 1 := rotated[i]];
        }
        i := i - 1;
      }
      if maxFiles > 0 {
        rotated := rotated[1 := current.value];
      }
      current := None;
    }

    method Write(event: string)
      modifies this
      ensures View() == Written(old(View()), maxBytes, maxFiles, event)
    {
      RotateIfNeeded(|event| + 1);
      if current.None? { current := Some([]); }
      current := Some(current.value + [event]);
    }

    /** Scans the current file through a ring that shifts when it is full. */
    method Tail(limit: int) returns (events: seq<string>)
      ensures events == LastEvents(Contents(View()), limit)
    {
      var size := if limit <= 0 then 50 else limit;
      if current.None? { return []; }
      var file := current.value;
      var ring := new string[size];
      var n := 0;
      for i := 0 to |file|
        invariant 0 <= n <= size && (n < size ==> n == i)
        invariant n <= i && ring[..n] == file[i - n..i]
      {
        ghost var was := ring[..n];
        WindowMoves(file, i, n);
        if n == size {
          forall j | 0 <= j < n - 1 { ring[j] := ring[j + 1]; }
          ring[n - 1] := file[i];
          assert ring[..n] == was[1..] + [file[i]];
        } else {
          ring[n] := file[i];
          n := n + 1;
          assert ring[..n] == was + [file[i]];
        }
      }
      return ring[..n];
    }
  }

  // ----- runs

  function Run(log: Log, maxBytes: int, maxFiles: int, events: seq<string>): Log {
    if events == [] then log
    else Written(Run(log, maxBytes, maxFiles, events[..|events| - 1]), maxBytes, maxFiles, events[|events| - 1])
  }

  ghost predicate GapFree(rotated: map<int, File>, k: nat) { forall i :: i in rotated <==> 1 <= i <= k }

  /** The rotated files from number k down to 1, oldest first. */
  function Chain(rotated: map<int, File>, k: nat): File
    requires forall i :: 1 <= i <= k ==> i in rotated
  {
    if k == 0 then [] else rotated[k] + Chain(rotated, k - 1)
  }

  predicate Suffix(s: File, all: File) { |s| <= |all| && s == all[|all| - |s|..] }

  predicate ShortFile(file: File, maxBytes: int) { file != [] && (Size(file) <= maxBytes || |file| == 1) }

  ghost predicate FilesAreShort(log: Log, maxBytes: int) {
    && (forall i :: i in log.rotated ==> ShortFile(log.rotated[i], maxBytes))
    && (log.current.Some? ==> ShortFile(log.current.value, maxBytes))
  }

  ghost predicate Inv(log: Log, maxBytes: int, maxFiles: int, k: nat, events: seq<string>) {
    && GapFree(log.rotated, k) && k <= maxFiles
    && Suffix(Chain(log.rotated, k) + Contents(log), events)
    && (k < maxFiles ==> Chain(log.rotated, k) + Contents(log) == events)
    && FilesAreShort(log, maxBytes)
  }

  /** What the renames of n, ..., 1 leave at number i. */
  function Moved(rotated: map<int, File>, n: nat, i: int): Option<File> {
    if 2 <= i <= n + 1 && i - 1 in rotated then Some(rotated[i - 1])
    else if 1 <= i <= n then None
    else if i in rotated then Some(rotated[i])
    else None
  }

  function At(rotated: map<int, File>, i: int): Option<File> { if i in rotated then Some(rotated[i]) else None }

  lemma {:induction false} MoveAllMoves(rotated: map<int, File>, n: nat, i: int)
    ensures At(MoveAll(rotated, n), i) == Moved(rotated, n, i)
    decreases n
  {
    if n > 0 { MoveAllMoves(MoveUp(rotated, n), n - 1, i); }
  }

  lemma {:induction false} ChainMoved(was: map<int, File>, now: map<int, File>, j: nat)
    requires forall i :: 1 <= i <= j ==> i in was
    requires forall i :: 1 <= i <= j + 1 ==> i in now && (1 < i ==> i - 1 in was && now[i] == was[i - 1])
    ensures Chain(now, j + 1) == Chain(was, j) + now[1]
  {
    if j > 0 {
      ChainMoved(was, now, j - 1);
      assert was[j] + (Chain(was, j - 1) + now[1]) == Chain(was, j) + now[1];
    } else {
      assert Chain(now, 0) == [] && now[1] + [] == now[1] && [] + now[1] == now[1];
    }
  }

  lemma RotationAt(rotated: map<int, File>, k: nat, maxFiles: int, file: File, now: map<int, File>, i: int)
    requires GapFree(rotated, k) && k <= maxFiles && 0 < maxFiles && now == MoveAll(rotated, maxFiles - 1)[1 := file]
    ensures i in now <==> 1 <= i <= (if k < maxFiles then k + 1 else maxFiles)
    ensures i in now ==> (i == 1 && now[i] == file) || (i - 1 in rotated && now[i] == rotated[i - 1])
  {
    MoveAllMoves(rotated, maxFiles - 1, i);
  }

  /** The files from 2 on are the old ones, one number up, and 1 is the new one. */
  ghost predicate MovedUp(was: map<int, File>, now: map<int, File>, next: nat, file: File) {
    && GapFree(now, next)
    && (forall i :: i in now ==> (i == 1 && now[i] == file) || (i - 1 in was && now[i] == was[i - 1]))
  }

  lemma RotationMovesUp(rotated: map<int, File>, k: nat, maxFiles: int, file: File, now: map<int, File>)
    requires GapFree(rotated, k) && k <= maxFiles && 0 < maxFiles && now == MoveAll(rotated, maxFiles - 1)[1 := file]
    ensures MovedUp(rotated, now, if k < maxFiles then k + 1 else maxFiles, file)
  {
    hide MoveAll, GapFree;
    forall i ensures i in now <==> 1 <= i <= (if k < maxFiles then k + 1 else maxFiles) {
      RotationAt(rotated, k, maxFiles, file, now, i);
    }
    forall i | i in now ensures (i == 1 && now[i] == file) || (i - 1 in rotated && now[i] == rotated[i - 1]) {
      RotationAt(rotated, k, maxFiles, file, now, i);
    }
    IsGapFree(now, if k < maxFiles then k + 1 else maxFiles);
  }

  lemma IsGapFree(rotated: map<int, File>, k: nat)
    requires forall i :: i in rotated <==> 1 <= i <= k
    ensures GapFree(rotated, k)
  {
  }

  /** A rotation drops the oldest file when every number is in use, and nothing otherwise. */
  lemma RotationKeepsOrder(rotated: map<int, File>, k: nat, next: nat, file: File, now: map<int, File>)
    requires GapFree(rotated, k) && MovedUp(rotated, now, next, file) && 1 <= next <= k + 1
    ensures Chain(now, next) == Chain(rotated, next - 1) + file
  {
    assert 1 in now && now[1] == file;
    forall i | 1 <= i <= next ensures i in now && (1 < i ==> i - 1 in rotated && now[i] == rotated[i - 1]) {}
    ChainMoved(rotated, now, next - 1);
  }

  lemma SizeOfOne(event: string)
    ensures Size([event]) == |event| + 1
  {
    assert [event][1..] == [];
  }

  lemma SuffixMore(dropped: File, kept: File, all: File, event: string)
    requires Suffix(dropped + kept, all)
    ensures Suffix(kept + [event], all + [event])
  {
    var s := dropped + kept;
    assert s[|dropped|..] == kept;
    assert kept == all[|all| - |s|..][|dropped|..];
  }

  lemma WriteAppends(log: Log, maxBytes: int, maxFiles: int, k: nat, events: seq<string>, event: string)
    requires Inv(log, maxBytes, maxFiles, k, events) && Rotated(log, maxBytes, maxFiles, |event| + 1) == log
    requires 0 < maxBytes
    ensures Inv(Written(log, maxBytes, maxFiles, event), maxBytes, maxFiles, k, events + [event])
  {
    SizeOfOne(event);
    SizeConcat(Contents(log), [event]);
    SuffixMore([], Chain(log.rotated, k) + Contents(log), events, event);
    assert [] + (Chain(log.rotated, k) + Contents(log)) == Chain(log.rotated, k) + Contents(log);
    assert Chain(log.rotated, k) + (Contents(log) + [event]) == Chain(log.rotated, k) + Contents(log) + [event];
  }

  lemma FreshOrder(rotated: map<int, File>, k: nat, maxFiles: int, file: File, next: nat, now: map<int, File>,
                   events: seq<string>, event: string)
    requires GapFree(rotated, k) && k <= maxFiles && 0 < maxFiles && GapFree(now, next)
    requires next == if k < maxFiles then k + 1 else maxFiles
    requires Chain(now, next) == Chain(rotated, next - 1) + file
    requires Suffix(Chain(rotated, k) + file, events) && (k < maxFiles ==> Chain(rotated, k) + file == events)
    ensures Suffix(Chain(now, next) + [event], events + [event])
    ensures next < maxFiles ==> Chain(now, next) + [event] == events + [event]
  {
    if k < maxFiles {
      SuffixMore([], Chain(rotated, k) + file, events, event);
      assert [] + (Chain(rotated, k) + file) == Chain(rotated, k) + file;
    } else {
      SuffixMore(rotated[k], Chain(rotated, k - 1) + file, events, event);
      assert rotated[k] + (Chain(rotated, k - 1) + file) == Chain(rotated, k) + file;
    }
  }

  lemma FreshIsShort(log: Log, maxBytes: int, now: map<int, File>, next: nat, event: string)
    requires FilesAreShort(log, maxBytes) && log.current.Some? && MovedUp(log.rotated, now, next, log.current.value)
    ensures FilesAreShort(Log(Some([event]), now), maxBytes)
  {
    forall i | i in now ensures ShortFile(now[i], maxBytes) {
      if i != 1 { assert now[i] == log.rotated[i - 1]; }
    }
  }

  lemma RotatedLog(log: Log, maxBytes: int, maxFiles: int, event: string)
    requires Rotated(log, maxBytes, maxFiles, |event| + 1) != log && 0 < maxFiles
    ensures log.current.Some?
    ensures Written(log, maxBytes, maxFiles, event) ==
            Log(Some([event]), MoveAll(log.rotated, maxFiles - 1)[1 := log.current.value])
  {
    assert [] + [event] == [event];
  }

  lemma FreshFile(log: Log, maxBytes: int, maxFiles: int, k: nat, events: seq<string>, event: string)
    returns (next: nat)
    requires Inv(log, maxBytes, maxFiles, k, events) && Rotated(log, maxBytes, maxFiles, |event| + 1) != log
    requires 0 < maxFiles
    ensures Inv(Written(log, maxBytes, maxFiles, event), maxBytes, maxFiles, next, events + [event])
  {
    RotatedLog(log, maxBytes, maxFiles, event);
    var file := log.current.value;
    var now := MoveAll(log.rotated, maxFiles - 1)[1 := file];
    next := if k < maxFiles then k + 1 else maxFiles;
    hide MoveAll, Suffix, FilesAreShort, Written, Rotated;
    RotationMovesUp(log.rotated, k, maxFiles, file, now);
    RotationKeepsOrder(log.rotated, k, next, file, now);
    FreshOrder(log.rotated, k, maxFiles, file, next, now, events, event);
    FreshIsShort(log, maxBytes, now, next, event);
  }

  /** No file is there yet. */
  lemma EmptyLog(maxBytes: int, maxFiles: nat)
    ensures Inv(EMPTY, maxBytes, maxFiles, 0, [])
  {
  }

  /**
   * After any run of writes, from an empty log or from what an earlier run left, the rotated files are
   * numbered 1 to k without a gap, k <= maxFiles; read oldest to newest and then the current file, they
   * are the last events ever written, and all of them until the numbers run out; each file is within
   * maxBytes or holds one event.
   */
  lemma {:induction false} RunKeepsInv(log: Log, maxBytes: int, maxFiles: int, k: nat, past: seq<string>,
                                       events: seq<string>) returns (next: nat)
    requires 0 < maxBytes && 0 < maxFiles && Inv(log, maxBytes, maxFiles, k, past)
    ensures Inv(Run(log, maxBytes, maxFiles, events), maxBytes, maxFiles, next, past + events)
  {
    if events == [] {
      next := k;
      assert past + events == past;
    } else {
      hide Inv, Rotated, Written;
      var init, event := events[..|events| - 1], events[|events| - 1];
      next := RunKeepsInv(log, maxBytes, maxFiles, k, past, init);
      var l := Run(log, maxBytes, maxFiles, init);
      assert events == init + [event];
      assert past + events == (past + init) + [event];
      if Rotated(l, maxBytes, maxFiles, |event| + 1) == l {
        WriteAppends(l, maxBytes, maxFiles, next, past + init, event);
      } else {
        next := FreshFile(l, maxBytes, maxFiles, next, past + init, event);
      }
    }
  }

  lemma ShownIsSuffix(log: Log, maxBytes: int, maxFiles: int, k: nat, events: seq<string>, limit: int)
    requires Inv(log, maxBytes, maxFiles, k, events)
    ensures Suffix(LastEvents(Contents(log), limit), events)
    ensures Contents(log) != [] ==> LastEvents(Contents(log), limit) != []
  {
    var all := Chain(log.rotated, k) + Contents(log);
    var shown := LastEvents(Contents(log), limit);
    assert shown == all[|all| - |shown|..];
  }

  function Min(a: int, b: int): int { if a < b then a else b }

  /** The event written last is the last one Tail shows. */
  lemma LastWriteIsShown(log: Log, maxBytes: int, maxFiles: int, k: nat, past: seq<string>, events: seq<string>,
                         limit: int)
    requires 0 < maxBytes && 0 < maxFiles && events != [] && Inv(log, maxBytes, maxFiles, k, past)
    ensures var shown := LastEvents(Contents(Run(log, maxBytes, maxFiles, events)), limit);
            && shown != [] && Suffix(shown, past + events)
            && |shown| == Min(|Contents(Run(log, maxBytes, maxFiles, events))|, if limit <= 0 then 50 else limit)
  {
    var next := RunKeepsInv(log, maxBytes, maxFiles, k, past, events);
    ShownIsSuffix(Run(log, maxBytes, maxFiles, events), maxBytes, maxFiles, next, past + events, limit);
    hide Inv, Rotated, Suffix;
  }

  // ----- when files are rotated

  /** The file that was begun after number i was full. */
  function NextFile(log: Log, i: int): File {
    if i <= 1 then Contents(log) else if i - 1 in log.rotated then log.rotated[i - 1] else []
  }

  /** No rotated file had room for the event that the next file begins with. */
  ghost predicate Full(log: Log, maxBytes: int) {
    && (1 in log.rotated ==> Contents(log) != [])
    && (forall i :: i in log.rotated && 1 <= i && NextFile(log, i) != [] ==>
          maxBytes < Size(log.rotated[i]) + |NextFile(log, i)[0]| + 1)
  }

  /** What a rotation puts at number i > 1: what was one number below, as far as files are numbered. */
  function Before(rotated: map<int, File>, maxFiles: int, i: int): Option<File> {
    if 1 < i < maxFiles || (1 < i == maxFiles && i - 1 in rotated) then At(rotated, i - 1) else At(rotated, i)
  }

  /** A write rotates exactly when the current file exists and the event does not fit. */
  lemma RotatesIffTooLong(log: Log, maxBytes: int, maxFiles: int, event: string)
    requires 0 < maxBytes && 0 < maxFiles
    ensures var n := Written(log, maxBytes, maxFiles, event);
            var fits := log.current.None? || Size(log.current.value) + |event| + 1 <= maxBytes;
            && (fits ==> n == log.(current := Some(Contents(log) + [event])))
            && (!fits ==> n.current == Some([event]) && At(n.rotated, 1) == log.current)
            && (!fits ==> forall i: int :: i != 1 ==> At(n.rotated, i) == Before(log.rotated, maxFiles, i))
  {
    var moved := MoveAll(log.rotated, maxFiles - 1);
    hide MoveAll, Size;
    var n := Written(log, maxBytes, maxFiles, event);
    if log.current.Some? && maxBytes < Size(log.current.value) + |event| + 1 {
      assert [] + [event] == [event];
      forall i: int | i != 1 ensures At(n.rotated, i) == Before(log.rotated, maxFiles, i) {
        MoveAllMoves(log.rotated, maxFiles - 1, i);
        assert At(n.rotated, i) == At(moved, i);
      }
    }
  }

  /** A write that rotates leaves files that were full; one that appends changes no first event. */
  lemma WriteKeepsFull(log: Log, maxBytes: int, maxFiles: int, k: nat, event: string)
    requires 0 < maxBytes && 0 < maxFiles && GapFree(log.rotated, k) && k <= maxFiles && Full(log, maxBytes)
    requires log.current.Some? ==> Contents(log) != []
    ensures Full(Written(log, maxBytes, maxFiles, event), maxBytes)
  {
    var n := Written(log, maxBytes, maxFiles, event);
    RotatesIffTooLong(log, maxBytes, maxFiles, event);
    forall i | i in n.rotated && 1 <= i && NextFile(n, i) != []
      ensures maxBytes < Size(n.rotated[i]) + |NextFile(n, i)[0]| + 1
    {
      if n.rotated == log.rotated && n.current == Some(Contents(log) + [event]) {
        assert i in log.rotated && 1 in log.rotated;
      } else {
        assert At(n.rotated, i) == if i == 1 then log.current else Before(log.rotated, maxFiles, i);
        assert i > 2 ==> At(n.rotated, i - 1) == Before(log.rotated, maxFiles, i - 1);
        assert i == 2 ==> At(n.rotated, 1) == log.current;
      }
    }
  }

  /** After any run every rotated file was too full for the first event of the file after it. */
  lemma {:induction false} RunKeepsFull(log: Log, maxBytes: int, maxFiles: int, k: nat, past: seq<string>,
                                        events: seq<string>)
    requires 0 < maxBytes && 0 < maxFiles && Inv(log, maxBytes, maxFiles, k, past) && Full(log, maxBytes)
    ensures Full(Run(log, maxBytes, maxFiles, events), maxBytes)
  {
    if events != [] {
      var init := events[..|events| - 1];
      RunKeepsFull(log, maxBytes, maxFiles, k, past, init);
      var j := RunKeepsInv(log, maxBytes, maxFiles, k, past, init);
      hide Full, Written;
      WriteKeepsFull(Run(log, maxBytes, maxFiles, init), maxBytes, maxFiles, j, events[|events| - 1]);
    }
  }
}
