/** The sliding window of the bulk-access rule (aisecure/engine.py, the deque and
    Counter loop of `analyze`) and what it computes: the largest number of distinct
    files over all sets of reads that fit in the time window. */
module Window {
  import opened Common
  import opened Ordering

  type FileId = string

  datatype Read = Read(at: int, id: string, file: FileId, sensitive: Option<bool>)

  const BY_TIME := (r: Read) => Stamp(r.at, r.id)

  /** In time order; ties are in any order. */
  ghost predicate Ascending(log: seq<Read>) {
    forall i, j :: 0 <= i <= j < |log| ==> log[i].at <= log[j].at
  }

  lemma SortAscends(log: seq<Read>)
    ensures Ascending(Sort(BY_TIME, log))
  {
    SortSorted(BY_TIME, log);
    var sorted := Sort(BY_TIME, log);
    forall i, j | 0 <= i < j < |sorted| ensures sorted[i].at <= sorted[j].at {
      assert !StampLess(BY_TIME(sorted[j]), BY_TIME(sorted[i]));
    }
  }

  function Files(log: seq<Read>): set<FileId> {
    set r | r in log :: r.file
  }

  /** The first read at or after `i` that is within the window of read `k`. */
  function First(log: seq<Read>, window: nat, k: nat, i: nat): (lo: nat)
    requires i <= k < |log|
    ensures i <= lo <= k
    ensures log[k].at - log[lo].at <= window
    ensures forall j :: i <= j < lo ==> log[k].at - log[j].at > window
    decreases k - i
  {
    if log[k].at - log[i].at <= window then i
    else First(log, window, k, i + 1)
  }

  function WindowAt(log: seq<Read>, window: nat, k: nat): seq<Read>
    requires k < |log|
  {
    log[First(log, window, k, 0)..k + 1]
  }

  /** `best` and `peak` after the first `n` reads. */
  function Scan(log: seq<Read>, window: nat, n: nat): (r: (seq<Read>, nat))
    requires n <= |log|
    ensures r.1 > 0 ==> r.0 != []
  {
    if n == 0 then ([], 0)
    else
      var (best, peak) := Scan(log, window, n - 1);
      var current := WindowAt(log, window, n - 1);
      if |Files(current)| > peak then (current, |Files(current)|) else (best, peak)
  }

  // ---- the loop ---------------------------------------------------------------------

  function Bag(log: seq<Read>): multiset<FileId> {
    if log == [] then multiset{} else Bag(log[..|log| - 1]) + multiset{log[|log| - 1].file}
  }

  lemma {:induction false} BagFront(log: seq<Read>)
    requires log != []
    ensures Bag(log) == multiset{log[0].file} + Bag(log[1..])
  {
    if |log| > 1 {
      var init, last := log[..|log| - 1], log[|log| - 1];
      BagFront(init);
      assert log[1..][..|log| - 2] == init[1..];
      assert Bag(log[1..]) == Bag(init[1..]) + multiset{last.file};
    } else {
      assert log[..0] == [] && log[1..] == [];
    }
  }

  lemma BagLast(log: seq<Read>, e: Read)
    ensures Bag(log + [e]) == Bag(log) + multiset{e.file}
  {
    assert (log + [e])[..|log|] == log;
  }

  lemma {:induction false} BagFiles(log: seq<Read>)
    ensures forall f :: f in Bag(log) <==> f in Files(log)
  {
    if log != [] {
      BagFiles(log[..|log| - 1]);
      assert log == log[..|log| - 1] + [log[|log| - 1]];
      assert Files(log) == Files(log[..|log| - 1]) + {log[|log| - 1].file};
    }
  }

  predicate Counted(files: map<FileId, nat>, log: seq<Read>) {
    && (forall f :: f in files ==> files[f] == Bag(log)[f] && files[f] > 0)
    && (forall f :: f in Bag(log) ==> f in files)
  }

  lemma CountedSize(files: map<FileId, nat>, log: seq<Read>)
    requires Counted(files, log)
    ensures |files| == |Files(log)|
  {
    BagFiles(log);
    assert files.Keys == Files(log);
  }

  lemma CountedPush(files: map<FileId, nat>, log: seq<Read>, e: Read)
    requires Counted(files, log)
    ensures Counted(files[e.file := (if e.file in files then files[e.file] else 0) + 1], log + [e])
  {
    hide Bag;
    BagLast(log, e);
  }

  lemma CountedPop(files: map<FileId, nat>, log: seq<Read>)
    requires Counted(files, log) && log != []
    ensures log[0].file in files && files[log[0].file] > 0
    ensures var f, less := log[0].file, files[log[0].file := files[log[0].file] - 1];
            Counted(if less[f] == 0 then less - {f} else less, log[1..])
  {
    hide Bag;
    BagFront(log);
  }

  lemma FirstIs(log: seq<Read>, window: nat, k: nat, lo: nat)
    requires lo <= k < |log|
    requires forall j :: 0 <= j < lo ==> log[k].at - log[j].at > window
    requires log[k].at - log[lo].at <= window
    ensures First(log, window, k, 0) == lo
  {
  }

  method Pop(queue0: seq<Read>, files0: map<FileId, nat>) returns (queue: seq<Read>, files: map<FileId, nat>)
    requires Counted(files0, queue0) && queue0 != []
    ensures queue == queue0[1..] && Counted(files, queue)
  {
    CountedPop(files0, queue0);
    var f := queue0[0].file;
    queue := queue0[1..];
    files := files0[f := files0[f] - 1];
    if files[f] == 0 { files := files - {f}; }
  }

  /** The inner loop: drop reads from the front until the rest is within the
      window of read `k`. */
  method Expire(log: seq<Read>, window: nat, k: nat, queue0: seq<Read>, files0: map<FileId, nat>, ghost lo0: nat)
    returns (queue: seq<Read>, files: map<FileId, nat>, ghost lo: nat)
    requires lo0 <= k < |log| && queue0 == log[lo0..k] && Counted(files0, queue0)
    requires forall i :: 0 <= i < lo0 ==> log[k].at - log[i].at > window
    ensures lo <= k && queue == log[lo..k] && Counted(files, queue)
    ensures First(log, window, k, 0) == lo
  {
    queue, files, lo := queue0, files0, lo0;
    while queue != [] && log[k].at - queue[0].at > window
      invariant 0 <= lo <= k
      invariant queue == log[lo..k] && Counted(files, queue)
      invariant forall i :: 0 <= i < lo ==> log[k].at - log[i].at > window
      decreases |queue|
    {
      queue, files := Pop(queue, files);
      lo := lo + 1;
    }
    FirstIs(log, window, k, lo);
  }

  method Push(queue0: seq<Read>, files0: map<FileId, nat>, e: Read) returns (queue: seq<Read>, files: map<FileId, nat>)
    requires Counted(files0, queue0)
    ensures queue == queue0 + [e] && Counted(files, queue) && |files| == |Files(queue)|
  {
    CountedPush(files0, queue0, e);
    queue := queue0 + [e];
    files := files0[e.file := (if e.file in files0 then files0[e.file] else 0) + 1];
    CountedSize(files, queue);
  }

  lemma PushWindow(log: seq<Read>, window: nat, k: nat, queue: seq<Read>)
    requires k < |log| && queue == log[First(log, window, k, 0)..k]
    ensures queue + [log[k]] == WindowAt(log, window, k)
  {
  }

  /** Admit read `k`: expire, push, count. */
  method Admit(log: seq<Read>, window: nat, k: nat, queue0: seq<Read>, files0: map<FileId, nat>, ghost lo0: nat)
    returns (queue: seq<Read>, files: map<FileId, nat>, ghost lo: nat)
    requires lo0 <= k < |log| && queue0 == log[lo0..k] && Counted(files0, queue0)
    requires forall i :: 0 <= i < lo0 ==> log[k].at - log[i].at > window
    ensures queue == WindowAt(log, window, k) && Counted(files, queue) && |files| == |Files(queue)|
    ensures lo == First(log, window, k, 0)
  {
    queue, files, lo := Expire(log, window, k, queue0, files0, lo0);
    PushWindow(log, window, k, queue);
    queue, files := Push(queue, files, log[k]);
  }

  method SlidingPeak(log: seq<Read>, window: nat) returns (best: seq<Read>, peak: nat)
    requires Ascending(log)
    ensures (best, peak) == Scan(log, window, |log|)
  {
    var queue: seq<Read>, files: map<FileId, nat> := [], map[];
    best, peak := [], 0;
    ghost var lo := 0;
    var k := 0;
    while k < |log|
      invariant 0 <= lo <= k <= |log|
      invariant queue == log[lo..k] && Counted(files, queue)
      invariant k < |log| ==> forall i :: 0 <= i < lo ==> log[k].at - log[i].at > window
      invariant (best, peak) == Scan(log, window, k)
    {
      queue, files, lo := Admit(log, window, k, queue, files, lo);
      if |files| > peak {
        peak, best := |files|, queue;
      }
      k := k + 1;
      if k < |log| { StillExpired(log, window, k); }
    }
  }

  /** What was out of the window of one read is out of the window of the next. */
  lemma StillExpired(log: seq<Read>, window: nat, k: nat)
    requires Ascending(log) && 0 < k < |log|
    ensures forall i :: 0 <= i < First(log, window, k - 1, 0) ==> log[k].at - log[i].at > window
  {
    assert log[k - 1].at <= log[k].at;
  }

  // ---- what it means ------------------------------------------------------------------

  /** A set of reads, by position, no two of which are more than `window` apart. */
  predicate Fits(log: seq<Read>, window: nat, picks: set<nat>) {
    && (forall i :: i in picks ==> i < |log|)
    && (forall i, j :: i in picks && j in picks ==> log[i].at - log[j].at <= window)
  }

  function FilesAt(log: seq<Read>, picks: set<nat>): set<FileId>
    requires forall i :: i in picks ==> i < |log|
  {
    set i | i in picks :: log[i].file
  }

  lemma {:induction false} ScanDominates(log: seq<Read>, window: nat, n: nat, k: nat)
    requires k < n <= |log|
    ensures |Files(WindowAt(log, window, k))| <= Scan(log, window, n).1
  {
    if k < n - 1 { ScanDominates(log, window, n - 1, k); }
  }

  /** Any fitting set lies inside the window that ends at its latest read. */
  lemma FitsInsideWindow(log: seq<Read>, window: nat, picks: set<nat>, k: nat)
    requires Ascending(log) && Fits(log, window, picks) && k in picks
    requires forall i :: i in picks ==> i <= k
    ensures FilesAt(log, picks) <= Files(WindowAt(log, window, k))
  {
    var lo := First(log, window, k, 0);
    forall f | f in FilesAt(log, picks) ensures f in Files(WindowAt(log, window, k)) {
      var i :| i in picks && log[i].file == f;
      assert log[k].at - log[i].at <= window;
      assert lo <= i;
      assert WindowAt(log, window, k)[i - lo] == log[i];
    }
  }

  lemma {:induction false} Latest(picks: set<nat>) returns (k: nat)
    requires picks != {}
    ensures k in picks && forall i :: i in picks ==> i <= k
  {
    var x :| x in picks;
    if picks == {x} {
      k := x;
    } else {
      var rest := picks - {x};
      var y := Latest(rest);
      k := if x < y then y else x;
      forall i | i in picks ensures i <= k {
        if i != x { assert i in rest; }
      }
    }
  }

  /** No set of reads spanning at most the window has more distinct files than `peak`. */
  lemma PeakIsUpperBound(log: seq<Read>, window: nat, picks: set<nat>)
    requires Ascending(log) && Fits(log, window, picks)
    ensures |FilesAt(log, picks)| <= Scan(log, window, |log|).1
  {
    if picks == {} {
      assert FilesAt(log, picks) == {};
    } else {
      var k := Latest(picks);
      FitsInsideWindow(log, window, picks, k);
      Smaller(FilesAt(log, picks), Files(WindowAt(log, window, k)));
      ScanDominates(log, window, |log|, k);
    }
  }

  /** `best` is the earliest window that reaches `peak`. */
  lemma {:induction false} BestIsEarliest(log: seq<Read>, window: nat, n: nat) returns (k: nat)
    requires n <= |log| && Scan(log, window, n).1 > 0
    ensures k < n && Scan(log, window, n).0 == WindowAt(log, window, k)
    ensures |Files(WindowAt(log, window, k))| == Scan(log, window, n).1
    ensures forall j :: 0 <= j < k ==> |Files(WindowAt(log, window, j))| < |Files(WindowAt(log, window, k))|
  {
    hide WindowAt, Files;
    var (best, peak) := Scan(log, window, n - 1);
    if |Files(WindowAt(log, window, n - 1))| > peak {
      k := n - 1;
      forall j | 0 <= j < k ensures |Files(WindowAt(log, window, j))| < |Files(WindowAt(log, window, k))| {
        ScanDominates(log, window, n - 1, j);
      }
    } else {
      k := BestIsEarliest(log, window, n - 1);
    }
  }

  lemma SliceFiles(log: seq<Read>, lo: nat, k: nat, picks: set<nat>)
    requires lo <= k < |log| && picks == set i: nat | lo <= i <= k && log[i] in log[lo..k + 1]
    ensures FilesAt(log, picks) == Files(log[lo..k + 1])
  {
    var w := log[lo..k + 1];
    forall f | f in Files(w) ensures f in FilesAt(log, picks) {
      var i :| 0 <= i < |w| && w[i].file == f;
      assert log[lo + i] == w[i] && lo + i in picks;
    }
  }

  /** `best` itself is a fitting set that reaches `peak`. */
  lemma PeakIsReached(log: seq<Read>, window: nat) returns (picks: set<nat>)
    requires Ascending(log)
    ensures Fits(log, window, picks)
    ensures |FilesAt(log, picks)| == Scan(log, window, |log|).1
  {
    if Scan(log, window, |log|).1 == 0 {
      picks := {};
      assert FilesAt(log, picks) == {};
    } else {
      var k := BestIsEarliest(log, window, |log|);
      var lo := First(log, window, k, 0);
      picks := set i: nat | lo <= i <= k && log[i] in WindowAt(log, window, k);
        SliceFiles(log, lo, k, picks);
    }
  }

  /** The bulk rule's condition holds exactly when some set of reads within the
      window touches that many distinct files. */
  lemma BulkExactly(log: seq<Read>, window: nat, threshold: nat)
    requires Ascending(log)
    ensures Scan(log, window, |log|).1 >= threshold <==>
              exists picks :: Fits(log, window, picks) && |FilesAt(log, picks)| >= threshold
  {
    if Scan(log, window, |log|).1 >= threshold {
      var picks := PeakIsReached(log, window);
    }
    forall picks | Fits(log, window, picks) && |FilesAt(log, picks)| >= threshold
      ensures Scan(log, window, |log|).1 >= threshold
    {
      PeakIsUpperBound(log, window, picks);
    }
  }
}
