// One signal's bounded queue in the batch processor, with the record of every
// removal from it. A lane keeps the whole submission history, so that what
// happened to each record can be stated by its position.
module Lane {

  // An opaque payload: nothing here looks inside one.
  type Record = int

  // Why records left a queue, and what became of them.
  datatype Fate =
    | Evicted                    // pushed out by a newer record
    | InFlight                   // drained, export not resolved yet
    | Delivered(rejected: int)   // exported, with the collector's own rejection count
    | Failed                     // the export raised
    | Cancelled                  // the export was cancelled

  // Records from..to of the history left the queue together, at a moment when
  // `seen` records had been submitted.
  datatype Removal = Removal(from: int, to: int, seen: int, fate: Fate)

  datatype Lane = Lane(queue: seq<Record>, history: seq<Record>, log: seq<Removal>) {
    // Number of records that have left the queue.
    function Head(): int { |history| - |queue| }
  }

  const EMPTY := Lane([], [], [])

  function Max(a: int, b: int): int { if a < b then b else a }
  function Min(a: int, b: int): int { if a < b then a else b }

  // ---- the removal log ----

  function Len(r: Removal): int { r.to - r.from }

  // `exported += max(0, len(batch) - partial.rejected)`
  function ExportedOf(r: Removal): int {
    if r.fate.Delivered? then Max(0, Len(r) - r.fate.rejected) else 0
  }

  function DroppedOf(r: Removal): int {
    if r.fate.Evicted? || r.fate.Failed? || r.fate.Cancelled? then Len(r) else 0
  }

  // The collector's rejections, capped at the batch.
  function RejectedOf(r: Removal): int {
    if r.fate.Delivered? then Min(Len(r), r.fate.rejected) else 0
  }

  function PendingOf(r: Removal): int {
    if r.fate.InFlight? then Len(r) else 0
  }

  function Total(log: seq<Removal>, weight: Removal -> int): int {
    if log == [] then 0 else Total(log[..|log| - 1], weight) + weight(log[|log| - 1])
  }

  lemma TotalAppend(log: seq<Removal>, r: Removal, weight: Removal -> int)
    ensures Total(log + [r], weight) == Total(log, weight) + weight(r)
  {
    assert (log + [r])[..|log|] == log;
  }

  lemma {:induction false} TotalUpdate(log: seq<Removal>, i: nat, r: Removal, weight: Removal -> int)
    requires i < |log|
    ensures Total(log[i := r], weight) == Total(log, weight) - weight(log[i]) + weight(r)
  {
    var n := |log| - 1;
    if i == n {
      assert log[i := r][..n] == log[..n];
    } else {
      assert log[i := r][..n] == log[..n][i := r];
      TotalUpdate(log[..n], i, r, weight);
    }
  }

  // Every removed record has exactly one fate.
  lemma {:induction false} TotalSplits(log: seq<Removal>)
    ensures Total(log, Len)
         == Total(log, ExportedOf) + Total(log, DroppedOf) + Total(log, RejectedOf) + Total(log, PendingOf)
  {
    if log != [] { TotalSplits(log[..|log| - 1]); }
  }

  // The entry is what the code does: an eviction removes the one record that
  // is maxQueue older than the newest, a drain takes everything submitted so far.
  ghost predicate Explained(maxQueue: nat, r: Removal) {
    && r.from < r.to
    && (if r.fate.Evicted? then r.to == r.from + 1 && r.seen == r.to + maxQueue else r.to == r.seen)
  }

  // The removals cover the positions 0..end one after the other.
  ghost predicate Tiles(maxQueue: nat, log: seq<Removal>, end: int) {
    if log == [] then end == 0
    else
      var last := log[|log| - 1];
      && Explained(maxQueue, last) && last.to == end
      && Tiles(maxQueue, log[..|log| - 1], last.from)
  }

  lemma TilesAppend(maxQueue: nat, log: seq<Removal>, end: int, r: Removal)
    requires Tiles(maxQueue, log, end) && r.from == end && Explained(maxQueue, r)
    ensures Tiles(maxQueue, log + [r], r.to)
  {
    assert (log + [r])[..|log|] == log;
  }

  lemma {:induction false} TilesUpdate(maxQueue: nat, log: seq<Removal>, end: int, i: nat, r: Removal)
    requires Tiles(maxQueue, log, end) && i < |log|
    requires r.from == log[i].from && r.to == log[i].to && Explained(maxQueue, r)
    ensures Tiles(maxQueue, log[i := r], end)
  {
    var n := |log| - 1;
    if i == n {
      assert log[i := r][..n] == log[..n];
    } else {
      assert log[i := r][..n] == log[..n][i := r];
      TilesUpdate(maxQueue, log[..n], log[n].from, i, r);
    }
  }

  lemma {:induction false} TilesTotal(maxQueue: nat, log: seq<Removal>, end: int)
    requires Tiles(maxQueue, log, end)
    ensures Total(log, Len) == end
  {
    if log != [] { TilesTotal(maxQueue, log[..|log| - 1], log[|log| - 1].from); }
  }

  lemma {:induction false} TilesEntry(maxQueue: nat, log: seq<Removal>, end: int, i: nat)
    requires Tiles(maxQueue, log, end) && i < |log|
    ensures Explained(maxQueue, log[i]) && log[i].to <= end
    ensures i > 0 ==> log[i - 1].to == log[i].from
    ensures i == 0 ==> log[i].from == 0
  {
    var n := |log| - 1;
    if i < n {
      TilesEntry(maxQueue, log[..n], log[n].from, i);
    } else if n > 0 {
      TilesEntry(maxQueue, log[..n], log[n].from, n - 1);
    }
  }

  // Removals are in order and do not overlap.
  lemma {:induction false} TilesOrdered(maxQueue: nat, log: seq<Removal>, end: int, i: nat, j: nat)
    requires Tiles(maxQueue, log, end) && i < j < |log|
    ensures log[i].to <= log[j].from
    decreases j
  {
    TilesEntry(maxQueue, log, end, j);
    if i < j - 1 {
      TilesOrdered(maxQueue, log, end, i, j - 1);
      TilesEntry(maxQueue, log, end, j - 1);
    }
  }

  // Every position that has left the queue belongs to a removal.
  lemma {:induction false} TilesCover(maxQueue: nat, log: seq<Removal>, end: int, n: nat) returns (i: nat)
    requires Tiles(maxQueue, log, end) && n < end
    ensures i < |log| && log[i].from <= n < log[i].to
  {
    var last := |log| - 1;
    if log[last].from <= n {
      i := last;
    } else {
      i := TilesCover(maxQueue, log[..last], log[last].from, n);
    }
  }

  // ---- operations ----

  // deque.append on a deque of bounded length.
  function Put(maxQueue: nat, l: Lane, r: Record): Lane {
    var history := l.history + [r];
    if |l.queue| == maxQueue then
      Lane((l.queue + [r])[1..], history, l.log + [Removal(l.Head(), l.Head() + 1, |history|, Evicted)])
    else
      Lane(l.queue + [r], history, l.log)
  }

  function PutAll(maxQueue: nat, l: Lane, rs: seq<Record>): Lane
    decreases |rs|
  {
    if rs == [] then l else PutAll(maxQueue, Put(maxQueue, l, rs[0]), rs[1..])
  }

  // How many records the calls push out.
  function Evictions(maxQueue: nat, l: Lane, rs: seq<Record>): nat
    decreases |rs|
  {
    if rs == [] then 0
    else (if |l.queue| == maxQueue then 1 else 0) + Evictions(maxQueue, Put(maxQueue, l, rs[0]), rs[1..])
  }

  // One turn of the loop over the submitted records.
  lemma PutAllTurn(maxQueue: nat, l: Lane, rs: seq<Record>, i: nat)
    requires i <= |rs|
    ensures i < |rs| ==> var p := Put(maxQueue, l, rs[i]);
      && PutAll(maxQueue, l, rs[i..]) == PutAll(maxQueue, p, rs[i + 1..])
      && Evictions(maxQueue, l, rs[i..])
           == (if |l.queue| == maxQueue then 1 else 0) + Evictions(maxQueue, p, rs[i + 1..])
      && p.queue == if |l.queue| == maxQueue then (l.queue + [rs[i]])[1..] else l.queue + [rs[i]]
    ensures i == |rs| ==> PutAll(maxQueue, l, rs[i..]) == l && Evictions(maxQueue, l, rs[i..]) == 0
  {
    if i < |rs| {
      assert rs[i..][0] == rs[i] && rs[i..][1..] == rs[i + 1..];
    }
  }

  // list(queue); queue.clear()
  function Drain(l: Lane): Lane {
    Lane([], l.history, l.log + [Removal(l.Head(), |l.history|, |l.history|, InFlight)])
  }

  // The export of entry i is over.
  function Settle(l: Lane, i: nat, fate: Fate): Lane
    requires i < |l.log|
  {
    l.(log := l.log[i := l.log[i].(fate := fate)])
  }

  // ---- the invariant of a lane ----

  // The queue is the tail of the history, the log explains everything before it,
  // and `pending` is the entry whose export is running, if there is one.
  ghost predicate LaneOk(maxQueue: nat, l: Lane, pending: int) {
    && |l.queue| <= maxQueue && |l.queue| <= |l.history|
    && l.queue == l.history[l.Head()..]
    && Tiles(maxQueue, l.log, l.Head())
    && pending < |l.log|
    && (if pending < 0 then Total(l.log, PendingOf) == 0
        else l.log[pending].fate.InFlight? && Total(l.log, PendingOf) == Len(l.log[pending]))
  }

  lemma PutOk(maxQueue: nat, l: Lane, r: Record, pending: int)
    requires LaneOk(maxQueue, l, pending)
    ensures var p := Put(maxQueue, l, r);
      && LaneOk(maxQueue, p, pending)
      && |p.history| == |l.history| + 1
      && (pending >= 0 ==> p.log[pending] == l.log[pending])
      && |p.log| >= |l.log|
      && Total(p.log, ExportedOf) == Total(l.log, ExportedOf)
      && Total(p.log, RejectedOf) == Total(l.log, RejectedOf)
      && Total(p.log, DroppedOf) == Total(l.log, DroppedOf) + (if |l.queue| == maxQueue then 1 else 0)
      && l.history <= p.history
  {
    var p := Put(maxQueue, l, r);
    if |l.queue| == maxQueue {
      var e := Removal(l.Head(), l.Head() + 1, |p.history|, Evicted);
      TilesAppend(maxQueue, l.log, l.Head(), e);
      TotalAppend(l.log, e, ExportedOf);
      TotalAppend(l.log, e, RejectedOf);
      TotalAppend(l.log, e, DroppedOf);
      TotalAppend(l.log, e, PendingOf);
    }
    assert l.queue + [r] == p.history[l.Head()..];
    assert p.queue == p.history[p.Head()..];
  }

  lemma {:induction false} PutAllOk(maxQueue: nat, l: Lane, rs: seq<Record>, pending: int)
    requires LaneOk(maxQueue, l, pending)
    ensures var p := PutAll(maxQueue, l, rs);
      && LaneOk(maxQueue, p, pending)
      && p.history == l.history + rs
      && (pending >= 0 ==> p.log[pending] == l.log[pending])
      && |p.log| >= |l.log|
      && Total(p.log, ExportedOf) == Total(l.log, ExportedOf)
      && Total(p.log, RejectedOf) == Total(l.log, RejectedOf)
      && Total(p.log, DroppedOf) == Total(l.log, DroppedOf) + Evictions(maxQueue, l, rs)
    decreases |rs|
  {
    if rs != [] {
      PutOk(maxQueue, l, rs[0], pending);
      PutAllOk(maxQueue, Put(maxQueue, l, rs[0]), rs[1..], pending);
      assert l.history + [rs[0]] + rs[1..] == l.history + rs;
    }
  }

  // Overflow keeps the newest maxQueue records, and drops one for each beyond.
  lemma {:induction false} OverflowKeepsNewest(maxQueue: nat, l: Lane, rs: seq<Record>)
    requires |l.queue| <= maxQueue && |l.queue| <= |l.history|
    ensures var all := l.queue + rs; var extra := Max(0, |all| - maxQueue);
      PutAll(maxQueue, l, rs).queue == all[extra..] && Evictions(maxQueue, l, rs) == extra
    decreases |rs|
  {
    var all := l.queue + rs;
    if rs == [] {
      assert all == l.queue;
    } else {
      var p := Put(maxQueue, l, rs[0]);
      OverflowKeepsNewest(maxQueue, p, rs[1..]);
      if |l.queue| == maxQueue {
        assert p.queue + rs[1..] == all[1..];
      } else {
        assert p.queue + rs[1..] == all;
      }
    }
  }

  lemma DrainOk(maxQueue: nat, l: Lane)
    requires LaneOk(maxQueue, l, -1) && l.queue != []
    ensures var d := Drain(l);
      && LaneOk(maxQueue, d, |l.log|)
      && d.log[|l.log|].from == l.Head() && d.log[|l.log|].to == |l.history|
      && 0 <= l.Head() < |l.history| && l.queue == l.history[l.Head()..|l.history|]
      && Total(d.log, ExportedOf) == Total(l.log, ExportedOf)
      && Total(d.log, RejectedOf) == Total(l.log, RejectedOf)
      && Total(d.log, DroppedOf) == Total(l.log, DroppedOf)
  {
    var r := Removal(l.Head(), |l.history|, |l.history|, InFlight);
    TilesAppend(maxQueue, l.log, l.Head(), r);
    TotalAppend(l.log, r, ExportedOf);
    TotalAppend(l.log, r, RejectedOf);
    TotalAppend(l.log, r, DroppedOf);
    TotalAppend(l.log, r, PendingOf);
  }

  lemma SettleOk(maxQueue: nat, l: Lane, i: nat, fate: Fate)
    requires LaneOk(maxQueue, l, i) && !fate.InFlight? && !fate.Evicted?
    ensures var d := Settle(l, i, fate); var r := l.log[i].(fate := fate);
      && LaneOk(maxQueue, d, -1)
      && Total(d.log, ExportedOf) == Total(l.log, ExportedOf) + ExportedOf(r)
      && Total(d.log, RejectedOf) == Total(l.log, RejectedOf) + RejectedOf(r)
      && Total(d.log, DroppedOf) == Total(l.log, DroppedOf) + DroppedOf(r)
  {
    var r := l.log[i].(fate := fate);
    TilesEntry(maxQueue, l.log, l.Head(), i);
    TilesUpdate(maxQueue, l.log, l.Head(), i, r);
    TotalUpdate(l.log, i, r, ExportedOf);
    TotalUpdate(l.log, i, r, RejectedOf);
    TotalUpdate(l.log, i, r, DroppedOf);
    TotalUpdate(l.log, i, r, PendingOf);
  }
}
