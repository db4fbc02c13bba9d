/** The loader's bounded write batches (BoundedBatch.java).

    Bars of Kafka source records are appended to one pending list; whenever the
    list holds `maximumRecords` entries it is handed out as a batch.  Each entry
    remembers its source record and whether it is that record's last bar. */
module Batching {
  import opened Options

  /** A decoded Alpaca bar; nothing below depends on its contents. */
  type Bar(==, !new)

  /** A Kafka source record of the one topic the loader subscribes to. */
  datatype Source = Source(partition: nat, offset: nat)

  datatype Entry = Entry(bar: Bar, source: Source, finalBar: bool)

  type Batch = seq<Entry>

  /** The entries of one source record: only the last bar carries the final tag. */
  function Tagged(source: Source, bars: seq<Bar>): (entries: seq<Entry>)
    ensures |entries| == |bars|
  {
    seq(|bars|, i requires 0 <= i < |bars| => Entry(bars[i], source, i == |bars| - 1))
  }

  /** The bars of the entries, which is all the real table keeps of them. */
  function BarsOf(entries: seq<Entry>): (bars: seq<Bar>)
    ensures |bars| == |entries|
  {
    seq(|entries|, i requires 0 <= i < |entries| => entries[i].bar)
  }

  lemma BarsAppend(a: seq<Entry>, b: seq<Entry>)
    ensures BarsOf(a + b) == BarsOf(a) + BarsOf(b)
  {
  }

  function Sources(entries: seq<Entry>): set<Source> {
    set e | e in entries :: e.source
  }

  function Concat(batches: seq<Batch>): seq<Entry> {
    if batches == [] then [] else batches[0] + Concat(batches[1..])
  }

  /** The stream cut into full blocks, and what is left over. */
  function Blocks(size: nat, stream: seq<Entry>): seq<Batch>
    requires size > 0
    decreases |stream|
  {
    if |stream| < size then [] else [stream[..size]] + Blocks(size, stream[size..])
  }

  function Remainder(size: nat, stream: seq<Entry>): (rest: seq<Entry>)
    requires size > 0
    ensures |rest| < size
    decreases |stream|
  {
    if |stream| < size then stream else Remainder(size, stream[size..])
  }

  lemma {:induction false} ConcatAppend(a: seq<Batch>, b: seq<Batch>)
    ensures Concat(a + b) == Concat(a) + Concat(b)
  {
    if a == [] {
      assert a + b == b;
    } else {
      ConcatAppend(a[1..], b);
      assert (a + b)[0] == a[0] && (a + b)[1..] == a[1..] + b;
      Associates(a[0], Concat(a[1..]), Concat(b));
    }
  }

  lemma Associates<T>(a: seq<T>, b: seq<T>, c: seq<T>)
    ensures a + (b + c) == a + b + c
  {
  }

  /** Nothing is lost, duplicated or reordered by cutting. */
  lemma {:induction false} CuttingKeepsStream(size: nat, stream: seq<Entry>)
    requires size > 0
    ensures Concat(Blocks(size, stream)) + Remainder(size, stream) == stream
    decreases |stream|
  {
    if |stream| >= size {
      CuttingKeepsStream(size, stream[size..]);
      assert Blocks(size, stream)[1..] == Blocks(size, stream[size..]);
    }
  }

  /** Cutting can be resumed: what was left over is cut together with what comes next. */
  lemma {:induction false} CuttingResumes(size: nat, s: seq<Entry>, t: seq<Entry>)
    requires size > 0
    ensures Blocks(size, s + t) == Blocks(size, s) + Blocks(size, Remainder(size, s) + t)
    ensures Remainder(size, s + t) == Remainder(size, Remainder(size, s) + t)
    decreases |s|
  {
    if |s| >= size {
      CuttingResumes(size, s[size..], t);
      assert (s + t)[..size] == s[..size];
      assert (s + t)[size..] == s[size..] + t;
    }
  }

  /** Index form of the cut: block k is the k-th slice of `size` entries. */
  lemma {:induction false} BlocksAreSlices(size: nat, stream: seq<Entry>, k: nat)
    requires size > 0 && k < |Blocks(size, stream)|
    ensures (k + 1) * size <= |stream|
    ensures Blocks(size, stream)[k] == stream[k * size..(k + 1) * size]
    decreases |stream|
  {
    if k > 0 {
      var rest := stream[size..];
      BlocksAreSlices(size, rest, k - 1);
      var from := (k - 1) * size;
      assert k * size == from + size && (k + 1) * size == from + 2 * size;
      SliceOfRest(stream, size, from, from + size);
    }
  }

  lemma SliceOfRest<T>(s: seq<T>, d: nat, a: nat, b: nat)
    requires a <= b && d + b <= |s|
    ensures s[d..][a..b] == s[d + a..d + b]
  {
  }

  lemma {:induction false} BlocksCount(size: nat, stream: seq<Entry>)
    requires size > 0
    ensures |Blocks(size, stream)| * size + |Remainder(size, stream)| == |stream|
    decreases |stream|
  {
    if |stream| >= size {
      BlocksCount(size, stream[size..]);
      var n := |Blocks(size, stream[size..])|;
      assert (n + 1) * size == n * size + size;
    }
  }

  lemma {:induction false} BlocksAtMost(size: nat, stream: seq<Entry>)
    requires size > 0
    ensures |Blocks(size, stream)| <= if |stream| < size then 0 else |stream| - size + 1
    decreases |stream|
  {
    if |stream| >= size {
      BlocksAtMost(size, stream[size..]);
    }
  }

  /** BoundedBatch.java as an object; `pending` is the only mutable field. */
  class BoundedBatch {
    const maximumRecords: nat
    var pending: seq<Entry>

    ghost predicate Valid()
      reads this
    {
      |pending| < maximumRecords
    }

    constructor (maximum: nat)
      requires maximum > 0
      ensures Valid() && maximumRecords == maximum && pending == []
    {
      maximumRecords := maximum;
      pending := [];
    }

    /** The constructor's argument check: LOADER_MAX_RECORDS must be positive. */
    static method Create(maximum: int) returns (created: Option<BoundedBatch>)
      ensures created.Some? <==> maximum >= 1
      ensures created.Some? ==> fresh(created.value) && created.value.Valid()
                                && created.value.maximumRecords == maximum && created.value.pending == []
    {
      if maximum < 1 {
        return None;
      }
      var batch := new BoundedBatch(maximum);
      return Some(batch);
    }

    /** The completed batches and what stays pending are, in order, what was pending and the record's
        bars, each with its source, only the last one final. */
    method Add(source: Source, bars: seq<Bar>) returns (completed: seq<Batch>)
      requires Valid()
      modifies this`pending
      ensures Valid()
      ensures var all := Concat(completed) + pending;
              && |all| == |old(pending)| + |bars|
              && forall i :: 0 <= i < |all| ==>
                   all[i] == if i < |old(pending)| then old(pending)[i]
                             else Entry(bars[i - |old(pending)|], source, i == |all| - 1)
      ensures forall b :: b in completed ==> |b| == maximumRecords
      ensures completed == Blocks(maximumRecords, old(pending) + Tagged(source, bars))
      ensures pending == Remainder(maximumRecords, old(pending) + Tagged(source, bars))
    {
      completed := [];
      ghost var entries := Tagged(source, bars);
      assert old(pending) + entries[..0] == old(pending);
      for index := 0 to |bars|
        invariant Valid()
        invariant completed == Blocks(maximumRecords, old(pending) + entries[..index])
        invariant pending == Remainder(maximumRecords, old(pending) + entries[..index])
      {
        ghost var before := old(pending) + entries[..index];
        CuttingResumes(maximumRecords, before, [entries[index]]);
        assert old(pending) + entries[..index + 1] == before + [entries[index]];
        pending := pending + [Entry(bars[index], source, index == |bars| - 1)];
        if |pending| == maximumRecords {
          assert pending[..maximumRecords] == pending && pending[maximumRecords..] == [];
          var full := Drain();
          completed := completed + [full.value];
        }
      }
      assert entries[..|bars|] == entries;
      CutAdded(maximumRecords, old(pending), source, bars, completed, pending);
    }

    predicate IsEmpty()
      reads this
    {
      pending == []
    }

    function BarCount(): nat
      reads this
    {
      |pending|
    }

    /** Distinct source records among the pending bars. */
    function SourceRecordCount(): nat
      reads this
    {
      |Sources(pending)|
    }

    /** `None` stands for the IllegalStateException on an empty batch. */
    method Drain() returns (batch: Option<Batch>)
      modifies this`pending
      ensures pending == []
      ensures batch == if old(pending) == [] then None else Some(old(pending))
    {
      if pending == [] {
        return None;
      }
      batch := Some(pending);
      pending := [];
    }
  }

  lemma CutAdded(size: nat, before: seq<Entry>, source: Source, bars: seq<Bar>, completed: seq<Batch>, rest: seq<Entry>)
    requires size > 0
    requires completed == Blocks(size, before + Tagged(source, bars))
             && rest == Remainder(size, before + Tagged(source, bars))
    ensures var all := Concat(completed) + rest;
            && |all| == |before| + |bars|
            && forall i :: 0 <= i < |all| ==>
                 all[i] == if i < |before| then before[i] else Entry(bars[i - |before|], source, i == |all| - 1)
    ensures forall b :: b in completed ==> |b| == size
  {
    CuttingKeepsStream(size, before + Tagged(source, bars));
    BlockSizes(size, before + Tagged(source, bars));
    AddedInOrder(Concat(completed) + rest, before, source, bars);
  }

  lemma AddedInOrder(all: seq<Entry>, before: seq<Entry>, source: Source, bars: seq<Bar>)
    requires all == before + Tagged(source, bars)
    ensures |all| == |before| + |bars|
    ensures forall i :: 0 <= i < |all| ==>
              all[i] == if i < |before| then before[i] else Entry(bars[i - |before|], source, i == |all| - 1)
  {
  }

  /** A history of calls on one BoundedBatch. */
  datatype Call = AddCall(source: Source, bars: seq<Bar>) | DrainCall

  /** Everything added, in order, regardless of how it was batched. */
  function Stream(calls: seq<Call>): seq<Entry> {
    if calls == [] then []
    else
      var last := calls[|calls| - 1];
      Stream(calls[..|calls| - 1]) + (if last.AddCall? then Tagged(last.source, last.bars) else [])
  }

  datatype Handed = Handed(batches: seq<Batch>, pending: seq<Entry>)

  /** What a history of calls returns and leaves pending, call by call as the
      contracts of Add and Drain say. */
  function Replay(size: nat, calls: seq<Call>): (h: Handed)
    requires size > 0
    ensures |h.pending| < size
  {
    if calls == [] then Handed([], [])
    else
      var h := Replay(size, calls[..|calls| - 1]);
      match calls[|calls| - 1]
      case AddCall(source, bars) =>
        var stream := h.pending + Tagged(source, bars);
        Handed(h.batches + Blocks(size, stream), Remainder(size, stream))
      case DrainCall =>
        if h.pending == [] then h else Handed(h.batches + [h.pending], [])
  }

  /** Adds alone refine plain chunking of the whole stream. */
  lemma {:induction false} AddsRefineChunking(size: nat, calls: seq<Call>)
    requires size > 0
    requires forall c :: c in calls ==> c.AddCall?
    ensures Replay(size, calls) == Handed(Blocks(size, Stream(calls)), Remainder(size, Stream(calls)))
  {
    if calls != [] {
      var last := calls[|calls| - 1];
      AddsRefineChunking(size, calls[..|calls| - 1]);
      CuttingResumes(size, Stream(calls[..|calls| - 1]), Tagged(last.source, last.bars));
    }
  }

  /** With drains anywhere in between, the batches and the pending list are still the stream. */
  lemma {:induction false} DrainsKeepStream(size: nat, calls: seq<Call>)
    requires size > 0
    ensures Concat(Replay(size, calls).batches) + Replay(size, calls).pending == Stream(calls)
  {
    if calls != [] {
      DrainsKeepStream(size, calls[..|calls| - 1]);
      var h := Replay(size, calls[..|calls| - 1]);
      var last := calls[|calls| - 1];
      if last.AddCall? {
        var added := Tagged(last.source, last.bars);
        ConcatAppend(h.batches, Blocks(size, h.pending + added));
        CuttingKeepsStream(size, h.pending + added);
        Regroup(Concat(h.batches), Concat(Blocks(size, h.pending + added)),
                Remainder(size, h.pending + added), h.pending, added);
      } else {
        ConcatAppend(h.batches, [h.pending]);
        ConcatOne(h.pending);
      }
    }
  }

  lemma ConcatOne(b: Batch)
    ensures Concat([b]) == b
  {
    assert [b][1..] == [];
  }

  lemma Regroup<T>(a: seq<T>, b: seq<T>, c: seq<T>, d: seq<T>, e: seq<T>)
    requires b + c == d + e
    ensures a + b + c == a + d + e
  {
    assert a + b + c == a + (b + c) && a + d + e == a + (d + e);
  }

  /** No batch is empty or over-full; a history without drains hands out only full batches. */
  lemma {:induction false} BatchSizes(size: nat, calls: seq<Call>)
    requires size > 0
    ensures forall b :: b in Replay(size, calls).batches ==> 0 < |b| <= size
  {
    if calls != [] {
      BatchSizes(size, calls[..|calls| - 1]);
      var last := calls[|calls| - 1];
      if last.AddCall? {
        BlockSizes(size, Replay(size, calls[..|calls| - 1]).pending + Tagged(last.source, last.bars));
      }
    }
  }

  lemma {:induction false} BlockSizes(size: nat, stream: seq<Entry>)
    requires size > 0
    ensures forall b :: b in Blocks(size, stream) ==> |b| == size
    decreases |stream|
  {
    if |stream| >= size {
      BlockSizes(size, stream[size..]);
    }
  }

  /** Position i of the stream is the one final-tagged entry of `source`, and its last entry. */
  ghost predicate IsOnlyFinal(stream: seq<Entry>, source: Source, i: nat) {
    && i < |stream| && stream[i].source == source && stream[i].finalBar
    && forall j :: 0 <= j < |stream| && stream[j].source == source && j != i ==> j < i && !stream[j].finalBar
  }

  /** Every non-empty source has exactly one final-tagged entry, its last. */
  lemma {:induction false} OneFinalPerSource(calls: seq<Call>, k: nat) returns (i: nat)
    requires forall a, b :: 0 <= a < b < |calls| && calls[a].AddCall? && calls[b].AddCall?
                            ==> calls[a].source != calls[b].source
    requires k < |calls| && calls[k].AddCall? && calls[k].bars != []
    ensures IsOnlyFinal(Stream(calls), calls[k].source, i)
    ensures Stream(calls)[i].bar == calls[k].bars[|calls[k].bars| - 1]
  {
    var init := calls[..|calls| - 1];
    if k == |calls| - 1 {
      i := |Stream(calls)| - 1;
      StreamSources(init);
    } else {
      i := OneFinalPerSource(init, k);
    }
  }

  lemma {:induction false} StreamSources(calls: seq<Call>)
    ensures forall e :: e in Stream(calls) ==> exists c :: c in calls && c.AddCall? && c.source == e.source
  {
    if calls != [] {
      var last := calls[|calls| - 1];
      StreamSources(calls[..|calls| - 1]);
      forall e | e in Stream(calls)
        ensures exists c :: c in calls && c.AddCall? && c.source == e.source
      {
        if e in Stream(calls[..|calls| - 1]) {
          var c :| c in calls[..|calls| - 1] && c.AddCall? && c.source == e.source;
          assert c in calls;
        } else {
          assert last in calls;
        }
      }
    }
  }
}
