/** The event bus of `events.rs`: a bounded ring of sequence-numbered entries that refines an
    unbounded log, and what a polling consumer receives from it. */
module EventBus {

  /** `T` is the domain event; the timestamp is shared by one published batch. */
  datatype Entry<T> = Entry(seqNo: nat, timestamp: int, event: T)

  datatype PollResult<T> = PollResult(entries: seq<Entry<T>>, headSeq: nat)

  function Min(a: nat, b: nat): nat { if a <= b then a else b }

  function Max(a: nat, b: nat): nat { if a >= b then a else b }

  /** How many entries the ring keeps: a capacity of zero still keeps the last one. */
  function Window(capacity: nat, n: nat): (k: nat)
    ensures k <= n && (n > 0 ==> k > 0)
  {
    Min(n, Max(capacity, 1))
  }

  /** The entries a batch is stamped with when `n` have been published before. */
  function Stamp<T>(events: seq<T>, n: nat, now: int): (r: seq<Entry<T>>)
    ensures |r| == |events|
    ensures forall i :: 0 <= i < |events| ==> r[i] == Entry(n + 1 + i, now, events[i])
  {
    seq(|events|, i requires 0 <= i < |events| => Entry(n + 1 + i, now, events[i]))
  }

  /** The log numbers its entries 1, 2, 3, ... */
  ghost predicate Numbered<T>(log: seq<Entry<T>>) {
    forall i :: 0 <= i < |log| ==> log[i].seqNo == i + 1
  }

  /** The ring as a function of everything published so far. */
  function RingOf<T>(log: seq<Entry<T>>, capacity: nat): seq<Entry<T>> {
    log[|log| - Window(capacity, |log|)..]
  }

  /** `iter().filter(seq > since).take(limit)` */
  function Newer<T>(ring: seq<Entry<T>>, since: nat): seq<Entry<T>> {
    if ring == [] then []
    else (if ring[0].seqNo > since then [ring[0]] else []) + Newer(ring[1..], since)
  }

  function Take<T>(xs: seq<T>, limit: nat): seq<T> {
    xs[..Min(limit, |xs|)]
  }

  /** On a numbered stretch of the log, filtering is cutting. */
  lemma {:induction false} NewerIsSuffix<T>(ring: seq<Entry<T>>, first: nat, since: nat)
    requires forall i :: 0 <= i < |ring| ==> ring[i].seqNo == first + i
    ensures Newer(ring, since) == ring[Min(|ring|, if since < first then 0 else since + 1 - first)..]
  {
    if ring != [] {
      var rest := ring[1..];
      assert forall i :: 0 <= i < |rest| ==> rest[i] == ring[i + 1];
      NewerIsSuffix(rest, first + 1, since);
      if since < first {
        assert rest[0..] == rest;
      } else {
        var cut := Min(|rest|, since - first);
        assert rest[cut..] == ring[cut + 1..];
      }
    }
  }

  /** First log index that a poll from `since` can still see. */
  function Visible(n: nat, capacity: nat, since: nat): (k: nat)
    ensures k <= n
  {
    Min(n, Max(since, n - Window(capacity, n)))
  }

  /** What a poll returns, read off the log: everything after `since` that is still in the
      window, cut at `limit`. */
  function PollLog<T>(log: seq<Entry<T>>, capacity: nat, since: nat, limit: nat): PollResult<T> {
    PollResult(Take(log[Visible(|log|, capacity, since)..], limit), |log|)
  }

  lemma PollFollowsLog<T>(log: seq<Entry<T>>, capacity: nat, since: nat, limit: nat)
    requires Numbered(log)
    ensures PollResult(Take(Newer(RingOf(log, capacity), since), limit), |log|) == PollLog(log, capacity, since, limit)
  {
    var start := |log| - Window(capacity, |log|);
    var ring := RingOf(log, capacity);
    forall i | 0 <= i < |ring| ensures ring[i].seqNo == start + 1 + i { assert ring[i] == log[start + i]; }
    NewerIsSuffix(ring, start + 1, since);
    var cut := Min(|ring|, if since < start + 1 then 0 else since + 1 - (start + 1));
    assert ring[cut..] == log[start + cut..];
    assert start + cut == Visible(|log|, capacity, since);
  }

  /** Pushing one entry, after popping the front of a full ring, is appending to the log. */
  lemma PushIsAppend<T>(log: seq<Entry<T>>, capacity: nat, entry: Entry<T>)
    ensures var ring := RingOf(log, capacity);
            RingOf(log + [entry], capacity) == (if |ring| >= capacity && |ring| > 0 then ring[1..] else ring) + [entry]
  {
  }

  class EventBusInner<T> {
    var ring: seq<Entry<T>>
    var nextSeq: nat
    const capacity: nat
    /** Everything ever published. */
    ghost var log: seq<Entry<T>>

    ghost predicate Valid()
      reads this
    {
      Numbered(log) && nextSeq == |log| + 1 && ring == RingOf(log, capacity)
    }

    constructor (capacity: nat)
      ensures Valid() && log == [] && this.capacity == capacity
    {
      ring, nextSeq, this.capacity, log := [], 1, capacity, [];
    }

    /** A batch extends the log by its stamped events; the ring stays the last entries of it. */
    method Publish(events: seq<T>, now: int)
      requires Valid()
      modifies this
      ensures Valid()
      ensures log == old(log) + Stamp(events, |old(log)|, now)
    {
      ghost var stamped := Stamp(events, |log|, now);
      for i := 0 to |events|
        invariant Valid()
        invariant log == old(log) + stamped[..i]
      {
        PublishOne(events[i], now);
        assert stamped[..i + 1] == stamped[..i] + [stamped[i]];
      }
      assert stamped[..|events|] == stamped;
    }

    /** The loop body: stamp, evict when full, push. */
    method PublishOne(event: T, now: int)
      requires Valid()
      modifies this
      ensures Valid()
      ensures log == old(log) + [Entry(|old(log)| + 1, now, event)]
    {
      var entry := Entry(nextSeq, now, event);
      PushIsAppend(log, capacity, entry);
      nextSeq := nextSeq + 1;
      if |ring| >= capacity && |ring| > 0 {
        ring := ring[1..];
      }
      ring := ring + [entry];
      log := log + [entry];
    }

    function HeadSeq(): (r: nat)
      requires Valid()
      reads this
      ensures r == |log|
    {
      nextSeq - 1
    }

    method Poll(sinceSeq: nat, limit: nat) returns (r: PollResult<T>)
      requires Valid()
      ensures r == PollLog(log, capacity, sinceSeq, limit)
    {
      PollFollowsLog(log, capacity, sinceSeq, limit);
      r := PollResult(Take(Newer(ring, sinceSeq), limit), HeadSeq());
    }
  }

  // ---------------------------------------------------------------------------
  // One poll
  // ---------------------------------------------------------------------------

  /** A poll returns something exactly when something newer was published and the limit is positive. */
  lemma PollNonemptyIff<T>(log: seq<Entry<T>>, capacity: nat, since: nat, limit: nat)
    ensures PollLog(log, capacity, since, limit).entries != [] <==> |log| > since && limit > 0
  {
  }

  // ---------------------------------------------------------------------------
  // Consumers
  // ---------------------------------------------------------------------------

  datatype BusStep<T> = Publish(events: seq<T>, now: int) | Poll(limit: nat)

  /** A consumer's cursor is the sequence number of the last entry it received. */
  datatype Consumer<T> = Consumer(log: seq<Entry<T>>, cursor: nat, received: seq<Entry<T>>)

  function Advance<T>(c: Consumer<T>, capacity: nat, step: BusStep<T>): Consumer<T> {
    match step
    case Publish(events, now) => c.(log := c.log + Stamp(events, |c.log|, now))
    case Poll(limit) =>
      var got := PollLog(c.log, capacity, c.cursor, limit).entries;
      if got == [] then c
      else c.(cursor := got[|got| - 1].seqNo, received := c.received + got)
  }

  function Consume<T>(capacity: nat, steps: seq<BusStep<T>>): Consumer<T>
    decreases |steps|
  {
    if steps == [] then Consumer([], 0, [])
    else Advance(Consume(capacity, steps[..|steps| - 1]), capacity, steps[|steps| - 1])
  }

  /** The received entries are log entries, in strictly increasing order, up to the cursor. */
  ghost predicate InOrder<T>(c: Consumer<T>) {
    && Numbered(c.log) && c.cursor <= |c.log|
    && (forall i :: 0 <= i < |c.received| ==>
          1 <= c.received[i].seqNo <= c.cursor && c.received[i] == c.log[c.received[i].seqNo - 1])
    && (forall i, j :: 0 <= i < j < |c.received| ==> c.received[i].seqNo < c.received[j].seqNo)
    && (c.received != [] ==> c.received[|c.received| - 1].seqNo == c.cursor)
    && (c.received == [] ==> c.cursor == 0)
  }

  /** Index one past the last log entry a poll delivers. */
  function Reached(n: nat, k: nat, limit: nat): nat
    requires k <= n
  {
    k + Min(limit, n - k)
  }

  /** A poll hands over one stretch of the log and moves the cursor to its end. */
  lemma PollSlice<T>(c: Consumer<T>, capacity: nat, limit: nat)
    requires InOrder(c)
    ensures var k := Visible(|c.log|, capacity, c.cursor);
            var e := Reached(|c.log|, k, limit);
            && c.cursor <= k <= e <= |c.log|
            && Advance(c, capacity, BusStep.Poll(limit)) ==
                 Consumer(c.log, if e == k then c.cursor else e, c.received + c.log[k..e])
  {
    var k := Visible(|c.log|, capacity, c.cursor);
    var e := Reached(|c.log|, k, limit);
    assert PollLog(c.log, capacity, c.cursor, limit).entries == c.log[k..e];
    if e > k { assert c.log[k..e][e - k - 1] == c.log[e - 1]; }
  }

  lemma PollKeepsOrder<T>(c: Consumer<T>, capacity: nat, limit: nat)
    requires InOrder(c)
    ensures InOrder(Advance(c, capacity, BusStep.Poll(limit)))
  {
    PollSlice(c, capacity, limit);
    var k := Visible(|c.log|, capacity, c.cursor);
    var e := Reached(|c.log|, k, limit);
    var c' := Advance(c, capacity, BusStep.Poll(limit));
    forall i | 0 <= i < |c'.received|
      ensures 1 <= c'.received[i].seqNo <= c'.cursor && c'.received[i] == c'.log[c'.received[i].seqNo - 1]
      ensures i >= |c.received| ==> c'.received[i].seqNo == k + i - |c.received| + 1
    {
      if i >= |c.received| { assert c'.received[i] == c.log[k + i - |c.received|]; }
    }
  }

  lemma {:induction false} DeliveryInOrder<T>(capacity: nat, steps: seq<BusStep<T>>)
    ensures InOrder(Consume(capacity, steps))
    decreases |steps|
  {
    if steps != [] {
      DeliveryInOrder(capacity, steps[..|steps| - 1]);
      var c := Consume(capacity, steps[..|steps| - 1]);
      match steps[|steps| - 1] {
        case Publish(events, now) =>
          var c' := Advance(c, capacity, steps[|steps| - 1]);
          assert forall i :: 0 <= i < |c.log| ==> c'.log[i] == c.log[i];
        case Poll(limit) => PollKeepsOrder(c, capacity, limit);
      }
    }
  }

  /** No poll of the run came too late: each found its cursor inside or just before the window. */
  ghost predicate NeverOverrun<T>(capacity: nat, steps: seq<BusStep<T>>)
    decreases |steps|
  {
    steps == [] ||
    var c := Consume(capacity, steps[..|steps| - 1]);
    && NeverOverrun(capacity, steps[..|steps| - 1])
    && (steps[|steps| - 1].Poll? ==> c.cursor >= |c.log| - Window(capacity, |c.log|))
  }

  /** With positive limits, the consumer has received the whole log up to its cursor exactly
      when no poll was overrun. */
  lemma {:induction false} GapFreeIff<T>(capacity: nat, steps: seq<BusStep<T>>)
    requires forall s :: s in steps ==> s.Poll? ==> s.limit > 0
    ensures var c := Consume(capacity, steps);
            c.cursor <= |c.log| && (c.received == c.log[..c.cursor] <==> NeverOverrun(capacity, steps))
    decreases |steps|
  {
    DeliveryInOrder(capacity, steps);
    if steps != [] {
      var init, last := steps[..|steps| - 1], steps[|steps| - 1];
      GapFreeIff(capacity, init);
      var c, c' := Consume(capacity, init), Consume(capacity, steps);
      DeliveryInOrder(capacity, init);
      match last {
        case Publish(events, now) =>
          assert c'.log[..c.cursor] == c.log[..c.cursor];
        case Poll(limit) => PollGapFreeIff(c, capacity, limit);
      }
    }
  }

  lemma PollGapFreeIff<T>(c: Consumer<T>, capacity: nat, limit: nat)
    requires InOrder(c) && limit > 0
    ensures var c' := Advance(c, capacity, BusStep.Poll(limit));
            c'.cursor <= |c'.log| &&
            (c'.received == c'.log[..c'.cursor] <==>
              c.received == c.log[..c.cursor] && c.cursor >= |c.log| - Window(capacity, |c.log|))
  {
    PollSlice(c, capacity, limit);
    var k := Visible(|c.log|, capacity, c.cursor);
    var e := Reached(|c.log|, k, limit);
    if e > k {
      assert c.log[..k] + c.log[k..e] == c.log[..e];
      if c.received + c.log[k..e] == c.log[..e] {
        assert |c.received| == k;
        assert c.received == (c.received + c.log[k..e])[..k] == c.log[..k];
        if k > 0 { assert c.received[k - 1].seqNo == k == c.cursor; }
      }
    } else {
      assert k == |c.log| == c.cursor && c.log[k..e] == [];
    }
  }

  /** After a nonempty poll the cursor has caught up with the head exactly when the limit did
      not cut the answer short. */
  lemma CaughtUpIff<T>(c: Consumer<T>, capacity: nat, limit: nat)
    requires InOrder(c) && PollLog(c.log, capacity, c.cursor, limit).entries != []
    ensures Advance(c, capacity, BusStep.Poll(limit)).cursor == |c.log|
            <==> |c.log| - Visible(|c.log|, capacity, c.cursor) <= limit
  {
    PollSlice(c, capacity, limit);
  }

  /** The poll result's own comment advises polling next from its `head_seq`. A consumer that
      does so receives, from this poll and any later one, every entry that was buffered at the
      first poll exactly when the limit did not cut that first answer short. */
  lemma HeadAsCursorLosesIff<T>(log: seq<Entry<T>>, later: seq<Entry<T>>, capacity: nat, since: nat, limit: nat,
                                limit2: nat)
    requires Numbered(log + later)
    ensures var first := PollLog(log, capacity, since, limit);
            var second := PollLog(log + later, capacity, first.headSeq, limit2);
            (forall i :: Visible(|log|, capacity, since) <= i < |log| ==> log[i] in first.entries + second.entries)
            <==> |log| - Visible(|log|, capacity, since) <= limit
  {
    var all, k := log + later, Visible(|log|, capacity, since);
    var first := PollLog(log, capacity, since, limit);
    var second := PollLog(all, capacity, first.headSeq, limit2);
    assert first.entries == log[k..Reached(|log|, k, limit)];
    forall i | 0 <= i < |second.entries| ensures second.entries[i].seqNo > |log| {
      assert second.entries[i] == all[Visible(|all|, capacity, |log|) + i];
    }
    if |log| - k <= limit {
      forall i | k <= i < |log| ensures log[i] in first.entries { assert first.entries[i - k] == log[i]; }
    } else {
      var lost := log[|log| - 1];
      assert lost == all[|log| - 1];
      forall i | 0 <= i < |first.entries| ensures first.entries[i].seqNo < |log| {
        assert first.entries[i] == all[k + i];
      }
      assert lost !in first.entries + second.entries;
    }
  }
}
