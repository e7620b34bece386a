/** The SCPI error/event queue (section 21.8 of SCPI-99 Volume 2): a 32-slot ring with an
    overflow flag, against a plain FIFO. */
module ErrorQueue {

  datatype Option<+T> = None | Some(value: T)

  const ERRQ_SIZE := 32
  const ERR_NONE := 0
  const ERR_QUEUE_OVERFLOW := -350

  datatype Entry = Entry(error: int, syndrome: Option<string>)

  datatype Fifo = Fifo(live: seq<Entry>, overflow: bool)

  const EMPTY := Fifo([], false)

  /** One slot of the ring always stays free. */
  predicate Full(f: Fifo) { |f.live| >= ERRQ_SIZE - 1 }

  function Post(f: Fifo, e: Entry): Fifo {
    if Full(f) then f.(overflow := true) else f.(live := f.live + [e])
  }

  /** The oldest entry; on an empty queue one overflow report if entries were lost, then
      "no error". */
  function Take(f: Fifo): (Entry, Fifo) {
    if f.live != [] then (f.live[0], f.(live := f.live[1..]))
    else if f.overflow then (Entry(ERR_QUEUE_OVERFLOW, None), f.(overflow := false))
    else (Entry(ERR_NONE, None), f)
  }

  function Count(f: Fifo): nat {
    if f.live == [] then 0 else |f.live| + if f.overflow then 1 else 0
  }

  /** The queue after n takes. */
  function AfterTakes(f: Fifo, n: nat): Fifo
    decreases n
  {
    if n == 0 then f else AfterTakes(Take(f).1, n - 1)
  }

  /** What the count means: on a queue of errors that is not empty, that many takes give
      an error each, and every later one gives none. */
  lemma {:induction false} CountIsTakes(f: Fifo, n: nat)
    requires f.live != [] && forall i :: 0 <= i < |f.live| ==> f.live[i].error != ERR_NONE
    ensures Take(AfterTakes(f, n)).0.error != ERR_NONE <==> n < Count(f)
    decreases n
  {
    if n > 0 {
      var f1 := Take(f).1;
      if f1.live != [] {
        CountIsTakes(f1, n - 1);
      } else if n > 1 {
        var f2 := Take(f1).1;
        EmptyStays(f2, n - 2);
        assert AfterTakes(f, n) == AfterTakes(f2, n - 2);
      }
    }
  }

  lemma {:induction false} EmptyStays(f: Fifo, n: nat)
    requires f == EMPTY
    ensures AfterTakes(f, n) == EMPTY
    decreases n
  {
    if n > 0 { EmptyStays(Take(f).1, n - 1); }
  }

  /** The slot after this one. */
  function Next(i: nat): nat { if i + 1 == ERRQ_SIZE then 0 else i + 1 }

  /** Slots of a ring from one place up to another, wrapping. */
  function Slots(ring: seq<Entry>, tail: nat, head: nat): (s: seq<Entry>)
    requires tail < ERRQ_SIZE && head < ERRQ_SIZE && |ring| == ERRQ_SIZE
    ensures |s| < ERRQ_SIZE
  {
    if tail <= head then ring[tail..head] else ring[tail..] + ring[..head]
  }

  lemma SlotAdded(ring: seq<Entry>, tail: nat, head: nat, e: Entry)
    requires tail < ERRQ_SIZE && head < ERRQ_SIZE && |ring| == ERRQ_SIZE && Next(head) != tail
    ensures Slots(ring[head := e], tail, Next(head)) == Slots(ring, tail, head) + [e]
  {
    var ring' := ring[head := e];
    if tail <= head {
      assert ring'[tail..head + 1] == ring[tail..head] + [e];
    } else {
      assert ring'[tail..] == ring[tail..] && ring'[..head + 1] == ring[..head] + [e];
    }
  }

  class Queue {
    var head: nat
    var tail: nat
    var overflow: bool
    const q: array<Entry>

    ghost predicate Valid()
      reads this
    {
      q.Length == ERRQ_SIZE && head < ERRQ_SIZE && tail < ERRQ_SIZE
    }

    /** Slots in use, oldest first. */
    ghost function Live(): (s: seq<Entry>)
      requires Valid()
      reads this, q
      ensures |s| < ERRQ_SIZE
    {
      Slots(q[..], tail, head)
    }

    ghost predicate InUse(i: nat)
      reads this
    {
      if tail <= head then tail <= i < head else tail <= i || i < head
    }

    /** Slots not in use hold no syndrome. */
    ghost predicate Clean()
      requires Valid()
      reads this, q
    {
      forall i :: 0 <= i < ERRQ_SIZE && !InUse(i) ==> q[i].syndrome.None?
    }

    ghost function Value(): Fifo
      requires Valid()
      reads this, q
    {
      Fifo(Live(), overflow)
    }

    /** scpi_error_init. */
    constructor ()
      ensures Valid() && Clean() && Value() == EMPTY && fresh(q) && head == tail == 0
    {
      head, tail, overflow := 0, 0, false;
      q := new Entry[ERRQ_SIZE](_ => Entry(ERR_NONE, None));
    }

    /** scpi_error.  A free slot keeps its old syndrome when none is given; on a clean
        queue that is none. */
    method Error(num: int, syndrome: Option<string>)
      requires Valid()
      modifies this, q
      ensures Valid()
      ensures Value() == Post(old(Value()), Entry(num, if syndrome.Some? then syndrome else old(q[head].syndrome)))
      ensures old(Clean()) ==> Clean() && Value() == Post(old(Value()), Entry(num, syndrome))
      ensures !Full(old(Value())) ==> q[old(head)] == Entry(num, if syndrome.Some? then syndrome else old(q[head].syndrome))
    {
      var head1 := head + 1;
      if head1 == ERRQ_SIZE {
        head1 := 0;
      }
      if head1 == tail {
        overflow := true;
      } else {
        ghost var ring, i := q[..], head;
        SlotAdded(ring, tail, i, Entry(num, if syndrome.Some? then syndrome else q[i].syndrome));
        q[head] := q[head].(error := num);
        if syndrome.Some? {
          q[head] := q[head].(syndrome := syndrome);
        }
        head := head + 1;
        if head == ERRQ_SIZE {
          head := 0;
        }
        assert q[..] == ring[i := q[i]];
      }
    }

    /** scpi_error_count. */
    method ErrorCount() returns (count: nat)
      requires Valid()
      ensures count == Count(Value())
    {
      count := 0;
      if head != tail {
        if head > tail {
          count := head - tail;
        } else if head < tail {
          // Unsigned: the difference wraps before the size is added back.
          count := (head + 0x1_0000_0000 - tail + ERRQ_SIZE) % 0x1_0000_0000;
        }
        if overflow {
          count := count + 1;
        }
      }
    }

    /** scpi_error_get: the oldest entry is always right; a report on an empty queue is
        right exactly when the next free slot holds no syndrome, and empties that slot. */
    method ErrorGet() returns (error: int, syndrome: Option<string>)
      requires Valid()
      modifies this, q
      ensures Valid() && error == Take(old(Value())).0.error && Value() == Take(old(Value())).1
      ensures syndrome == old(q[tail].syndrome) && q[old(tail)].syndrome.None?
      ensures Entry(error, syndrome) == Take(old(Value())).0 <==> old(Value()).live != [] || old(q[tail].syndrome).None?
      ensures old(Value()).live == [] ==> tail == old(tail)
      ensures old(Clean()) ==> Clean()
    {
      var cur := tail;
      ghost var live := Live();
      if head != tail {
        error := q[cur].error;
        tail := tail + 1;
        if tail == ERRQ_SIZE {
          tail := 0;
        }
        assert Live() == live[1..];
      } else if overflow {
        error := ERR_QUEUE_OVERFLOW;
        overflow := !overflow;
      } else {
        error := ERR_NONE;
      }
      syndrome := q[cur].syndrome;
      q[cur] := q[cur].(syndrome := None);
      assert live != [] ==> Live() == live[1..];
    }

    lemma LiveSlots()
      requires Valid()
      ensures (forall j :: 0 <= j < ERRQ_SIZE && InUse(j) ==> q[j].syndrome.None?)
         <==> (forall i :: 0 <= i < |Live()| ==> Live()[i].syndrome.None?)
    {
      if forall i :: 0 <= i < |Live()| ==> Live()[i].syndrome.None? {
        forall j | 0 <= j < ERRQ_SIZE && InUse(j) ensures q[j].syndrome.None? {
          assert q[j] == Live()[if tail <= j then j - tail else j + ERRQ_SIZE - tail];
        }
      }
    }

    /** scpi_error_reset: the overflow flag and the slots stay as they are, so the queue
        is clean afterwards exactly when no live entry had a syndrome. */
    method Reset()
      requires Valid()
      modifies this`head, this`tail
      ensures head == tail == 0
      ensures Valid() && Value() == old(Value()).(live := [])
      ensures old(Clean()) ==> (Clean() <==> forall i :: 0 <= i < |old(Live())| ==> old(Live())[i].syndrome.None?)
    {
      LiveSlots();
      head, tail := 0, 0;
    }

    lemma FirstSlot()
      requires Valid()
      ensures Clean() && (forall i :: 0 <= i < |Live()| ==> Live()[i].syndrome.Some?) ==> (q[0].syndrome.Some? <==> InUse(0))
    {
      if InUse(0) {
        assert q[0] == Live()[if tail == 0 then 0 else ERRQ_SIZE - tail];
      }
    }

    /** `*CLS` and then `SYST:ERR?`: the answer is without a syndrome exactly when the
        ring's first slot held none; when every entry posted had one, exactly when no
        entry was waiting in that slot. */
    method ResetThenGet() returns (error: int, syndrome: Option<string>)
      requires Valid()
      modifies this, q
      ensures error == if old(overflow) then ERR_QUEUE_OVERFLOW else ERR_NONE
      ensures Entry(error, syndrome) == Take(old(Value()).(live := [])).0 <==> old(q[0].syndrome).None?
      ensures old(Clean()) && (forall i :: 0 <= i < |old(Live())| ==> old(Live())[i].syndrome.Some?) ==>
                (Entry(error, syndrome) == Take(old(Value()).(live := [])).0 <==> !old(InUse(0)))
    {
      FirstSlot();
      hide Slots, Clean, InUse;
      Reset();
      error, syndrome := ErrorGet();
    }
  }

  /** An error is posted, `*CLS` clears the queue, and `SYST:ERR?` says "No error" with
      the cleared error's syndrome. */
  method StaleReport() returns (error: int, syndrome: Option<string>)
    ensures error == ERR_NONE && syndrome == Some("x")
  {
    var queue := new Queue();
    queue.Error(-113, Some("x"));
    assert queue.InUse(0);
    queue.Reset();
    error, syndrome := queue.ErrorGet();
  }

  // Every run of the queue

  datatype Op = Posting(e: Entry) | Taking | Clearing

  /** How a kept entry left the queue. */
  datatype Exit = Taken(e: Entry) | Cleared(e: Entry)

  /** What a run did: entries posted, kept on arrival and gone since, in order; overflow
      reports; entries lost since the last report. */
  datatype Ledger = Ledger(fifo: Fifo, posted: seq<Entry>, kept: seq<Entry>, gone: seq<Exit>, reports: nat, lost: nat, dropped: nat)

  const OPENING := Ledger(EMPTY, [], [], [], 0, 0, 0)

  function AllCleared(es: seq<Entry>): seq<Exit> { seq(|es|, i requires 0 <= i < |es| => Cleared(es[i])) }

  function Entries(gone: seq<Exit>): seq<Entry> { seq(|gone|, i requires 0 <= i < |gone| => gone[i].e) }

  function Do(l: Ledger, op: Op): Ledger {
    match op
    case Posting(e) =>
      var l1 := l.(fifo := Post(l.fifo, e), posted := l.posted + [e]);
      if Full(l.fifo) then l1.(lost := l.lost + 1, dropped := l.dropped + 1) else l1.(kept := l.kept + [e])
    case Taking =>
      var (e, f) := Take(l.fifo);
      var l1 := l.(fifo := f);
      if l.fifo.live != [] then l1.(gone := l.gone + [Taken(e)])
      else if l.fifo.overflow then l1.(reports := l.reports + 1, lost := 0) else l1
    case Clearing => l.(fifo := l.fifo.(live := []), gone := l.gone + AllCleared(l.fifo.live))
  }

  function Run(l: Ledger, ops: seq<Op>): Ledger
    decreases |ops|
  {
    if ops == [] then l else Run(Do(l, ops[0]), ops[1..])
  }

  predicate Balanced(l: Ledger) {
    && l.kept == Entries(l.gone) + l.fifo.live && |l.posted| == |l.kept| + l.dropped
    && (l.dropped == 0 ==> l.kept == l.posted)
    && (l.fifo.overflow <==> l.lost > 0) && l.lost <= l.dropped && (l.dropped > 0 ==> l.lost > 0 || l.reports > 0)
    && |l.fifo.live| < ERRQ_SIZE && l.reports <= l.dropped - l.lost
  }

  /** One operation on what is gone and what is live. */
  lemma EntriesStep(gone: seq<Exit>, live: seq<Entry>)
    ensures Entries(gone + AllCleared(live)) == Entries(gone) + live
    ensures live != [] ==> Entries(gone + [Taken(live[0])]) + live[1..] == Entries(gone) + live
  {
  }

  lemma DoKeepsBalance(l: Ledger, op: Op)
    requires Balanced(l)
    ensures Balanced(Do(l, op))
  {
    hide Entries, AllCleared;
    EntriesStep(l.gone, l.fifo.live);
    match op
    case Posting(e) => assert Entries(l.gone) + (l.fifo.live + [e]) == Entries(l.gone) + l.fifo.live + [e];
    case Taking =>
    case Clearing => assert Entries(l.gone) + l.fifo.live == Entries(l.gone) + l.fifo.live + [];
  }

  /** Over every run of posting, taking and `*CLS`: the entries kept leave once each in
      order, taken or cleared, or are still queued; kept and dropped entries account for
      all posted ones; the overflow flag is up exactly while a loss has not been reported,
      `*CLS` or not; and a report stands for at least one loss. */
  lemma {:induction false} Accounts(l: Ledger, ops: seq<Op>)
    requires Balanced(l)
    ensures Balanced(Run(l, ops))
    decreases |ops|
  {
    hide Balanced, Do;
    if ops != [] {
      DoKeepsBalance(l, ops[0]);
      Accounts(Do(l, ops[0]), ops[1..]);
    }
  }

  /** From the empty queue. */
  lemma QueueAccounts(ops: seq<Op>)
    ensures Balanced(Run(OPENING, ops))
  {
    Accounts(OPENING, ops);
  }
}
