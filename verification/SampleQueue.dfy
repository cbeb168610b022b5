/**
 * The lock-free ring between the audio callback and the capture thread.
 *
 * Positions are 64-bit counters that wrap around; slots are positions modulo the capacity.  The
 * concurrent model interleaves one producer and one consumer at every load, slot access and store;
 * the class is the queue as each thread runs it.
 */
module SampleQueue {
  import opened Basics

  const CAPACITY: nat := 32768
  const FRAME: nat := 480
  const WRAPS: nat := 0x2_0000_0000_0000

  type Sample = int

  function Slot(position: nat): (slot: nat)
    ensures slot < CAPACITY
  {
    position % CAPACITY
  }

  /** The counter that stands for the position with this many steps behind it. */
  function Counter(steps: nat): (counter: nat)
    ensures counter < UINT64_SIZE
  {
    steps % UINT64_SIZE
  }

  /** Unsigned 64-bit subtraction. */
  function Distance(write: nat, read: nat): (distance: nat)
    requires write < UINT64_SIZE && read < UINT64_SIZE
    ensures distance < UINT64_SIZE
  {
    if read <= write then write - read else write + UINT64_SIZE - read
  }

  function Min(a: nat, b: nat): nat { if a < b then a else b }

  lemma RemainderIsUnique(n: nat, d: nat, q: nat, r: nat)
    requires d > 0 && n == d * q + r && r < d
    ensures n % d == r
  {
    var k := n / d;
    assert n == d * k + n % d;
    if k < q { StrictFactor(d, k, q); } else if q < k { StrictFactor(d, q, k); }
  }

  lemma StrictFactor(d: nat, a: nat, b: nat)
    requires a < b
    ensures d * a + d <= d * b
  {
    assert d * b == d * a + d * (b - a);
    assert d * (b - a) == d + d * (b - a - 1);
  }

  /** The capacity divides the counter's range, so a wrapped counter still names the right slot. */
  lemma WrappedSlot(steps: nat)
    ensures Slot(Counter(steps)) == Slot(steps)
  {
    var q, r := steps / UINT64_SIZE, Counter(steps);
    assert steps == UINT64_SIZE * q + r;
    assert UINT64_SIZE == CAPACITY * WRAPS;
    assert steps == CAPACITY * (WRAPS * q + r / CAPACITY) + r % CAPACITY;
    RemainderIsUnique(steps, CAPACITY, WRAPS * q + r / CAPACITY, r % CAPACITY);
  }

  /** Wrapped counters still tell the distance of two positions that are close. */
  lemma WrappedDistance(read: nat, write: nat)
    requires read <= write < read + UINT64_SIZE
    ensures Distance(Counter(write), Counter(read)) == write - read
  {
    var q, r := read / UINT64_SIZE, Counter(read);
    assert read == UINT64_SIZE * q + r;
    if r + (write - read) < UINT64_SIZE {
      RemainderIsUnique(write, UINT64_SIZE, q, r + (write - read));
    } else {
      RemainderIsUnique(write, UINT64_SIZE, q + 1, r + (write - read) - UINT64_SIZE);
    }
  }

  lemma WrappedStep(steps: nat, more: nat)
    ensures Counter(Counter(steps) + more) == Counter(steps + more)
  {
    var q, r := (Counter(steps) + more) / UINT64_SIZE, Counter(Counter(steps) + more);
    RemainderIsUnique(steps + more, UINT64_SIZE, steps / UINT64_SIZE + q, r);
  }

  /** Positions less than a capacity apart have different slots. */
  lemma SlotsDiffer(a: nat, b: nat)
    requires a < b < a + CAPACITY
    ensures Slot(a) != Slot(b)
  {
    assert a == CAPACITY * (a / CAPACITY) + Slot(a);
    assert b == CAPACITY * (b / CAPACITY) + Slot(b);
  }

  /** The ring holds these samples, in order, from the position on. */
  ghost predicate Holds(samples: seq<Sample>, position: nat, data: seq<Sample>) {
    |samples| == CAPACITY && forall i :: 0 <= i < |data| ==> samples[Slot(position + i)] == data[i]
  }

  /** Writing the slot behind them adds one more, as long as there is room. */
  lemma HoldsMore(samples: seq<Sample>, position: nat, data: seq<Sample>, sample: Sample)
    requires Holds(samples, position, data) && |data| < CAPACITY
    ensures Holds(samples[Slot(position + |data|) := sample], position, data + [sample])
  {
    var more := samples[Slot(position + |data|) := sample];
    forall i | 0 <= i < |data| + 1 ensures more[Slot(position + i)] == (data + [sample])[i] {
      if i < |data| { SlotsDiffer(position + i, position + |data|); }
    }
  }

  lemma HoldsRest(samples: seq<Sample>, position: nat, data: seq<Sample>, count: nat)
    requires Holds(samples, position, data) && count <= |data|
    ensures Holds(samples, position + count, data[count..])
  {
    forall i | 0 <= i < |data| - count ensures samples[Slot(position + count + i)] == data[count..][i] {
      assert samples[Slot(position + (count + i))] == data[count + i];
    }
  }

  lemma WrappedSlotAt(position: nat, i: nat)
    ensures Slot(Counter(position) + i) == Slot(position + i)
  {
    WrappedSlot(Counter(position) + i);
    WrappedStep(position, i);
    WrappedSlot(position + i);
  }

  /** A wrapped position does as well as the one it stands for. */
  lemma HoldsWrapped(samples: seq<Sample>, position: nat, data: seq<Sample>)
    requires Holds(samples, position, data)
    ensures Holds(samples, Counter(position), data)
  {
    forall i | 0 <= i < |data| ensures samples[Slot(Counter(position) + i)] == data[i] {
      WrappedSlotAt(position, i);
    }
  }

  // ---------------------------------------------------------------- one producer, one consumer

  /** The producer inside push: about to load the read position, or copying with a count it has settled. */
  datatype Producer =
    | Quiet
    | Loading(input: seq<Sample>)
    | Copying(input: seq<Sample>, count: nat, index: nat)

  /**
   * The consumer: inside size (having loaded the read position), about to pop (`framed` when size has
   * just shown a whole frame), or copying out.
   */
  datatype Consumer =
    | Resting
    | Sizing(read: nat)
    | Popping(wanted: nat, framed: bool)
    | Draining(wanted: nat, framed: bool, count: nat, output: seq<Sample>)

  /** The shared ring, both threads, and everything ever accepted by push and handed out by pop. */
  datatype Ring = Ring(
    samples: seq<Sample>,
    read: nat,
    write: nat,
    producer: Producer,
    consumer: Consumer,
    accepted: seq<Sample>,
    popped: seq<Sample>)

  datatype Event =
    | Push(input: seq<Sample>)
    | ProducerStep
    | Pop(wanted: nat)
    | Look
    | ConsumerStep

  predicate Enabled(q: Ring, e: Event) {
    match e
    case Push(_) => q.producer.Quiet?
    case ProducerStep => !q.producer.Quiet?
    case Pop(_) => q.consumer.Resting?
    case Look => q.consumer.Resting?
    case ConsumerStep => !q.consumer.Resting?
  }

  predicate WellFormed(q: Ring) {
    && |q.samples| == CAPACITY && q.read < UINT64_SIZE && q.write < UINT64_SIZE
    && (q.producer.Copying? ==> q.producer.index <= q.producer.count <= |q.producer.input|)
    && (q.consumer.Sizing? ==> q.consumer.read < UINT64_SIZE)
    && (q.consumer.Draining? ==> |q.consumer.output| <= q.consumer.count)
  }

  /** Free room, computed as the code does: it never underflows in a reachable ring. */
  function Room(q: Ring): nat
    requires WellFormed(q)
  {
    var used := Distance(q.write, q.read);
    if used <= CAPACITY then CAPACITY - used else CAPACITY + UINT64_SIZE - used
  }

  function ProducerNext(q: Ring): Ring
    requires WellFormed(q) && !q.producer.Quiet?
  {
    match q.producer
    case Loading(input) => q.(producer := Copying(input, Min(|input|, Room(q)), 0))
    case Copying(input, count, index) =>
      if index < count then
        q.(samples := q.samples[Slot(Counter(q.write + index)) := input[index]],
           producer := Copying(input, count, index + 1))
      else
        q.(write := Counter(q.write + count), producer := Quiet, accepted := q.accepted + input[..count])
  }

  function ConsumerNext(q: Ring): Ring
    requires WellFormed(q) && !q.consumer.Resting?
  {
    match q.consumer
    case Sizing(read) =>
      q.(consumer := if Distance(q.write, read) < FRAME then Resting else Popping(FRAME, true))
    case Popping(wanted, framed) =>
      q.(consumer := Draining(wanted, framed, Min(wanted, Distance(q.write, q.read)), []))
    case Draining(wanted, framed, count, output) =>
      if |output| < count then
        q.(consumer := Draining(wanted, framed, count, output + [q.samples[Slot(Counter(q.read + |output|))]]))
      else
        q.(read := Counter(q.read + count), consumer := Resting, popped := q.popped + output)
  }

  function Next(q: Ring, e: Event): Ring
    requires WellFormed(q) && Enabled(q, e)
  {
    match e
    case Push(input) => q.(producer := Loading(input))
    case ProducerStep => ProducerNext(q)
    case Pop(wanted) => q.(consumer := Popping(wanted, false))
    case Look => q.(consumer := Sizing(q.read))
    case ConsumerStep => ConsumerNext(q)
  }

  ghost predicate Init(q: Ring) {
    && |q.samples| == CAPACITY && q.read == 0 && q.write == 0
    && q.producer == Quiet && q.consumer == Resting && q.accepted == [] && q.popped == []
  }

  /** The samples that are in the queue: accepted but not yet handed out. */
  function Queue(q: Ring): seq<Sample>
    requires |q.popped| <= |q.accepted|
  {
    q.accepted[|q.popped|..]
  }

  ghost predicate Positions(q: Ring) {
    && WellFormed(q)
    && q.write == Counter(|q.accepted|) && q.read == Counter(|q.popped|)
    && q.popped <= q.accepted
    && |q.accepted| <= |q.popped| + CAPACITY
  }

  /** What the producer has copied but not yet published. */
  function Pending(q: Ring): seq<Sample>
    requires WellFormed(q)
  {
    if q.producer.Copying? then q.producer.input[..q.producer.index] else []
  }

  /** Every unread sample, and behind them what the producer is copying, is in its slot. */
  ghost predicate Stored(q: Ring)
    requires Positions(q)
  {
    Holds(q.samples, |q.popped|, Queue(q) + Pending(q))
  }

  /** The producer keeps within the room it has seen. */
  ghost predicate ProducerFits(q: Ring)
    requires Positions(q)
  {
    q.producer.Copying? ==> |Queue(q)| + q.producer.count <= CAPACITY
  }

  /** The consumer keeps within what has been published; a whole frame once seen is still there. */
  ghost predicate ConsumerFits(q: Ring)
    requires Positions(q)
  {
    match q.consumer
    case Resting => true
    case Sizing(read) => read == q.read
    case Popping(wanted, framed) => framed ==> wanted == FRAME && |q.popped| + FRAME <= |q.accepted|
    case Draining(wanted, framed, count, output) =>
      && count <= wanted
      && |q.popped| + count <= |q.accepted|
      && output == q.accepted[|q.popped|..|q.popped| + |output|]
      && (framed ==> count == FRAME)
  }

  ghost predicate Inv(q: Ring) {
    Positions(q) && Stored(q) && ProducerFits(q) && ConsumerFits(q)
  }

  lemma RoomIsFree(q: Ring)
    requires Positions(q)
    ensures Distance(q.write, q.read) == |q.accepted| - |q.popped|
    ensures Room(q) == |q.popped| + CAPACITY - |q.accepted|
  {
    WrappedDistance(|q.popped|, |q.accepted|);
  }

  /** The slot the producer writes holds no sample that has not yet been read. */
  lemma NeverOverwritesUnread(q: Ring, k: nat)
    requires Inv(q) && q.producer.Copying? && q.producer.index < q.producer.count
    requires |q.popped| <= k < |q.accepted|
    ensures Slot(Counter(q.write + q.producer.index)) != Slot(k)
  {
    WrittenSlot(q);
    SlotsDiffer(k, |q.accepted| + q.producer.index);
  }

  lemma WrittenSlot(q: Ring)
    requires Positions(q) && q.producer.Copying?
    ensures Slot(Counter(q.write + q.producer.index)) == Slot(|q.accepted| + q.producer.index)
  {
    WrappedStep(|q.accepted|, q.producer.index);
    WrappedSlot(|q.accepted| + q.producer.index);
  }

  lemma ProducerNextInv(q: Ring)
    requires Inv(q) && !q.producer.Quiet?
    ensures Inv(ProducerNext(q))
  {
    RoomIsFree(q);
    if q.producer.Copying? {
      var i, held := q.producer.index, Queue(q) + Pending(q);
      if i < q.producer.count {
        WrittenSlot(q);
        HoldsMore(q.samples, |q.popped|, held, q.producer.input[i]);
        assert held + [q.producer.input[i]] == Queue(q) + q.producer.input[..i + 1];
      } else {
        WrappedStep(|q.accepted|, i);
        assert Queue(ProducerNext(q)) + [] == held;
      }
    } else {
      assert Queue(q) + q.producer.input[..0] == Queue(q) + [];
    }
  }

  lemma ConsumerNextInv(q: Ring)
    requires Inv(q) && !q.consumer.Resting?
    ensures Inv(ConsumerNext(q))
  {
    RoomIsFree(q);
    if q.consumer.Draining? {
      if |q.consumer.output| < q.consumer.count { ConsumerCopies(q); } else { ConsumerPublishes(q); }
    }
  }

  lemma ConsumerCopies(q: Ring)
    requires Inv(q) && q.consumer.Draining? && |q.consumer.output| < q.consumer.count
    ensures Inv(ConsumerNext(q))
  {
    var r, i, held := |q.popped|, |q.consumer.output|, Queue(q) + Pending(q);
    WrappedStep(r, i);
    WrappedSlot(r + i);
    assert held[i] == q.accepted[r + i];
  }

  lemma ConsumerPublishes(q: Ring)
    requires Inv(q) && q.consumer.Draining? && |q.consumer.output| == q.consumer.count
    ensures Inv(ConsumerNext(q))
  {
    var r, i, held := |q.popped|, |q.consumer.output|, Queue(q) + Pending(q);
    WrappedStep(r, i);
    HoldsRest(q.samples, r, held, i);
    assert held[i..] == Queue(ConsumerNext(q)) + Pending(q);
  }

  /** The invariant holds in every interleaving, however often the positions have wrapped around. */
  lemma NextInv(q: Ring, e: Event)
    requires Inv(q) && Enabled(q, e)
    ensures Inv(Next(q, e))
  {
    if e.ProducerStep? { ProducerNextInv(q); }
    if e.ConsumerStep? { ConsumerNextInv(q); }
  }

  /** Each step refines a bounded queue: it appends what a push accepts, removes what a pop returns, or nothing. */
  lemma NextRefinesQueue(q: Ring, e: Event)
    requires Inv(q) && Enabled(q, e)
    ensures Inv(Next(q, e)) && |Queue(Next(q, e))| <= CAPACITY
    ensures var before, after := Queue(q), Queue(Next(q, e));
      if e.ProducerStep? && q.producer.Copying? && q.producer.index == q.producer.count then
        after == before + q.producer.input[..q.producer.count]
      else if e.ConsumerStep? && q.consumer.Draining? && |q.consumer.output| == q.consumer.count then
        q.consumer.output + after == before && |q.consumer.output| == q.consumer.count
      else after == before
  {
    NextInv(q, e);
  }

  /** A push accepts as much as the room it sees allows, and that room is real. */
  lemma PushTakesWhatFits(q: Ring)
    requires Inv(q) && q.producer.Loading?
    ensures ProducerNext(q).producer.count == Min(|q.producer.input|, CAPACITY - |Queue(q)|)
  {
    RoomIsFree(q);
  }

  /** A pop returns as much as it wants and the queue holds; a frame that size has shown is returned whole. */
  lemma PopTakesWhatIsThere(q: Ring)
    requires Inv(q) && q.consumer.Popping?
    ensures ConsumerNext(q).consumer.count == Min(q.consumer.wanted, |Queue(q)|)
    ensures q.consumer.framed ==> ConsumerNext(q).consumer.count == FRAME
  {
    RoomIsFree(q);
  }

  predicate CanRun(q: Ring, events: seq<Event>)
    requires WellFormed(q)
    decreases |events|
  {
    events == [] ||
    (Enabled(q, events[0]) && WellFormed(Next(q, events[0])) && CanRun(Next(q, events[0]), events[1..]))
  }

  function Run(q: Ring, events: seq<Event>): Ring
    requires WellFormed(q) && CanRun(q, events)
    decreases |events|
  {
    if events == [] then q else Run(Next(q, events[0]), events[1..])
  }

  /** In every run the popped samples are a prefix of the accepted ones, at most a capacity behind. */
  lemma {:induction false} FirstInFirstOut(q: Ring, events: seq<Event>)
    requires Inv(q) && CanRun(q, events)
    ensures Inv(Run(q, events))
    ensures var end := Run(q, events); end.popped <= end.accepted && |end.accepted| <= |end.popped| + CAPACITY
    decreases |events|
  {
    if events != [] {
      NextInv(q, events[0]);
      FirstInFirstOut(Next(q, events[0]), events[1..]);
    }
  }

  lemma InitInv(q: Ring)
    requires Init(q)
    ensures Inv(q)
  {}

  // ---------------------------------------------------------------- the queue as an object

  class Queue16 {
    const samples: array<Sample>
    var read: nat
    var write: nat

    ghost predicate Valid()
      reads this
    {
      && samples.Length == CAPACITY && read < UINT64_SIZE && write < UINT64_SIZE
      && Distance(write, read) <= CAPACITY
    }

    ghost function Contents(): (contents: seq<Sample>)
      requires Valid()
      reads this, samples
      ensures |contents| == Distance(write, read) && Holds(samples[..], read, contents)
    {
      seq(Distance(write, read), i requires 0 <= i reads this, samples => samples[Slot(read + i)])
    }

    constructor ()
      ensures Valid() && fresh(samples) && Contents() == []
    {
      samples := new Sample[CAPACITY](_ => 0);
      read, write := 0, 0;
    }

    method Push(input: seq<Sample>) returns (count: nat)
      requires Valid()
      modifies this`write, samples
      ensures Valid() && count == Min(|input|, CAPACITY - |old(Contents())|)
      ensures Contents() == old(Contents()) + input[..count]
    {
      ghost var before := Contents();
      var available := CAPACITY - Distance(write, read);
      count := Min(|input|, available);
      var position := write;
      for index := 0 to count
        invariant position == Counter(write + index)
        invariant write == old(write)
        invariant Holds(samples[..], read, before + input[..index])
      {
        SameSlot(read, write, |before| + index, index);
        HoldsMore(samples[..], read, before + input[..index], input[index]);
        assert before + input[..index] + [input[index]] == before + input[..index + 1];
        samples[Slot(position)] := input[index];
        WrappedStep(write + index, 1);
        position := Counter(position + 1);
      }
      SameDistance(read, write, count);
      write := position;
      HoldsUnique(samples[..], read, Contents(), before + input[..count]);
    }

    method Pop(wanted: nat) returns (destination: seq<Sample>)
      requires Valid()
      modifies this`read
      ensures Valid() && |destination| == Min(wanted, |old(Contents())|)
      ensures destination + Contents() == old(Contents())
    {
      ghost var before := Contents();
      var count := Min(wanted, Distance(write, read));
      var position := read;
      destination := [];
      for index := 0 to count
        invariant position == Counter(read + index) && read == old(read)
        invariant destination == before[..index]
      {
        WrappedSlot(read + index);
        destination := destination + [samples[Slot(position)]];
        WrappedStep(read + index, 1);
        position := Counter(position + 1);
      }
      HoldsRest(samples[..], read, before, count);
      HoldsWrapped(samples[..], read + count, before[count..]);
      SameRemainder(read, write, count);
      read := position;
      HoldsUnique(samples[..], read, Contents(), before[count..]);
    }

    method Size() returns (size: nat)
      requires Valid()
      ensures size == |Contents()|
    {
      size := Distance(write, read);
    }
  }

  lemma HoldsUnique(samples: seq<Sample>, position: nat, a: seq<Sample>, b: seq<Sample>)
    requires Holds(samples, position, a) && Holds(samples, position, b) && |a| == |b|
    ensures a == b
  {
    forall i | 0 <= i < |a| ensures a[i] == b[i] {
      assert samples[Slot(position + i)] == a[i];
    }
  }

  /** The producer's wrapped position names the slot that follows the contents. */
  lemma SameSlot(read: nat, write: nat, distance: nat, index: nat)
    requires read < UINT64_SIZE && write < UINT64_SIZE && distance == Distance(write, read) + index
    ensures Slot(Counter(write + index)) == Slot(read + distance)
  {
    WrappedSlot(write + index);
    WrappedSlot(read + distance);
    if read > write {
      RemainderIsUnique(write + index + UINT64_SIZE, UINT64_SIZE, (write + index) / UINT64_SIZE + 1, Counter(write + index));
    }
  }

  lemma SameDistance(read: nat, write: nat, count: nat)
    requires read < UINT64_SIZE && write < UINT64_SIZE && Distance(write, read) + count <= CAPACITY
    ensures Distance(Counter(write + count), read) == Distance(write, read) + count
  {}

  lemma SameRemainder(read: nat, write: nat, count: nat)
    requires read < UINT64_SIZE && write < UINT64_SIZE && count <= Distance(write, read) <= CAPACITY
    ensures Distance(write, Counter(read + count)) == Distance(write, read) - count
  {}
}
