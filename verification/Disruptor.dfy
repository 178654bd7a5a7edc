/** The disruptor path behind the reactors' inboxes: producers claim ranges of sequence numbers, wait for
    the slowest consumer, write their slots and publish in claim order; consumers read in batches. */
module Disruptor {
  import opened Options
  import opened Ring
  import Runs

  type Value = nat

  const INITIAL_CURSOR := -1
  const NOT_READY := -4
  const LONG_MAX := 0x7FFF_FFFF_FFFF_FFFF

  /** A producer's range is (hi - delta, hi]. */
  datatype Producer =
    | Idle
    | Claimed(hi: int, delta: nat)                      // added delta; about to look at the cached consumer
    | Gate(hi: int, delta: nat, k: nat, min: int)       // GetMinimumSequence, k consumers read
    | Write(hi: int, delta: nat, j: int)                // about to write sequence number j
    | Sync(hi: int, delta: nat)                         // waiting for its turn to publish
    | Turn(hi: int, delta: nat)                         // about to advance the cursor
    | Asked(wrap: int)                                  // HasAvailableCapacity, the claimed number read
    | Count(k: nat, min: int)                           // HasAvailableCapacity, k consumers read
    | Cache(min: int)                                   // about to store the cached consumer value

  datatype Reading = Away | Handing(i: nat, m: nat)

  /** A batch consumer: `seq` is the shared sequence, the others are its own. */
  datatype Consumer = Consumer(done: int, next: int, avail: int, reading: Reading)

  /** `log` holds the claimed values in claim order, `owner` who claimed each,
      `handed` what each consumer has passed to its function. */
  datatype State = State(
    size: nat, cached: int, cursor: int, ring: seq<Option<Value>>,
    producers: seq<Producer>, consumers: seq<Consumer>,
    log: seq<Value>, owner: seq<nat>, handed: seq<seq<Option<Value>>>)

  datatype Step =
    | Claim(p: nat, vals: seq<Value>)
    | LookAtCached(p: nat)
    | ReadConsumer(p: nat)
    | PassGate(p: nat)
    | WriteSlot(p: nat)
    | AwaitTurn(p: nat)
    | Publish(p: nat)
    | AskCapacity(p: nat)
    | LookForRoom(p: nat)
    | StoreCached(p: nat)
    | Begin(c: nat, want: Option<nat>)   // get(want) or get_all()
    | Hand(c: nat)
    | Commit(c: nat)

  function Init(size: nat, producers: nat, consumers: nat): State {
    State(size, INITIAL_CURSOR, INITIAL_CURSOR, seq(size, _ => None), seq(producers, _ => Idle),
      seq(consumers, _ => Consumer(INITIAL_CURSOR, 0, INITIAL_CURSOR, Away)), [], [], seq(consumers, _ => []))
  }

  predicate IsConsumerStep(a: Step) {
    a.Begin? || a.Hand? || a.Commit?
  }

  predicate Enabled(s: State, a: Step) {
    && s.size > 0 && |s.ring| == s.size
    && if IsConsumerStep(a) then a.c < |s.consumers| == |s.handed| && ConsumerEnabled(s, a)
       else a.p < |s.producers| && ProducerEnabled(s, a)
  }

  predicate ConsumerEnabled(s: State, a: Step)
    requires IsConsumerStep(a) && a.c < |s.consumers|
  {
    var q := s.consumers[a.c];
    match a
    case Begin(_, _) => q.reading.Away?
    case Hand(_) => q.reading.Handing? && q.reading.i < q.reading.m
    case Commit(_) => q.reading.Handing? && q.reading.i == q.reading.m
  }

  predicate ProducerEnabled(s: State, a: Step)
    requires !IsConsumerStep(a) && a.p < |s.producers|
  {
    var w := s.producers[a.p];
    match a
    case Claim(_, vals) => w.Idle? && vals != []
    case LookAtCached(_) => w.Claimed?
    case ReadConsumer(_) => (w.Gate? || w.Count?) && w.k < |s.consumers|
    case PassGate(_) => w.Gate? && w.k == |s.consumers|
    case WriteSlot(_) => w.Write?
    case AwaitTurn(_) => w.Sync?
    case Publish(_) => w.Turn?
    case AskCapacity(_) => w.Idle?
    case LookForRoom(_) => w.Asked?
    case StoreCached(_) => (w.Count? && w.k == |s.consumers|) || w.Cache?
  }

  function Min(a: int, b: int): int {
    if a < b then a else b
  }

  function At(s: State, p: nat, w: Producer): State
    requires p < |s.producers|
  {
    s.(producers := s.producers[p := w])
  }

  function EventAt(s: State, i: int): Option<Value> {
    if i < 0 then None else Get(s.ring, i)
  }

  function ApplyProducer(s: State, a: Step): State
    requires !IsConsumerStep(a) && a.p < |s.producers| && ProducerEnabled(s, a)
  {
    var p, w := a.p, s.producers[a.p];
    match a
    case Claim(_, vals) =>
      At(s, p, Claimed(|s.log| + |vals| - 1, |vals|)).(log := s.log + vals, owner := s.owner + seq(|vals|, _ => p))
    case LookAtCached(_) =>
      At(s, p, if s.cached < w.hi - s.size then Gate(w.hi, w.delta, 0, LONG_MAX) else Write(w.hi, w.delta, w.hi - w.delta + 1))
    case ReadConsumer(_) =>
      At(s, p, w.(k := w.k + 1, min := Min(w.min, s.consumers[w.k].done)))
    case PassGate(_) =>
      At(s, p, if w.min < w.hi - s.size then Gate(w.hi, w.delta, 0, LONG_MAX) else Write(w.hi, w.delta, w.hi - w.delta + 1))
    case WriteSlot(_) =>
      At(s, p, if w.j < w.hi then Write(w.hi, w.delta, w.j + 1) else Sync(w.hi, w.delta)).(
        ring := if 0 <= w.j < |s.log| then Put(s.ring, w.j, Some(s.log[w.j])) else s.ring)
    case AwaitTurn(_) => if s.cursor < w.hi - w.delta then s else At(s, p, Turn(w.hi, w.delta))
    case Publish(_) => At(s, p, Idle).(cursor := s.cursor + w.delta)
    case AskCapacity(_) => At(s, p, Asked(|s.log| - s.size))
    case LookForRoom(_) => At(s, p, if w.wrap > s.cached then Count(0, LONG_MAX) else Idle)
    case StoreCached(_) => At(s, p, if w.Count? then Cache(w.min) else Idle).(cached := if w.Cache? then w.min else s.cached)
  }

  /** has_events: inside a batch nothing shared is read, otherwise the cursor is consulted. */
  function HasEvents(q: Consumer, cursor: int): Consumer {
    if q.next <= q.avail then q
    else q.(next := q.done + 1, avail := if cursor < q.done + 1 then NOT_READY else cursor)
  }

  function Available(q: Consumer): nat {
    if q.next <= q.avail then q.avail - q.next + 1 else 0
  }

  function BatchSize(available: nat, want: Option<nat>): nat {
    if want.Some? then Min(available, want.value) else available
  }

  /** commit: the shared sequence moves only when the whole batch has been consumed. */
  function Committed(q: Consumer, len: nat): Consumer {
    var r := q.(next := q.next + len, reading := Away);
    if r.next <= r.avail then r else r.(done := r.next - 1)
  }

  function ApplyConsumer(s: State, a: Step): State
    requires IsConsumerStep(a) && a.c < |s.consumers| == |s.handed| && ConsumerEnabled(s, a)
  {
    var c, q := a.c, s.consumers[a.c];
    match a
    case Begin(_, want) =>
      var r := HasEvents(q, s.cursor);
      s.(consumers := s.consumers[c := if Available(r) == 0 then r else r.(reading := Handing(0, BatchSize(Available(r), want)))])
    case Hand(_) =>
      s.(consumers := s.consumers[c := q.(reading := Handing(q.reading.i + 1, q.reading.m))],
         handed := s.handed[c := s.handed[c] + [EventAt(s, q.next + q.reading.i)]])
    case Commit(_) => s.(consumers := s.consumers[c := Committed(q, q.reading.m)])
  }

  function Apply(s: State, a: Step): State {
    if !Enabled(s, a) then s else if IsConsumerStep(a) then ApplyConsumer(s, a) else ApplyProducer(s, a)
  }

  // ---- the invariant

  predicate InFlight(w: Producer) {
    w.Claimed? || w.Gate? || w.Write? || w.Sync? || w.Turn?
  }

  /** Past the gate: allowed to touch its slots. */
  predicate Gated(w: Producer) {
    w.Write? || w.Sync? || w.Turn?
  }

  /** Producer w has written every slot of its range below this number. */
  function WrittenTo(w: Producer): int
    requires Gated(w)
  {
    if w.Write? then w.j else w.hi + 1
  }

  ghost predicate BelowAll(s: State, x: int, k: nat) {
    forall c :: 0 <= c < k && c < |s.consumers| ==> x <= s.consumers[c].done
  }

  /** Sequence number i sits in its slot. */
  ghost predicate InPlace(s: State, i: nat)
    requires s.size > 0 && |s.ring| == s.size
  {
    i < |s.log| && s.ring[Slot(i, s.size)] == Some(s.log[i])
  }

  ghost predicate ProducerInv(s: State, p: nat, w: Producer)
    requires s.size > 0 && |s.ring| == s.size
  {
    && (InFlight(w) ==>
      && 1 <= w.delta && s.cursor <= w.hi - w.delta && w.hi < |s.log| == |s.owner|
      && forall i: nat :: w.hi - w.delta < i <= w.hi ==> s.owner[i] == p)
    && (w.Turn? ==> s.cursor == w.hi - w.delta)
    && (w.Gate? || w.Count? ==> w.k <= |s.consumers| && BelowAll(s, w.min, w.k))
    && (w.Cache? ==> BelowAll(s, w.min, |s.consumers|))
    && (w.Write? ==> w.hi - w.delta < w.j <= w.hi)
    && (Gated(w) ==>
      && BelowAll(s, w.hi - s.size, |s.consumers|)
      && forall i: nat :: w.hi - w.delta < i < WrittenTo(w) ==> InPlace(s, i))
  }

  ghost predicate ConsumerInv(s: State, q: Consumer, handed: seq<Option<Value>>)
    requires s.size > 0 && |s.ring| == s.size
  {
    && -1 <= q.done < q.next && q.done <= s.cursor <= q.done + s.size
    && (if q.next <= q.avail then q.avail <= s.cursor else q.next == q.done + 1 && q.reading.Away?)
    && (q.reading.Handing? ==> q.reading.i <= q.reading.m && q.next + q.reading.m <= q.avail + 1)
    && (forall i: nat :: q.done < i <= s.cursor ==> InPlace(s, i))
    && var n := if q.reading.Handing? then q.next + q.reading.i else q.next;
       |handed| == n <= |s.log| && forall k: nat :: k < n ==> handed[k] == Some(s.log[k])
  }

  /** Every unpublished number belongs to a producer in flight whose range holds it. */
  ghost predicate Partition(s: State) {
    && |s.owner| == |s.log| && -1 <= s.cursor < |s.log|
    && forall i: nat :: s.cursor < i < |s.log| ==>
      s.owner[i] < |s.producers| && var w := s.producers[s.owner[i]]; InFlight(w) && w.hi - w.delta < i <= w.hi
  }

  ghost predicate Inv(s: State) {
    && s.size > 0 && |s.ring| == s.size && |s.consumers| == |s.handed| > 0
    && BelowAll(s, s.cached, |s.consumers|)
    && Partition(s)
    && (forall p :: 0 <= p < |s.producers| ==> ProducerInv(s, p, s.producers[p]))
    && (forall c :: 0 <= c < |s.consumers| ==> ConsumerInv(s, s.consumers[c], s.handed[c]))
  }

  // ---- preservation

  lemma SetProducer(s: State, p: nat, w: Producer)
    requires Inv(s) && p < |s.producers| && ProducerInv(s, p, w)
    requires InFlight(s.producers[p]) ==> InFlight(w) && w.hi == s.producers[p].hi && w.delta == s.producers[p].delta
    ensures Inv(At(s, p, w))
  {
    var s' := At(s, p, w);
    forall q | 0 <= q < |s'.producers| ensures ProducerInv(s', q, s'.producers[q]) {
      assert q != p ==> ProducerInv(s, q, s.producers[q]);
      forall i: nat | InPlace(s, i) ensures InPlace(s', i) {}
    }
    forall c | 0 <= c < |s.consumers| ensures ConsumerInv(s', s.consumers[c], s.handed[c]) {
      assert ConsumerInv(s, s.consumers[c], s.handed[c]);
      forall i: nat | InPlace(s, i) ensures InPlace(s', i) {}
    }
  }

  lemma ClaimKeepsInv(s: State, p: nat, vals: seq<Value>)
    requires Inv(s) && Enabled(s, Claim(p, vals))
    ensures Inv(Apply(s, Claim(p, vals)))
  {
    var s' := Apply(s, Claim(p, vals));
    forall i: nat | InPlace(s, i) ensures InPlace(s', i) {}
    assert Partition(s');
    forall q | 0 <= q < |s'.producers| ensures ProducerInv(s', q, s'.producers[q]) { assert ProducerInv(s, q, s.producers[q]); }
    forall c | 0 <= c < |s.consumers| ensures ConsumerInv(s', s.consumers[c], s.handed[c]) {
      assert ConsumerInv(s, s.consumers[c], s.handed[c]);
    }
  }

  /** Writing number j spares every number less than one lap away. */
  lemma WriteSpares(s: State, p: nat, i: nat)
    requires Inv(s) && Enabled(s, WriteSlot(p)) && InPlace(s, i)
    requires var j := s.producers[p].j; i != j && i < j + s.size && j < i + s.size
    ensures InPlace(Apply(s, WriteSlot(p)), i)
  {
    var j := s.producers[p].j;
    assert ProducerInv(s, p, s.producers[p]);
    PutSpares(s.ring, j, i, Some(s.log[j]));
  }

  lemma WriteSparesProducer(s: State, p: nat, q: nat)
    requires Inv(s) && Enabled(s, WriteSlot(p)) && q < |s.producers| && q != p
    ensures ProducerInv(Apply(s, WriteSlot(p)), q, s.producers[q])
  {
    var s' := Apply(s, WriteSlot(p));
    var w, v := s.producers[p], s.producers[q];
    assert ProducerInv(s, p, w) && ProducerInv(s, q, v) && ConsumerInv(s, s.consumers[0], s.handed[0]);
    if Gated(v) {
      forall i: nat | v.hi - v.delta < i < WrittenTo(v) ensures InPlace(s', i) {
        assert InPlace(s, i) && s.owner[i] == q && s.owner[w.j] == p;
        WriteSpares(s, p, i);
      }
    }
  }

  lemma WriteSparesConsumer(s: State, p: nat, c: nat)
    requires Inv(s) && Enabled(s, WriteSlot(p)) && c < |s.consumers|
    ensures ConsumerInv(Apply(s, WriteSlot(p)), s.consumers[c], s.handed[c])
  {
    var s' := Apply(s, WriteSlot(p));
    assert ProducerInv(s, p, s.producers[p]) && ConsumerInv(s, s.consumers[c], s.handed[c]);
    forall i: nat | s.consumers[c].done < i <= s.cursor ensures InPlace(s', i) {
      assert InPlace(s, i);
      WriteSpares(s, p, i);
    }
  }

  lemma WriteAdvances(s: State, p: nat)
    requires Inv(s) && Enabled(s, WriteSlot(p))
    ensures var s' := Apply(s, WriteSlot(p)); ProducerInv(s', p, s'.producers[p])
  {
    var s' := Apply(s, WriteSlot(p));
    var w := s.producers[p];
    assert ProducerInv(s, p, w) && ConsumerInv(s, s.consumers[0], s.handed[0]);
    forall i: nat | w.hi - w.delta < i <= w.j ensures InPlace(s', i) {
      if i < w.j { WriteSpares(s, p, i); }
    }
  }

  lemma WriteKeepsInv(s: State, p: nat)
    requires Inv(s) && Enabled(s, WriteSlot(p))
    ensures Inv(Apply(s, WriteSlot(p)))
  {
    var s' := Apply(s, WriteSlot(p));
    assert Partition(s') by { assert ProducerInv(s, p, s.producers[p]); }
    forall q | 0 <= q < |s'.producers| ensures ProducerInv(s', q, s'.producers[q]) {
      if q == p { WriteAdvances(s, p); } else { WriteSparesProducer(s, p, q); }
    }
    forall c | 0 <= c < |s.consumers| ensures ConsumerInv(s', s.consumers[c], s.handed[c]) { WriteSparesConsumer(s, p, c); }
  }

  lemma PublishKeepsInv(s: State, p: nat)
    requires Inv(s) && Enabled(s, Publish(p))
    ensures Inv(Apply(s, Publish(p)))
  {
    var s' := Apply(s, Publish(p));
    var w := s.producers[p];
    assert ProducerInv(s, p, w);
    forall i: nat | InPlace(s, i) ensures InPlace(s', i) {}
    forall q | 0 <= q < |s'.producers| ensures ProducerInv(s', q, s'.producers[q]) {
      var v := s.producers[q];
      assert ProducerInv(s, q, v);
      if q != p && InFlight(v) {
        assert s.owner[v.hi - v.delta + 1] == q && s.owner[w.hi] == p && s.owner[s.cursor + 1] == p;
      }
    }
    forall c | 0 <= c < |s.consumers| ensures ConsumerInv(s', s.consumers[c], s.handed[c]) {
      assert ConsumerInv(s, s.consumers[c], s.handed[c]);
    }
  }

  /** Consumers only move forward, so a minimum taken earlier stays a lower bound. */
  lemma SetConsumer(s: State, s': State, c: nat)
    requires Inv(s) && c < |s.consumers| && |s'.consumers| == |s.consumers| && |s'.handed| == |s.handed|
    requires s' == s.(consumers := s.consumers[c := s'.consumers[c]], handed := s.handed[c := s'.handed[c]])
    requires s.consumers[c].done <= s'.consumers[c].done && ConsumerInv(s', s'.consumers[c], s'.handed[c])
    ensures Inv(s')
  {
    forall i: nat | InPlace(s, i) ensures InPlace(s', i) {}
    forall x, k: nat | BelowAll(s, x, k) ensures BelowAll(s', x, k) {}
    forall q | 0 <= q < |s'.producers| ensures ProducerInv(s', q, s'.producers[q]) { assert ProducerInv(s, q, s.producers[q]); }
    forall d | 0 <= d < |s'.consumers| ensures ConsumerInv(s', s'.consumers[d], s'.handed[d]) {
      assert d != c ==> ConsumerInv(s, s.consumers[d], s.handed[d]);
    }
  }

  lemma ConsumerKeepsInv(s: State, a: Step)
    requires Inv(s) && IsConsumerStep(a) && Enabled(s, a)
    ensures Inv(Apply(s, a))
  {
    var s' := Apply(s, a);
    var q := s.consumers[a.c];
    assert ConsumerInv(s, q, s.handed[a.c]);
    forall i: nat | InPlace(s, i) ensures InPlace(s', i) {}
    if a.Hand? { assert InPlace(s, q.next + q.reading.i); }
    SetConsumer(s, s', a.c);
  }

  lemma ProducerMoves(s: State, a: Step)
    requires Inv(s) && !IsConsumerStep(a) && Enabled(s, a)
    requires !a.Claim? && !a.WriteSlot? && !a.Publish? && !a.StoreCached?
    ensures var s' := Apply(s, a);
      && |s'.producers| == |s.producers| && s' == At(s, a.p, s'.producers[a.p]) && ProducerInv(s, a.p, s'.producers[a.p])
  {
    assert ProducerInv(s, a.p, s.producers[a.p]);
  }

  lemma ProducerKeepsInv(s: State, a: Step)
    requires Inv(s) && !IsConsumerStep(a) && Enabled(s, a)
    requires !a.Claim? && !a.WriteSlot? && !a.Publish? && !a.StoreCached?
    ensures Inv(Apply(s, a))
  {
    ProducerMoves(s, a);
    SetProducer(s, a.p, Apply(s, a).producers[a.p]);
  }

  lemma CacheKeepsInv(s: State, p: nat)
    requires Inv(s) && Enabled(s, StoreCached(p))
    ensures Inv(Apply(s, StoreCached(p)))
  {
    var s1 := At(s, p, Apply(s, StoreCached(p)).producers[p]);
    var s' := Apply(s, StoreCached(p));
    assert ProducerInv(s, p, s.producers[p]);
    SetProducer(s, p, s1.producers[p]);
    forall i: nat | InPlace(s1, i) ensures InPlace(s', i) {}
    forall x, k: nat | BelowAll(s1, x, k) ensures BelowAll(s', x, k) {}
    forall q | 0 <= q < |s'.producers| ensures ProducerInv(s', q, s'.producers[q]) { assert ProducerInv(s1, q, s1.producers[q]); }
    forall c | 0 <= c < |s.consumers| ensures ConsumerInv(s', s.consumers[c], s.handed[c]) {
      assert ConsumerInv(s1, s1.consumers[c], s1.handed[c]);
    }
  }

  lemma StepKeepsInv(s: State, a: Step)
    requires Inv(s)
    ensures Inv(Apply(s, a))
  {
    if Enabled(s, a) {
      match a
      case Claim(p, vals) => ClaimKeepsInv(s, p, vals);
      case WriteSlot(p) => WriteKeepsInv(s, p);
      case Publish(p) => PublishKeepsInv(s, p);
      case StoreCached(p) => CacheKeepsInv(s, p);
      case Begin(_, _) => ConsumerKeepsInv(s, a);
      case Hand(_) => ConsumerKeepsInv(s, a);
      case Commit(_) => ConsumerKeepsInv(s, a);
      case _ => ProducerKeepsInv(s, a);
    }
  }

  lemma AlwaysInv(size: nat, producers: nat, consumers: nat, run: seq<Step>)
    requires size > 0 && consumers > 0
    ensures Inv(Runs.Exec(Apply, Init(size, producers, consumers), run))
  {
    forall s: State, a: Step | Inv(s) ensures Inv(Apply(s, a)) { StepKeepsInv(s, a); }
    Runs.Invariant(Apply, Inv, Init(size, producers, consumers), run);
  }

  // ---- what the sequencer and the inbox promise

  /** Each consumer has handed out exactly a prefix of the claim-order log: every value once, in order,
      whatever the batch sizes and however the producers interleave. */
  lemma HandedInClaimOrder(size: nat, producers: nat, consumers: nat, run: seq<Step>, c: nat)
    requires size > 0 && c < consumers
    ensures var s := Runs.Exec(Apply, Init(size, producers, consumers), run);
      c < |s.handed| ==> |s.handed[c]| <= |s.log| && forall k: nat :: k < |s.handed[c]| ==> s.handed[c][k] == Some(s.log[k])
  {
    AlwaysInv(size, producers, consumers, run);
    var s := Runs.Exec(Apply, Init(size, producers, consumers), run);
    if c < |s.handed| { assert ConsumerInv(s, s.consumers[c], s.handed[c]); }
  }

  /** The values claimed in a run, in order. */
  function ClaimedValues(size: nat, producers: nat, consumers: nat, run: seq<Step>): seq<Value> {
    if run == [] then []
    else
      var front, a := run[..|run| - 1], run[|run| - 1];
      ClaimedValues(size, producers, consumers, front)
      + if a.Claim? && Enabled(Runs.Exec(Apply, Init(size, producers, consumers), front), a) then a.vals else []
  }

  /** The log is what the producers claimed, one range after the other. */
  lemma {:induction false} LogIsTheClaims(size: nat, producers: nat, consumers: nat, run: seq<Step>)
    ensures Runs.Exec(Apply, Init(size, producers, consumers), run).log == ClaimedValues(size, producers, consumers, run)
    decreases |run|
  {
    if run != [] {
      LogIsTheClaims(size, producers, consumers, run[..|run| - 1]);
      StepLogsClaims(Runs.Exec(Apply, Init(size, producers, consumers), run[..|run| - 1]), run[|run| - 1]);
    }
  }

  lemma StepLogsClaims(s: State, a: Step)
    ensures Apply(s, a).log == s.log + if a.Claim? && Enabled(s, a) then a.vals else []
  {
  }

  /** The claimed ranges partition the unpublished numbers, and a Publish finds the cursor exactly
      where its own range begins. */
  lemma ClaimsPartition(size: nat, producers: nat, consumers: nat, run: seq<Step>, p: nat, q: nat)
    requires size > 0 && consumers > 0
    ensures var s := Runs.Exec(Apply, Init(size, producers, consumers), run);
      && Partition(s)
      && (p != q && p < |s.producers| && q < |s.producers| && InFlight(s.producers[p]) && InFlight(s.producers[q]) ==>
            var v, w := s.producers[p], s.producers[q]; v.hi <= w.hi - w.delta || w.hi <= v.hi - v.delta)
      && (p < |s.producers| && s.producers[p].Turn? ==>
            s.cursor == s.producers[p].hi - s.producers[p].delta && Apply(s, Publish(p)).cursor == s.producers[p].hi)
  {
    AlwaysInv(size, producers, consumers, run);
    var s := Runs.Exec(Apply, Init(size, producers, consumers), run);
    if p < |s.producers| { assert ProducerInv(s, p, s.producers[p]); }
    if p != q && p < |s.producers| && q < |s.producers| && InFlight(s.producers[p]) && InFlight(s.producers[q]) {
      assert ProducerInv(s, q, s.producers[q]);
      var v, w := s.producers[p], s.producers[q];
      assert s.owner[v.hi] == p && s.owner[w.hi] == q;
    }
  }

  /** The unpublished number next in line always has a producer whose turn it is: publishing in claim
      order cannot deadlock by itself. */
  lemma SomeoneIsNext(size: nat, producers: nat, consumers: nat, run: seq<Step>)
    requires size > 0 && consumers > 0
    ensures var s := Runs.Exec(Apply, Init(size, producers, consumers), run);
      s.cursor + 1 < |s.log| ==>
        && 0 <= s.cursor + 1 < |s.owner| && s.owner[s.cursor + 1] < |s.producers|
        && var w := s.producers[s.owner[s.cursor + 1]]; InFlight(w) && w.hi - w.delta == s.cursor
  {
    AlwaysInv(size, producers, consumers, run);
    var s := Runs.Exec(Apply, Init(size, producers, consumers), run);
    if s.cursor + 1 < |s.log| {
      var p := s.owner[s.cursor + 1];
      assert ProducerInv(s, p, s.producers[p]);
    }
  }

  /** A producer past the gate is at most one lap ahead of every consumer, even though the cached
      consumer value may be stale; so the number it overwrites has been finished by every consumer,
      and it never touches the slot of a number some consumer has yet to finish. */
  lemma NoEarlyRewrite(size: nat, producers: nat, consumers: nat, run: seq<Step>, p: nat, c: nat, i: nat)
    requires size > 0 && consumers > 0
    ensures var s := Runs.Exec(Apply, Init(size, producers, consumers), run);
      p < |s.producers| && c < |s.consumers| && s.size > 0 ==>
        && s.cached <= s.consumers[c].done
        && (Gated(s.producers[p]) ==> s.producers[p].hi <= s.consumers[c].done + s.size)
        && (s.producers[p].Write? && s.consumers[c].done < i <= s.cursor ==>
              s.producers[p].j >= 0 && Slot(s.producers[p].j, s.size) != Slot(i, s.size))
  {
    AlwaysInv(size, producers, consumers, run);
    var s := Runs.Exec(Apply, Init(size, producers, consumers), run);
    if p < |s.producers| && c < |s.consumers| {
      assert ProducerInv(s, p, s.producers[p]) && ConsumerInv(s, s.consumers[c], s.handed[c]);
      if s.producers[p].Write? && s.consumers[c].done < i <= s.cursor {
        Distinct(i, s.producers[p].j, s.size);
      }
    }
  }

  predicate Owns(w: Producer, i: int) {
    InFlight(w) && w.hi - w.delta < i <= w.hi
  }

  /** Some producer past the gate may write number i. */
  ghost predicate BeingWritten(s: State, i: int) {
    exists p :: 0 <= p < |s.producers| && Gated(s.producers[p]) && Owns(s.producers[p], i)
  }

  /** Number i is published, and some consumer has not finished it. */
  ghost predicate Unfinished(s: State, i: int) {
    i <= s.cursor && exists c :: 0 <= c < |s.consumers| && s.consumers[c].done < i
  }

  ghost predicate LiveNumber(s: State, i: int) {
    BeingWritten(s, i) || Unfinished(s, i)
  }

  /** A live number is ahead of some consumer, and at most one lap ahead of every consumer. */
  lemma LiveIsInWindow(s: State, i: int)
    requires Inv(s) && LiveNumber(s, i)
    ensures exists c :: 0 <= c < |s.consumers| && s.consumers[c].done < i
    ensures BelowAll(s, i - s.size, |s.consumers|)
  {
    if BeingWritten(s, i) {
      var p :| 0 <= p < |s.producers| && Gated(s.producers[p]) && Owns(s.producers[p], i);
      assert ProducerInv(s, p, s.producers[p]) && ConsumerInv(s, s.consumers[0], s.handed[0]);
      assert s.consumers[0].done < i;
    } else {
      forall c | 0 <= c < |s.consumers| ensures i - s.size <= s.consumers[c].done {
        assert ConsumerInv(s, s.consumers[c], s.handed[c]);
      }
    }
  }

  lemma LiveSlotsDiffer(s: State, i: nat, j: nat)
    requires Inv(s) && LiveNumber(s, i) && LiveNumber(s, j) && i != j
    ensures Slot(i, s.size) != Slot(j, s.size)
  {
    LiveIsInWindow(s, i);
    LiveIsInWindow(s, j);
    AllDistinct(s.size);
  }

  /** Live sequence numbers occupy distinct slots under the mask, whether they are being written or
      published and unfinished, by whichever producers and consumers. */
  lemma LiveSlotsAreDistinct(size: nat, producers: nat, consumers: nat, run: seq<Step>, i: nat, j: nat)
    requires PowerOfTwo(size) && consumers > 0 && i != j
    ensures var s := Runs.Exec(Apply, Init(size, producers, consumers), run);
      LiveNumber(s, i) && LiveNumber(s, j) ==> And(i, size - 1) != And(j, size - 1)
  {
    AlwaysInv(size, producers, consumers, run);
    SameParameters(size, producers, consumers, run);
    var s := Runs.Exec(Apply, Init(size, producers, consumers), run);
    if LiveNumber(s, i) && LiveNumber(s, j) {
      LiveSlotsDiffer(s, i, j);
      Mask(i, size);
      Mask(j, size);
    }
  }

  // ---- a full inbox

  /** Producer p waits at the gate, and consumer c has not come near enough. */
  predicate Overruns(s: State, p: nat, c: nat) {
    && p < |s.producers| && c < |s.consumers|
    && (s.producers[p].Claimed? || s.producers[p].Gate?) && s.producers[p].hi - s.size > s.consumers[c].done
  }

  lemma OverrunStays(s: State, a: Step, p: nat, c: nat)
    requires Inv(s) && Overruns(s, p, c) && !IsConsumerStep(a)
    ensures Overruns(Apply(s, a), p, c)
  {
    assert ProducerInv(s, p, s.producers[p]);
  }

  lemma {:induction false} OverrunHolds(s: State, more: seq<Step>, p: nat, c: nat)
    requires Inv(s) && Overruns(s, p, c) && forall k :: 0 <= k < |more| ==> !IsConsumerStep(more[k])
    ensures Inv(Runs.Exec(Apply, s, more)) && Overruns(Runs.Exec(Apply, s, more), p, c)
    decreases |more|
  {
    if more != [] {
      OverrunHolds(s, more[..|more| - 1], p, c);
      StepKeepsInv(Runs.Exec(Apply, s, more[..|more| - 1]), more[|more| - 1]);
      OverrunStays(Runs.Exec(Apply, s, more[..|more| - 1]), more[|more| - 1], p, c);
    }
  }

  /** A sender whose claim overruns a consumer stays at the gate for as long as no consumer runs: if the
      sender's own thread is the one that would have to consume, for ever. */
  lemma FullInboxHoldsSender(size: nat, producers: nat, consumers: nat, run: seq<Step>, more: seq<Step>, p: nat, c: nat)
    requires size > 0 && consumers > 0 && Overruns(Runs.Exec(Apply, Init(size, producers, consumers), run), p, c)
    requires forall k :: 0 <= k < |more| ==> !IsConsumerStep(more[k])
    ensures Overruns(Runs.Exec(Apply, Init(size, producers, consumers), run + more), p, c)
  {
    AlwaysInv(size, producers, consumers, run);
    Runs.Split(Apply, Init(size, producers, consumers), run, more);
    OverrunHolds(Runs.Exec(Apply, Init(size, producers, consumers), run), more, p, c);
  }

  // ---- get(T&): the next sequence number is added twice

  /** get_current_event() reads the slot of next + next. That is the slot of the element whose turn it is
      exactly when next is a multiple of the size. */
  lemma CurrentEventSlot(next: nat, size: nat)
    requires PowerOfTwo(size)
    ensures And(next + next, size - 1) == And(next, size - 1) <==> next % size == 0
  {
    Mask(next, size);
    Mask(next + next, size);
    Remainder(next, size);
    Remainder(next + next, size);
    SameRemainder(next, size);
  }

  lemma SameRemainder(x: nat, n: nat)
    requires n > 0
    ensures (x + x) % n == x % n <==> x % n == 0
  {
    var q, r := x / n, x % n;
    assert x == q * n + r;
    assert x + x == (q + q) * n + (r + r);
    if r + r < n { DivUnique(x + x, n, q + q, r + r); } else { DivUnique(x + x, n, q + q + 1, r + r - n); }
  }

  /** Consumer c has an event at hand, with a number that is such a multiple. */
  ghost predicate AtMultiple(s: State, c: nat) {
    c < |s.consumers| && s.size > 0 && s.consumers[c].next <= s.consumers[c].avail && s.consumers[c].next % s.size == 0
  }

  ghost predicate ReadsNext(s: State, c: nat)
    requires c < |s.consumers|
  {
    var k := s.consumers[c].next; 0 <= k < |s.log| && EventAt(s, k + k) == Some(s.log[k])
  }

  /** Then it returns the next element of the log. */
  lemma CurrentEventIsNext(size: nat, producers: nat, consumers: nat, run: seq<Step>, c: nat)
    requires PowerOfTwo(size) && c < consumers
    ensures var s := Runs.Exec(Apply, Init(size, producers, consumers), run); AtMultiple(s, c) ==> ReadsNext(s, c)
  {
    AlwaysInv(size, producers, consumers, run);
    SameParameters(size, producers, consumers, run);
    var s := Runs.Exec(Apply, Init(size, producers, consumers), run);
    if AtMultiple(s, c) { CurrentEventRead(s, c); }
  }

  lemma CurrentEventRead(s: State, c: nat)
    requires Inv(s) && PowerOfTwo(s.size) && AtMultiple(s, c)
    ensures ReadsNext(s, c)
  {
    assert ConsumerInv(s, s.consumers[c], s.handed[c]);
    var k: nat := s.consumers[c].next;
    assert InPlace(s, k);
    Mask(k, s.size);
    Mask(k + k, s.size);
    CurrentEventSlot(k, s.size);
  }

  lemma ClaimOne(size: nat, run: seq<Step>, s: State, v: Value) returns (run': seq<Step>, s': State)
    requires Runs.Reached(Apply, Init(size, 1, 1), run, s)
    requires s.size == |s.ring| == size > 0 && s.producers == [Idle] && s.cached == -1 && |s.log| < size
    ensures Runs.Reached(Apply, Init(size, 1, 1), run', s')
    ensures s' == s.(producers := [Write(|s.log|, 1, |s.log|)], log := s.log + [v], owner := s.owner + [0])
  {
    run', s' := Runs.Then(Apply, Init(size, 1, 1), run, s, Claim(0, [v]));
    run', s' := Runs.Then(Apply, Init(size, 1, 1), run', s', LookAtCached(0));
    assert s'.producers == [Write(|s.log|, 1, |s.log|)] && s'.owner == s.owner + [0];
  }

  /** A lone producer sends one value into an inbox that has room. */
  lemma SendOne(size: nat, run: seq<Step>, s: State, v: Value) returns (run': seq<Step>, s': State)
    requires Runs.Reached(Apply, Init(size, 1, 1), run, s)
    requires s.size == |s.ring| == size > 0 && s.producers == [Idle] && s.cached == -1
    requires |s.log| == s.cursor + 1 < size
    ensures Runs.Reached(Apply, Init(size, 1, 1), run', s')
    ensures s' == s.(ring := Put(s.ring, |s.log|, Some(v)), log := s.log + [v], owner := s.owner + [0], cursor := s.cursor + 1)
  {
    run', s' := ClaimOne(size, run, s, v);
    run', s' := Runs.Then(Apply, Init(size, 1, 1), run', s', WriteSlot(0));
    run', s' := Runs.Then(Apply, Init(size, 1, 1), run', s', AwaitTurn(0));
    run', s' := Runs.Then(Apply, Init(size, 1, 1), run', s', Publish(0));
    assert s'.producers == [Idle];
  }

  /** The consumer takes the first of two elements. */
  lemma TakeOne(size: nat, run: seq<Step>, s: State) returns (run': seq<Step>, s': State)
    requires Runs.Reached(Apply, Init(size, 1, 1), run, s)
    requires s.size == |s.ring| == size > 0 && s.cursor == 1
    requires s.consumers == [Consumer(-1, 0, -1, Away)] && |s.handed| == 1
    ensures Runs.Reached(Apply, Init(size, 1, 1), run', s')
    ensures s' == s.(consumers := [Consumer(-1, 1, 1, Away)], handed := s'.handed)
  {
    run', s' := Runs.Then(Apply, Init(size, 1, 1), run, s, Begin(0, Some(1)));
    run', s' := Runs.Then(Apply, Init(size, 1, 1), run', s', Hand(0));
    run', s' := Runs.Then(Apply, Init(size, 1, 1), run', s', Commit(0));
    assert s'.consumers == [Consumer(-1, 1, 1, Away)];
  }

  /** In an inbox of two slots or more the second element is not what get_current_event() reads: it reads the
      first one again, or a slot never written. */
  lemma CurrentEventIsAnother(size: nat, v: Value, w: Value) returns (run: seq<Step>)
    requires size >= 2 && v != w
    ensures var s := Runs.Exec(Apply, Init(size, 1, 1), run);
      && s.log == [v, w] && |s.consumers| == 1 && s.consumers[0].next == 1 <= s.consumers[0].avail
      && EventAt(s, 2) == (if size == 2 then Some(v) else None) && !ReadsNext(s, 0)
  {
    var s := Init(size, 1, 1);
    Runs.Start(Apply, s);
    run, s := SendOne(size, [], s, v);
    run, s := SendOne(size, run, s, w);
    run, s := TakeOne(size, run, s);
  }

  ghost predicate ReadsRight(s: State) {
    |s.consumers| == 1 && s.consumers[0].next <= s.consumers[0].avail ==> ReadsNext(s, 0)
  }

  /** So get(T&) is right on all runs exactly when the inbox has a single slot. */
  lemma CurrentEventIff(size: nat)
    requires PowerOfTwo(size)
    ensures (forall run :: ReadsRight(Runs.Exec(Apply, Init(size, 1, 1), run))) <==> size == 1
  {
    if size == 1 {
      forall run ensures ReadsRight(Runs.Exec(Apply, Init(size, 1, 1), run)) {
        SameParameters(size, 1, 1, run);
        CurrentEventIsNext(size, 1, 1, run, 0);
      }
    } else {
      var run := CurrentEventIsAnother(size, 0, 1);
      assert !ReadsRight(Runs.Exec(Apply, Init(size, 1, 1), run));
    }
  }

  lemma SameParameters(size: nat, producers: nat, consumers: nat, run: seq<Step>)
    ensures var s := Runs.Exec(Apply, Init(size, producers, consumers), run);
      s.size == size && |s.producers| == producers && |s.consumers| == |s.handed| == consumers && |s.ring| == size
  {
    Runs.Invariant(Apply,
      (s: State) => s.size == size && |s.producers| == producers && |s.consumers| == |s.handed| == consumers && |s.ring| == size,
      Init(size, producers, consumers), run);
  }

  /** The next number would overrun the only consumer. LONG_MAX is where a minimum starts. */
  predicate NoCapacity(s: State) {
    |s.consumers| == 1 && |s.log| - s.size > Min(LONG_MAX, s.consumers[0].done)
  }

  // ---- the inbox in the form of the source

  predicate By(p: nat, a: Step) {
    !IsConsumerStep(a) && a.p == p
  }

  lemma NotMine(s: State, a: Step, p: nat)
    requires p < |s.producers| && !By(p, a)
    ensures |Apply(s, a).producers| == |s.producers| && Apply(s, a).producers[p] == s.producers[p]
    ensures s.log <= Apply(s, a).log
  {
  }

  lemma {:induction false} ForeignSteps(s: State, steps: seq<Step>, p: nat)
    requires p < |s.producers| && forall k :: 0 <= k < |steps| ==> !By(p, steps[k])
    ensures var s' := Runs.Exec(Apply, s, steps);
      |s'.producers| == |s.producers| && s'.producers[p] == s.producers[p] && s.log <= s'.log
    decreases |steps|
  {
    if steps != [] {
      ForeignSteps(s, steps[..|steps| - 1], p);
      NotMine(Runs.Exec(Apply, s, steps[..|steps| - 1]), steps[|steps| - 1], p);
    }
  }

  lemma ProducersSpareConsumers(s: State, a: Step)
    requires !IsConsumerStep(a)
    ensures Apply(s, a).consumers == s.consumers && Apply(s, a).handed == s.handed && s.log <= Apply(s, a).log
    ensures s.cursor <= Apply(s, a).cursor
  {
  }

  lemma {:induction false} ProducersOnly(s: State, steps: seq<Step>)
    requires forall k :: 0 <= k < |steps| ==> !IsConsumerStep(steps[k])
    ensures var s' := Runs.Exec(Apply, s, steps);
      s'.consumers == s.consumers && s'.handed == s.handed && s.log <= s'.log && s.cursor <= s'.cursor
    decreases |steps|
  {
    if steps != [] {
      ProducersOnly(s, steps[..|steps| - 1]);
      ProducersSpareConsumers(Runs.Exec(Apply, s, steps[..|steps| - 1]), steps[|steps| - 1]);
    }
  }

  /** MPSCQueue with its multi-threaded claim strategy and its single batch consumer. */
  class MpscQueue {
    const size: nat
    ghost const producers: nat
    var lastClaimed: int
    var lastConsumer: int
    var cursor: int
    const ring: array<Option<Value>>
    var consumerSequence: int
    var nextSequence: int
    var availableSequence: int
    ghost var run: seq<Step>
    ghost var m: State

    ghost predicate Valid()
      reads this, ring
    {
      && PowerOfTwo(size) && ring.Length == size && ring[..] == m.ring && m.size == size
      && Runs.Reached(Apply, Init(size, producers, 1), run, m)
      && |m.producers| == producers && |m.consumers| == |m.handed| == 1
      && lastClaimed == |m.log| - 1 && lastConsumer == m.cached && cursor == m.cursor
      && m.consumers[0].done == consumerSequence && m.consumers[0].next == nextSequence
      && m.consumers[0].avail == availableSequence
    }

    constructor (size: nat, ghost producers: nat)
      requires PowerOfTwo(size)
      ensures Valid() && this.size == size && this.producers == producers && run == [] && fresh(ring)
    {
      this.size, this.producers := size, producers;
      lastClaimed, lastConsumer, cursor := INITIAL_CURSOR, INITIAL_CURSOR, INITIAL_CURSOR;
      ring := new Option<Value>[size](_ => None);
      consumerSequence, nextSequence, availableSequence := INITIAL_CURSOR, 0, INITIAL_CURSOR;
      run, m := [], Init(size, producers, 1);
      new;
      Runs.Start(Apply, Init(size, producers, 1));
      assert ring[..] == m.ring;
    }

    ghost method Do(a: Step)
      requires Runs.Reached(Apply, Init(size, producers, 1), run, m)
      modifies this`run, this`m
      ensures run == old(run) + [a] && m == Apply(old(m), a)
      ensures Runs.Reached(Apply, Init(size, producers, 1), run, m)
    {
      run, m := Runs.Then(Apply, Init(size, producers, 1), run, m, a);
    }

    /** Anything the other producers and the consumer may do before producer p runs again. */
    method InterfereWithProducer(ghost p: nat)
      requires Valid() && p < producers
      modifies this, ring
      ensures Valid() && old(run) <= run
      ensures forall k :: |old(run)| <= k < |run| ==> !By(p, run[k])
    {
    }

    /** Anything the producers may do before the consumer runs again. */
    method InterfereWithConsumer()
      requires Valid()
      modifies this`lastClaimed, this`lastConsumer, this`cursor, this`run, this`m, ring
      ensures Valid() && old(run) <= run
      ensures forall k :: |old(run)| <= k < |run| ==> !IsConsumerStep(run[k])
    {
    }

    method PreemptProducer(ghost p: nat)
      requires Valid() && p < producers
      modifies this, ring
      ensures Valid() && old(run) <= run && m.producers[p] == old(m.producers[p]) && old(m.log) <= m.log
    {
      InterfereWithProducer(p);
      ghost var more := run[|old(run)|..];
      assert run == old(run) + more;
      Runs.Split(Apply, Init(size, producers, 1), old(run), more);
      ForeignSteps(old(m), more, p);
    }

    method PreemptConsumer()
      requires Valid()
      modifies this`lastClaimed, this`lastConsumer, this`cursor, this`run, this`m, ring
      ensures Valid() && old(run) <= run && old(m.log) <= m.log
      ensures m.consumers == old(m.consumers) && m.handed == old(m.handed) && old(cursor) <= cursor
    {
      InterfereWithConsumer();
      ghost var more := run[|old(run)|..];
      assert run == old(run) + more;
      Runs.Split(Apply, Init(size, producers, 1), old(run), more);
      ProducersOnly(old(m), more);
    }

    method ClaimNext(ghost p: nat, v: Value) returns (seqNo: int)
      requires Valid() && p < producers && m.producers[p].Idle?
      modifies this, ring
      ensures Valid() && old(run) <= run && m.producers[p] == Claimed(seqNo, 1)
      ensures |old(m.log)| <= seqNo < |m.log| && m.log[seqNo] == v
    {
      PreemptProducer(p);
      seqNo := lastClaimed + 1;
      lastClaimed := seqNo;
      Do(Claim(p, [v]));
    }

    /** One round of GetMinimumSequence over the single consumer, and the comparison with the wrap point. */
    method MinimumReaches(ghost p: nat, seqNo: int) returns (enough: bool)
      requires Valid() && p < producers && m.producers[p] == Gate(seqNo, 1, 0, LONG_MAX)
      modifies this, ring
      ensures Valid() && old(run) <= run && old(m.log) <= m.log
      ensures m.producers[p] == if enough then Write(seqNo, 1, seqNo) else Gate(seqNo, 1, 0, LONG_MAX)
    {
      PreemptProducer(p);
      var minimum := if LONG_MAX < consumerSequence then LONG_MAX else consumerSequence;
      Do(ReadConsumer(p));
      enough := !(minimum < seqNo - size);
      Do(PassGate(p));
    }

    /** IncrementAndGet's wait: skipped when the cached consumer value is already far enough. */
    method AwaitConsumer(ghost p: nat, seqNo: int, patience: nat) returns (passed: bool)
      requires Valid() && p < producers && m.producers[p] == Claimed(seqNo, 1)
      modifies this, ring
      ensures Valid() && old(run) <= run && old(m.log) <= m.log
      ensures passed ==> m.producers[p] == Write(seqNo, 1, seqNo) && seqNo - size <= consumerSequence
    {
      PreemptProducer(p);
      var cached := lastConsumer;
      Do(LookAtCached(p));
      passed := !(cached < seqNo - size);
      var rounds := patience;
      while !passed && rounds > 0
        invariant Valid() && old(run) <= run && old(m.log) <= m.log
        invariant m.producers[p] == if passed then Write(seqNo, 1, seqNo) else Gate(seqNo, 1, 0, LONG_MAX)
        decreases rounds
      {
        passed := MinimumReaches(p, seqNo);
        rounds := rounds - 1;
      }
      if passed { GatedFits(p); }
    }

    lemma GatedFits(p: nat)
      requires Valid() && p < producers && Gated(m.producers[p])
      ensures m.producers[p].hi - size <= consumerSequence
    {
      AlwaysInv(size, producers, 1, run);
      assert ProducerInv(m, p, m.producers[p]) && 0 < |m.consumers|;
    }

    lemma TurnIsExact(p: nat)
      requires Valid() && p < producers && m.producers[p].Turn?
      ensures cursor == m.producers[p].hi - m.producers[p].delta
    {
      AlwaysInv(size, producers, 1, run);
      assert ProducerInv(m, p, m.producers[p]);
    }

    method WriteEvent(ghost p: nat, seqNo: nat, v: Value)
      requires Valid() && p < producers && m.producers[p] == Write(seqNo, 1, seqNo)
      requires seqNo < |m.log| && m.log[seqNo] == v
      modifies this, ring
      ensures Valid() && old(run) <= run && old(m.log) <= m.log && m.producers[p] == Sync(seqNo, 1)
    {
      PreemptProducer(p);
      Mask(seqNo, size);
      ring[And(seqNo, size - 1)] := Some(v);
      Do(WriteSlot(p));
    }

    method PublishEvent(ghost p: nat, seqNo: nat, patience: nat) returns (published: bool)
      requires Valid() && p < producers && m.producers[p] == Sync(seqNo, 1)
      modifies this, ring
      ensures Valid() && old(run) <= run && old(m.log) <= m.log
      ensures published ==> m.producers[p].Idle? && cursor == seqNo
    {
      var rounds := patience;
      var turn := false;
      while !turn && rounds > 0
        invariant Valid() && old(run) <= run && old(m.log) <= m.log
        invariant m.producers[p] == if turn then Turn(seqNo, 1) else Sync(seqNo, 1)
        decreases rounds
      {
        PreemptProducer(p);
        turn := !(cursor < seqNo - 1);
        Do(AwaitTurn(p));
        rounds := rounds - 1;
      }
      published := turn;
      if turn {
        PreemptProducer(p);
        TurnIsExact(p);
        cursor := cursor + 1;
        Do(Publish(p));
      }
    }

    /** send(value) by producer p: the value enters the claim-order log at a number claimed by this call.
        The waits have no bound of their own; `patience` rounds of each are followed. */
    method Send(ghost p: nat, v: Value, patience: nat) returns (sent: bool, ghost seqNo: int)
      requires Valid() && p < producers && m.producers[p].Idle?
      modifies this, ring
      ensures Valid() && old(run) <= run
      ensures |old(m.log)| <= seqNo < |m.log| && m.log[seqNo] == v
      ensures sent ==> m.producers[p].Idle? && cursor == seqNo
    {
      var n := ClaimNext(p, v);
      seqNo := n;
      sent := AwaitConsumer(p, n, patience);
      if sent {
        WriteEvent(p, n, v);
        sent := PublishEvent(p, n, patience);
      }
    }

    lemma CachedIsBehind()
      requires Valid()
      ensures lastConsumer <= consumerSequence
    {
      AlwaysInv(size, producers, 1, run);
      assert 0 < |m.consumers|;
    }

    lemma NoCapacityNow(p: nat, from: nat)
      requires Valid() && NoCapacity(m) && from <= |run|
      ensures Runs.Passes(Apply, Init(size, producers, 1), run + [ReadConsumer(p)] + [StoreCached(p)], from, NoCapacity)
    {
      var seen := run + [ReadConsumer(p)];
      Runs.PassesNow(Apply, Init(size, producers, 1), run, m, from, ReadConsumer(p), NoCapacity);
      Runs.PassesLonger(Apply, Init(size, producers, 1), seen, seen + [StoreCached(p)], from, NoCapacity);
    }

    method LoadMinimum(ghost p: nat) returns (minimum: int)
      requires Valid() && p < producers && m.producers[p] == Count(0, LONG_MAX)
      modifies this`run, this`m
      ensures Valid() && run == old(run) + [ReadConsumer(p)] + [StoreCached(p)]
      ensures m.log == old(m).log && m.producers[p] == Cache(minimum) && minimum == Min(LONG_MAX, consumerSequence)
    {
      minimum := if LONG_MAX < consumerSequence then LONG_MAX else consumerSequence;
      Do(ReadConsumer(p));
      Do(StoreCached(p));
    }

    /** The minimum over the single consumer. */
    method ReadMinimum(ghost p: nat) returns (minimum: int)
      requires Valid() && p < producers && m.producers[p] == Count(0, LONG_MAX)
      modifies this, ring
      ensures Valid() && old(run) <= run && old(m.log) <= m.log && m.producers[p] == Cache(minimum)
      ensures |old(m.log)| - size > minimum ==> Runs.Passes(Apply, Init(size, producers, 1), run, |old(run)|, NoCapacity)
    {
      PreemptProducer(p);
      if NoCapacity(m) { NoCapacityNow(p, |old(run)|); }
      minimum := LoadMinimum(p);
    }

    method StoreMinimum(ghost p: nat, minimum: int)
      requires Valid() && p < producers && m.producers[p] == Cache(minimum)
      modifies this, ring
      ensures Valid() && old(run) <= run && old(m.log) <= m.log && m.producers[p].Idle?
      ensures lastConsumer == minimum
    {
      PreemptProducer(p);
      lastConsumer := minimum;
      Do(StoreCached(p));
    }

    method WrapPoint(ghost p: nat) returns (wrapPoint: int)
      requires Valid() && p < producers && m.producers[p].Idle?
      modifies this, ring
      ensures Valid() && old(run) <= run && old(m.log) <= m.log && m.producers[p] == Asked(wrapPoint)
      ensures |old(m.log)| - size <= wrapPoint == |m.log| - size
    {
      PreemptProducer(p);
      wrapPoint := lastClaimed + 1 - size;
      Do(AskCapacity(p));
    }

    /** The cached value of the consumers' minimum is enough, most of the time. */
    method CachedSuffices(ghost p: nat, wrapPoint: int) returns (ok: bool)
      requires Valid() && p < producers && m.producers[p] == Asked(wrapPoint)
      modifies this, ring
      ensures Valid() && old(run) <= run && old(m.log) <= m.log
      ensures m.producers[p] == if ok then Idle else Count(0, LONG_MAX)
      ensures lastConsumer <= consumerSequence && (ok <==> wrapPoint <= lastConsumer)
    {
      PreemptProducer(p);
      ok := !(wrapPoint > lastConsumer);
      Do(LookForRoom(p));
      CachedIsBehind();
    }

    /** HasAvailableCapacity: a positive answer means that the number after those claimed at the call does
        not overrun the consumer, a negative one that at some instant of the call the next number did. The
        cached value that it refreshes stays behind the consumer. */
    method HasAvailableCapacity(ghost p: nat) returns (ok: bool)
      requires Valid() && p < producers && m.producers[p].Idle?
      modifies this, ring
      ensures Valid() && old(run) <= run && old(m.log) <= m.log && m.producers[p].Idle?
      ensures lastConsumer <= consumerSequence
      ensures ok ==> |old(m.log)| - size <= consumerSequence
      ensures if ok then |old(m.log)| - size <= lastConsumer else lastConsumer < |m.log| - size
      ensures !ok ==> Runs.Passes(Apply, Init(size, producers, 1), run, |old(run)|, NoCapacity)
    {
      var wrapPoint := WrapPoint(p);
      ok := CachedSuffices(p, wrapPoint);
      if !ok {
        var minimum := ReadMinimum(p);
        ghost var seen := run;
        StoreMinimum(p, minimum);
        ok := !(wrapPoint > minimum);
        if !ok { Runs.PassesLonger(Apply, Init(size, producers, 1), seen, run, |old(run)|, NoCapacity); }
      }
      CachedIsBehind();
    }

    /** is_batch() */
    predicate IsBatch()
      reads this
    {
      nextSequence <= availableSequence
    }

    lemma ConsumerFacts()
      requires Valid()
      ensures -1 <= consumerSequence < nextSequence && consumerSequence <= cursor && |m.handed[0]| >= nextSequence
      ensures m.consumers[0].reading.Away? ==> |m.handed[0]| == nextSequence
      ensures !IsBatch() ==> nextSequence == consumerSequence + 1
    {
      AlwaysInv(size, producers, 1, run);
      assert ConsumerInv(m, m.consumers[0], m.handed[0]);
    }

    /** begin_batch(): everything published by now. */
    method BeginBatch() returns (available: nat)
      requires consumerSequence >= -1
      modifies this`nextSequence, this`availableSequence
      ensures nextSequence == consumerSequence + 1
      ensures availableSequence == if cursor < nextSequence then NOT_READY else cursor
      ensures available == if cursor < nextSequence then 0 else cursor - consumerSequence
    {
      nextSequence := consumerSequence + 1;
      availableSequence := if cursor < nextSequence then NOT_READY else cursor;
      available := if nextSequence <= availableSequence then availableSequence - nextSequence + 1 else 0;
    }

    /** has_events() together with the choice of the batch to hand out: the rest of the batch begun, or,
        between batches, all that is published; and 0 only if nothing more is published. */
    method HasEvents(ghost want: Option<nat>) returns (available: nat)
      requires Valid() && m.consumers[0].reading.Away?
      modifies this, ring
      ensures Valid() && old(run) <= run && old(m.log) <= m.log && m.handed == old(m.handed) && old(cursor) <= cursor
      ensures nextSequence == old(nextSequence) >= 0 && consumerSequence == old(consumerSequence)
      ensures m.consumers[0].reading == if available == 0 then Away else Handing(0, BatchSize(available, want))
      ensures if old(IsBatch()) then availableSequence == old(availableSequence) && available == availableSequence - nextSequence + 1
              else available == cursor - consumerSequence && availableSequence == if available == 0 then NOT_READY else cursor
    {
      PreemptConsumer();
      ConsumerFacts();
      if IsBatch() {
        available := availableSequence - nextSequence + 1;
      } else {
        available := BeginBatch();
      }
      Do(Begin(0, want));
    }

    /** The call fn(get_event(i)) */
    method HandOut(i: nat, ghost batch: nat) returns (v: Option<Value>)
      requires Valid() && m.consumers[0].reading == Handing(i, batch) && i < batch && nextSequence >= 0
      modifies this`lastClaimed, this`lastConsumer, this`cursor, this`run, this`m, ring
      ensures Valid() && old(run) <= run && old(m.log) <= m.log && old(cursor) <= cursor
      ensures m.consumers[0].reading == Handing(i + 1, batch)
      ensures m.handed[0] == old(m.handed[0]) + [v]
    {
      PreemptConsumer();
      v := GetEvent(i);
      Do(Hand(0));
    }

    /** get_event(idx) */
    method GetEvent(idx: nat) returns (v: Option<Value>)
      requires PowerOfTwo(size) && ring.Length == size && nextSequence >= 0
      ensures v == Ring.Get(ring[..], nextSequence + idx)
    {
      Mask(nextSequence + idx, size);
      v := ring[And(nextSequence + idx, size - 1)];
    }

    /** commit(len): the consumer's sequence moves, to the end of the batch, exactly when the batch is used up. */
    method CommitBatch(len: nat)
      requires Valid() && m.consumers[0].reading == Handing(len, len)
      modifies this, ring
      ensures Valid() && old(run) <= run && old(m.log) <= m.log && m.handed == old(m.handed) && old(cursor) <= cursor
      ensures m.consumers[0].reading.Away?
      ensures nextSequence == old(nextSequence) + len && availableSequence == old(availableSequence)
      ensures consumerSequence == if IsBatch() then old(consumerSequence) else nextSequence - 1
    {
      PreemptConsumer();
      nextSequence := nextSequence + len;
      if !IsBatch() {
        consumerSequence := nextSequence - 1;
      }
      Do(Commit(0));
    }

    /** The hand-out loop of get and get_all, and the commit after it. */
    method HandBatch(n: nat) returns (out: seq<Option<Value>>)
      requires Valid() && m.consumers[0].reading == Handing(0, n) && nextSequence >= 0
      modifies this, ring
      ensures Valid() && old(run) <= run && m.consumers[0].reading.Away? && |out| == n && old(cursor) <= cursor
      ensures m.handed[0] == old(m.handed[0]) + out
      ensures nextSequence == old(nextSequence) + n && availableSequence == old(availableSequence)
      ensures consumerSequence == if IsBatch() then old(consumerSequence) else nextSequence - 1
    {
      out := [];
      var c := 0;
      while c < n
        invariant c <= n && |out| == c && Valid() && old(run) <= run && nextSequence == old(nextSequence)
        invariant consumerSequence == old(consumerSequence) && availableSequence == old(availableSequence)
        invariant m.consumers[0].reading == Handing(c, n) && m.handed[0] == old(m.handed[0]) + out && old(cursor) <= cursor
      {
        var v := HandOut(c, n);
        out := out + [v];
        c := c + 1;
      }
      CommitBatch(n);
    }

    /** `out` continues what was handed out before along the log. */
    ghost predicate Continues(before: seq<Option<Value>>, out: seq<Option<Value>>)
      reads this
    {
      && |m.handed| == 1 && m.handed[0] == before + out && |before| + |out| <= |m.log|
      && forall k: nat :: k < |out| ==> out[k] == Some(m.log[|before| + k])
    }

    lemma OutContinues(before: seq<Option<Value>>, out: seq<Option<Value>>)
      requires Valid() && m.handed[0] == before + out
      ensures Continues(before, out)
    {
      HandedInClaimOrder(size, producers, 1, run, 0);
      assert forall k: nat :: k < |out| ==> out[k] == m.handed[0][|before| + k];
    }

    /** get(requested, fn): hands out the next values of the log, from the batch begun or else from all that
        is published. It hands out fewer than asked for only at the end of a batch; and when the call began
        between batches, only after everything published before it. */
    method Get(requested: nat) returns (n: nat, out: seq<Option<Value>>)
      requires Valid() && m.consumers[0].reading.Away?
      modifies this, ring
      ensures Valid() && old(run) <= run && m.consumers[0].reading.Away? && n == |out| <= requested
      ensures Continues(old(m.handed[0]), out) && nextSequence == old(nextSequence) + n
      ensures old(IsBatch()) ==> n == Min(old(availableSequence - nextSequence) + 1, requested)
      ensures !old(IsBatch()) && n < requested ==> nextSequence > old(cursor) && consumerSequence == nextSequence - 1
    {
      ConsumerFacts();
      var available := HasEvents(Some(requested));
      n, out := 0, [];
      if available != 0 {
        n := Min(available, requested);
        out := HandBatch(n);
      }
      OutContinues(old(m.handed[0]), out);
    }

    /** get_all(fn): the rest of the batch begun, or everything published, which is then finished. */
    method GetAll() returns (n: nat, out: seq<Option<Value>>)
      requires Valid() && m.consumers[0].reading.Away?
      modifies this, ring
      ensures Valid() && old(run) <= run && m.consumers[0].reading.Away? && n == |out|
      ensures Continues(old(m.handed[0]), out) && nextSequence == old(nextSequence) + n
      ensures old(IsBatch()) ==> nextSequence == old(availableSequence) + 1
      ensures !old(IsBatch()) ==> nextSequence > old(cursor)
      ensures consumerSequence == nextSequence - 1
    {
      ConsumerFacts();
      n := HasEvents(None);
      out := [];
      if n != 0 {
        out := HandBatch(n);
      }
      OutContinues(old(m.handed[0]), out);
    }
  }
}
