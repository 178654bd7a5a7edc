/** When a sender gets its values published: from every reachable state it can be led there by letting the
    consumers and the producers in front of it run, unless one of their claims is larger than the ring. */
module InboxProgress {
  import opened Options
  import opened Disruptor
  import Runs

  /** Steps that claim nothing new. */
  predicate Helpful(a: Step) { !a.Claim? && !a.AskCapacity? }

  predicate AllHelpful(steps: seq<Step>) {
    forall k :: 0 <= k < |steps| ==> Helpful(steps[k])
  }

  /** `steps` is a helpful run from s0 to s. */
  ghost predicate Leads(s0: State, steps: seq<Step>, s: State) {
    Runs.Reached(Apply, s0, steps, s) && AllHelpful(steps) && Inv(s)
  }

  lemma Go(s0: State, steps: seq<Step>, s: State, a: Step) returns (steps': seq<Step>, s': State)
    requires Leads(s0, steps, s) && Helpful(a)
    ensures Leads(s0, steps', s') && s' == Apply(s, a)
  {
    steps', s' := Runs.Then(Apply, s0, steps, s, a);
    StepKeepsInv(s, a);
  }

  // ---- the consumers catch up

  /** Only consumers have moved. */
  ghost predicate OnlyConsumers(s: State, s': State) {
    s' == s.(consumers := s'.consumers, handed := s'.handed) && |s'.consumers| == |s.consumers|
  }

  ghost predicate OnlyConsumer(s: State, s': State, c: nat) {
    OnlyConsumers(s, s') && forall d :: 0 <= d < |s.consumers| && d != c ==> s'.consumers[d] == s.consumers[d]
  }

  /** An unfinished empty batch, nothing in hand, a batch that hands something out. */
  function Rank(q: Consumer): nat {
    match q.reading
    case Away => 1
    case Handing(_, m) => if m == 0 then 2 else 0
  }

  function LeftInHand(q: Consumer): int {
    match q.reading
    case Away => 0
    case Handing(i, m) => m - i
  }

  /** The next step of a consumer that has not finished everything published. */
  function ConsumerStep(q: Consumer, c: nat): Step {
    if q.reading.Away? then Begin(c, None) else if q.reading.i < q.reading.m then Hand(c) else Commit(c)
  }

  lemma ConsumerMoves(s: State, c: nat)
    requires Inv(s) && c < |s.consumers| && (s.consumers[c].done < s.cursor || s.consumers[c].reading.Handing?)
    ensures var s' := Apply(s, ConsumerStep(s.consumers[c], c)); var q, q' := s.consumers[c], s'.consumers[c];
      && OnlyConsumer(s, s', c) && q.next <= q'.next <= s.cursor + 1
      && (q.next < q'.next || Rank(q') < Rank(q) || (Rank(q') == Rank(q) && 0 <= LeftInHand(q') < LeftInHand(q)))
  {
    assert ConsumerInv(s, s.consumers[c], s.handed[c]);
    StepKeepsInv(s, ConsumerStep(s.consumers[c], c));
  }

  lemma {:induction false} CatchUp(s0: State, steps: seq<Step>, s: State, c: nat) returns (steps': seq<Step>, s': State)
    requires Leads(s0, steps, s) && c < |s.consumers|
    ensures Leads(s0, steps', s') && OnlyConsumer(s, s', c) && s'.consumers[c].done == s.cursor
    decreases s.cursor + 1 - s.consumers[c].next, Rank(s.consumers[c]), LeftInHand(s.consumers[c])
  {
    steps', s' := steps, s;
    assert ConsumerInv(s, s.consumers[c], s.handed[c]);
    if s.consumers[c].done < s.cursor || s.consumers[c].reading.Handing? {
      ConsumerMoves(s, c);
      steps', s' := Go(s0, steps, s, ConsumerStep(s.consumers[c], c));
      steps', s' := CatchUp(s0, steps', s', c);
    }
  }

  /** The first k consumers finish everything published. */
  lemma {:induction false} AllCatchUp(s0: State, steps: seq<Step>, s: State, k: nat)
    returns (steps': seq<Step>, s': State)
    requires Leads(s0, steps, s) && k <= |s.consumers|
    ensures Leads(s0, steps', s') && OnlyConsumers(s, s')
    ensures forall c :: 0 <= c < k ==> s'.consumers[c].done == s.cursor
    decreases k
  {
    steps', s' := steps, s;
    if k > 0 {
      steps', s' := AllCatchUp(s0, steps, s, k - 1);
      steps', s' := CatchUp(s0, steps', s', k - 1);
    }
  }

  // ---- the producer whose turn it is

  /** Only producer p, and perhaps the ring, have changed. */
  ghost predicate OnlyProducer(s: State, s': State, p: nat) {
    p < |s.producers| && |s'.producers| == |s.producers|
    && s' == s.(producers := s.producers[p := s'.producers[p]], ring := s'.ring)
  }

  /** Producer p waits at the gate of the range (hi - delta, hi]. */
  predicate AtGate(s: State, p: nat, hi: int, delta: nat) {
    p < |s.producers| && s.producers[p].Gate? && s.producers[p].hi == hi && s.producers[p].delta == delta
  }

  /** It reads the rest of the consumers, none of which it overruns. */
  lemma {:induction false} ReadAll(s0: State, steps: seq<Step>, s: State, p: nat)
    returns (steps': seq<Step>, s': State)
    requires Leads(s0, steps, s) && p < |s.producers| && s.producers[p].Gate?
    requires BelowAll(s, s.producers[p].hi - s.size, |s.consumers|)
    ensures Leads(s0, steps', s') && OnlyProducer(s, s', p)
    ensures AtGate(s', p, s.producers[p].hi, s.producers[p].delta) && s'.producers[p].k == |s.consumers|
    ensures s.producers[p].min >= s.producers[p].hi - s.size ==> s'.producers[p].min >= s.producers[p].hi - s.size
    decreases |s.consumers| - s.producers[p].k
  {
    steps', s' := steps, s;
    assert ProducerInv(s, p, s.producers[p]);
    if s.producers[p].k < |s.consumers| {
      steps', s' := Go(s0, steps, s, ReadConsumer(p));
      steps', s' := ReadAll(s0, steps', s', p);
    }
  }

  /** Past the gate with the range (hi - delta, hi]. */
  predicate Through(s: State, p: nat, hi: int, delta: nat) {
    p < |s.producers| && Gated(s.producers[p]) && s.producers[p].hi == hi && s.producers[p].delta == delta
  }

  /** A minimum read too early makes it read them all once more, and then it passes. */
  lemma PassFromGate(s0: State, steps: seq<Step>, s: State, p: nat, hi: int, delta: nat)
    returns (steps': seq<Step>, s': State)
    requires Leads(s0, steps, s) && AtGate(s, p, hi, delta)
    requires BelowAll(s, hi - s.size, |s.consumers|) && hi - s.size <= LONG_MAX
    ensures Leads(s0, steps', s') && OnlyProducer(s, s', p) && Through(s', p, hi, delta)
  {
    steps', s' := ReadAll(s0, steps, s, p);
    steps', s' := Go(s0, steps', s', PassGate(p));
    if s'.producers[p].Gate? {
      steps', s' := ReadAll(s0, steps', s', p);
      steps', s' := Go(s0, steps', s', PassGate(p));
    }
  }

  lemma PassGates(s0: State, steps: seq<Step>, s: State, p: nat) returns (steps': seq<Step>, s': State)
    requires Leads(s0, steps, s) && p < |s.producers| && InFlight(s.producers[p])
    requires BelowAll(s, s.producers[p].hi - s.size, |s.consumers|) && s.producers[p].hi - s.size <= LONG_MAX
    ensures Leads(s0, steps', s') && OnlyProducer(s, s', p)
    ensures Through(s', p, s.producers[p].hi, s.producers[p].delta)
  {
    steps', s' := steps, s;
    if s.producers[p].Claimed? { steps', s' := Go(s0, steps, s, LookAtCached(p)); }
    if s'.producers[p].Gate? {
      steps', s' := PassFromGate(s0, steps', s', p, s.producers[p].hi, s.producers[p].delta);
    }
  }

  /** It writes its slots. */
  lemma {:induction false} WriteAll(s0: State, steps: seq<Step>, s: State, p: nat)
    returns (steps': seq<Step>, s': State)
    requires Leads(s0, steps, s) && p < |s.producers| && Gated(s.producers[p])
    ensures Leads(s0, steps', s') && OnlyProducer(s, s', p)
    ensures Through(s', p, s.producers[p].hi, s.producers[p].delta) && !s'.producers[p].Write?
    decreases if s.producers[p].Write? then 1 + s.producers[p].hi - s.producers[p].j else 0
  {
    steps', s' := steps, s;
    assert ProducerInv(s, p, s.producers[p]);
    if s.producers[p].Write? {
      steps', s' := Go(s0, steps, s, WriteSlot(p));
      steps', s' := WriteAll(s0, steps', s', p);
    }
  }

  /** The producer next in line has published, and gone. */
  ghost predicate Published(s: State, s': State, p: nat) {
    && p < |s.producers| && s'.producers == s.producers[p := Disruptor.Producer.Idle]
    && InFlight(s.producers[p]) && s'.cursor == s.producers[p].hi && s'.size == s.size && |s'.consumers| == |s.consumers|
    && s'.log == s.log && s'.owner == s.owner
  }

  lemma PublishWritten(s0: State, steps: seq<Step>, s: State, p: nat) returns (steps': seq<Step>, s': State)
    requires Leads(s0, steps, s) && p < |s.producers| && (s.producers[p].Sync? || s.producers[p].Turn?)
    requires s.cursor == s.producers[p].hi - s.producers[p].delta
    ensures Leads(s0, steps', s') && Published(s, s', p)
  {
    steps', s' := steps, s;
    if s.producers[p].Sync? { steps', s' := Go(s0, steps, s, AwaitTurn(p)); }
    steps', s' := Go(s0, steps', s', Publish(p));
    assert s'.producers == s.producers[p := Disruptor.Producer.Idle];
  }

  /** The producer next in line, with a claim that fits the ring, can be led to its publication. */
  lemma PublishNext(s0: State, steps: seq<Step>, s: State, p: nat) returns (steps': seq<Step>, s': State)
    requires Leads(s0, steps, s) && p < |s.producers| && InFlight(s.producers[p])
    requires s.cursor == s.producers[p].hi - s.producers[p].delta && s.producers[p].delta <= s.size
    requires s.producers[p].hi <= LONG_MAX
    ensures Leads(s0, steps', s') && Published(s, s', p)
  {
    steps', s' := AllCatchUp(s0, steps, s, |s.consumers|);
    assert BelowAll(s', s.producers[p].hi - s.size, |s.consumers|);
    steps', s' := PassGates(s0, steps', s', p);
    steps', s' := WriteAll(s0, steps', s', p);
    steps', s' := PublishWritten(s0, steps', s', p);
  }

  // ---- a sender

  /** Producer p has claimed numbers up to hi and not published them. */
  predicate Sending(s: State, p: nat, hi: int) {
    p < |s.producers| && InFlight(s.producers[p]) && s.producers[p].hi == hi
  }

  /** No claim up to hi that is still under way is larger than the ring. */
  predicate AllFit(s: State, hi: int) {
    forall q :: 0 <= q < |s.producers| && InFlight(s.producers[q]) && s.producers[q].hi <= hi ==>
      s.producers[q].delta <= s.size
  }

  /** The one next in line comes before p, or is p. */
  lemma NextInLine(s: State, p: nat, hi: int) returns (q: nat)
    requires Inv(s) && Sending(s, p, hi)
    ensures q < |s.producers| && InFlight(s.producers[q]) && s.producers[q].hi - s.producers[q].delta == s.cursor
    ensures s.cursor < s.producers[q].hi <= hi && (q == p || s.producers[q].hi < hi)
  {
    assert ProducerInv(s, p, s.producers[p]);
    q := s.owner[s.cursor + 1];
    assert ProducerInv(s, q, s.producers[q]);
    if q != p { assert s.owner[hi] == p; }
  }

  lemma {:induction false} LeadSender(s0: State, steps: seq<Step>, s: State, p: nat, hi: int)
    returns (steps': seq<Step>, s': State)
    requires Leads(s0, steps, s) && Sending(s, p, hi) && AllFit(s, hi) && hi <= LONG_MAX
    ensures Leads(s0, steps', s') && s'.cursor == hi && p < |s'.producers| && s'.producers[p].Idle?
    decreases hi - s.cursor
  {
    var q := NextInLine(s, p, hi);
    steps', s' := PublishNext(s0, steps, s, q);
    if q != p { steps', s' := LeadSender(s0, steps', s', p, hi); }
  }

  /** From every reachable state a sender can be led to its publication, with no further claim, if the
      claims up to its own fit the ring. */
  lemma SenderCanPublish(size: nat, producers: nat, consumers: nat, run: seq<Step>, p: nat, hi: int)
    returns (more: seq<Step>)
    requires size > 0 && consumers > 0 && hi <= LONG_MAX
    requires var s := Runs.Exec(Apply, Init(size, producers, consumers), run); Sending(s, p, hi) && AllFit(s, hi)
    ensures AllHelpful(more)
    ensures var s' := Runs.Exec(Apply, Init(size, producers, consumers), run + more);
      s'.cursor == hi && p < |s'.producers| && s'.producers[p].Idle?
  {
    AlwaysInv(size, producers, consumers, run);
    var s := Runs.Exec(Apply, Init(size, producers, consumers), run);
    Runs.Start(Apply, s);
    var s': State;
    more, s' := LeadSender(s, [], s, p, hi);
    assert Runs.Exec(Apply, s, more) == s';
    Runs.Split(Apply, Init(size, producers, consumers), run, more);
  }

  // ---- a claim larger than the ring

  /** Producer q, with such a claim, is not past the gate. */
  predicate Oversized(s: State, q: nat, hi: int) {
    Sending(s, q, hi) && s.producers[q].delta > s.size
  }

  lemma OversizedStays(s: State, a: Step, q: nat, hi: int)
    requires Inv(s) && Oversized(s, q, hi)
    ensures Oversized(Apply(s, a), q, hi) && Apply(s, a).cursor < hi
  {
    StepKeepsInv(s, a);
    assert ProducerInv(s, q, s.producers[q]) && ConsumerInv(s, s.consumers[0], s.handed[0]);
    var s' := Apply(s, a);
    assert ProducerInv(s', q, s'.producers[q]);
  }

  /** It holds up itself and every later number for ever. */
  lemma OversizedNeverPublishes(size: nat, producers: nat, consumers: nat, run: seq<Step>, more: seq<Step>, q: nat, hi: int)
    requires size > 0 && consumers > 0 && Oversized(Runs.Exec(Apply, Init(size, producers, consumers), run), q, hi)
    ensures Runs.Exec(Apply, Init(size, producers, consumers), run + more).cursor < hi
  {
    AlwaysInv(size, producers, consumers, run);
    var s := Runs.Exec(Apply, Init(size, producers, consumers), run);
    assert ProducerInv(s, q, s.producers[q]);
    Runs.Split(Apply, Init(size, producers, consumers), run, more);
    var kept := (t: State) => Inv(t) && Oversized(t, q, hi) && t.cursor < hi;
    forall t: State, a: Step | kept(t) ensures kept(Apply(t, a)) {
      StepKeepsInv(t, a);
      OversizedStays(t, a, q, hi);
    }
    Runs.Invariant(Apply, kept, s, more);
  }

  /** So a sender can publish if and only if no claim up to its own is larger than the ring. */
  lemma CanPublishIff(size: nat, producers: nat, consumers: nat, run: seq<Step>, p: nat, hi: int)
    requires size > 0 && consumers > 0 && hi <= LONG_MAX
    requires Sending(Runs.Exec(Apply, Init(size, producers, consumers), run), p, hi)
    ensures (exists more :: Runs.Exec(Apply, Init(size, producers, consumers), run + more).cursor >= hi) <==>
      AllFit(Runs.Exec(Apply, Init(size, producers, consumers), run), hi)
  {
    var s := Runs.Exec(Apply, Init(size, producers, consumers), run);
    if AllFit(s, hi) {
      var more := SenderCanPublish(size, producers, consumers, run, p, hi);
    } else {
      var q: nat :| q < |s.producers| && InFlight(s.producers[q]) && s.producers[q].hi <= hi && s.producers[q].delta > s.size;
      forall more ensures Runs.Exec(Apply, Init(size, producers, consumers), run + more).cursor < hi {
        OversizedNeverPublishes(size, producers, consumers, run, more, q, s.producers[q].hi);
      }
    }
  }

  /** Every claim fits the ring; those of the inbox take one number each. */
  predicate ClaimsFit(run: seq<Step>, size: nat) {
    forall k :: 0 <= k < |run| && run[k].Claim? ==> |run[k].vals| <= size
  }

  lemma StepFits(s: State, a: Step, hi: int)
    requires AllFit(s, hi) && (a.Claim? ==> |a.vals| <= s.size)
    ensures Apply(s, a).size == s.size && AllFit(Apply(s, a), hi)
  {
  }

  lemma {:induction false} FittingClaims(size: nat, producers: nat, consumers: nat, run: seq<Step>, hi: int)
    requires ClaimsFit(run, size)
    ensures var s := Runs.Exec(Apply, Init(size, producers, consumers), run); s.size == size && AllFit(s, hi)
    decreases |run|
  {
    if run != [] {
      var before := run[..|run| - 1];
      FittingClaims(size, producers, consumers, before, hi);
      StepFits(Runs.Exec(Apply, Init(size, producers, consumers), before), run[|run| - 1], hi);
    }
  }

  /** In the inbox every sender can be led to its publication, from every reachable state. */
  lemma InboxSenderCanPublish(size: nat, producers: nat, consumers: nat, run: seq<Step>, p: nat, hi: int)
    returns (more: seq<Step>)
    requires size > 0 && consumers > 0 && hi <= LONG_MAX && ClaimsFit(run, size)
    requires Sending(Runs.Exec(Apply, Init(size, producers, consumers), run), p, hi)
    ensures AllHelpful(more)
    ensures var s' := Runs.Exec(Apply, Init(size, producers, consumers), run + more);
      s'.cursor == hi && p < |s'.producers| && s'.producers[p].Idle?
  {
    FittingClaims(size, producers, consumers, run, hi);
    more := SenderCanPublish(size, producers, consumers, run, p, hi);
  }
}
