// The event emitter (internal/events): numbered envelopes fanned out to
// subscribers over bounded queues; a full queue drops the event.
module Events {

  const BUFFER_SIZE: nat := 256

  datatype Envelope = Envelope(seq_: nat, typ: string, candidate: string, data: string)

  // One event as a subscriber met it: how many events its queue held then.
  datatype Offer = Offer(env: Envelope, held: nat)

  // A subscriber: `from` events had been emitted when it came.
  datatype Sub = Sub(open: bool, from: nat, queue: seq<Envelope>, received: seq<Envelope>, offered: seq<Offer>)

  // Handles are handed out in order, so a subscriber's handle is its position.
  datatype State = State(log: seq<Envelope>, subs: seq<Sub>)

  datatype Op =
    | Subscribe
    | Unsubscribe(id: nat)
    | Emit(typ: string, candidate: string, data: string)
    | Receive(id: nat)

  function Stamp(s: State, typ: string, candidate: string, data: string): (e: Envelope) {
    Envelope(|s.log| + 1, typ, candidate, data)
  }

  function Deliver(sub: Sub, e: Envelope): (r: Sub) {
    if !sub.open then sub
    else
      sub.(queue := if |sub.queue| < BUFFER_SIZE then sub.queue + [e] else sub.queue,
           offered := sub.offered + [Offer(e, |sub.queue|)])
  }

  function Take(sub: Sub): (r: Sub) {
    if sub.queue == [] then sub
    else sub.(queue := sub.queue[1..], received := sub.received + [sub.queue[0]])
  }

  function DeliverAll(subs: seq<Sub>, e: Envelope): (r: seq<Sub>)
    ensures |r| == |subs| && forall i :: 0 <= i < |subs| ==> r[i] == Deliver(subs[i], e)
  {
    seq(|subs|, i requires 0 <= i < |subs| => Deliver(subs[i], e))
  }

  function Apply(s: State, op: Op): (s': State) {
    match op
    case Subscribe => s.(subs := s.subs + [Sub(true, |s.log|, [], [], [])])
    case Unsubscribe(id) => if id < |s.subs| then s.(subs := s.subs[id := s.subs[id].(open := false)]) else s
    case Emit(t, c, d) =>
      var e := Stamp(s, t, c, d);
      State(s.log + [e], DeliverAll(s.subs, e))
    case Receive(id) => if id < |s.subs| then s.(subs := s.subs[id := Take(s.subs[id])]) else s
  }

  function Run(ops: seq<Op>): (s: State) {
    if ops == [] then State([], []) else Apply(Run(ops[..|ops| - 1]), ops[|ops| - 1])
  }

  // ----- what a subscriber got -----

  // The offers that found room, in order.
  function Taken(offered: seq<Offer>): (r: seq<Envelope>) {
    if offered == [] then []
    else
      Taken(offered[..|offered| - 1]) +
      if offered[|offered| - 1].held < BUFFER_SIZE then [offered[|offered| - 1].env] else []
  }

  // The offers are exactly the events emitted while subscribed, from the first on.
  ghost predicate Faithful(log: seq<Envelope>, sub: Sub) {
    && sub.from + |sub.offered| <= |log|
    && (sub.open ==> sub.from + |sub.offered| == |log|)
    && forall k :: 0 <= k < |sub.offered| ==> sub.offered[k].env == log[sub.from + k]
  }

  ghost predicate SubInv(log: seq<Envelope>, sub: Sub) {
    && Faithful(log, sub)
    && sub.received + sub.queue == Taken(sub.offered)
    && |sub.queue| <= BUFFER_SIZE
    && (sub.offered != [] ==> sub.offered[0].held == 0)
    && forall k :: 0 <= k < |sub.offered| ==> sub.offered[k].held <= BUFFER_SIZE
  }

  // Numbers go 1, 2, 3, and every subscriber's account is in order.
  ghost predicate Inv(s: State) {
    && (forall i :: 0 <= i < |s.log| ==> s.log[i].seq_ == i + 1)
    && (forall i :: 0 <= i < |s.subs| ==> SubInv(s.log, s.subs[i]))
  }

  lemma {:induction false} TakeKeeps(log: seq<Envelope>, sub: Sub)
    requires SubInv(log, sub)
    ensures SubInv(log, Take(sub))
  {
    if sub.queue != [] {
      assert sub.received + [sub.queue[0]] + sub.queue[1..] == sub.received + sub.queue;
    }
  }

  lemma {:induction false} DeliverKeeps(log: seq<Envelope>, sub: Sub, e: Envelope)
    requires SubInv(log, sub)
    ensures SubInv(log + [e], Deliver(sub, e))
  {
    if sub.open {
      var offered := sub.offered + [Offer(e, |sub.queue|)];
      assert offered[..|offered| - 1] == sub.offered;
      assert sub.received + (sub.queue + [e]) == (sub.received + sub.queue) + [e];
      if sub.offered == [] { assert sub.queue == []; }
    }
  }

  lemma {:induction false} ApplyKeeps(s: State, op: Op)
    requires Inv(s)
    ensures Inv(Apply(s, op))
  {
    hide SubInv, Deliver, Take;
    match op {
      case Subscribe => NewSub(s.log);
      case Unsubscribe(id) => if id < |s.subs| { CloseKeeps(s.log, s.subs[id]); }
      case Emit(t, c, d) =>
        var e := Stamp(s, t, c, d);
        forall i | 0 <= i < |s.subs| ensures SubInv(s.log + [e], Deliver(s.subs[i], e)) {
          DeliverKeeps(s.log, s.subs[i], e);
        }
      case Receive(id) =>
        if id < |s.subs| { TakeKeeps(s.log, s.subs[id]); }
    }
  }

  lemma {:induction false} NewSub(log: seq<Envelope>)
    ensures SubInv(log, Sub(true, |log|, [], [], []))
  {
  }

  lemma {:induction false} CloseKeeps(log: seq<Envelope>, sub: Sub)
    requires SubInv(log, sub)
    ensures SubInv(log, sub.(open := false))
  {
  }

  lemma {:induction false} RunKeeps(ops: seq<Op>)
    ensures Inv(Run(ops))
  {
    if ops != [] {
      RunKeeps(ops[..|ops| - 1]);
      ApplyKeeps(Run(ops[..|ops| - 1]), ops[|ops| - 1]);
    }
  }

  // ----- what the log tells -----

  function Emits(ops: seq<Op>): (r: seq<Op>)
    ensures forall i :: 0 <= i < |r| ==> r[i].Emit?
  {
    if ops == [] then [] else Emits(ops[..|ops| - 1]) + if ops[|ops| - 1].Emit? then [ops[|ops| - 1]] else []
  }

  // The log is what was emitted, in order, each event with its number, type,
  // candidate and data.
  lemma {:induction false} LogTells(ops: seq<Op>)
    ensures var log, es := Run(ops).log, Emits(ops);
            && |log| == |es|
            && forall k :: 0 <= k < |log| ==> log[k] == Envelope(k + 1, es[k].typ, es[k].candidate, es[k].data)
    decreases |ops|
  {
    if ops != [] { LogTells(ops[..|ops| - 1]); }
  }

  lemma {:induction false} SubsGrow(ops: seq<Op>, more: seq<Op>)
    ensures |Run(ops).subs| <= |Run(ops + more).subs|
    decreases |more|
  {
    if more == [] {
      assert ops + more == ops;
    } else {
      assert (ops + more)[..|ops + more| - 1] == ops + more[..|more| - 1];
      SubsGrow(ops, more[..|more| - 1]);
    }
  }

  // Once a subscriber has gone nothing is offered to it any more, and what it
  // still takes is what its queue held.
  lemma {:induction false} GoneIsGone(ops: seq<Op>, id: nat, more: seq<Op>)
    requires id < |Run(ops).subs|
    ensures id < |Run(ops + [Unsubscribe(id)] + more).subs|
    ensures var was, sub := Run(ops).subs[id], Run(ops + [Unsubscribe(id)] + more).subs[id];
            && !sub.open && sub.offered == was.offered && sub.received + sub.queue == was.received + was.queue
    decreases |more|
  {
    var all := ops + [Unsubscribe(id)] + more;
    if more == [] {
      assert all[..|all| - 1] == ops;
    } else {
      var front := more[..|more| - 1];
      assert all[..|all| - 1] == ops + [Unsubscribe(id)] + front;
      GoneIsGone(ops, id, front);
      var sub := Run(ops + [Unsubscribe(id)] + front).subs[id];
      if sub.queue != [] {
        assert sub.received + [sub.queue[0]] + sub.queue[1..] == sub.received + sub.queue;
      }
    }
  }

  // ----- losses and gaps -----

  ghost predicate Consecutive(offered: seq<Offer>, from: nat) {
    forall k :: 0 <= k < |offered| ==> offered[k].env.seq_ == from + k + 1
  }

  ghost predicate Dropped(offered: seq<Offer>, k: nat) { k < |offered| && offered[k].held >= BUFFER_SIZE }

  // The number of a taken event places it among the offers.
  lemma {:induction false} TakenWhere(offered: seq<Offer>, from: nat, i: nat)
    requires Consecutive(offered, from) && i < |Taken(offered)|
    ensures var k := Taken(offered)[i].seq_ - from - 1;
            0 <= k < |offered| && offered[k].env == Taken(offered)[i] && !Dropped(offered, k)
  {
    var init := offered[..|offered| - 1];
    if i < |Taken(init)| { TakenWhere(init, from, i); }
  }

  // Taken numbers rise, and between two neighbours lie exactly dropped offers.
  lemma {:induction false} TakenRises(offered: seq<Offer>, from: nat, i: nat)
    requires Consecutive(offered, from) && i + 1 < |Taken(offered)|
    ensures Taken(offered)[i].seq_ < Taken(offered)[i + 1].seq_
    ensures forall k :: k >= 0 && Taken(offered)[i].seq_ < from + k + 1 < Taken(offered)[i + 1].seq_ ==>
              Dropped(offered, k)
  {
    var init := offered[..|offered| - 1];
    if i + 1 < |Taken(init)| {
      TakenRises(init, from, i);
      TakenWhere(init, from, i + 1);
      forall k | k >= 0 && Taken(offered)[i].seq_ < from + k + 1 < Taken(offered)[i + 1].seq_
        ensures Dropped(offered, k)
      {
        assert Dropped(init, k);
      }
    } else {
      TakenWhere(init, from, i);
      TailDropped(init, from);
      forall k | k >= 0 && Taken(offered)[i].seq_ < from + k + 1 < Taken(offered)[i + 1].seq_
        ensures Dropped(offered, k)
      {
        assert Past(init, from, k) && Dropped(init, k);
      }
    }
  }

  ghost predicate Past(offered: seq<Offer>, from: nat, k: nat) {
    Taken(offered) == [] || from + k + 1 > Taken(offered)[|Taken(offered)| - 1].seq_
  }

  // Past the last taken offer everything was dropped.
  lemma {:induction false} TailDropped(offered: seq<Offer>, from: nat)
    requires Consecutive(offered, from)
    ensures forall k :: 0 <= k < |offered| && Past(offered, from, k) ==> Dropped(offered, k)
  {
    if offered != [] {
      var init, last := offered[..|offered| - 1], offered[|offered| - 1];
      TailDropped(init, from);
      forall k | 0 <= k < |offered| && Past(offered, from, k) ensures Dropped(offered, k) {
        if k < |init| {
          assert Past(init, from, k);
          assert Dropped(init, k);
        }
      }
    }
  }

  // Every run: the subscriber's events are a strictly rising part of what was
  // emitted while it was subscribed; the ones missing are exactly those that
  // met a queue of 256; and two neighbouring numbers have a gap exactly when an
  // event between them was dropped.
  lemma {:induction false} LossIsVisible(ops: seq<Op>, id: nat, i: nat)
    requires id < |Run(ops).subs|
    ensures var sub := Run(ops).subs[id];
            var got := sub.received + sub.queue;
            i + 1 < |got| ==>
              && got[i].seq_ < got[i + 1].seq_
              && (got[i + 1].seq_ > got[i].seq_ + 1 <==>
                    exists k :: 0 <= k < |sub.offered| && sub.offered[k].held == BUFFER_SIZE
                      && got[i].seq_ < sub.offered[k].env.seq_ < got[i + 1].seq_)
  {
    RunKeeps(ops);
    var s := Run(ops);
    var sub := s.subs[id];
    var got := sub.received + sub.queue;
    if i + 1 < |got| {
      TakenRises(sub.offered, sub.from, i);
      TakenWhere(sub.offered, sub.from, i + 1);
      TakenWhere(sub.offered, sub.from, i);
      if got[i + 1].seq_ > got[i].seq_ + 1 {
        var k := got[i].seq_ - sub.from;
        assert Dropped(sub.offered, k);
        assert sub.offered[k].held == BUFFER_SIZE;
      }
    }
  }

  ghost predicate Rising(got: seq<Envelope>) {
    forall i :: 0 <= i && i + 1 < |got| ==> got[i].seq_ < got[i + 1].seq_
  }

  // The number n falls into a gap of the sequence.
  ghost predicate InGap(got: seq<Envelope>, n: int) {
    exists i :: 0 <= i && i + 1 < |got| && got[i].seq_ < n < got[i + 1].seq_
  }

  lemma {:induction false} GapsBelow(got: seq<Envelope>, n: int, i: nat)
    requires Rising(got) && i < |got| && got[0].seq_ < n < got[i].seq_
    requires forall j :: 0 <= j < |got| ==> got[j].seq_ != n
    ensures InGap(got, n)
    decreases i
  {
    if got[i - 1].seq_ < n {
      assert got[i - 1].seq_ < n < got[i - 1 + 1].seq_;
    } else {
      GapsBelow(got, n, i - 1);
    }
  }

  lemma {:induction false} LastIsLargest(got: seq<Envelope>, i: nat)
    requires Rising(got) && i < |got|
    ensures got[i].seq_ <= got[|got| - 1].seq_
    decreases |got| - i
  {
    if i + 1 < |got| { LastIsLargest(got, i + 1); }
  }

  lemma {:induction false} TakenRising(offered: seq<Offer>, from: nat)
    requires Consecutive(offered, from)
    ensures Rising(Taken(offered))
  {
    hide Taken, Consecutive;
    forall i | 0 <= i && i + 1 < |Taken(offered)| ensures Taken(offered)[i].seq_ < Taken(offered)[i + 1].seq_ {
      TakenRises(offered, from, i);
    }
  }

  lemma {:induction false} InGapDropped(offered: seq<Offer>, from: nat, k: nat)
    requires Consecutive(offered, from) && k < |offered| && InGap(Taken(offered), offered[k].env.seq_)
    ensures Dropped(offered, k)
  {
    var got, n := Taken(offered), offered[k].env.seq_;
    hide Taken, Dropped;
    var i :| 0 <= i && i + 1 < |got| && got[i].seq_ < n < got[i + 1].seq_;
    TakenRises(offered, from, i);
  }

  // Past the last number taken there is no gap, and everything was dropped.
  lemma {:induction false} TailUnseen(offered: seq<Offer>, from: nat, k: nat)
    requires Consecutive(offered, from) && k < |offered| && Taken(offered) != []
    requires offered[k].env.seq_ > Taken(offered)[|Taken(offered)| - 1].seq_
    ensures Dropped(offered, k) && !InGap(Taken(offered), offered[k].env.seq_)
  {
    var got := Taken(offered);
    TailDropped(offered, from);
    TakenRising(offered, from);
    hide Taken, Dropped;
    assert Past(offered, from, k);
    forall i | 0 <= i && i + 1 < |got| ensures !(got[i].seq_ < offered[k].env.seq_ < got[i + 1].seq_) {
      LastIsLargest(got, i + 1);
    }
  }

  // Before it every lost event falls into a gap.
  lemma {:induction false} EarlierSeen(offered: seq<Offer>, from: nat, k: nat)
    requires Consecutive(offered, from) && k < |offered| && Dropped(offered, k) && offered[0].held < BUFFER_SIZE
    requires Taken(offered) != [] && offered[k].env.seq_ <= Taken(offered)[|Taken(offered)| - 1].seq_
    ensures InGap(Taken(offered), offered[k].env.seq_)
  {
    var got := Taken(offered);
    FirstTaken(offered);
    TakenRising(offered, from);
    hide Taken;
    forall j | 0 <= j < |got| ensures got[j].seq_ != offered[k].env.seq_ { TakenWhere(offered, from, j); }
    GapsBelow(got, offered[k].env.seq_, |got| - 1);
  }

  // Which losses stay unseen: a subscriber's first event is never lost, so a
  // lost event shows as a gap exactly when a later one got through; after the
  // last one that did, everything was lost and nothing shows.
  lemma {:induction false} UnseenLosses(ops: seq<Op>, id: nat, k: nat)
    requires id < |Run(ops).subs| && k < |Run(ops).subs[id].offered|
    ensures var sub := Run(ops).subs[id];
            var got, n := sub.received + sub.queue, sub.offered[k].env.seq_;
            && got != [] && got[0] == sub.offered[0].env
            && (n > got[|got| - 1].seq_ <==> sub.offered[k].held == BUFFER_SIZE && !InGap(got, n))
            && (InGap(got, n) ==> sub.offered[k].held == BUFFER_SIZE)
  {
    hide Taken, InGap, Run;
    RunKeeps(ops);
    var s := Run(ops);
    var sub := s.subs[id];
    var got, n := sub.received + sub.queue, sub.offered[k].env.seq_;
    assert SubInv(s.log, sub) && got == Taken(sub.offered);
    FirstTaken(sub.offered);
    if n > got[|got| - 1].seq_ {
      TailUnseen(sub.offered, sub.from, k);
    } else if sub.offered[k].held == BUFFER_SIZE {
      EarlierSeen(sub.offered, sub.from, k);
    }
    if InGap(got, n) { InGapDropped(sub.offered, sub.from, k); }
  }

  lemma {:induction false} FirstTaken(offered: seq<Offer>)
    requires offered != [] && offered[0].held < BUFFER_SIZE
    ensures Taken(offered) != [] && Taken(offered)[0] == offered[0].env
    decreases |offered|
  {
    if |offered| > 1 { FirstTaken(offered[..|offered| - 1]); }
  }

  // An event emitted while subscribed is among the subscriber's events exactly
  // when its queue did not hold 256.
  lemma {:induction false} MissingMetFullQueue(ops: seq<Op>, id: nat, k: nat)
    requires id < |Run(ops).subs| && k < |Run(ops).subs[id].offered|
    ensures var sub := Run(ops).subs[id];
            && sub.from + k < |Run(ops).log| && sub.offered[k].env == Run(ops).log[sub.from + k]
            && sub.offered[k].env.seq_ == sub.from + k + 1
            && (sub.offered[k].env in sub.received + sub.queue <==> sub.offered[k].held != 256)
  {
    RunKeeps(ops);
    var s := Run(ops);
    var sub := s.subs[id];
    assert SubInv(s.log, sub);
    TakenHolds(sub.offered, sub.from, k);
  }

  lemma {:induction false} TakenHolds(offered: seq<Offer>, from: nat, k: nat)
    requires Consecutive(offered, from) && k < |offered|
    ensures offered[k].env in Taken(offered) <==> !Dropped(offered, k)
  {
    if offered[k].env in Taken(offered) {
      var i :| 0 <= i < |Taken(offered)| && Taken(offered)[i] == offered[k].env;
      TakenWhere(offered, from, i);
    }
    var init := offered[..|offered| - 1];
    if k < |init| && !Dropped(offered, k) {
      TakenHolds(init, from, k);
    }
  }

  // ----- the emitter -----

  // A subscriber's channel; `received` and `offered` are its history.
  class Channel {
    var queue: seq<Envelope>
    var open: bool
    const from: nat
    ghost var received: seq<Envelope>
    ghost var offered: seq<Offer>

    ghost function Account(): Sub
      reads this
    {
      Sub(open, from, queue, received, offered)
    }

    constructor (from: nat)
      ensures Account() == Sub(true, from, [], [], [])
    {
      this.from, queue, open, received, offered := from, [], true, [], [];
    }

    // A send that never blocks.
    method Send(e: Envelope)
      requires open
      modifies this
      ensures Account() == Deliver(old(Account()), e)
    {
      offered := offered + [Offer(e, |queue|)];
      if |queue| < BUFFER_SIZE {
        queue := queue + [e];
      }
    }

    // The consumer's side; a closed channel still hands over what it holds.
    method Next() returns (got: seq<Envelope>)
      modifies this
      ensures Account() == Take(old(Account()))
      ensures got == if old(queue) == [] then [] else [old(queue)[0]]
      ensures received == old(received) + got && got + queue == old(queue)
    {
      if queue == [] {
        return [];
      }
      got := [queue[0]];
      received := received + got;
      queue := queue[1..];
    }
  }

  class Emitter {
    var seq_: nat
    var next: nat
    var subs: map<nat, Channel>
    ghost var all: seq<Channel>
    ghost var log: seq<Envelope>

    ghost predicate Valid()
      reads this, all
    {
      && |all| == next && |log| == seq_
      && (forall i, j :: 0 <= i < j < |all| ==> all[i] != all[j])
      && (forall i: nat :: i < |all| ==> (all[i].open <==> i in subs))
      && (forall i :: i in subs ==> i < |all| && subs[i] == all[i])
    }

    ghost function St(): State
      reads this, all
    {
      State(log, Accounts(all))
    }

    constructor ()
      ensures Valid() && St() == State([], []) && fresh(all)
    {
      seq_, next, subs, all, log := 0, 0, map[], [], [];
    }

    method Subscribe() returns (id: nat, ch: Channel)
      requires Valid()
      modifies this
      ensures Valid() && fresh(ch) && all == old(all) + [ch] && id == |old(all)|
      ensures St() == Apply(old(St()), Op.Subscribe)
    {
      id := next;
      next := next + 1;
      ch := new Channel(seq_);
      subs := subs[id := ch];
      all := all + [ch];
      assert Accounts(all) == old(Accounts(all)) + [ch.Account()];
    }

    method Unsubscribe(id: nat)
      requires Valid()
      modifies this, all
      ensures Valid() && all == old(all)
      ensures St() == Apply(old(St()), Op.Unsubscribe(id))
    {
      if id in subs {
        var ch := subs[id];
        subs := subs - {id};
        ch.open := false;
        assert Accounts(all) == old(Accounts(all))[id := ch.Account()];
      } else {
        assert Accounts(all) == Apply(St(), Op.Unsubscribe(id)).subs;
      }
    }

    // Stamps the envelope and offers it to every subscriber, in no set order.
    method Emit(typ: string, candidate: string, data: string) returns (env: Envelope)
      requires Valid()
      modifies this, all
      ensures Valid() && all == old(all)
      ensures env == Stamp(old(St()), typ, candidate, data)
      ensures St() == Apply(old(St()), Op.Emit(typ, candidate, data))
    {
      seq_ := seq_ + 1;
      env := Envelope(seq_, typ, candidate, data);
      log := log + [env];
      FanOut(env);
      assert Accounts(all) == DeliverAll(old(Accounts(all)), env);
    }

    method FanOut(env: Envelope)
      requires Valid()
      modifies all
      ensures Valid()
      ensures forall i: nat :: i < |all| ==> all[i].Account() == Deliver(old(all[i].Account()), env)
    {
      var todo := subs.Keys;
      while todo != {}
        invariant todo <= subs.Keys && Valid()
        invariant forall i: nat :: i < |all| && i in todo ==> all[i].Account() == old(all[i].Account())
        invariant forall i: nat :: i < |all| && i !in todo ==> all[i].Account() == Deliver(old(all[i].Account()), env)
        modifies all
        decreases todo
      {
        var id :| id in todo;
        subs[id].Send(env);
        todo := todo - {id};
      }
    }

    method Sequence() returns (last: nat)
      requires Valid()
      ensures last == |St().log|
    {
      last := seq_;
    }

    // A consumer taking from the channel it was given; the channel may have been
    // closed since.
    method Receive(ghost id: nat, ch: Channel) returns (got: seq<Envelope>)
      requires Valid() && id < |all| && ch == all[id]
      modifies ch
      ensures Valid() && all == old(all)
      ensures St() == Apply(old(St()), Op.Receive(id))
      ensures got == if old(ch.queue) == [] then [] else [old(ch.queue)[0]]
    {
      got := ch.Next();
      assert Accounts(all) == old(Accounts(all))[id := all[id].Account()];
    }
  }

  ghost function Accounts(all: seq<Channel>): (r: seq<Sub>)
    reads all
    ensures |r| == |all| && forall i :: 0 <= i < |all| ==> r[i] == all[i].Account()
  {
    seq(|all|, i requires 0 <= i < |all| reads all => all[i].Account())
  }
}
