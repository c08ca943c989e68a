/** A push subscription: events are filtered into a buffer, and the buffer is sent as the client has room. */
module Subscriptions {
  import opened Wrappers
  import opened Rollup
  import opened InterestKind
  import opened FilterPolls
  import opened FilterSessions

  datatype EventItem<B> = LogItem(log: Log) | BlockItem(block: B)

  function LogItems<B>(logs: seq<Log>): (r: seq<EventItem<B>>)
    ensures |r| == |logs|
  {
    seq(|logs|, i requires 0 <= i < |logs| => LogItem(logs[i]))
  }

  function BlockItems<B>(blocks: seq<B>): (r: seq<EventItem<B>>)
    ensures |r| == |blocks|
  {
    seq(|blocks|, i requires 0 <= i < |blocks| => BlockItem(blocks[i]))
  }

  /** What a buffer holds, oldest first. */
  function Items<B>(b: EventBuffer<B>): (r: seq<EventItem<B>>)
    ensures |r| == b.Length()
  {
    if b.LogBuffer? then LogItems(b.logs) else BlockItems(b.blocks)
  }

  /** The buffer of one subscription. */
  class SubscriptionBuffer {
    var items: EventBuffer<RuBlock>

    constructor (kind: InterestKind)
      ensures items == EmptyBuffer(kind)
    {
      items := EmptyBuffer(kind);
    }

    /** Buffers of different kinds cannot be joined: the source panics. */
    method Extend(other: EventBuffer<RuBlock>)
      requires SameKind(items, other)
      modifies this
      ensures SameKind(items, old(items)) && Items(items) == Items(old(items)) + Items(other)
    {
      items := if items.LogBuffer? then LogBuffer(items.logs + other.logs) else BlockBuffer(items.blocks + other.blocks);
    }

    method PopFront() returns (item: Option<EventItem<RuBlock>>)
      modifies this
      ensures SameKind(items, old(items))
      ensures old(items).Length() == 0 ==> item.None? && items == old(items)
      ensures old(items).Length() > 0 ==> item.Some? && Items(old(items)) == [item.value] + Items(items)
    {
      if items.Length() == 0 {
        return None;
      }
      if items.LogBuffer? {
        item := Some(LogItem(items.logs[0]));
        items := LogBuffer(items.logs[1..]);
      } else {
        item := Some(BlockItem(items.blocks[0]));
        items := BlockBuffer(items.blocks[1..]);
      }
    }
  }

  // ---- The delivery loop ----

  /** What can wake a subscription. `Permits` is room in the client's channel, `ClientGone` a closed channel. */
  datatype Wake = Disconnected | Unsubscribed | ClientGone | Permits | Received(event: ChainEvent) | Lagged(skipped: nat) | FeedClosed

  predicate GoodEvent(e: ChainEvent) {
    e.NewBlock? ==> WellFormedBlock(e.block)
  }

  ghost predicate AllGood(events: seq<ChainEvent>) {
    forall i :: 0 <= i < |events| ==> GoodEvent(events[i])
  }

  ghost predicate GoodWakes(wakes: seq<Wake>) {
    forall i :: 0 <= i < |wakes| ==> wakes[i].Received? ==> GoodEvent(wakes[i].event)
  }

  /** What the filter makes of one event. */
  function OutputOf(kind: InterestKind, e: ChainEvent): EventBuffer<RuBlock>
    requires GoodEvent(e)
  {
    if e.Reorg? then FilterReorgForSub(kind, e.reorg) else FilterNotificationForSub(kind, e.block)
  }

  lemma OutputKind(kind: InterestKind, e: ChainEvent)
    requires GoodEvent(e)
    ensures SameKind(OutputOf(kind, e), EmptyBuffer(kind)) && |Items(OutputOf(kind, e))| == OutputOf(kind, e).Length()
  {
  }

  ghost function Outputs(kind: InterestKind, events: seq<ChainEvent>): seq<EventItem<RuBlock>>
    requires AllGood(events)
    decreases |events|
  {
    if events == [] then [] else Outputs(kind, events[..|events| - 1]) + Items(OutputOf(kind, events[|events| - 1]))
  }

  function EventOf(w: Wake): seq<ChainEvent> {
    if w.Received? then [w.event] else []
  }

  /** The events received in a list of wake-ups. */
  function EventsIn(wakes: seq<Wake>): seq<ChainEvent>
    decreases |wakes|
  {
    if wakes == [] then [] else EventsIn(wakes[..|wakes| - 1]) + EventOf(wakes[|wakes| - 1])
  }

  /** `produced` is what the filter makes of the events received in `wakes`, in order. */
  ghost predicate Conserved(kind: InterestKind, produced: seq<EventItem<RuBlock>>, wakes: seq<Wake>) {
    AllGood(EventsIn(wakes)) && produced == Outputs(kind, EventsIn(wakes))
  }

  function ItemsOf(kind: InterestKind, w: Wake): seq<EventItem<RuBlock>>
    requires w.Received? ==> GoodEvent(w.event)
  {
    if w.Received? then Items(OutputOf(kind, w.event)) else []
  }

  lemma NothingReceived(kind: InterestKind)
    ensures Conserved(kind, [], [])
  {
  }

  lemma OneMoreWake(kind: InterestKind, produced: seq<EventItem<RuBlock>>, wakes: seq<Wake>, n: nat)
    requires GoodWakes(wakes) && n < |wakes| && Conserved(kind, produced, wakes[..n])
    ensures Conserved(kind, produced + ItemsOf(kind, wakes[n]), wakes[..n + 1])
  {
    assert wakes[..n + 1][..n] == wakes[..n];
    var before := EventsIn(wakes[..n]);
    if wakes[n].Received? {
      assert (before + [wakes[n].event])[..|before|] == before;
    } else {
      assert before + [] == before && produced + [] == produced;
    }
  }

  // ---- One subscription as a state machine ----

  /** What was sent, and what waits in the buffer, oldest first. */
  datatype Delivery = Delivery(sent: seq<EventItem<RuBlock>>, waiting: seq<EventItem<RuBlock>>) {
    /** Everything the filter has produced, in order. */
    function Produced(): seq<EventItem<RuBlock>> {
      sent + waiting
    }
  }

  /** A wake-up that does not end the subscription: at most half the client's channel is asked for at a time. */
  function Step(kind: InterestKind, capacity: nat, d: Delivery, w: Wake): Delivery
    requires w.Received? ==> GoodEvent(w.event)
  {
    match w
    case Permits =>
      var n := Min(capacity / 2, |d.waiting|);
      Delivery(d.sent + d.waiting[..n], d.waiting[n..])
    case Received(event) => Delivery(d.sent, d.waiting + Items(OutputOf(kind, event)))
    case _ => d
  }

  ghost function Steps(kind: InterestKind, capacity: nat, d: Delivery, wakes: seq<Wake>): Delivery
    requires GoodWakes(wakes)
    decreases |wakes|
  {
    if wakes == [] then d
    else Step(kind, capacity, Steps(kind, capacity, d, wakes[..|wakes| - 1]), wakes[|wakes| - 1])
  }

  lemma OneMoreStep(kind: InterestKind, capacity: nat, d: Delivery, wakes: seq<Wake>, n: nat)
    requires GoodWakes(wakes) && n < |wakes|
    ensures Steps(kind, capacity, d, wakes[..n + 1]) == Step(kind, capacity, Steps(kind, capacity, d, wakes[..n]), wakes[n])
  {
    assert wakes[..n + 1][..n] == wakes[..n];
  }

  /** A step sends from the front and adds at the end. */
  lemma StepConserves(kind: InterestKind, capacity: nat, d: Delivery, w: Wake)
    requires w.Received? ==> GoodEvent(w.event)
    ensures Step(kind, capacity, d, w).Produced() == d.Produced() + ItemsOf(kind, w)
  {
    hide Items, OutputOf;
    match w {
      case Permits =>
        var n := Min(capacity / 2, |d.waiting|);
        Associative(d.sent, d.waiting[..n], d.waiting[n..]);
        assert d.waiting[..n] + d.waiting[n..] == d.waiting;
        assert d.Produced() + [] == d.Produced();
      case Received(event) => Associative(d.sent, d.waiting, Items(OutputOf(kind, event)));
      case _ => assert d.Produced() + [] == d.Produced();
    }
  }

  /** At every point of every run, nothing is lost, repeated or reordered. */
  lemma {:induction false} RunConserves(kind: InterestKind, capacity: nat, wakes: seq<Wake>)
    requires GoodWakes(wakes)
    ensures Conserved(kind, Steps(kind, capacity, Delivery([], []), wakes).Produced(), wakes)
    decreases |wakes|
  {
    hide Conserved, Step;
    if wakes == [] {
      NothingReceived(kind);
      assert Delivery([], []).Produced() == [];
    } else {
      var n := |wakes| - 1;
      var before := Steps(kind, capacity, Delivery([], []), wakes[..n]);
      RunConserves(kind, capacity, wakes[..n]);
      StepConserves(kind, capacity, before, wakes[n]);
      OneMoreWake(kind, before.Produced(), wakes, n);
      assert wakes[..n + 1] == wakes;
    }
  }

  lemma FrontMoves<T>(all: seq<T>, i: nat, front: T, rest: seq<T>)
    requires i < |all| && all[i..] == [front] + rest
    ensures all[..i] + [front] == all[..i + 1] && rest == all[i + 1..]
  {
    assert all[i..][0] == front && all[i..][1..] == rest;
  }

  predicate Stops(w: Wake) {
    w.Disconnected? || w.Unsubscribed? || w.ClientGone? || w.FeedClosed?
  }

  class SubscriptionTask {
    const filter: InterestKind
    const notificationCapacity: nat
    const notifBuffer: SubscriptionBuffer
    var sent: seq<EventItem<RuBlock>>

    constructor (filter: InterestKind, notificationCapacity: nat)
      ensures fresh(notifBuffer) && this.filter == filter && this.notificationCapacity == notificationCapacity
      ensures Valid() && Abs() == Delivery([], [])
    {
      this.filter, this.notificationCapacity, sent := filter, notificationCapacity, [];
      notifBuffer := new SubscriptionBuffer(filter);
    }

    ghost predicate Valid()
      reads this, notifBuffer
    {
      SameKind(notifBuffer.items, EmptyBuffer(filter))
    }

    ghost function Abs(): Delivery
      reads this, notifBuffer
    {
      Delivery(sent, Items(notifBuffer.items))
    }

    /** Send what there is room for, at most half the channel. */
    method SendPermitted()
      requires Valid()
      modifies this, notifBuffer
      ensures Valid() && Abs() == Step(filter, notificationCapacity, old(Abs()), Permits)
    {
      var permits := Min(notificationCapacity / 2, notifBuffer.items.Length());
      ghost var waiting := Items(notifBuffer.items);
      assert |waiting| == notifBuffer.items.Length();
      hide Items;
      for i := 0 to permits
        invariant Valid() && sent == old(sent) + waiting[..i] && Items(notifBuffer.items) == waiting[i..]
      {
        var item := notifBuffer.PopFront();
        if item.None? {
          break;
        }
        FrontMoves(waiting, i, item.value, Items(notifBuffer.items));
        Associative(old(sent), waiting[..i], [item.value]);
        sent := sent + [item.value];
      }
    }

    method HandleEvent(event: ChainEvent)
      requires Valid() && GoodEvent(event)
      modifies notifBuffer
      ensures Valid() && Abs() == Step(filter, notificationCapacity, old(Abs()), Received(event))
    {
      var output := OutputOf(filter, event);
      OutputKind(filter, event);
      hide OutputOf, Items;
      if output.Length() != 0 {
        notifBuffer.Extend(output);
      } else {
        assert Items(output) == [];
        assert Items(notifBuffer.items) + [] == Items(notifBuffer.items);
      }
    }

    /** One wake-up that does not end the subscription. A lagged receiver only loses what it never received. */
    method Turn(wake: Wake)
      requires Valid() && !Stops(wake) && (wake.Received? ==> GoodEvent(wake.event))
      modifies this, notifBuffer
      ensures Valid() && Abs() == Step(filter, notificationCapacity, old(Abs()), wake)
    {
      match wake {
        case Permits => SendPermitted();
        case Received(event) => HandleEvent(event);
        case _ =>
      }
    }

    /**
     * The delivery loop. At every point, what was sent followed by what is buffered is exactly what the filter
     * produced for the events received so far, in order.
     */
    method TaskFuture(wakes: seq<Wake>) returns (turns: nat)
      requires Valid() && GoodWakes(wakes) && Abs() == Delivery([], [])
      modifies this, notifBuffer
      ensures Valid() && turns <= |wakes|
      ensures forall i :: 0 <= i < turns ==> wakes[i].Permits? || wakes[i].Received? || wakes[i].Lagged?
      ensures turns < |wakes| ==>
                wakes[turns].Disconnected? || wakes[turns].Unsubscribed? || wakes[turns].ClientGone? || wakes[turns].FeedClosed?
      ensures Abs() == Steps(filter, notificationCapacity, Delivery([], []), wakes[..turns])
      ensures Conserved(filter, Abs().Produced(), wakes[..turns])
    {
      hide Conserved, Step, Items;
      turns := 0;
      assert wakes[..0] == [];
      while turns < |wakes|
        invariant turns <= |wakes| && Valid()
        invariant forall i :: 0 <= i < turns ==> !Stops(wakes[i])
        invariant Abs() == Steps(filter, notificationCapacity, Delivery([], []), wakes[..turns])
      {
        if Stops(wakes[turns]) {
          break;
        }
        OneMoreStep(filter, notificationCapacity, Delivery([], []), wakes, turns);
        Turn(wakes[turns]);
        turns := turns + 1;
      }
      RunConserves(filter, notificationCapacity, wakes[..turns]);
    }
  }

  // ---- What a subscriber ends up with ----

  lemma LogOutputIsPush(f: LogFilter, e: ChainEvent)
    requires GoodEvent(e)
    ensures Items(OutputOf(LogInterest(f), e)) == LogItems(PushOutput(f, e))
  {
  }

  lemma LogItemsAppend<B>(a: seq<Log>, b: seq<Log>)
    ensures LogItems<B>(a + b) == LogItems<B>(a) + LogItems<B>(b)
  {
  }

  lemma PushUnfolds(f: LogFilter, chain: seq<RuBlock>, events: seq<ChainEvent>)
    requires History(chain, events) && AllGood(events) && events != []
    ensures var n := |events| - 1;
            && History(chain, events[..n]) && AllGood(events[..n]) && GoodEvent(events[n])
            && PushAll(f, chain, events) == PushAll(f, chain, events[..n]) + PushOutput(f, events[n])
  {
  }

  lemma {:induction false} LogOutputsArePush(f: LogFilter, chain: seq<RuBlock>, events: seq<ChainEvent>)
    requires History(chain, events) && AllGood(events)
    ensures Outputs(LogInterest(f), events) == LogItems(PushAll(f, chain, events))
    decreases |events|
  {
    if events != [] {
      var n := |events| - 1;
      PushUnfolds(f, chain, events);
      LogOutputsArePush(f, chain, events[..n]);
      LogOutputIsPush(f, events[n]);
      LogItemsAppend<RuBlock>(PushAll(f, chain, events[..n]), PushOutput(f, events[n]));
      assert Outputs(LogInterest(f), events) == Outputs(LogInterest(f), events[..n]) + Items(OutputOf(LogInterest(f), events[n]));
    }
  }

  /** A client that knew the matching logs when it subscribed knows those of the chain it was last told about. */
  lemma SubscriberIsExact(f: LogFilter, chain: seq<RuBlock>, wakes: seq<Wake>, produced: seq<EventItem<RuBlock>>) returns (logs: seq<Log>)
    requires Conserved(LogInterest(f), produced, wakes) && History(chain, EventsIn(wakes))
    ensures |produced| == |logs| && forall i :: 0 <= i < |logs| ==> produced[i] == LogItem(logs[i])
    ensures IsRuChain(ApplyEvents(chain, EventsIn(wakes)))
    ensures Receive(multiset(MatchingLogs(f, chain)), logs) == multiset(MatchingLogs(f, ApplyEvents(chain, EventsIn(wakes))))
  {
    logs := PushAll(f, chain, EventsIn(wakes));
    LogOutputsArePush(f, chain, EventsIn(wakes));
    PushIsExact(f, chain, EventsIn(wakes));
  }

  /** The blocks that were announced, in order. */
  function NewBlocks(events: seq<ChainEvent>): seq<RuBlock>
    decreases |events|
  {
    if events == [] then []
    else
      var e := events[|events| - 1];
      NewBlocks(events[..|events| - 1]) + (if e.NewBlock? then [e.block] else [])
  }

  ghost predicate AreBlocks(items: seq<EventItem<RuBlock>>, blocks: seq<RuBlock>) {
    |items| == |blocks| && forall i :: 0 <= i < |blocks| ==> items[i] == BlockItem(blocks[i])
  }

  lemma BlockOutput(e: ChainEvent)
    requires GoodEvent(e)
    ensures AreBlocks(Items(OutputOf(BlockInterest, e)), if e.NewBlock? then [e.block] else [])
  {
  }

  lemma {:induction false} BlockOutputs(events: seq<ChainEvent>)
    requires AllGood(events)
    ensures AreBlocks(Outputs(BlockInterest, events), NewBlocks(events))
    decreases |events|
  {
    hide OutputOf, Items;
    if events != [] {
      BlockOutputs(events[..|events| - 1]);
      BlockOutput(events[|events| - 1]);
    }
  }

  /**
   * What a block subscription has sent, followed by what waits, is over every run exactly the blocks that were announced,
   * in order and once each. Reorgs add nothing.
   */
  lemma BlockSubscriberIsTold(capacity: nat, wakes: seq<Wake>)
    requires GoodWakes(wakes)
    ensures AreBlocks(Steps(BlockInterest, capacity, Delivery([], []), wakes).Produced(), NewBlocks(EventsIn(wakes)))
  {
    hide Outputs, AreBlocks, Steps;
    RunConserves(BlockInterest, capacity, wakes);
    BlockOutputs(EventsIn(wakes));
  }

  // ---- Progress ----

  /** Room in the channel sends the oldest items: as many as half the channel holds, or all of them. */
  lemma PermitsSend(kind: InterestKind, capacity: nat, d: Delivery)
    ensures var d1 := Step(kind, capacity, d, Permits);
            && d1.Produced() == d.Produced()
            && (2 * |d.waiting| <= capacity ==> d1.waiting == [])
            && (2 * |d.waiting| > capacity ==> 2 * (|d1.sent| - |d.sent|) <= capacity < 2 * (|d1.sent| - |d.sent|) + 2)
  {
    StepConserves(kind, capacity, d, Permits);
    assert d.Produced() + [] == d.Produced();
  }

  ghost predicate OnlyPermits(wakes: seq<Wake>) {
    forall i :: 0 <= i < |wakes| ==> wakes[i] == Permits
  }

  /** Permits alone: with one slot or none nothing ever moves, with two or more every one of them sends something. */
  lemma {:induction false} PermitsDrain(kind: InterestKind, capacity: nat, d: Delivery, wakes: seq<Wake>)
    requires GoodWakes(wakes) && OnlyPermits(wakes)
    ensures capacity < 2 ==> Steps(kind, capacity, d, wakes) == d
    ensures capacity >= 2 ==> |Steps(kind, capacity, d, wakes).waiting| <= if |wakes| >= |d.waiting| then 0 else |d.waiting| - |wakes|
    decreases |wakes|
  {
    if wakes != [] {
      PermitsDrain(kind, capacity, d, wakes[..|wakes| - 1]);
      assert d.sent + d.waiting[..0] == d.sent;
    }
  }

  /** What waits is eventually sent, by permits alone, exactly when half the client's channel is at least one slot. */
  lemma DrainsIff(kind: InterestKind, capacity: nat, d: Delivery)
    ensures (exists wakes :: GoodWakes(wakes) && OnlyPermits(wakes) && Steps(kind, capacity, d, wakes).waiting == [])
            <==> d.waiting == [] || capacity >= 2
  {
    var enough := seq(|d.waiting|, _ => Permits);
    PermitsDrain(kind, capacity, d, enough);
    assert Steps(kind, capacity, d, []) == d && GoodWakes([]) && OnlyPermits([]);
    forall wakes | GoodWakes(wakes) && OnlyPermits(wakes) && Steps(kind, capacity, d, wakes).waiting == []
      ensures d.waiting == [] || capacity >= 2
    {
      PermitsDrain(kind, capacity, d, wakes);
    }
  }
}
