/** Every error of a call is the answer to one of the requests it made, or a break in the chain it would have delivered. */
module CallErrors {
  import opened Wrappers
  import opened Host
  import opened HostProvider
  import opened Follower

  /** Request `call` can be answered with this error: it broke, or what it asked for is not there. */
  ghost predicate AnsweredWith(p: Provider, call: nat, error: Error) {
    match p.service(call)
    case Broken => error == Rpc
    case Absent => error.MissingBlockByHash? || error == MissingBlock
    case Served => (error.MissingBlockByHash? && error.hash !in p.tree) || error == MissingBlock
  }

  ghost predicate Blames(p: Provider, first: nat, end: nat, error: Error) {
    exists call: nat :: first <= call < end && AnsweredWith(p, call, error)
  }

  /** A failed step from `s` to `s1` names one of its own requests, or the break in continuity. */
  ghost predicate FailsFor(p: Provider, s: State, s1: State, o: Outcome) {
    && s1.calls >= s.calls
    && (o.Failed? ==> o.error == BackfillContinuityBreak || Blames(p, s.calls, s1.calls, o.error))
  }

  lemma BlamesWider(p: Provider, first: nat, end: nat, error: Error, earlier: nat, later: nat)
    requires Blames(p, first, end, error) && earlier <= first && end <= later
    ensures Blames(p, earlier, later, error)
  {
  }

  lemma BlamesOne(p: Provider, call: nat, error: Error)
    requires AnsweredWith(p, call, error)
    ensures Blames(p, call, call + 1, error)
  {
  }

  // ---- Requests ----

  lemma {:induction false} WalkFromFails(p: Provider, view: seq<BlockRef>, capacity: nat, call: nat, h: Hash, newer: seq<BlockRef>)
    requires |newer| <= capacity
    ensures var step := WalkFrom(p, view, capacity, call, h, newer);
            && step.calls > call && (step.walk.WalkFailed? ==> AnsweredWith(p, step.calls - 1, step.walk.error))
    decreases capacity - |newer|
  {
    var answer := HeaderByHash(p, call, h);
    if answer.Ok? && |newer| < capacity {
      WalkFromFails(p, view, capacity, call + 1, answer.value.parent, [BlockRef(answer.value.number, h)] + newer);
    }
  }

  lemma WalkChainFails(p: Provider, view: seq<BlockRef>, capacity: nat, call: nat, h: Hash)
    ensures var step := WalkChain(p, view, capacity, call, h);
            && step.calls >= call && (step.walk.WalkFailed? ==> step.calls > call && AnsweredWith(p, step.calls - 1, step.walk.error))
  {
    hide WalkFrom;
    WalkFromFails(p, view, capacity, call, h, []);
  }

  lemma ResolveWalkFails(p: Provider, view: seq<BlockRef>, capacity: nat, call: nat, h: Hash)
    requires forall i {:trigger p.canonical(i)} :: p.canonical(i) != []
    ensures var step := ResolveWalk(p, view, capacity, call, h);
            && step.calls >= call && (step.walk.WalkFailed? ==> Blames(p, call, step.calls, step.walk.error))
  {
    hide WalkChain, AnsweredWith;
    WalkChainFails(p, view, capacity, call, h);
    var first := WalkChain(p, view, capacity, call, h);
    var step := ResolveWalk(p, view, capacity, call, h);
    var latest := LatestHash(p, first.calls);
    if first.walk.WalkFailed? && first.walk.error.MissingBlockByHash? {
      if latest.Ok? {
        WalkChainFails(p, view, capacity, first.calls + 1, latest.value);
      } else {
        LatestFails(p, first.calls);
      }
    }
    if step.walk.WalkFailed? {
      BlamesOne(p, step.calls - 1, step.walk.error);
    }
  }

  lemma LatestFails(p: Provider, call: nat)
    requires LatestHash(p, call).Err?
    ensures AnsweredWith(p, call, LatestHash(p, call).error)
  {
  }

  lemma {:induction false} FetchByHashFails(p: Provider, call: nat, refs: seq<BlockRef>)
    returns (k: nat)
    requires FetchByHash(p, call, refs).Err?
    ensures Blames(p, call, call + |refs|, FetchByHash(p, call, refs).error)
    ensures k < |refs| && HeaderByHash(p, call + k, refs[k].hash) == Err(FetchByHash(p, call, refs).error)
    ensures forall i: nat :: i < k ==> HeaderByHash(p, call + i, refs[i].hash).Ok?
    decreases |refs|
  {
    var first := BlockByHash(p, call, refs[0].hash);
    if first.Err? {
      assert AnsweredWith(p, call, first.error);
      k := 0;
    } else {
      k := FetchByHashFails(p, call + 1, refs[1..]);
      assert forall i: nat :: 0 < i < k + 1 ==> refs[i] == refs[1..][i - 1] && call + 1 + (i - 1) == call + i;
      k := k + 1;
    }
  }

  lemma {:induction false} FetchRangeFails(p: Provider, call: nat, from: nat, upTo: int)
    requires FetchRange(p, call, from, upTo).Err?
    ensures from <= upTo && Blames(p, call, call + (upTo + 1 - from), FetchRange(p, call, from, upTo).error)
    decreases upTo - from
  {
    var first := BlockByNumber(p, call, from);
    if first.Err? {
      assert AnsweredWith(p, call, first.error);
    } else {
      FetchRangeFails(p, call + 1, from + 1, upTo);
    }
  }

  lemma AnnounceFails(p: Provider, c: Config, s: State, kind: Kind, timestamp: nat)
    ensures var (s1, o) := Announce(p, c, s, kind, timestamp); FailsFor(p, s, s1, o)
  {
    hide EpochOf;
    var (s1, o) := Announce(p, c, s, kind, timestamp);
    if o.Failed? {
      var broken := if p.service(s.calls).Broken? then s.calls else s.calls + 1;
      assert AnsweredWith(p, broken, Rpc);
    }
  }

  // ---- Calls ----

  lemma DeliverFails(p: Provider, c: Config, moved: State, s: State, path: seq<BlockRef>, range: Option<RevertRange>, timestamp: nat)
    ensures var (s1, o) := Deliver(p, c, moved, s, path, range, timestamp); FailsFor(p, s, s1, o)
    ensures var fetched := FetchByHash(p, s.calls, path);
            fetched.Err? ==> Deliver(p, c, moved, s, path, range, timestamp) == (s.(calls := s.calls + |path|), Failed(fetched.error))
  {
    hide FetchByHash, Announce, Blames;
    var fetched := FetchByHash(p, s.calls, path);
    if fetched.Err? {
      var _ := FetchByHashFails(p, s.calls, path);
    } else {
      var s0 := moved.(calls := s.calls + |path|, lastEmitted := if path == [] then None else Some(Last(path)));
      var kind := if range.None? then ChainCommitted(fetched.value) else ChainReorged(range.value, fetched.value);
      AnnounceFails(p, c, s0, kind, timestamp);
      FailsSooner(p, s, s0, Announce(p, c, s0, kind, timestamp).0, Announce(p, c, s0, kind, timestamp).1);
    }
  }

  /** A step that failed after others were made blames a request of the whole. */
  lemma FailsSooner(p: Provider, s: State, s0: State, s1: State, o: Outcome)
    requires s.calls <= s0.calls && FailsFor(p, s0, s1, o)
    ensures FailsFor(p, s, s1, o)
  {
    hide Blames;
    if o.Failed? && o.error != BackfillContinuityBreak {
      BlamesWider(p, s0.calls, s1.calls, o.error, s.calls, s1.calls);
    }
  }

  lemma HeadFails(p: Provider, c: Config, s: State, hint: Hint)
    requires forall i {:trigger p.canonical(i)} :: p.canonical(i) != []
    ensures var (s1, o) := HandleNewHead(p, c, s, hint); FailsFor(p, s, s1, o)
  {
    hide ResolveWalk, Deliver, Blames, LastN, ReorgView;
    ResolveWalkFails(p, s.view, c.capacity, s.calls, hint.hash);
    var step := ResolveWalk(p, s.view, c.capacity, s.calls, hint.hash);
    var s0 := s.(calls := step.calls);
    var (s1, o) := HandleNewHead(p, c, s, hint);
    match step.walk
    case Advance(path) =>
      DeliverFails(p, c, s0.(view := LastN(s.view + path, c.capacity)), s0, path, None, hint.timestamp);
      FailsSooner(p, s, s0, s1, o);
    case Reorg(fork, oldTip, path) =>
      DeliverFails(p, c, s0.(view := ReorgView(s.view, c.capacity, fork, path)), s0, path, Some(RevertRange(fork, oldTip)), hint.timestamp);
      FailsSooner(p, s, s0, s1, o);
    case _ =>
  }

  lemma BatchFails(p: Provider, c: Config, s: State, from: nat, tip: nat)
    requires from <= tip
    ensures var (s1, o) := IngestBatch(p, c, s, from, tip); FailsFor(p, s, s1, o)
  {
    var upTo := BatchEnd(c.capacity, s.batchSize, tip, from);
    var fetched := FetchRange(p, s.calls, from, upTo);
    assert from <= upTo && (fetched.Ok? ==> fetched.value != []);
    hide FetchRange, Announce, Blames, BatchEnd, BackfillCeiling, LastN;
    var asked := s.(calls := s.calls + (upTo + 1 - from));
    if fetched.Err? {
      FetchRangeFails(p, s.calls, from, upTo);
    } else {
      var blocks := fetched.value;
      var moved := asked.(view := LastN(s.view + Refs(blocks), c.capacity), lastEmitted := Some(Ref(Last(blocks))),
                          backfillFrom := if upTo >= BackfillCeiling(c.capacity, tip, from) then None else Some(upTo + 1));
      var kind := ChainCommitted(blocks);
      AnnounceFails(p, c, moved, kind, Last(blocks).timestamp);
      FailsSooner(p, s, moved, Announce(p, c, moved, kind, Last(blocks).timestamp).0, Announce(p, c, moved, kind, Last(blocks).timestamp).1);
    }
  }

  lemma DrainFails(p: Provider, c: Config, s: State)
    requires forall i {:trigger p.canonical(i)} :: p.canonical(i) != []
    ensures var (s1, o) := DrainBackfill(p, c, s); FailsFor(p, s, s1, o)
  {
    hide IngestBatch, Blames;
    var asked := s.(calls := s.calls + 1);
    if s.backfillFrom.Some? && TipNumber(p, s.calls).Err? {
      BlamesOne(p, s.calls, Rpc);
    } else if s.backfillFrom.Some? && s.backfillFrom.value <= TipNumber(p, s.calls).value {
      var from, tip := s.backfillFrom.value, TipNumber(p, s.calls).value;
      BatchFails(p, c, asked, from, tip);
      FailsSooner(p, s, asked, IngestBatch(p, c, asked, from, tip).0, IngestBatch(p, c, asked, from, tip).1);
    }
  }

  lemma TurnFails(p: Provider, c: Config, s: State)
    requires forall i {:trigger p.canonical(i)} :: p.canonical(i) != []
    ensures var (s1, o) := Turn(p, c, s); FailsFor(p, s, s1, o)
  {
    hide DrainBackfill, HandleNewHead, Blames;
    DrainFails(p, c, s);
    var (s0, drained) := DrainBackfill(p, c, s);
    if drained.Silent? && s0.bursts != [] && s0.bursts[0] != [] {
      var s2 := s0.(bursts := s0.bursts[1..]);
      HeadFails(p, c, s2, Last(s0.bursts[0]));
      FailsSooner(p, s, s2, Turn(p, c, s).0, Turn(p, c, s).1);
    }
  }

  /** Whatever the provider does: the error of a call is one of its own requests', or a break in continuity. */
  lemma {:induction false} CallFails(p: Provider, c: Config, s: State)
    requires Honest(p)
    ensures var (s1, o) := NextNotification(p, c, s); FailsFor(p, s, s1, o)
    decreases |s.bursts|
  {
    assert forall i {:trigger p.canonical(i)} :: p.canonical(i) != [] by {
      forall i
        ensures p.canonical(i) != []
      {
        assert IsCanonical(p.tree, p.canonical(i));
      }
    }
    hide Turn, Blames, Honest;
    TurnConsumes(p, c, s);
    TurnFails(p, c, s);
    var (s0, o) := Turn(p, c, s);
    if o.Silent? {
      CallFails(p, c, s0);
      FailsSooner(p, s, s0, NextNotification(p, c, s).0, NextNotification(p, c, s).1);
    }
  }
}
