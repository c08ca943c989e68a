/** Whole client sessions: polling clients and subscribed clients both track the canonical chain's matching logs. */
module FilterSessions {
  import opened Wrappers
  import opened Rollup
  import opened InterestKind
  import opened Node
  import opened FilterPolls
  import opened RingLimits

  /** Everything a session needs: the stored chain, the feed, and the client's side. */
  datatype Session = Session(chain: seq<RuBlock>, feed: Feed, filter: FilterState, client: multiset<Log>)

  ghost predicate Tracks(f: LogFilter, s: Session) {
    UpToDate(f, s.filter, s.feed, s.chain, s.client)
  }

  /** Install a filter when `latest` is the newest visible block; the client knows the matching logs up to there. */
  function Install(f: LogFilter, chain: seq<RuBlock>, feed: Feed, latest: nat): Session
    requires IsRuChain(chain) && latest < |chain|
  {
    Session(chain, feed.(now := feed.now + 1), FilterState(latest + 1, feed.now + 1), multiset(MatchingLogs(f, chain[..latest + 1])))
  }

  function AfterEvents(s: Session, events: seq<ChainEvent>): Session {
    s.(chain := ApplyEvents(s.chain, events), feed := SendEvents(s.feed, events))
  }

  function Poll(f: LogFilter, s: Session, latest: nat): Session
    requires IsRuChain(s.chain) && latest < |s.chain|
  {
    var (filter, delivered) := PollLogs(f, s.filter, s.feed, s.chain, latest);
    Session(s.chain, s.feed.(now := s.feed.now + 1), filter, Receive(s.client, delivered))
  }

  ghost predicate CanPoll(s: Session, latest: nat) {
    IsRuChain(s.chain) && latest < |s.chain|
  }

  /** Rounds of events that happen and polls that can be answered. */
  ghost predicate Playable(f: LogFilter, s: Session, rounds: seq<Round>)
    decreases |rounds|
  {
    rounds != [] ==>
      && History(s.chain, rounds[0].events)
      && CanPoll(AfterEvents(s, rounds[0].events), rounds[0].latest)
      && Playable(f, Poll(f, AfterEvents(s, rounds[0].events), rounds[0].latest), rounds[1..])
  }

  ghost function Play(f: LogFilter, s: Session, rounds: seq<Round>): Session
    requires Playable(f, s, rounds)
    decreases |rounds|
  {
    if rounds == [] then s else Play(f, Poll(f, AfterEvents(s, rounds[0].events), rounds[0].latest), rounds[1..])
  }

  /** Before every poll, the ring holds enough for where the filter stands. */
  ghost predicate RingAlwaysSuffices(f: LogFilter, s: Session, rounds: seq<Round>)
    requires Playable(f, s, rounds)
    decreases |rounds|
  {
    rounds != [] ==>
      && RingSuffices(f, s.filter.nextStart, s.chain, rounds[0].events)
      && RingAlwaysSuffices(f, Poll(f, AfterEvents(s, rounds[0].events), rounds[0].latest), rounds[1..])
  }

  /** At most 25 reorgs between any two polls. */
  ghost predicate FewReorgs(rounds: seq<Round>) {
    forall i :: 0 <= i < |rounds| ==> |ReorgsOf(rounds[i].events)| <= MAX_REORG_ENTRIES
  }

  lemma InstallTracks(f: LogFilter, chain: seq<RuBlock>, feed: Feed, latest: nat)
    requires IsRuChain(chain) && latest < |chain| && RingOk(feed)
    ensures Tracks(f, Install(f, chain, feed, latest))
  {
  }

  /** One round leaves the client exact if and only if the ring suffices. */
  lemma RoundTracksIff(f: LogFilter, s: Session, round: Round)
    requires Tracks(f, s) && History(s.chain, round.events) && CanPoll(AfterEvents(s, round.events), round.latest)
    ensures var s1 := Poll(f, AfterEvents(s, round.events), round.latest);
            && s1.filter.nextStart > round.latest
            && (Tracks(f, s1) <==> RingSuffices(f, s.filter.nextStart, s.chain, round.events))
  {
    hide RingSuffices, Receive, PollLogs, ApplyEvents, SendEvents, History, UpToDate;
    PollIsExactIff(f, s.filter, s.feed, s.chain, s.client, round);
  }

  /** Through every session in which the ring suffices, the client is exact below the filter's position after each poll. */
  lemma {:induction false} SessionTracks(f: LogFilter, s: Session, rounds: seq<Round>)
    requires Tracks(f, s) && Playable(f, s, rounds) && RingAlwaysSuffices(f, s, rounds)
    ensures Tracks(f, Play(f, s, rounds))
    ensures rounds != [] ==> Play(f, s, rounds).filter.nextStart > rounds[|rounds| - 1].latest
    decreases |rounds|
  {
    hide RingSuffices, Tracks, History, Poll, AfterEvents;
    if rounds != [] {
      RoundTracksIff(f, s, rounds[0]);
      SessionTracks(f, Poll(f, AfterEvents(s, rounds[0].events), rounds[0].latest), rounds[1..]);
    }
  }

  /** Where the session stands after `k` rounds. */
  ghost function After(f: LogFilter, s: Session, rounds: seq<Round>, k: nat): Session
    requires Playable(f, s, rounds) && k <= |rounds|
    decreases k
  {
    if k == 0 then s else After(f, Poll(f, AfterEvents(s, rounds[0].events), rounds[0].latest), rounds[1..], k - 1)
  }

  ghost predicate AlwaysTracks(f: LogFilter, s: Session, rounds: seq<Round>)
    requires Playable(f, s, rounds)
  {
    forall k :: 0 <= k <= |rounds| ==> Tracks(f, After(f, s, rounds, k))
  }

  lemma AlwaysTracksUnfolds(f: LogFilter, s: Session, rounds: seq<Round>)
    requires Playable(f, s, rounds) && rounds != [] && Tracks(f, s)
    ensures var s1 := Poll(f, AfterEvents(s, rounds[0].events), rounds[0].latest);
            && (AlwaysTracks(f, s, rounds) <==> AlwaysTracks(f, s1, rounds[1..]))
            && (AlwaysTracks(f, s, rounds) ==> Tracks(f, s1))
  {
    var s1 := Poll(f, AfterEvents(s, rounds[0].events), rounds[0].latest);
    hide Tracks, Poll, AfterEvents;
    forall k | 0 < k <= |rounds|
      ensures After(f, s, rounds, k) == After(f, s1, rounds[1..], k - 1)
    {
    }
    assert After(f, s, rounds, 0) == s && After(f, s1, rounds[1..], 0) == s1;
    if AlwaysTracks(f, s, rounds) {
      forall k | 0 <= k <= |rounds[1..]|
        ensures Tracks(f, After(f, s1, rounds[1..], k))
      {
        assert After(f, s, rounds, k + 1) == After(f, s1, rounds[1..], k);
        assert Tracks(f, After(f, s, rounds, k + 1));
      }
    }
    if AlwaysTracks(f, s1, rounds[1..]) {
      forall k | 0 <= k <= |rounds|
        ensures Tracks(f, After(f, s, rounds, k))
      {
        if k > 0 {
          assert Tracks(f, After(f, s1, rounds[1..], k - 1));
        }
      }
    }
  }

  /** Over whole sessions: the client is exact after every poll if and only if the ring always sufficed. */
  lemma {:induction false} SessionTracksIff(f: LogFilter, s: Session, rounds: seq<Round>)
    requires Tracks(f, s) && Playable(f, s, rounds)
    ensures AlwaysTracks(f, s, rounds) <==> RingAlwaysSuffices(f, s, rounds)
    decreases |rounds|
  {
    if rounds == [] {
      assert After(f, s, rounds, 0) == s;
    } else {
      var s1 := Poll(f, AfterEvents(s, rounds[0].events), rounds[0].latest);
      hide RingSuffices, Tracks, Poll, AfterEvents, History, AlwaysTracks;
      RoundTracksIff(f, s, rounds[0]);
      AlwaysTracksUnfolds(f, s, rounds);
      if Tracks(f, s1) {
        SessionTracksIff(f, s1, rounds[1..]);
      }
    }
  }

  /** The bound on the number of reorgs that is easy to check. */
  lemma {:induction false} FewReorgsAlwaysSuffice(f: LogFilter, s: Session, rounds: seq<Round>)
    requires Tracks(f, s) && Playable(f, s, rounds) && FewReorgs(rounds)
    ensures RingAlwaysSuffices(f, s, rounds)
    decreases |rounds|
  {
    if rounds != [] {
      var s1 := Poll(f, AfterEvents(s, rounds[0].events), rounds[0].latest);
      assert s.filter.nextStart <= |s.chain|;
      hide RingSuffices, Tracks, Poll, AfterEvents, History, ReorgsOf;
      FewReorgsSuffice(f, s.filter.nextStart, s.chain, rounds[0].events);
      RoundTracksIff(f, s, rounds[0]);
      FewReorgsAlwaysSuffice(f, s1, rounds[1..]);
    }
  }

  lemma TracksAtTip(f: LogFilter, s: Session)
    requires Tracks(f, s) && s.filter.nextStart >= |s.chain|
    ensures IsRuChain(s.chain) && s.client == multiset(MatchingLogs(f, s.chain))
  {
    hide MatchingLogs;
    ExactAtTip(f, s.client, s.chain, s.filter.nextStart);
  }

  /** If the last poll read the stored tip, the client holds exactly the matching logs of the whole chain. */
  lemma SessionIsExact(f: LogFilter, s: Session, rounds: seq<Round>)
    requires Tracks(f, s) && rounds != [] && Playable(f, s, rounds) && RingAlwaysSuffices(f, s, rounds)
    requires rounds[|rounds| - 1].latest + 1 == |Play(f, s, rounds).chain|
    ensures IsRuChain(Play(f, s, rounds).chain)
    ensures Play(f, s, rounds).client == multiset(MatchingLogs(f, Play(f, s, rounds).chain))
  {
    SessionTracks(f, s, rounds);
    TracksAtTip(f, Play(f, s, rounds));
  }

  // ---- Push ----

  /** What a log subscription sends for one event. */
  function PushOutput(f: LogFilter, e: ChainEvent): seq<Log>
    requires e.NewBlock? ==> WellFormedBlock(e.block)
  {
    if e.NewBlock? then FilterNotificationForSub(LogInterest(f), e.block).logs else FilterReorgForSub(LogInterest(f), e.reorg).logs
  }

  ghost function PushAll(f: LogFilter, chain: seq<RuBlock>, events: seq<ChainEvent>): seq<Log>
    requires History(chain, events)
    decreases |events|
  {
    if events == [] then [] else PushAll(f, chain, events[..|events| - 1]) + PushOutput(f, events[|events| - 1])
  }

  lemma {:induction false} ReorgLogsMatch(f: LogFilter, blocks: seq<RuBlock>)
    requires forall i :: 0 <= i < |blocks| ==> WellFormedBlock(blocks[i])
    ensures Keep(f, ReorgLogs(AllRemoved(blocks))) == MatchingLogs(f, blocks)
    decreases |blocks|
  {
    if blocks != [] {
      var n := |blocks| - 1;
      ReorgLogsMatch(f, blocks[..n]);
      assert AllRemoved(blocks)[..n] == AllRemoved(blocks[..n]);
      KeepAppend(f, ReorgLogs(AllRemoved(blocks[..n])), LogsOf(blocks[n]));
    }
  }

  lemma OneMoreBlock(f: LogFilter, chain: seq<RuBlock>, b: RuBlock)
    requires IsRuChain(chain) && WellFormedBlock(b)
    ensures MatchingLogs(f, chain + [b]) == MatchingLogs(f, chain) + Keep(f, LogsOf(b))
  {
    assert (chain + [b])[..|chain|] == chain;
  }

  lemma PushBlockIsExact(f: LogFilter, chain: seq<RuBlock>, b: RuBlock)
    requires Fits(chain, NewBlock(b))
    ensures Receive(multiset(MatchingLogs(f, chain)), ApplyFilter(f, b)) == multiset(MatchingLogs(f, chain + [b]))
  {
    hide MatchingLogs, Receive, ApplyFilter, Keep;
    OneMoreBlock(f, chain, b);
    ApplyFilterIsKeep(f, b);
    KeepIsLive(f, LogsOf(b));
    ReceiveLive(multiset(MatchingLogs(f, chain)), Keep(f, LogsOf(b)));
  }

  lemma PushReorgIsExact(f: LogFilter, chain: seq<RuBlock>, cut: nat)
    requires IsRuChain(chain) && cut <= |chain|
    ensures Receive(multiset(MatchingLogs(f, chain)), MarkRemoved(Keep(f, ReorgLogs(AllRemoved(chain[cut..]))))) ==
            multiset(MatchingLogs(f, chain[..cut]))
  {
    hide MatchingLogs, Receive, ReorgLogs, Keep;
    ReorgLogsMatch(f, chain[cut..]);
    assert chain[..|chain|] == chain && chain[cut..|chain|] == chain[cut..];
    MatchingSplits(f, chain, cut, |chain|);
    ReceiveRemoved(multiset(MatchingLogs(f, chain[..cut])), MatchingLogs(f, chain[cut..]));
  }

  /** Each event's output moves a client from the matching logs of the old chain to those of the new one. */
  lemma PushEventIsExact(f: LogFilter, chain: seq<RuBlock>, e: ChainEvent)
    requires Fits(chain, e)
    ensures Receive(multiset(MatchingLogs(f, chain)), PushOutput(f, e)) == multiset(MatchingLogs(f, ApplyEvent(chain, e)))
  {
    hide MatchingLogs, Receive, ReorgLogs, Keep, ApplyFilter;
    if e.NewBlock? {
      PushBlockIsExact(f, chain, e.block);
    } else {
      PushReorgIsExact(f, chain, e.reorg.commonAncestor + 1);
    }
  }

  lemma {:induction false} PushIsExact(f: LogFilter, chain: seq<RuBlock>, events: seq<ChainEvent>)
    requires History(chain, events)
    ensures IsRuChain(ApplyEvents(chain, events))
    ensures Receive(multiset(MatchingLogs(f, chain)), PushAll(f, chain, events)) == multiset(MatchingLogs(f, ApplyEvents(chain, events)))
    decreases |events|
  {
    HistoryChain(chain, events);
    if events != [] {
      var n := |events| - 1;
      PushIsExact(f, chain, events[..n]);
      PushEventIsExact(f, ApplyEvents(chain, events[..n]), events[n]);
      ReceiveAppend(multiset(MatchingLogs(f, chain)), PushAll(f, chain, events[..n]), PushOutput(f, events[n]));
    }
  }

  /** Everything that happens in a session. */
  function AllEvents(rounds: seq<Round>): seq<ChainEvent>
    decreases |rounds|
  {
    if rounds == [] then [] else rounds[0].events + AllEvents(rounds[1..])
  }

  lemma {:induction false} PlayHistory(f: LogFilter, s: Session, rounds: seq<Round>)
    requires IsRuChain(s.chain) && Playable(f, s, rounds)
    ensures History(s.chain, AllEvents(rounds)) && Play(f, s, rounds).chain == ApplyEvents(s.chain, AllEvents(rounds))
    decreases |rounds|
  {
    hide PollLogs, History, ApplyEvents, SendEvents;
    if rounds == [] {
      NoHistory(s.chain);
    } else {
      var after := AfterEvents(s, rounds[0].events);
      PlayHistory(f, Poll(f, after, rounds[0].latest), rounds[1..]);
      HistoryAppend(s.chain, rounds[0].events, AllEvents(rounds[1..]));
    }
  }

  lemma NoHistory(chain: seq<RuBlock>)
    requires IsRuChain(chain)
    ensures History(chain, []) && ApplyEvents(chain, []) == chain
  {
  }

  /**
   * Lazy and eager removal agree: over the same events, however they are cut into polls, a polling client and a
   * client that replays the subscription's stream hold the same logs once the last poll has read the stored tip.
   */
  lemma PullAndPushAgree(f: LogFilter, s: Session, rounds: seq<Round>)
    requires Tracks(f, s) && rounds != [] && Playable(f, s, rounds) && RingAlwaysSuffices(f, s, rounds)
    requires rounds[|rounds| - 1].latest + 1 == |Play(f, s, rounds).chain|
    ensures History(s.chain, AllEvents(rounds))
    ensures Play(f, s, rounds).client == Receive(multiset(MatchingLogs(f, s.chain)), PushAll(f, s.chain, AllEvents(rounds)))
  {
    hide MatchingLogs, Receive, PushAll, Play, AllEvents, Playable, RingAlwaysSuffices, History, ApplyEvents;
    PlayHistory(f, s, rounds);
    SessionIsExact(f, s, rounds);
    PushIsExact(f, s.chain, AllEvents(rounds));
  }

  // ---- The limit of 25 ----

  /** `n` times: block 2 appears and is reorged away again. */
  function Churn(b2: RuBlock, n: nat): seq<ChainEvent>
    requires WellFormedBlock(b2)
    decreases n
  {
    if n == 0 then [] else Churn(b2, n - 1) + [NewBlock(b2), Reorg(ReorgNotification(1, AllRemoved([b2])))]
  }

  function Repeated(r: ReorgNotification, n: nat): (rs: seq<ReorgNotification>)
    ensures |rs| == n
  {
    seq(n, i => r)
  }

  lemma {:induction false} ChurnFits(chain: seq<RuBlock>, b2: RuBlock, n: nat)
    requires IsRuChain(chain) && |chain| == 2 && WellFormedBlock(b2) && b2.number == 2
    ensures History(chain, Churn(b2, n)) && ApplyEvents(chain, Churn(b2, n)) == chain
    ensures ReorgsOf(Churn(b2, n)) == Repeated(ReorgNotification(1, AllRemoved([b2])), n)
    decreases n
  {
    if n > 0 {
      var before := Churn(b2, n - 1);
      var appear := before + [NewBlock(b2)];
      var r := ReorgNotification(1, AllRemoved([b2]));
      ChurnFits(chain, b2, n - 1);
      assert appear[..|appear| - 1] == before;
      assert Churn(b2, n)[..|Churn(b2, n)| - 1] == appear;
      assert (chain + [b2])[2..] == [b2] && (chain + [b2])[..2] == chain;
      assert Fits(chain + [b2], Reorg(r));
      assert Repeated(r, n) == Repeated(r, n - 1) + [r];
      assert ReorgsOf(appear) == ReorgsOf(before) + [];
    }
  }

  lemma {:induction false} ChurnTakesNothingBack(f: LogFilter, b2: RuBlock, n: nat)
    requires WellFormedBlock(b2) && b2.number == 2
    ensures var rs := Repeated(ReorgNotification(1, AllRemoved([b2])), n);
            Rewound(2, rs) == 2 && RemovedLogs(f, 2, rs) == []
    decreases n
  {
    if n > 0 {
      var r := ReorgNotification(1, AllRemoved([b2]));
      ChurnTakesNothingBack(f, b2, n - 1);
      assert Repeated(r, n)[..n - 1] == Repeated(r, n - 1);
      var blocks := AllRemoved([b2]);
      assert RemovedBelow(f, 2, blocks) == RemovedBelow(f, 2, blocks[..0]) + [];
    }
  }

  /** Block 1 is replaced, then block 2 churns: `n` reorgs in all. */
  function ManyReorgs(a: RuBlock, b1: RuBlock, b2: RuBlock, n: nat): seq<ChainEvent>
    requires WellFormedBlock(a) && WellFormedBlock(b2) && n > 0
  {
    [Reorg(ReorgNotification(0, AllRemoved([a]))), NewBlock(b1)] + Churn(b2, n - 1)
  }

  /** The first two events: block 1 is taken back and another one takes its place. */
  lemma ReplacementFits(g: RuBlock, a: RuBlock, b1: RuBlock)
    requires WellFormedBlock(a) && IsRuChain([g, a]) && IsRuChain([g, b1])
    ensures var r := ReorgNotification(0, AllRemoved([a]));
            var start := [Reorg(r), NewBlock(b1)];
            History([g, a], start) && ApplyEvents([g, a], start) == [g, b1] && ReorgsOf(start) == [r]
  {
    var r := Reorg(ReorgNotification(0, AllRemoved([a])));
    var start := [r, NewBlock(b1)];
    assert [g, a][1..] == [a] && [g, a][..1] == [g] && [g] + [b1] == [g, b1];
    assert start[..1] == [r] && [r][..0] == [];
    assert Fits([g, a], r) && ApplyEvents([g, a], [r]) == [g];
    assert IsRuChain([g]) by {
      assert [g, a][0] == g;
    }
    assert b1.number == 1 && WellFormedBlock(b1) by {
      assert [g, b1][1] == b1;
    }
    assert Fits([g], NewBlock(b1));
    assert ReorgsOf([r]) == [r.reorg];
  }

  lemma ManyReorgsFit(g: RuBlock, a: RuBlock, b1: RuBlock, b2: RuBlock, n: nat)
    requires WellFormedBlock(a) && IsRuChain([g, a]) && IsRuChain([g, b1]) && WellFormedBlock(b2) && b2.number == 2
    requires n > MAX_REORG_ENTRIES
    ensures var events := ManyReorgs(a, b1, b2, n);
            && History([g, a], events) && ApplyEvents([g, a], events) == [g, b1] && |ReorgsOf(events)| == n
            && LastN(ReorgsOf(events), MAX_REORG_ENTRIES) == Repeated(ReorgNotification(1, AllRemoved([b2])), MAX_REORG_ENTRIES)
  {
    hide History, ApplyEvents, ReorgsOf, Churn, AllRemoved, Repeated;
    var r := ReorgNotification(0, AllRemoved([a]));
    var start := [Reorg(r), NewBlock(b1)];
    ReplacementFits(g, a, b1);
    ChurnFits([g, b1], b2, n - 1);
    HistoryAppend([g, a], start, Churn(b2, n - 1));
    ReorgsOfAppend(start, Churn(b2, n - 1));
    RepeatedTail([r], ReorgNotification(1, AllRemoved([b2])), n - 1);
  }

  lemma RepeatedTail(before: seq<ReorgNotification>, r: ReorgNotification, n: nat)
    requires n >= MAX_REORG_ENTRIES
    ensures LastN(before + Repeated(r, n), MAX_REORG_ENTRIES) == Repeated(r, MAX_REORG_ENTRIES)
  {
  }

  /**
   * The limit cannot be raised: for every number of reorgs above 25 there is a history after which the client keeps
   * logs that no longer exist, or misses some that do.
   */
  lemma ForgottenReorgLeavesStaleLogs(f: LogFilter, g: RuBlock, a: RuBlock, b1: RuBlock, b2: RuBlock, feed: Feed, n: nat)
    requires WellFormedBlock(a) && IsRuChain([g, a]) && IsRuChain([g, b1]) && WellFormedBlock(b2) && b2.number == 2 && RingOk(feed)
    requires multiset(MatchingLogs(f, [g, a])) != multiset(MatchingLogs(f, [g, b1])) && n > MAX_REORG_ENTRIES
    ensures var s := Install(f, [g, a], feed, 1);
            var events := ManyReorgs(a, b1, b2, n);
            && History(s.chain, events) && |ReorgsOf(events)| == n && AfterEvents(s, events).chain == [g, b1]
            && Poll(f, AfterEvents(s, events), 1).client != multiset(MatchingLogs(f, [g, b1]))
            && !RingSuffices(f, s.filter.nextStart, s.chain, events)
  {
    hide MatchingLogs, ManyReorgs, ReorgsOf, SendEvents, ApplyEvents, History, RingSuffices, Poll, Rewound, RemovedLogs;
    var s := Install(f, [g, a], feed, 1);
    var events := ManyReorgs(a, b1, b2, n);
    var s1 := AfterEvents(s, events);
    InstallTracks(f, [g, a], feed, 1);
    ManyReorgsFit(g, a, b1, b2, n);
    RingKeepsNewest(s.feed, s.filter.lastPoll, events);
    ChurnTakesNothingBack(f, b2, MAX_REORG_ENTRIES);
    assert [g, a][..2] == [g, a] && [g, b1][..2] == [g, b1];
    NothingToPoll(f, s1, 1);
    RoundTracksIff(f, s, Round(events, 1));
  }

  /** A poll that takes nothing back and reads nothing leaves the client as it was. */
  lemma NothingToPoll(f: LogFilter, s: Session, latest: nat)
    requires CanPoll(s, latest)
    requires var reorgs := ReorgsSince(s.feed.ring, s.filter.lastPoll);
             Rewound(s.filter.nextStart, reorgs) == s.filter.nextStart > latest && RemovedLogs(f, s.filter.nextStart, reorgs) == []
    ensures var s1 := Poll(f, s, latest); s1.client == s.client && s1.chain == s.chain && s1.filter.nextStart == s.filter.nextStart
  {
    hide Rewound, RemovedLogs, MatchingLogs, ReorgsSince;
  }
}
