/** backend/matchmaker.go: the matchmaker as an object over the shared Redis state. One call
    at a time; QueueProtocol.dfy has the same commands interleaved by many instances. */
module MatchMaking {
  import opened Ids
  import opened Sequences
  import opened Store
  import opened MatchCycle

  datatype Pair = NoPair | Pair(first: UserId, second: UserId)

  class MatchMaker {
    var rdb: Redis

    constructor (rdb: Redis)
      ensures this.rdb == rdb
    {
      this.rdb := rdb;
    }

    method Add(userID: UserId, now: int)
      modifies this
      ensures rdb == old(rdb).Enqueue(userID, now)
      ensures rdb == old(rdb).(queue := old(rdb).queue + [userID], enqueuedAt := old(rdb).enqueuedAt[userID := now])
    {
      rdb := rdb.(queue := rdb.queue + [userID]);
      rdb := rdb.(enqueuedAt := rdb.enqueuedAt[userID := now]);
    }

    method Remove(userID: UserId)
      modifies this
      ensures rdb == old(rdb).Dequeue(userID)
      ensures multiset(rdb.queue) == multiset(old(rdb).queue)[userID := 0]
      ensures rdb.enqueuedAt == old(rdb).enqueuedAt - {userID}
      ensures rdb.(queue := old(rdb).queue, enqueuedAt := old(rdb).enqueuedAt) == old(rdb)
    {
      ghost var q: seq<UserId> := rdb.queue;
      rdb := rdb.(queue := Keep(rdb.queue, Other(userID)));
      rdb := rdb.(enqueuedAt := rdb.enqueuedAt - {userID});
      forall x: UserId ensures multiset(rdb.queue)[x] == multiset(q)[userID := 0][x] {
        KeepCounts(q, Other(userID), x);
      }
    }

    /** observeMatchLatency: one observation per ID that has an entry and a non-negative
        wait; afterwards none of the IDs has an entry. */
    method ObserveMatchLatency(ids: seq<UserId>, now: int)
      modifies this
      ensures rdb == old(rdb).ObserveLatency(ids, now)
    {
      if |ids| == 0 {
        return;
      }
      var vals := rdb.enqueuedAt;
      for i := 0 to |ids|
        invariant rdb == old(rdb).(latencies := old(rdb).latencies + Waits(vals, ids[..i], now))
      {
        assert ids[..i + 1][..i] == ids[..i];
        if ids[i] in vals {
          var dt := now - vals[ids[i]];
          if dt >= 0 {
            rdb := rdb.(latencies := rdb.latencies + [dt]);
          }
        }
      }
      assert ids[..|ids|] == ids;
      rdb := rdb.(enqueuedAt := rdb.enqueuedAt - (set u | u in ids));
    }

    /** tryMatch: pops two users, or nothing if fewer than two wait. */
    method TryMatch() returns (p: Pair)
      modifies this
      ensures p.NoPair? <==> |old(rdb).queue| < 2
      ensures p.NoPair? ==> rdb == old(rdb)
      ensures p.Pair? ==> [p.first, p.second] + rdb.queue == old(rdb).queue && rdb == old(rdb).PopPair()
      ensures rdb.(queue := old(rdb).queue) == old(rdb)
    {
      if |rdb.queue| < 2 {
        return NoPair;
      }
      p := Pair(rdb.queue[0], rdb.queue[1]);
      rdb := rdb.(queue := rdb.queue[2..]);
    }

    method HydrateBlocks(userID: UserId, subs: set<UserId>)
      modifies this
      ensures rdb == old(rdb).Hydrate(userID, subs)
      ensures forall v :: rdb.IsBlockMember(userID, v) <==> v in subs
      ensures userID in rdb.blocks <==> subs != {}
      ensures rdb.blocks - {userID} == old(rdb).blocks - {userID} && rdb.(blocks := old(rdb).blocks) == old(rdb)
    {
      rdb := rdb.(blocks := rdb.blocks - {userID});
      if subs != {} {
        rdb := rdb.(blocks := rdb.blocks[userID := subs]);
      }
      assert subs != {} ==> rdb.blocks == old(rdb).blocks[userID := subs];
    }

    method AddBlock(blockerSub: UserId, blockedSub: UserId)
      modifies this
      ensures rdb == old(rdb).AddBlock(blockerSub, blockedSub)
      ensures rdb.blocks.Keys == old(rdb).blocks.Keys
      ensures rdb.IsBlockMember(blockerSub, blockedSub) <==> blockerSub in old(rdb).blocks
      ensures forall u, v :: u != blockerSub || v != blockedSub ==> (rdb.IsBlockMember(u, v) <==> old(rdb).IsBlockMember(u, v))
      ensures rdb.(blocks := old(rdb).blocks) == old(rdb)
    {
      var exists_ := blockerSub in rdb.blocks;
      if !exists_ {
        return;
      }
      rdb := rdb.(blocks := rdb.blocks[blockerSub := rdb.blocks[blockerSub] + {blockedSub}]);
    }

    method ClearBlocks(userID: UserId)
      modifies this
      ensures rdb == old(rdb).ClearBlocks(userID)
      ensures forall v :: !rdb.IsBlockMember(userID, v)
      ensures forall u, v :: u != userID ==> (rdb.IsBlockMember(u, v) <==> old(rdb).IsBlockMember(u, v))
      ensures rdb.(blocks := old(rdb).blocks) == old(rdb)
    {
      rdb := rdb.(blocks := rdb.blocks - {userID});
    }

    method PairBlocked(a: UserId, b: UserId, t: Turn) returns (blocked: bool)
      ensures blocked <==> CheckedBlocked(rdb, a, b, t)
      ensures blocked <==>
        || (!t.firstCheckFails && a in rdb.blocks && b in rdb.blocks[a])
        || (!t.secondCheckFails && b in rdb.blocks && a in rdb.blocks[b])
      ensures t.Faultless() ==> (blocked <==> rdb.PairBlocked(a, b))
    {
      if !t.firstCheckFails && rdb.IsBlockMember(a, b) {
        return true;
      }
      if !t.secondCheckFails && rdb.IsBlockMember(b, a) {
        return true;
      }
      return false;
    }

    method SetSession(userID: UserId, peerID: UserId)
      modifies this
      ensures rdb == old(rdb).SetSession(userID, peerID)
      ensures userID in rdb.sessions && rdb.sessions[userID] == peerID
      ensures rdb.sessions - {userID} == old(rdb).sessions - {userID}
      ensures rdb.(sessions := old(rdb).sessions) == old(rdb)
    {
      rdb := rdb.(sessions := rdb.sessions[userID := peerID]);
    }

    method DeleteSession(userID: UserId)
      modifies this
      ensures rdb == old(rdb).DeleteSession(userID)
      ensures userID !in rdb.sessions
      ensures forall u :: u != userID ==>
        && (u in rdb.sessions <==> u in old(rdb).sessions)
        && (u in rdb.sessions ==> rdb.sessions[u] == old(rdb).sessions[u])
      ensures rdb.(sessions := old(rdb).sessions) == old(rdb)
    {
      rdb := rdb.(sessions := rdb.sessions - {userID});
    }

    method Publish(channel: UserId, peerID: UserId)
      modifies this
      ensures rdb == old(rdb).Publish(channel, peerID)
    {
      rdb := rdb.(published := rdb.published + [Notice(channel, peerID)]);
    }

    method Commit(id1: UserId, id2: UserId, now: int)
      modifies this
      ensures rdb == old(rdb).Commit(id1, id2, now)
    {
      ObserveMatchLatency([id1, id2], now);
      SetSession(id1, id2);
      SetSession(id2, id1);
      Publish(id1, id2);
      Publish(id2, id1);
    }

    /** processMatches: the loop computes exactly `Drain`, whatever fails. */
    method ProcessMatches(env: nat -> Turn) returns (ghost o: Outcome)
      modifies this
      ensures o == Drain(Start(old(rdb)), env) && rdb == o.end.store
    {
      hide Drain;
      var rejections := 0;
      var pops := 0;
      ghost var matched: seq<Match> := [];
      while true
        invariant rejections < MAX_REJECTIONS
        invariant Drain(Cycle(rdb, pops, rejections, matched, []), env) == Drain(Start(old(rdb)), env)
        decreases MAX_REJECTIONS - rejections, |rdb.queue|
      {
        ghost var c := Cycle(rdb, pops, rejections, matched, []);
        DrainUnfolds(c, env);
        var t := env(pops);
        if t.popFails {
          return Outcome(c, PopError);
        }
        var p := TryMatch();
        if p.NoPair? {
          return Outcome(c, QueueShort);
        }
        pops := pops + 1;
        assert c.store.queue[0] == p.first && c.store.queue[1] == p.second;
        var blocked := PairBlocked(p.first, p.second, t);
        if blocked {
          if t.requeueFails {
            return Outcome(Lost(c), RequeueError);
          }
          rdb := rdb.Requeue(p.first, p.second);
          rejections := rejections + 1;
          if rejections >= MAX_REJECTIONS {
            return Outcome(Rejected(c), BudgetSpent);
          }
          continue;
        }
        Commit(p.first, p.second, t.now);
        matched := matched + [Match(p.first, p.second, pops - 1)];
        assert Cycle(rdb, pops, rejections, matched, []) == Accepted(c, t.now);
      }
    }
  }

  lemma DrainUnfolds(c: Cycle, env: nat -> Turn)
    requires c.rejections < MAX_REJECTIONS
    ensures var t, q := env(c.pops), c.store.queue;
      Drain(c, env) ==
        if t.popFails then Outcome(c, PopError)
        else if |q| < 2 then Outcome(c, QueueShort)
        else if CheckedBlocked(c.store, q[0], q[1], t) then
          if t.requeueFails then Outcome(Lost(c), RequeueError)
          else if c.rejections + 1 >= MAX_REJECTIONS then Outcome(Rejected(c), BudgetSpent)
          else Drain(Rejected(c), env)
        else Drain(Accepted(c, t.now), env)
  {
  }
}
