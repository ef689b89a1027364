/** The keys that all backend instances share in Redis, as one value, and the effect of
    each command or atomic script that backend/matchmaker.go sends. */
module Store {
  import opened Ids
  import opened Sequences

  /** A message published on the notify channel of `channel`, carrying `peer`. */
  datatype Notice = Notice(channel: UserId, peer: UserId)

  datatype Redis = Redis(
    queue: seq<UserId>,                 // matchmaker:queue
    enqueuedAt: map<UserId, int>,       // matchmaker:enqueued_at
    blocks: map<UserId, set<UserId>>,   // matchmaker:blocks:<user>; a key is never empty
    sessions: map<UserId, UserId>,      // matchmaker:session:<user>
    published: seq<Notice>,             // everything published on matchmaker:notify:<user>
    latencies: seq<int>)                // the match-latency histogram's observations
  {
    // RPUSH then HSET
    function Enqueue(u: UserId, now: int): Redis {
      this.(queue := queue + [u], enqueuedAt := enqueuedAt[u := now])
    }

    // LREM 0 then HDEL
    function Dequeue(u: UserId): Redis {
      this.(queue := Keep(queue, Other(u)), enqueuedAt := enqueuedAt - {u})
    }

    // DEL, then SADD unless there is nothing to add
    function Hydrate(u: UserId, subs: set<UserId>): Redis {
      this.(blocks := if subs == {} then blocks - {u} else blocks[u := subs])
    }

    // EXISTS, then SADD if the key is there
    function AddBlock(blocker: UserId, blocked: UserId): Redis {
      if blocker in blocks
      then this.(blocks := blocks[blocker := blocks[blocker] + {blocked}])
      else this
    }

    // DEL, and also what an expired TTL does
    function ClearBlocks(u: UserId): Redis {
      this.(blocks := blocks - {u})
    }

    predicate IsBlockMember(u: UserId, other: UserId) {
      u in blocks && other in blocks[u]
    }

    predicate PairBlocked(a: UserId, b: UserId) {
      IsBlockMember(a, b) || IsBlockMember(b, a)
    }

    function SetSession(u: UserId, peer: UserId): Redis {
      this.(sessions := sessions[u := peer])
    }

    function DeleteSession(u: UserId): Redis {
      this.(sessions := sessions - {u})
    }

    function Publish(u: UserId, peer: UserId): Redis {
      this.(published := published + [Notice(u, peer)])
    }

    // LPOP LPOP of the pop script, once the length has been checked
    function PopPair(): Redis
      requires |queue| >= 2
    {
      this.(queue := queue[2..])
    }

    // RPUSH of both
    function Requeue(a: UserId, b: UserId): Redis {
      this.(queue := queue + [a, b])
    }

    // HMGET, observe, HDEL
    function ObserveLatency(ids: seq<UserId>, now: int): Redis {
      this.(latencies := latencies + Waits(enqueuedAt, ids, now),
            enqueuedAt := enqueuedAt - (set u | u in ids))
    }

    // What processMatches does with a pair it accepts
    function Commit(a: UserId, b: UserId, now: int): Redis {
      ObserveLatency([a, b], now)
        .SetSession(a, b).SetSession(b, a)
        .Publish(a, b).Publish(b, a)
    }
  }

  const EMPTY: Redis := Redis([], map[], map[], map[], [], [])

  function Other(u: UserId): UserId -> bool {
    x => x != u
  }

  /** The waits recorded for `ids`: no entry and a negative wait are both skipped. */
  function Waits(enqueuedAt: map<UserId, int>, ids: seq<UserId>, now: int): seq<int> {
    if ids == [] then [] else
      var init := Waits(enqueuedAt, ids[..|ids| - 1], now);
      var u := ids[|ids| - 1];
      if u in enqueuedAt && now - enqueuedAt[u] >= 0 then init + [now - enqueuedAt[u]] else init
  }
}
