/** The fleet directory of which replica holds each cluster's agent connection: the
    in-memory implementation, what its answers mean in terms of the history of
    writes, and how long a heartbeat loop keeps a record alive. */
module Registry {
  import opened Wrappers

  type ClusterID = string
  type Addr = string

  datatype Record = Record(addr: Addr, expires: nat)

  type Records = map<ClusterID, Record>

  /** A successful registry write, with the time it took effect. */
  datatype Op =
    | Write(time: nat, cluster: ClusterID, addr: Addr, ttl: nat)
    | Forget(time: nat, cluster: ClusterID)

  function Apply(r: Records, op: Op): Records {
    match op
    case Write(t, c, addr, ttl) => r[c := Record(addr, t + ttl)]
    case Forget(_, c) => r - {c}
  }

  function Replay(log: seq<Op>): Records {
    if log == [] then map[] else Apply(Replay(log[..|log| - 1]), log[|log| - 1])
  }

  /** A record still answers at the very instant it expires: `now.After(expires)` is strict. */
  function Lookup(r: Records, c: ClusterID, now: nat): Option<Addr> {
    if c in r && now <= r[c].expires then Some(r[c].addr) else None
  }

  function Listed(r: Records, now: nat): set<ClusterID> {
    set c | c in r && now < r[c].expires
  }

  class InMemory {
    var records: Records

    constructor ()
      ensures records == map[]
    {
      records := map[];
    }

    method Announce(now: nat, c: ClusterID, addr: Addr, ttl: nat)
      modifies this
      ensures records == Apply(old(records), Write(now, c, addr, ttl))
    {
      records := records[c := Record(addr, now + ttl)];
    }

    /** A heartbeat is an announcement: it also recreates a record that is gone. */
    method Heartbeat(now: nat, c: ClusterID, addr: Addr, ttl: nat)
      modifies this
      ensures records == Apply(old(records), Write(now, c, addr, ttl))
    {
      Announce(now, c, addr, ttl);
    }

    method LookUp(now: nat, c: ClusterID) returns (addr: Addr, ok: bool)
      ensures Lookup(records, c, now) == if ok then Some(addr) else None
    {
      if c !in records || now > records[c].expires {
        return "", false;
      }
      return records[c].addr, true;
    }

    method Erase(ghost now: nat, c: ClusterID)
      modifies this
      ensures records == Apply(old(records), Forget(now, c))
    {
      records := records - {c};
    }

    /** Every unexpired cluster once, in whatever order the map is ranged over. */
    method List(now: nat) returns (out: seq<ClusterID>)
      ensures multiset(out) == multiset(Listed(records, now))
    {
      out := [];
      var todo := records.Keys;
      while todo != {}
        invariant todo <= records.Keys
        invariant multiset(out) == multiset(Listed(records, now) - todo)
      {
        var id :| id in todo;
        ghost var before := Listed(records, now) - todo;
        todo := todo - {id};
        if now < records[id].expires {
          out := out + [id];
          assert Listed(records, now) - todo == before + {id};
        } else {
          assert Listed(records, now) - todo == before;
        }
      }
      assert Listed(records, now) - todo == Listed(records, now);
    }
  }

  /** List and Lookup agree about every cluster except at the instant its record expires. */
  lemma ListAgreesWithLookup(r: Records, c: ClusterID, now: nat)
    ensures c in Listed(r, now) <==> Lookup(r, c, now).Some? && !(c in r && r[c].expires == now)
    ensures c in r && r[c].expires == now ==> Lookup(r, c, now).Some? && c !in Listed(r, now)
  {
  }

  // ------------------------------------------------------------ what an answer means

  function LastOp(log: seq<Op>, c: ClusterID): Option<Op> {
    if log == [] then None
    else if log[|log| - 1].cluster == c then Some(log[|log| - 1])
    else LastOp(log[..|log| - 1], c)
  }

  /** The answer read off the history alone. */
  function AnswerOf(op: Option<Op>, now: nat): Option<Addr> {
    if op.Some? && op.value.Write? && now <= op.value.time + op.value.ttl then Some(op.value.addr) else None
  }

  lemma {:induction false} LookupReadsHistory(log: seq<Op>, c: ClusterID, now: nat)
    ensures c in Replay(log) <==> LastOp(log, c).Some? && LastOp(log, c).value.Write?
    ensures Lookup(Replay(log), c, now) == AnswerOf(LastOp(log, c), now)
  {
    if log != [] {
      LookupReadsHistory(log[..|log| - 1], c, now);
    }
  }

  ghost predicate LastWriteAt(log: seq<Op>, i: nat, c: ClusterID, addr: Addr) {
    && i < |log| && log[i].Write? && log[i].cluster == c && log[i].addr == addr
    && (forall j | i < j < |log| :: log[j].cluster != c)
  }

  lemma {:induction false} LastOpIsLast(log: seq<Op>, c: ClusterID)
    ensures LastOp(log, c).None? <==> forall j | 0 <= j < |log| :: log[j].cluster != c
    ensures LastOp(log, c).Some? ==> exists i ::
              0 <= i < |log| && log[i] == LastOp(log, c).value && log[i].cluster == c
              && forall j | i < j < |log| :: log[j].cluster != c
  {
    if log != [] && log[|log| - 1].cluster != c {
      var most := log[..|log| - 1];
      LastOpIsLast(most, c);
      assert forall j | 0 <= j < |most| :: most[j] == log[j];
      if LastOp(log, c).Some? {
        var i :| 0 <= i < |most| && most[i] == LastOp(most, c).value && most[i].cluster == c
          && forall j | i < j < |most| :: most[j].cluster != c;
        assert log[i] == LastOp(log, c).value;
      }
    }
  }

  /** Lease soundness: a lookup names a replica exactly when that replica made the last
      write for the cluster, at most a TTL ago, and nobody has touched it since. */
  lemma LeaseIsSound(log: seq<Op>, c: ClusterID, now: nat, addr: Addr)
    ensures Lookup(Replay(log), c, now) == Some(addr) <==>
            exists i: nat :: LastWriteAt(log, i, c, addr) && now <= log[i].time + log[i].ttl
  {
    LookupReadsHistory(log, c, now);
    LastOpIsLast(log, c);
    if LastOp(log, c).None? {
      assert forall i: nat :: !LastWriteAt(log, i, c, addr);
    } else {
      var i :| 0 <= i < |log| && log[i] == LastOp(log, c).value && log[i].cluster == c
        && forall j | i < j < |log| :: log[j].cluster != c;
      assert log[i].Write? ==> LastWriteAt(log, i, c, log[i].addr);
      assert forall m: nat :: LastWriteAt(log, m, c, addr) ==> m == i;
    }
  }

  // ------------------------------------------------------------ keeping a lease alive

  /** One tick of a heartbeat loop: when its registry call ended, and whether it succeeded. */
  datatype Beat = Beat(time: nat, ok: bool)

  /** Tick n falls at t0 + n * interval, and its call takes at most `delay`. */
  predicate Paced(beats: seq<Beat>, t0: nat, interval: nat, delay: nat) {
    forall n | 0 <= n < |beats| :: t0 + n * interval <= beats[n].time <= t0 + n * interval + delay
  }

  /** No more than k heartbeats in a row fail. */
  predicate FailsAtMost(beats: seq<Beat>, k: nat) {
    forall n | 0 <= n < |beats| - k :: SucceedsWithin(beats, n, k)
  }

  predicate SucceedsWithin(beats: seq<Beat>, n: nat, k: nat)
    requires n + k < |beats|
  {
    exists m | n <= m <= n + k :: beats[m].ok
  }

  function OnCluster(log: seq<Op>, c: ClusterID): seq<Op> {
    if log == [] then []
    else OnCluster(log[..|log| - 1], c) + (if log[|log| - 1].cluster == c then [log[|log| - 1]] else [])
  }

  /** The loop's successful writes strictly before `now`. */
  function BeatWrites(beats: seq<Beat>, c: ClusterID, b: Addr, ttl: nat, now: nat): seq<Op> {
    if beats == [] then []
    else
      var last := beats[|beats| - 1];
      BeatWrites(beats[..|beats| - 1], c, b, ttl, now)
      + (if last.ok && last.time < now then [Write(last.time, c, b, ttl)] else [])
  }

  /** From `pre` on, nobody but b's loop has written or forgotten c before `now`; what
      happened to c earlier, or to other clusters at any time, does not matter. */
  predicate OnlyLoopWrites(log: seq<Op>, pre: seq<Op>, beats: seq<Beat>, c: ClusterID, b: Addr, ttl: nat, now: nat) {
    OnCluster(log, c) == OnCluster(pre, c) + BeatWrites(beats, c, b, ttl, now)
  }

  /** After the loop's first success, and up to when its next heartbeat must have ended, every
      lookup finds b - even one made just before a write of the same instant. */
  ghost predicate Held(pre: seq<Op>, beats: seq<Beat>, t0: nat, interval: nat, delay: nat, c: ClusterID, b: Addr,
                       ttl: nat)
  {
    forall log: seq<Op>, now: nat ::
      && OnlyLoopWrites(log, pre, beats, c, b, ttl, now)
      && (exists n :: 0 <= n < |beats| && beats[n].ok && beats[n].time < now)
      && now <= t0 + |beats| * interval + delay
      ==> Lookup(Replay(log), c, now) == Some(b)
  }

  /** Every loop with these parameters holds its lease. */
  ghost predicate LeaseNeverLapses(pre: seq<Op>, c: ClusterID, b: Addr, ttl: nat, interval: nat, delay: nat, k: nat) {
    forall t0: nat, beats: seq<Beat> ::
      Paced(beats, t0, interval, delay) && FailsAtMost(beats, k) ==> Held(pre, beats, t0, interval, delay, c, b, ttl)
  }

  lemma {:induction false} LastOnCluster(log: seq<Op>, c: ClusterID)
    ensures LastOp(log, c) == LastOp(OnCluster(log, c), c)
  {
    if log != [] {
      LastOnCluster(log[..|log| - 1], c);
      var rest := OnCluster(log[..|log| - 1], c);
      if log[|log| - 1].cluster == c {
        assert OnCluster(log, c)[|OnCluster(log, c)| - 1] == log[|log| - 1];
      } else {
        assert OnCluster(log, c) == rest;
      }
    }
  }

  lemma {:induction false} LastBeatWrite(
      pre: seq<Op>, beats: seq<Beat>, c: ClusterID, b: Addr, ttl: nat, now: nat, n: nat)
    requires n < |beats| && beats[n].ok && beats[n].time < now
    requires forall m | n < m < |beats| :: !(beats[m].ok && beats[m].time < now)
    ensures LastOp(pre + BeatWrites(beats, c, b, ttl, now), c) == Some(Write(beats[n].time, c, b, ttl))
  {
    var most := beats[..|beats| - 1];
    var w := BeatWrites(most, c, b, ttl, now);
    if n == |beats| - 1 {
      var all := pre + BeatWrites(beats, c, b, ttl, now);
      assert all[|all| - 1] == Write(beats[n].time, c, b, ttl);
    } else {
      LastBeatWrite(pre, most, c, b, ttl, now, n);
      assert BeatWrites(beats, c, b, ttl, now) == w;
    }
  }

  /** The last success before `now`, as an index. */
  lemma LastSuccess(beats: seq<Beat>, now: nat) returns (n: nat)
    requires exists m :: 0 <= m < |beats| && beats[m].ok && beats[m].time < now
    ensures n < |beats| && beats[n].ok && beats[n].time < now
    ensures forall m | n < m < |beats| :: !(beats[m].ok && beats[m].time < now)
  {
    n :| 0 <= n < |beats| && beats[n].ok && beats[n].time < now;
    while exists m :: n < m < |beats| && beats[m].ok && beats[m].time < now
      invariant n < |beats| && beats[n].ok && beats[n].time < now
      decreases |beats| - n
    {
      var m :| n < m < |beats| && beats[m].ok && beats[m].time < now;
      n := m;
    }
  }

  lemma MulMonotone(a: nat, b: nat, x: nat)
    requires a <= b
    ensures a * x <= b * x
  {
  }

  lemma Spread(n: nat, k: nat, x: nat)
    ensures (n + 1 + k) * x == n * x + (k + 1) * x
  {
  }

  lemma AnswersWithin(log: seq<Op>, pre: seq<Op>, beats: seq<Beat>, c: ClusterID, b: Addr, ttl: nat, now: nat, n: nat)
    requires OnlyLoopWrites(log, pre, beats, c, b, ttl, now)
    requires n < |beats| && beats[n].ok && beats[n].time < now
    requires forall m | n < m < |beats| :: !(beats[m].ok && beats[m].time < now)
    ensures Lookup(Replay(log), c, now) == (if now <= beats[n].time + ttl then Some(b) else None)
  {
    LookupReadsHistory(log, c, now);
    LastOnCluster(log, c);
    LastBeatWrite(OnCluster(pre, c), beats, c, b, ttl, now, n);
  }

  lemma GapIsBounded(beats: seq<Beat>, t0: nat, interval: nat, delay: nat, k: nat, now: nat, n: nat)
    requires Paced(beats, t0, interval, delay) && FailsAtMost(beats, k) && now <= t0 + |beats| * interval + delay
    requires n < |beats| && forall m | n < m < |beats| :: !(beats[m].ok && beats[m].time < now)
    ensures now <= beats[n].time + (k + 1) * interval + delay
  {
    Spread(n, k, interval);
    assert t0 + n * interval <= beats[n].time;
    if n + 1 < |beats| - k {
      assert SucceedsWithin(beats, n + 1, k);
      var m :| n + 1 <= m <= n + 1 + k && beats[m].ok;
      assert now <= beats[m].time <= t0 + m * interval + delay;
      MulMonotone(m, n + 1 + k, interval);
    } else {
      MulMonotone(|beats|, n + 1 + k, interval);
    }
  }

  /** One success, k failures, and a success as late as the delay allows. */
  function WorstCase(interval: nat, delay: nat, k: nat): seq<Beat> {
    seq(k + 2, n requires 0 <= n < k + 2 =>
      if n == 0 then Beat(0, true)
      else if n <= k then Beat(n * interval, false)
      else Beat((k + 1) * interval + delay, true))
  }

  lemma WorstCaseIsAllowed(interval: nat, delay: nat, k: nat)
    ensures Paced(WorstCase(interval, delay, k), 0, interval, delay)
    ensures FailsAtMost(WorstCase(interval, delay, k), k)
  {
    var beats := WorstCase(interval, delay, k);
    forall n | 0 <= n < |beats|
      ensures n * interval <= beats[n].time <= n * interval + delay
    {
      if n == k + 1 {
        assert beats[n].time == (k + 1) * interval + delay;
      }
    }
    forall n | 0 <= n < |beats| - k
      ensures SucceedsWithin(beats, n, k)
    {
      if n == 0 {
        assert beats[0].ok;
      } else {
        assert beats[k + 1].ok;
      }
    }
  }

  lemma {:induction false} WorstCaseWrites(interval: nat, delay: nat, k: nat, c: ClusterID, b: Addr, ttl: nat, j: nat)
    requires 1 <= interval && 1 <= j <= k + 2
    ensures BeatWrites(WorstCase(interval, delay, k)[..j], c, b, ttl, (k + 1) * interval + delay) == [Write(0, c, b, ttl)]
  {
    var now := (k + 1) * interval + delay;
    var beats := WorstCase(interval, delay, k)[..j];
    MulMonotone(1, k + 1, interval);
    if j == 1 {
      assert beats == [Beat(0, true)] && beats[..0] == [];
    } else {
      WorstCaseWrites(interval, delay, k, c, b, ttl, j - 1);
      assert beats[..j - 1] == WorstCase(interval, delay, k)[..j - 1];
    }
  }

  lemma {:induction false} OnClusterOfOwn(log: seq<Op>, more: Op, c: ClusterID)
    requires more.cluster == c
    ensures OnCluster(log + [more], c) == OnCluster(log, c) + [more]
  {
    assert (log + [more])[..|log|] == log;
  }

  lemma LoopHolds(pre: seq<Op>, beats: seq<Beat>, t0: nat, c: ClusterID, b: Addr, ttl: nat,
                  interval: nat, delay: nat, k: nat)
    requires Paced(beats, t0, interval, delay) && FailsAtMost(beats, k)
    requires (k + 1) * interval + delay <= ttl
    ensures Held(pre, beats, t0, interval, delay, c, b, ttl)
  {
    forall log: seq<Op>, now: nat |
      && OnlyLoopWrites(log, pre, beats, c, b, ttl, now)
      && (exists n :: 0 <= n < |beats| && beats[n].ok && beats[n].time < now)
      && now <= t0 + |beats| * interval + delay
      ensures Lookup(Replay(log), c, now) == Some(b)
    {
      var n := LastSuccess(beats, now);
      AnswersWithin(log, pre, beats, c, b, ttl, now, n);
      GapIsBounded(beats, t0, interval, delay, k, now, n);
    }
  }

  lemma WorstCaseLapses(pre: seq<Op>, c: ClusterID, b: Addr, ttl: nat, interval: nat, delay: nat, k: nat)
    requires 1 <= interval && delay <= interval && (k + 1) * interval + delay > ttl
    ensures !Held(pre, WorstCase(interval, delay, k), 0, interval, delay, c, b, ttl)
  {
    var beats, now := WorstCase(interval, delay, k), (k + 1) * interval + delay;
    WorstCaseWrites(interval, delay, k, c, b, ttl, k + 2);
    assert beats[..k + 2] == beats;
    var log := pre + [Write(0, c, b, ttl)];
    OnClusterOfOwn(pre, Write(0, c, b, ttl), c);
    assert OnlyLoopWrites(log, pre, beats, c, b, ttl, now);
    MulMonotone(1, k + 1, interval);
    assert beats[0].ok && beats[0].time < now;
    assert (k + 2) * interval == (k + 1) * interval + interval;
    LookupReadsHistory(log, c, now);
  }

  /** The exact bound: whatever state the record was left in - a late Forget by another
      replica included - a loop that never fails more than k times in a row keeps its
      lease through every run exactly when k + 1 intervals and one delay fit in the TTL. */
  lemma LeaseBound(pre: seq<Op>, c: ClusterID, b: Addr, ttl: nat, interval: nat, delay: nat, k: nat)
    requires 1 <= interval && delay <= interval
    ensures LeaseNeverLapses(pre, c, b, ttl, interval, delay, k) <==> (k + 1) * interval + delay <= ttl
  {
    hide Held, Paced, FailsAtMost;
    if (k + 1) * interval + delay <= ttl {
      forall t0: nat, beats: seq<Beat> | Paced(beats, t0, interval, delay) && FailsAtMost(beats, k)
        ensures Held(pre, beats, t0, interval, delay, c, b, ttl)
      {
        LoopHolds(pre, beats, t0, c, b, ttl, interval, delay, k);
      }
    } else {
      WorstCaseIsAllowed(interval, delay, k);
      WorstCaseLapses(pre, c, b, ttl, interval, delay, k);
    }
  }

  const DEFAULT_TTL: nat := 30
  const DEFAULT_INTERVAL: nat := 10

  /** With the defaults, one failed heartbeat is always survived; two in a row only if
      registry calls take no time at all. */
  lemma DefaultLease(pre: seq<Op>, c: ClusterID, b: Addr, delay: nat)
    requires delay <= DEFAULT_INTERVAL
    ensures LeaseNeverLapses(pre, c, b, DEFAULT_TTL, DEFAULT_INTERVAL, delay, 1)
    ensures LeaseNeverLapses(pre, c, b, DEFAULT_TTL, DEFAULT_INTERVAL, delay, 2) <==> delay == 0
  {
    LeaseBound(pre, c, b, DEFAULT_TTL, DEFAULT_INTERVAL, delay, 1);
    LeaseBound(pre, c, b, DEFAULT_TTL, DEFAULT_INTERVAL, delay, 2);
  }
}
