/** The manager's heartbeat monitor of one connection, in whole seconds.
    Writes take no time; the ticker delivers a tick at most PING_INTERVAL after the previous check. */
module Heartbeat {

  const PONG_WAIT := 60
  const PING_INTERVAL := 30
  const MAX_RECOVERY := 5
  const RECOVERY_BACKOFF := 2 * PING_INTERVAL

  datatype Reason = PingFailed | NoHeartbeat

  /** When the last pong up to time t arrived; the start counts as one. */
  function LastPong(start: nat, pongs: set<nat>, t: nat): (last: nat)
    ensures last <= t || last == start
  {
    if t <= start then start else if t in pongs then t else LastPong(start, pongs, t - 1)
  }

  lemma {:induction false} LastPongGrows(start: nat, pongs: set<nat>, t: nat, u: nat)
    requires t <= u
    ensures LastPong(start, pongs, t) <= LastPong(start, pongs, u)
    ensures (forall p | p in pongs && t < p <= u :: p <= start)
            ==> LastPong(start, pongs, u) == LastPong(start, pongs, t)
  {
    if t < u {
      LastPongGrows(start, pongs, t, u - 1);
    }
  }

  /** pongs and outages: the times at which pongs arrive and at which a ping cannot be written. */
  class Monitor {
    const start: nat
    const pongs: set<nat>
    const outages: set<nat>
    var now: nat
    var lastPong: nat
    var readDeadline: nat
    var closed: bool

    ghost predicate Valid()
      reads this
    {
      && start <= now
      && lastPong == LastPong(start, pongs, now)
      && readDeadline == lastPong + 60
    }

    constructor (start: nat, pongs: set<nat>, outages: set<nat>)
      ensures Valid() && now == start && !closed
      ensures this.start == start && this.pongs == pongs && this.outages == outages
    {
      this.start, this.pongs, this.outages := start, pongs, outages;
      now, lastPong, readDeadline, closed := start, start, start + PONG_WAIT, false;
    }

    method PongHandler()
      modifies this`lastPong, this`readDeadline
      ensures lastPong == now && readDeadline == now + PONG_WAIT
    {
      lastPong := now;
      readDeadline := now + PONG_WAIT;
    }

    /** Time passes; the pong handler runs whenever a pong arrives. */
    method Sleep(seconds: nat)
      requires Valid()
      modifies this`now, this`lastPong, this`readDeadline
      ensures Valid() && now == old(now) + seconds
      ensures old(lastPong) <= lastPong
    {
      LastPongGrows(start, pongs, now, now + seconds);
      var end := now + seconds;
      while now < end
        invariant Valid() && old(now) <= now <= end
      {
        now := now + 1;
        if now in pongs {
          PongHandler();
        }
      }
    }

    predicate Missed()
      reads this
    {
      now - lastPong > PONG_WAIT
    }

    predicate MissedAt(t: nat) {
      t - LastPong(start, pongs, t) > PONG_WAIT
    }

    /** What the monitor does on one tick: it pings at now, now + RECOVERY_BACKOFF, ... and goes on as long as
        the write succeeds and the heartbeat is missed; the last of these pings decides. */
    method Check() returns (reason: Reason, ghost rounds: nat)
      requires Valid() && !closed
      modifies this
      ensures Valid() && old(lastPong) <= lastPong
      ensures rounds <= MAX_RECOVERY && now == old(now) + rounds * RECOVERY_BACKOFF
      ensures forall i | 0 <= i < rounds :: Probes(old(now), i)
      ensures now in outages ==> closed && reason == PingFailed
      ensures now !in outages && !Missed() ==> !closed
      ensures now !in outages && Missed() ==> closed && reason == NoHeartbeat && rounds == MAX_RECOVERY
    {
      reason, rounds := PingFailed, 0;
      if now in outages {
        closed := true;
        return;
      }
      if Missed() {
        for i := 1 to MAX_RECOVERY + 1
          invariant Valid() && !closed && old(lastPong) <= lastPong && now !in outages
          invariant rounds == i - 1 && now == old(now) + rounds * RECOVERY_BACKOFF
          invariant forall k | 0 <= k < i :: Probes(old(now), k)
        {
          Sleep(RECOVERY_BACKOFF);
          rounds := i;
          if now in outages {
            closed := true;
            return;
          }
          if !Missed() {
            break;
          }
        }
        if Missed() {
          reason := NoHeartbeat;
          closed := true;
        }
      }
    }

    /** The ping of round i was written and the heartbeat was missed. */
    predicate Probes(t: nat, i: nat) {
      t + i * RECOVERY_BACKOFF !in outages && MissedAt(t + i * RECOVERY_BACKOFF)
    }

    /** All the pings from t on but the last were written and saw no heartbeat. */
    predicate Exhausted(t: nat) {
      forall i | 0 <= i < MAX_RECOVERY :: Probes(t, i)
    }

    /** The monitor over the given ticks; waits[k] is the time from the previous check to tick k.
        While it runs, the last pong it saw was recent; it closes only on a failed write or a missed final
        check, and within PONG_WAIT + PING_INTERVAL + MAX_RECOVERY * RECOVERY_BACKOFF of the last pong. */
    method Run(waits: seq<nat>) returns (reason: Reason)
      requires Valid() && !closed && !Missed()
      requires forall w | w in waits :: w <= 30
      modifies this
      ensures Valid() && old(lastPong) <= lastPong
      ensures !closed ==> now - lastPong <= 60 && now >= old(now) + Elapsed(waits)
      ensures closed && reason == PingFailed ==> now in outages
      ensures closed && reason == NoHeartbeat ==>
                && now - lastPong > 60
                && now >= old(now) + 5 * 60
                && Exhausted(now - 5 * 60)
      ensures now <= lastPong + 60 + 30 + 5 * 60
    {
      reason := NoHeartbeat;
      assert waits[..0] == [];
      for k := 0 to |waits|
        invariant Valid() && !closed && !Missed() && old(lastPong) <= lastPong
        invariant now >= old(now) + Elapsed(waits[..k])
      {
        assert waits[k] in waits;
        assert waits[..k + 1][..k] == waits[..k];
        Sleep(waits[k]);
        ghost var rounds;
        reason, rounds := Check();
        if closed {
          return;
        }
      }
      assert waits[..|waits|] == waits;
    }
  }

  function Elapsed(waits: seq<nat>): nat {
    if waits == [] then 0 else Elapsed(waits[..|waits| - 1]) + waits[|waits| - 1]
  }

  /** When the monitor sees a missed heartbeat at time t, the read deadline was already over: it was set by
      the last pong and no later pong moved it, so the reader failed before the monitor noticed. */
  lemma ReaderFailsFirst(start: nat, pongs: set<nat>, t: nat)
    requires start <= t && t - LastPong(start, pongs, t) > PONG_WAIT
    ensures var deadline := LastPong(start, pongs, t) + PONG_WAIT;
            && deadline < t && LastPong(start, pongs, deadline) == LastPong(start, pongs, t)
  {
    var last := LastPong(start, pongs, t);
    LastPongIs(start, pongs, t);
    LastPongGrows(start, pongs, last, last + PONG_WAIT);
    LastPongGrows(start, pongs, last + PONG_WAIT, t);
  }

  lemma {:induction false} LastPongIs(start: nat, pongs: set<nat>, t: nat)
    requires start <= t
    ensures LastPong(start, pongs, LastPong(start, pongs, t)) == LastPong(start, pongs, t)
  {
    if t > start && t !in pongs {
      LastPongIs(start, pongs, t - 1);
    }
  }
}
