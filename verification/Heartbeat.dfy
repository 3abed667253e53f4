/**
 Which brokers of a cluster count as alive (`storeBroker`, `_clearWills` and
 `checkAndPublish` in aedes.js). The program keeps one time per broker and forgets brokers
 that have been silent for three intervals; the reference keeps every heartbeat.
 */
module Heartbeat {

  datatype Event = Beat(broker: string, at: int) | Sweep(at: int)

  type Brokers = map<string, int>

  predicate Silent(last: int, interval: nat, now: int) {
    last + 3 * interval < now
  }

  function Step(brokers: Brokers, interval: nat, e: Event): (r: Brokers) {
    match e
    case Beat(b, at) => brokers[b := at]
    case Sweep(now) => map b | b in brokers && !Silent(brokers[b], interval, now) :: brokers[b]
  }

  function After(interval: nat, run: seq<Event>): (brokers: Brokers) {
    if run == [] then map[] else Step(After(interval, run[..|run| - 1]), interval, run[|run| - 1])
  }

  /** The clock does not go back, and has not passed `now`. */
  predicate Monotone(run: seq<Event>, now: int) {
    && (forall i, j | 0 <= i < j < |run| :: run[i].at <= run[j].at)
    && (forall i | 0 <= i < |run| :: run[i].at <= now)
  }

  /** The program's decision about a will left by a broker. */
  predicate PublishesWill(brokers: Brokers, interval: nat, broker: string, now: int) {
    !(broker in brokers && brokers[broker] + 3 * interval >= now)
  }

  /** The reference: no heartbeat of that broker within the last three intervals. */
  predicate NoRecentBeat(run: seq<Event>, interval: nat, broker: string, now: int) {
    forall i | 0 <= i < |run| && run[i].Beat? && run[i].broker == broker :: Silent(run[i].at, interval, now)
  }

  predicate IsLastBeat(run: seq<Event>, broker: string, at: int) {
    && Beat(broker, at) in run
    && forall i | 0 <= i < |run| && run[i].Beat? && run[i].broker == broker :: run[i].at <= at
  }

  /** What is kept is the last beat; what is missing has been silent since some sweep, or never beat. */
  lemma {:induction false} KeptOrSilent(interval: nat, run: seq<Event>, broker: string, now: int)
    requires Monotone(run, now)
    ensures
      var brokers := After(interval, run);
      if broker in brokers then IsLastBeat(run, broker, brokers[broker]) else NoRecentBeat(run, interval, broker, now)
  {
    if run == [] {
    } else {
      var prefix, e := run[..|run| - 1], run[|run| - 1];
      KeptOrSilent(interval, prefix, broker, e.at);
      var before, after := After(interval, prefix), After(interval, run);
      if broker in after {
        assert Beat(broker, after[broker]) in run by {
          if !(e.Beat? && e.broker == broker) { assert Beat(broker, after[broker]) in prefix; }
        }
        forall i | 0 <= i < |run| && run[i].Beat? && run[i].broker == broker ensures run[i].at <= after[broker] {
          if i < |prefix| { assert prefix[i] == run[i]; }
        }
      } else {
        forall i | 0 <= i < |run| && run[i].Beat? && run[i].broker == broker ensures Silent(run[i].at, interval, now) {
          assert i < |prefix| && prefix[i] == run[i];
          if broker in before {
            assert Silent(before[broker], interval, e.at);
          }
        }
      }
    }
  }

  /** With a clock that does not go back, forgetting brokers changes no decision: a will is published exactly
      when its broker has no heartbeat in the last three intervals. */
  lemma {:induction false} EvictionIsSound(interval: nat, run: seq<Event>, broker: string, now: int)
    requires Monotone(run, now)
    ensures PublishesWill(After(interval, run), interval, broker, now) <==> NoRecentBeat(run, interval, broker, now)
  {
    KeptOrSilent(interval, run, broker, now);
    var brokers := After(interval, run);
    if broker in brokers {
      var i :| 0 <= i < |run| && run[i] == Beat(broker, brokers[broker]);
    }
  }

  /** What a sweep does about a will it finds: wills of the brokers kept by the sweep are skipped when they are
      streamed, and the others are checked once more when their turn comes. */
  predicate SweepPublishes(run: seq<Event>, interval: nat, k: nat, broker: string, now: int)
    requires k < |run|
  {
    broker !in After(interval, run[..k + 1]) && PublishesWill(After(interval, run), interval, broker, now)
  }

  /** So the sweep of step k publishes a will at a later time exactly when its broker had no heartbeat in the last three
      intervals at the sweep, and has none at that time. */
  lemma SweepPublishesIff(interval: nat, run: seq<Event>, k: nat, broker: string, now: int)
    requires Monotone(run, now) && k < |run| && run[k].Sweep?
    ensures SweepPublishes(run, interval, k, broker, now)
       <==> NoRecentBeat(run[..k], interval, broker, run[k].at) && NoRecentBeat(run, interval, broker, now)
  {
    var before := run[..k];
    EvictionIsSound(interval, before, broker, run[k].at);
    EvictionIsSound(interval, run, broker, now);
    assert run[..k + 1][..k] == before;
    assert After(interval, run[..k + 1]) == Step(After(interval, before), interval, run[k]);
  }

  predicate BeatsAt(run: seq<Event>, i: nat, broker: string)
    requires i < |run|
  {
    run[i].Beat? && run[i].broker == broker
  }

  /** From step first on, the broker beats again within three intervals of every beat, or they have not passed yet. */
  predicate Regular(run: seq<Event>, interval: nat, broker: string, first: nat, now: int) {
    && first < |run| && BeatsAt(run, first, broker)
    && forall i | first <= i < |run| && BeatsAt(run, i, broker) ::
         || now <= run[i].at + 3 * interval
         || exists j | i < j < |run| :: BeatsAt(run, j, broker) && run[j].at <= run[i].at + 3 * interval
  }

  lemma {:induction false} LastBeatBefore(run: seq<Event>, broker: string, first: nat, k: nat) returns (i: nat)
    requires first < k <= |run| && BeatsAt(run, first, broker)
    ensures first <= i < k && BeatsAt(run, i, broker)
    ensures forall j | i < j < k :: !BeatsAt(run, j, broker)
  {
    if BeatsAt(run, k - 1, broker) {
      i := k - 1;
    } else {
      i := LastBeatBefore(run, broker, first, k - 1);
    }
  }

  /** A broker that beats regularly never has its will published, however the sweeps fall: not at any time t
      between step k - 1 and step k of the run. */
  lemma RegularBeaterKeepsItsWill(interval: nat, run: seq<Event>, broker: string, first: nat, now: int, k: nat, t: int)
    requires Monotone(run, now) && Regular(run, interval, broker, first, now) && first < k <= |run|
    requires run[k - 1].at <= t <= if k < |run| then run[k].at else now
    ensures !PublishesWill(After(interval, run[..k]), interval, broker, t)
  {
    var i := LastBeatBefore(run, broker, first, k);
    assert t <= run[i].at + 3 * interval;
    assert BeatsAt(run[..k], i, broker) && !Silent(run[..k][i].at, interval, t);
    EvictionIsSound(interval, run[..k], broker, t);
  }

  /** With a clock that goes back it does: a broker evicted at a later time is missed at an earlier one. */
  lemma ClockGoingBackPublishes()
    ensures
      var run := [Beat("b", 0), Sweep(100)];
      PublishesWill(After(10, run), 10, "b", 20) && !NoRecentBeat(run, 10, "b", 20)
  {
    var run := [Beat("b", 0), Sweep(100)];
    assert run[..1] == [Beat("b", 0)];
    assert run[..1][..0] == [];
    assert After(10, run[..1]) == map["b" := 0];
    assert run[0] == Beat("b", 0);
  }

  class Broker {
    const interval: nat
    var brokers: map<string, int>

    constructor (interval: nat)
      ensures brokers == After(interval, []) && this.interval == interval
    {
      this.interval := interval;
      brokers := map[];
    }

    method StoreBroker(broker: string, now: int)
      modifies this
      ensures brokers == Step(old(brokers), interval, Beat(broker, now))
    {
      brokers := brokers[broker := now];
    }

    /** Deletes the silent brokers, one key after the other. */
    method DeleteOldBrokers(now: int)
      modifies this
      ensures brokers == Step(old(brokers), interval, Sweep(now))
    {
      var keys := brokers.Keys;
      while keys != {}
        invariant keys <= old(brokers).Keys
        invariant forall b :: b in brokers <==>
                    b in old(brokers) && (b in keys || !Silent(old(brokers)[b], interval, now))
        invariant forall b | b in brokers :: brokers[b] == old(brokers)[b]
        decreases keys
      {
        var b :| b in keys;
        if brokers[b] + 3 * interval < now {
          brokers := brokers - {b};
        }
        keys := keys - {b};
      }
    }

    method CheckWill(broker: string, now: int) returns (publish: bool)
      ensures publish <==> PublishesWill(brokers, interval, broker, now)
    {
      var notPublish := broker in brokers && brokers[broker] + 3 * interval >= now;
      publish := !notPublish;
    }
  }
}
