/**
One notification channel's local half: waiters subscribe to payloads, each with a
one-slot wake channel, and payloads written here are queued for other processes.
*/
module Notifier {
  import opened Base

  // Wake channels are numbered; full holds those with a token in their slot.
  // pending is absent where notifications are not pushed.
  datatype Registry = Registry(subs: map<string, set<nat>>, pending: Option<set<string>>, full: set<nat>, next: nat)

  function Waiters(r: Registry, payload: string): set<nat> {
    if payload in r.subs then r.subs[payload] else {}
  }

  function AllWaiters(r: Registry): set<nat> {
    set payload, ch | payload in r.subs && ch in r.subs[payload] :: ch
  }

  function Added(r: Registry, payload: string): Registry {
    r.(subs := r.subs[payload := Waiters(r, payload) + {r.next}], next := r.next + 1)
  }

  function Removed(r: Registry, payload: string, ch: nat): Registry {
    var left := Waiters(r, payload) - {ch};
    r.(subs := if left == {} then r.subs - {payload} else r.subs[payload := left])
  }

  function Notified(r: Registry, payload: string): Registry {
    r.(full := r.full + Waiters(r, payload))
  }

  function Queued(r: Registry, payload: string): Registry {
    if r.pending.None? then r else r.(pending := Some(r.pending.value + {payload}))
  }

  class NotifyRegistry {
    var subs: map<string, set<nat>>
    var pending: Option<set<string>>
    var full: set<nat>
    var next: nat

    ghost function State(): Registry
      reads this
    {
      Registry(subs, pending, full, next)
    }

    constructor (push: bool)
      ensures State() == Registry(map[], if push then Some({}) else None, {}, 0)
    {
      subs, full, next := map[], {}, 0;
      pending := if push then Some({}) else None;
    }

    method Subscribe(payload: string) returns (ch: nat)
      modifies this
      ensures State() == Added(old(State()), payload) && ch == old(next) < next
      ensures Waiters(State(), payload) == Waiters(old(State()), payload) + {ch}
      ensures forall p | p != payload :: Waiters(State(), p) == Waiters(old(State()), p)
      ensures pending == old(pending) && full == old(full)
    {
      ch := next;
      next := next + 1;
      subs := subs[payload := (if payload in subs then subs[payload] else {}) + {ch}];
    }

    // Granted only when no waiter exists.
    method SubscribeExclusive(payload: string) returns (ch: Option<nat>)
      modifies this
      ensures ch.Some? <==> Waiters(old(State()), payload) == {}
      ensures ch.Some? ==> State() == Added(old(State()), payload) && Waiters(State(), payload) == {ch.value}
      ensures ch.None? ==> State() == old(State())
    {
      if payload in subs && |subs[payload]| > 0 {
        return None;
      }
      var c := Subscribe(payload);
      ch := Some(c);
    }

    method Unsubscribe(payload: string, ch: nat)
      modifies this`subs
      ensures State() == Removed(old(State()), payload, ch)
      ensures Waiters(State(), payload) == Waiters(old(State()), payload) - {ch}
      ensures forall p | p != payload :: Waiters(State(), p) == Waiters(old(State()), p)
      ensures Waiters(State(), payload) == {} ==> payload !in subs
    {
      var left := (if payload in subs then subs[payload] else {}) - {ch};
      if |left| == 0 {
        subs := subs - {payload};
      } else {
        subs := subs[payload := left];
      }
    }

    // A send that never blocks: a full slot stays full.
    method Notify(payload: string)
      modifies this`full
      ensures State() == Notified(old(State()), payload)
    {
      var todo := if payload in subs then subs[payload] else {};
      ghost var done: set<nat> := {};
      while todo != {}
        invariant done + todo == Waiters(old(State()), payload)
        invariant full == old(full) + done
        decreases todo
      {
        var ch :| ch in todo;
        full := full + {ch};
        todo, done := todo - {ch}, done + {ch};
      }
    }

    method Signal(payload: string)
      modifies this`full, this`pending
      ensures State() == Queued(Notified(old(State()), payload), payload)
    {
      Notify(payload);
      if pending.Some? {
        pending := Some(pending.value + {payload});
      }
    }

    // Each queued payload is handed out once and none stays behind.
    method DrainPending() returns (payloads: seq<string>)
      modifies this`pending
      ensures State() == old(State()).(pending := if old(pending).Some? then Some({}) else None)
      ensures forall p :: p in payloads <==> old(pending).Some? && p in old(pending).value
      ensures forall i, j | 0 <= i < j < |payloads| :: payloads[i] != payloads[j]
    {
      payloads := [];
      if pending.None? {
        return;
      }
      var todo := pending.value;
      while todo != {}
        invariant todo <= old(pending).value
        invariant forall p :: p in payloads <==> p in old(pending).value && p !in todo
        invariant forall i, j | 0 <= i < j < |payloads| :: payloads[i] != payloads[j]
        decreases todo
      {
        var p :| p in todo;
        payloads := payloads + [p];
        todo := todo - {p};
      }
      pending := Some({});
    }

    method NotifyAll()
      modifies this`full
      ensures State() == old(State()).(full := old(full) + AllWaiters(old(State())))
    {
      var todo := subs.Keys;
      while todo != {}
        invariant todo <= subs.Keys
        invariant full == old(full) + set payload, ch | payload in subs && payload !in todo && ch in subs[payload] :: ch
        decreases todo
      {
        var payload :| payload in todo;
        Notify(payload);
        todo := todo - {payload};
      }
    }
  }

  /******* Traces *******/

  datatype Action =
    | Subscribe(payload: string)
    | SubscribeExclusive(payload: string)
    | Unsubscribe(payload: string, ch: nat)
    | Notify(payload: string)
    | Signal(payload: string)
    | Drain
    | NotifyAll
    | Receive(ch: nat)

  function Step(r: Registry, a: Action): Registry {
    match a
    case Subscribe(p) => Added(r, p)
    case SubscribeExclusive(p) => if Waiters(r, p) == {} then Added(r, p) else r
    case Unsubscribe(p, ch) => Removed(r, p, ch)
    case Notify(p) => Notified(r, p)
    case Signal(p) => Queued(Notified(r, p), p)
    case Drain => r.(pending := if r.pending.Some? then Some({}) else None)
    case NotifyAll => r.(full := r.full + AllWaiters(r))
    case Receive(ch) => r.(full := r.full - {ch})
  }

  function Run(push: bool, acts: seq<Action>): Registry {
    if acts == [] then Registry(map[], if push then Some({}) else None, {}, 0)
    else Step(Run(push, acts[..|acts| - 1]), acts[|acts| - 1])
  }

  /******* What the trace alone says *******/

  // After these actions, a hands out a channel.
  ghost predicate Grants(acts: seq<Action>, a: Action)
    decreases |acts|, 1
  {
    a.Subscribe? || (a.SubscribeExclusive? && forall ch: nat :: !Subscribed(acts, a.payload, ch))
  }

  // How many channels were handed out; they are numbered in that order.
  ghost function Channels(acts: seq<Action>): nat
    decreases |acts|, 0
  {
    if acts == [] then 0
    else
      var before, a := acts[..|acts| - 1], acts[|acts| - 1];
      Channels(before) + if Grants(before, a) then 1 else 0
  }

  // A subscription to payload returned ch and was not given back since.
  ghost predicate Subscribed(acts: seq<Action>, payload: string, ch: nat)
    decreases |acts|, 0
  {
    acts != [] &&
    var before, a := acts[..|acts| - 1], acts[|acts| - 1];
    || (Grants(before, a) && a.payload == payload && ch == Channels(before))
    || (Subscribed(before, payload, ch) && a != Unsubscribe(payload, ch))
  }

  ghost predicate Listens(acts: seq<Action>, ch: nat) {
    exists p :: Subscribed(acts, p, ch)
  }

  // a wakes ch, whatever else is subscribed.
  ghost predicate Wakes(acts: seq<Action>, a: Action, ch: nat) {
    match a
    case Notify(p) => Subscribed(acts, p, ch)
    case Signal(p) => Subscribed(acts, p, ch)
    case NotifyAll => Listens(acts, ch)
    case _ => false
  }

  // ch was woken since it last received.
  ghost predicate Owed(acts: seq<Action>, ch: nat) {
    acts != [] &&
    var before, a := acts[..|acts| - 1], acts[|acts| - 1];
    Wakes(before, a, ch) || (a != Receive(ch) && Owed(before, ch))
  }

  // payload was signalled and not drained since.
  ghost predicate Unpushed(acts: seq<Action>, payload: string) {
    acts != [] &&
    var a := acts[|acts| - 1];
    a == Signal(payload) || (a != Drain && Unpushed(acts[..|acts| - 1], payload))
  }

  // The registry's waiters of a payload are exactly the subscribed channels, and
  // every channel handed out is a new one.
  lemma {:induction false} WaitersAreSubscribed(push: bool, acts: seq<Action>)
    ensures Run(push, acts).next == Channels(acts)
    ensures forall payload: string, ch: nat ::
              ch in Waiters(Run(push, acts), payload) <==> Subscribed(acts, payload, ch)
    ensures forall payload: string, ch: nat | Subscribed(acts, payload, ch) :: ch < Channels(acts)
    ensures forall payload | payload in Run(push, acts).subs :: Run(push, acts).subs[payload] != {}
    decreases |acts|
  {
    if acts != [] {
      var before, a := acts[..|acts| - 1], acts[|acts| - 1];
      var r, r' := Run(push, before), Run(push, acts);
      WaitersAreSubscribed(push, before);
      if a.SubscribeExclusive? {
        VacantIff(r, before, a.payload);
      }
      forall payload: string, ch: nat ensures ch in Waiters(r', payload) <==> Subscribed(acts, payload, ch) {
        assert ch in Waiters(r, payload) <==> Subscribed(before, payload, ch);
      }
    }
  }

  lemma VacantIff(r: Registry, acts: seq<Action>, payload: string)
    requires forall ch: nat :: ch in Waiters(r, payload) <==> Subscribed(acts, payload, ch)
    ensures Waiters(r, payload) == {} <==> Grants(acts, SubscribeExclusive(payload))
  {
    if Grants(acts, SubscribeExclusive(payload)) {
      assert forall ch: nat :: ch !in Waiters(r, payload);
    }
  }

  // After any trace: a channel holds a token exactly when somebody notified a
  // payload it was subscribed to since it last received; a payload is queued
  // exactly when it was signalled since the last drain (and this process pushes).
  lemma {:induction false} NobodyMissed(push: bool, acts: seq<Action>, ch: nat, payload: string)
    ensures var r := Run(push, acts);
            && (ch in r.full <==> Owed(acts, ch))
            && (r.pending.Some? <==> push)
            && (push ==> (payload in r.pending.value <==> Unpushed(acts, payload)))
    decreases |acts|
  {
    if acts != [] {
      var before, a := acts[..|acts| - 1], acts[|acts| - 1];
      NobodyMissed(push, before, ch, payload);
      WaitersAreSubscribed(push, before);
      if a.NotifyAll? {
        AllAreSubscribed(push, before, ch);
      }
    }
  }

  lemma AllAreSubscribed(push: bool, acts: seq<Action>, ch: nat)
    ensures ch in AllWaiters(Run(push, acts)) <==> Listens(acts, ch)
  {
    var r := Run(push, acts);
    WaitersAreSubscribed(push, acts);
    if Listens(acts, ch) {
      var p :| Subscribed(acts, p, ch);
      assert ch in Waiters(r, p) && p in r.subs && ch in r.subs[p];
    }
    if ch in AllWaiters(r) {
      var p :| p in r.subs && ch in r.subs[p];
      assert ch in Waiters(r, p);
      assert Subscribed(acts, p, ch) && Listens(acts, ch);
    }
  }
}
