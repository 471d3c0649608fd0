/** The side buffer of speculative reads (tools/memra_cpu_experts.cpp). */
module PrefetchAnnex {
  import opened Options
  import opened Sorting
  import opened WeightCache

  /** `order` is the expiry queue. A key that was taken stays in it, so it may name keys that are no
      longer held, and name a key twice once it has been speculated again. */
  datatype Annex<B> = Annex(budget: nat, order: seq<Key>, held: map<Key, B>, inflight: set<Key>, used: nat)

  ghost predicate Balanced<B>(a: Annex<B>) {
    && a.held.Keys !! a.inflight
    && a.used == Total(LengthOf, a.held.Keys)
    && (forall key | key in a.held :: key in a.order)
  }

  ghost predicate WithinBudget<B>(a: Annex<B>) {
    Balanced(a) && a.used <= a.budget
  }

  function Begun<B>(a: Annex<B>, key: Key): Annex<B> {
    if key in a.held then a else a.(inflight := a.inflight + {key})
  }

  function Aborted<B>(a: Annex<B>, key: Key): Annex<B> {
    a.(inflight := a.inflight - {key})
  }

  function Drop<B>(a: Annex<B>, key: Key): Annex<B> {
    if key in a.held then
      a.(held := a.held - {key}, used := if a.used >= key.length then a.used - key.length else 0)
    else a
  }

  /** The expiry loop. */
  function Expired<B>(a: Annex<B>): Annex<B>
    decreases |a.order|
  {
    if a.used > a.budget && a.order != [] then
      Expired(Drop(a.(order := a.order[1..]), a.order[0]))
    else a
  }

  function Completed<B>(a: Annex<B>, key: Key, buffer: B): Annex<B> {
    var landed := Aborted(a, key);
    if key in a.held then landed
    else Expired(landed.(order := a.order + [key], held := a.held[key := buffer], used := a.used + key.length))
  }

  lemma DropKeepsTotal<B>(a: Annex<B>, key: Key)
    requires key in a.held && a.used == Total(LengthOf, a.held.Keys)
    ensures a.used >= key.length && Drop(a, key).used == Total(LengthOf, Drop(a, key).held.Keys)
  {
    TotalRemove(LengthOf, a.held.Keys, key);
    assert (a.held - {key}).Keys == a.held.Keys - {key};
  }

  /** Expiry ends within budget and only ever lets buffers go. */
  lemma {:induction false} ExpiryEndsWithinBudget<B>(a: Annex<B>)
    requires Balanced(a)
    ensures WithinBudget(Expired(a)) && Expired(a).budget == a.budget && Expired(a).inflight == a.inflight
    ensures forall key | key in Expired(a).held :: key in a.held && Expired(a).held[key] == a.held[key]
    decreases |a.order|
  {
    if a.used > a.budget && a.order != [] {
      var popped := a.(order := a.order[1..]);
      var next := Drop(popped, a.order[0]);
      if a.order[0] in a.held {
        DropKeepsTotal(popped, a.order[0]);
      }
      forall key | key in next.held ensures key in next.order {
        assert a.order == [a.order[0]] + a.order[1..];
      }
      ExpiryEndsWithinBudget(next);
    } else if a.order == [] {
      assert a.held.Keys == {};
    }
  }

  ghost function KeysIn(order: seq<Key>): set<Key> {
    set key | key in order
  }

  function Popped<B>(a: Annex<B>): Annex<B>
    requires a.order != []
  {
    Drop(a.(order := a.order[1..]), a.order[0])
  }

  lemma ExpiryStep<B>(a: Annex<B>)
    requires Balanced(a) && a.used > a.budget && a.order != []
    ensures Balanced(Popped(a)) && Popped(a).budget == a.budget && Popped(a).order == a.order[1..]
    ensures Expired(a) == Expired(Popped(a))
  {
    hide Total, Expired;
    var popped := a.(order := a.order[1..]);
    if a.order[0] in a.held {
      DropKeepsTotal(popped, a.order[0]);
    }
    assert a.order == [a.order[0]] + a.order[1..];
    ExpiryUnfolds(a);
  }

  lemma ExpiryUnfolds<B>(a: Annex<B>)
    requires a.used > a.budget && a.order != []
    ensures Expired(a) == Expired(Popped(a))
  {
  }

  /** Popping one key and then the next `m - 1` leaves what popping `m` leaves. */
  lemma OneKeyMore<B>(a: Annex<B>, m: nat)
    requires 0 < m <= |a.order|
    ensures Popped(a).held - KeysIn(a.order[1..][..m - 1]) == a.held - KeysIn(a.order[..m])
    ensures Popped(a).held.Keys - KeysIn(a.order[1..][..m - 1]) == a.held.Keys - KeysIn(a.order[..m])
  {
    assert a.order[..m] == [a.order[0]] + a.order[1..][..m - 1];
  }

  /** Expiry works off the queue from its front: what goes is what the shortest part of it names that
      brings the rest within budget, and nothing else. */
  lemma {:induction false} ExpiresFromTheFront<B>(a: Annex<B>) returns (n: nat)
    requires Balanced(a)
    ensures n <= |a.order| && Expired(a).order == a.order[n..]
    ensures Expired(a).held == a.held - KeysIn(a.order[..n])
    ensures forall m: nat | m < n :: Total(LengthOf, a.held.Keys - KeysIn(a.order[..m])) > a.budget
    decreases |a.order|
  {
    n := 0;
    if a.used > a.budget && a.order != [] {
      hide Total, Expired, Popped, KeysIn;
      ExpiryStep(a);
      var k := ExpiresFromTheFront(Popped(a));
      n := k + 1;
      OneKeyMore(a, n);
      forall m: nat | m < n ensures Total(LengthOf, a.held.Keys - KeysIn(a.order[..m])) > a.budget {
        if m == 0 {
          NothingPopped(a);
        } else {
          OneKeyMore(a, m);
        }
      }
    } else {
      NothingPopped(a);
    }
  }

  lemma NothingPopped<B>(a: Annex<B>)
    ensures a.held.Keys - KeysIn(a.order[..0]) == a.held.Keys && a.held - KeysIn(a.order[..0]) == a.held
  {
  }

  /** A landed read joins the held buffers, and nothing is let go while there is room. */
  lemma CompleteKeepsBudget<B>(a: Annex<B>, key: Key, buffer: B)
    requires WithinBudget(a)
    ensures var next := Completed(a, key, buffer);
            && WithinBudget(next) && next.budget == a.budget && next.inflight == a.inflight - {key}
            && (forall k | k in next.held ::
                  if k in a.held then next.held[k] == a.held[k] else k == key && next.held[k] == buffer)
            && (key !in a.held && a.used + key.length <= a.budget ==> next.held == a.held[key := buffer])
            && (key in a.held ==> next.held == a.held)
  {
    hide Total;
    if key !in a.held {
      var landed := Aborted(a, key).(order := a.order + [key], held := a.held[key := buffer],
                                            used := a.used + key.length);
      TotalRemove(LengthOf, landed.held.Keys, key);
      assert landed.held.Keys - {key} == a.held.Keys;
      ExpiryEndsWithinBudget(landed);
    }
  }

  lemma TakeKeepsBudget<B>(a: Annex<B>, key: Key)
    requires WithinBudget(a)
    ensures WithinBudget(Drop(a, key)) && Drop(a, key).held == a.held - {key}
  {
    if key in a.held {
      DropKeepsTotal(a, key);
    }
  }

  // ----- whole runs -----

  datatype Event<B> = Begin(key: Key) | Abort(key: Key) | Complete(key: Key, buffer: B) | Take(key: Key)

  function Handled<B>(a: Annex<B>, e: Event<B>): Annex<B> {
    match e
    case Begin(key) => Begun(a, key)
    case Abort(key) => Aborted(a, key)
    case Complete(key, buffer) => Completed(a, key, buffer)
    case Take(key) => Drop(a, key)
  }

  function AfterEvents<B>(a: Annex<B>, events: seq<Event<B>>): Annex<B> {
    if events == [] then a else Handled(AfterEvents(a, events[..|events| - 1]), events[|events| - 1])
  }

  /** In every run the held and in-flight keys stay apart and the held bytes stay counted and within budget. */
  lemma {:induction false} EventsKeepBudget<B>(a: Annex<B>, events: seq<Event<B>>)
    requires WithinBudget(a)
    ensures WithinBudget(AfterEvents(a, events))
  {
    hide Total;
    if events == [] {
    } else {
      var n := |events| - 1;
      var before := AfterEvents(a, events[..n]);
      EventsKeepBudget(a, events[..n]);
      match events[n]
      case Begin(key) =>
      case Abort(key) =>
      case Complete(key, buffer) => CompleteKeepsBudget(before, key, buffer);
      case Take(key) => TakeKeepsBudget(before, key);
    }
  }

  class PrefetchAnnex<B> {
    const budget: nat
    var order: seq<Key>
    var held: map<Key, B>
    var inflight: set<Key>
    var used: nat

    ghost function State(): Annex<B>
      reads this
    {
      Annex(budget, order, held, inflight, used)
    }

    constructor (budget: nat)
      ensures State() == Annex(budget, [], map[], {}, 0) && WithinBudget(State())
    {
      this.budget := budget;
      order, held, inflight, used := [], map[], {}, 0;
    }

    /** False when the key is already held or being read. */
    method BeginRead(key: Key) returns (started: bool)
      requires WithinBudget(State())
      modifies this
      ensures WithinBudget(State()) && State() == Begun(old(State()), key)
      ensures started <==> key !in old(held) && key !in old(inflight)
    {
      if key in held {
        return false;
      }
      started := key !in inflight;
      inflight := inflight + {key};
    }

    method AbortRead(key: Key)
      requires WithinBudget(State())
      modifies this
      ensures WithinBudget(State()) && State() == Aborted(old(State()), key)
    {
      inflight := inflight - {key};
    }

    method CompleteRead(key: Key, buffer: B)
      requires WithinBudget(State())
      modifies this
      ensures WithinBudget(State()) && State() == Completed(old(State()), key, buffer)
    {
      hide Total;
      CompleteKeepsBudget(State(), key, buffer);
      inflight := inflight - {key};
      if key in held {
        return;
      }
      TotalRemove(LengthOf, held.Keys + {key}, key);
      assert held.Keys + {key} - {key} == held.Keys && held[key := buffer].Keys == held.Keys + {key};
      order := order + [key];
      held := held[key := buffer];
      used := used + key.length;
      while used > budget && order != []
        invariant used == Total(LengthOf, held.Keys)
        invariant Expired(State()) == Completed(old(State()), key, buffer)
        decreases |order|
      {
        var oldest := order[0];
        order := order[1..];
        if oldest in held {
          DropKeepsTotal(State(), oldest);
          used := used - oldest.length;
          held := held - {oldest};
        }
      }
    }

    method Take(key: Key) returns (buffer: Option<B>)
      requires WithinBudget(State())
      modifies this
      ensures WithinBudget(State()) && State() == Drop(old(State()), key)
      ensures buffer == if key in old(held) then Some(old(held)[key]) else None
    {
      hide Total;
      TakeKeepsBudget(State(), key);
      if key !in held {
        return None;
      }
      DropKeepsTotal(State(), key);
      buffer := Some(held[key]);
      used := used - key.length;
      held := held - {key};
    }
  }
}
