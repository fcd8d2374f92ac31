/** The emitter: it calls the listeners of an event in turn while they may ask for listeners to be
    added or removed, and drops those whose client is gone. */
module Listeners {
  import opened Sequences

  datatype Entry = Entry(event: string, listener: nat)

  /** How a listener's call comes back: whether its client is gone, and the changes to the list of
      listeners that were asked for while it ran. */
  datatype Reply = Reply(dead: bool, adds: seq<Entry>, dels: seq<Entry>)

  /** The emitter base class's own way of adding to, or removing from, its list. */
  type Change = (seq<Entry>, Entry) -> seq<Entry>

  function Called(entries: seq<Entry>, event: string): seq<Entry> {
    if entries == [] then []
    else (if entries[0].event == event then [entries[0]] else []) + Called(entries[1..], event)
  }

  /** `k` calls have been made before the first of `entries` is looked at. */
  function Survivors(entries: seq<Entry>, event: string, replies: nat -> Reply, k: nat): seq<Entry> {
    if entries == [] then []
    else if entries[0].event != event then [entries[0]] + Survivors(entries[1..], event, replies, k)
    else (if replies(k).dead then [] else [entries[0]]) + Survivors(entries[1..], event, replies, k + 1)
  }

  function Adds(replies: nat -> Reply, calls: nat): seq<Entry> {
    if calls == 0 then [] else Adds(replies, calls - 1) + replies(calls - 1).adds
  }

  function Dels(replies: nat -> Reply, calls: nat): seq<Entry> {
    if calls == 0 then [] else Dels(replies, calls - 1) + replies(calls - 1).dels
  }

  function ApplyAll(change: Change, entries: seq<Entry>, requests: seq<Entry>): seq<Entry>
    decreases |requests|
  {
    if requests == [] then entries
    else ApplyAll(change, change(entries, requests[0]), requests[1..])
  }

  /** One round of the loop over the entries. */
  lemma LookAt(
      kept: seq<Entry>, rest: seq<Entry>, heard: seq<Entry>,
      event: string, replies: nat -> Reply, k: nat)
    requires rest != []
    ensures
      var mine := rest[0].event == event;
      && kept + Survivors(rest, event, replies, k)
         == (if mine && replies(k).dead then kept else kept + [rest[0]])
            + Survivors(rest[1..], event, replies, if mine then k + 1 else k)
      && heard + Called(rest, event)
         == (if mine then heard + [rest[0]] else heard) + Called(rest[1..], event)
  {
    var mine := rest[0].event == event;
    var after := Survivors(rest[1..], event, replies, if mine then k + 1 else k);
    if mine && replies(k).dead {
      assert Survivors(rest, event, replies, k) == after;
    } else {
      assert Survivors(rest, event, replies, k) == [rest[0]] + after;
      Assoc(kept, [rest[0]], after);
    }
    if mine {
      Assoc(heard, [rest[0]], Called(rest[1..], event));
    } else {
      assert Called(rest, event) == Called(rest[1..], event);
    }
  }

  class Emit {
    const add: Change
    const del: Change
    var entries: seq<Entry>
    var sendingEvents: bool
    var addQueue: seq<Entry>
    var delQueue: seq<Entry>
    ghost var calls: seq<Entry>

    ghost predicate Valid()
      reads this
    {
      !sendingEvents ==> addQueue == [] && delQueue == []
    }

    constructor (add: Change, del: Change)
      ensures Valid() && entries == [] && !sendingEvents && calls == []
      ensures this.add == add && this.del == del
    {
      this.add, this.del := add, del;
      entries, sendingEvents, addQueue, delQueue, calls := [], false, [], [], [];
    }

    method AddListenerOrQueue(e: Entry)
      requires Valid()
      modifies this`entries, this`addQueue
      ensures Valid()
      ensures entries == if sendingEvents then old(entries) else add(old(entries), e)
      ensures addQueue == if sendingEvents then old(addQueue) + [e] else old(addQueue)
    {
      if !sendingEvents { entries := add(entries, e); } else { addQueue := addQueue + [e]; }
    }

    method DelListenerOrQueue(e: Entry)
      requires Valid()
      modifies this`entries, this`delQueue
      ensures Valid()
      ensures entries == if sendingEvents then old(entries) else del(old(entries), e)
      ensures delQueue == if sendingEvents then old(delQueue) + [e] else old(delQueue)
    {
      if !sendingEvents { entries := del(entries, e); } else { delQueue := delQueue + [e]; }
    }

    /** A listener's call, as far as this object can see it. */
    method CallListener(e: Entry, reply: Reply)
      requires Valid() && sendingEvents
      modifies this`entries, this`addQueue, this`delQueue, this`calls
      ensures Valid() && entries == old(entries) && calls == old(calls) + [e]
      ensures addQueue == old(addQueue) + reply.adds && delQueue == old(delQueue) + reply.dels
    {
      calls := calls + [e];
      for i := 0 to |reply.adds|
        invariant Valid() && entries == old(entries) && calls == old(calls) + [e]
        invariant addQueue == old(addQueue) + reply.adds[..i] && delQueue == old(delQueue)
      {
        AddListenerOrQueue(reply.adds[i]);
      }
      for i := 0 to |reply.dels|
        invariant Valid() && entries == old(entries) && calls == old(calls) + [e]
        invariant addQueue == old(addQueue) + reply.adds && delQueue == old(delQueue) + reply.dels[..i]
      {
        DelListenerOrQueue(reply.dels[i]);
      }
    }

    /** Calls the listener at `itr` and moves on, over it or over the gap it leaves. */
    method CallAt(itr: nat, reply: Reply) returns (next: nat)
      requires Valid() && sendingEvents && itr < |entries|
      modifies this`entries, this`addQueue, this`delQueue, this`calls
      ensures Valid() && calls == old(calls) + [old(entries)[itr]]
      ensures addQueue == old(addQueue) + reply.adds && delQueue == old(delQueue) + reply.dels
      ensures next == if reply.dead then itr else itr + 1
      ensures entries == if reply.dead then old(entries)[..itr] + old(entries)[itr + 1..] else old(entries)
    {
      CallListener(entries[itr], reply);
      if reply.dead {
        entries := entries[..itr] + entries[itr + 1..];
        next := itr;
      } else {
        next := itr + 1;
      }
    }

    /** One round of the loop: the entry at `itr` is called if it is one of the event. */
    method VisitAt(itr: nat, event: string, reply: Reply) returns (next: nat)
      requires Valid() && sendingEvents && itr < |entries|
      modifies this`entries, this`addQueue, this`delQueue, this`calls
      ensures Valid()
      ensures
        var entry := old(entries)[itr];
        if entry.event == event then
          && calls == old(calls) + [entry]
          && addQueue == old(addQueue) + reply.adds && delQueue == old(delQueue) + reply.dels
          && next == (if reply.dead then itr else itr + 1)
          && entries == if reply.dead then old(entries)[..itr] + old(entries)[itr + 1..] else old(entries)
        else
          && calls == old(calls) && addQueue == old(addQueue) && delQueue == old(delQueue)
          && next == itr + 1 && entries == old(entries)
    {
      if entries[itr].event == event { next := CallAt(itr, reply); } else { next := itr + 1; }
    }

    /** The loop over the entries, erasing while it iterates. */
    method CallAll(event: string, replies: nat -> Reply)
      requires Valid() && sendingEvents && addQueue == [] && delQueue == []
      modifies this`entries, this`addQueue, this`delQueue, this`calls
      ensures Valid()
      ensures calls == old(calls) + Called(old(entries), event)
      ensures entries == Survivors(old(entries), event, replies, 0)
      ensures
        var n := |Called(old(entries), event)|;
        addQueue == Adds(replies, n) && delQueue == Dels(replies, n)
    {
      var itr, made: nat := 0, 0;  // made numbers the calls, whose replies come from outside
      ghost var kept, rest, heard := [], entries, [];
      while itr < |entries|
        invariant Valid() && itr == |kept| && entries == kept + rest
        invariant made + |Called(rest, event)| == |Called(old(entries), event)|
        invariant calls == old(calls) + heard && heard + Called(rest, event) == Called(old(entries), event)
        invariant kept + Survivors(rest, event, replies, made)
               == Survivors(old(entries), event, replies, 0)
        invariant addQueue == Adds(replies, made) && delQueue == Dels(replies, made)
        decreases |rest|
      {
        var entry := entries[itr];
        LookAt(kept, rest, heard, event, replies, made);
        Unfold(kept, rest);
        itr := VisitAt(itr, event, replies(made));
        if entry.event == event {
          Assoc(old(calls), heard, [entry]);
          heard := heard + [entry];
          kept := if replies(made).dead then kept else kept + [entry];
          made := made + 1;
        } else {
          kept := kept + [entry];
        }
        rest := rest[1..];
      }
      assert rest == [];
      assert entries == kept && kept == kept + Survivors(rest, event, replies, made);
      assert heard == heard + Called(rest, event);
    }

    /** Every listener of the event is called once, in order; the dead ones are gone afterwards, and
        only they; then all deferred additions are made and after them all deferred removals. */
    method Send(event: string, replies: nat -> Reply)
      requires Valid() && !sendingEvents
      modifies this
      ensures Valid() && !sendingEvents
      ensures calls == old(calls) + Called(old(entries), event)
      ensures
        var n := |Called(old(entries), event)|;
        entries == ApplyAll(del, ApplyAll(add, Survivors(old(entries), event, replies, 0),
                                          Adds(replies, n)), Dels(replies, n))
    {
      sendingEvents := true;
      CallAll(event, replies);
      sendingEvents := false;
      DrainAdds();
      DrainDels();
    }

    method DrainAdds()
      requires !sendingEvents
      modifies this`entries, this`addQueue
      ensures addQueue == [] && entries == ApplyAll(add, old(entries), old(addQueue))
    {
      while |addQueue| > 0
        invariant ApplyAll(add, entries, addQueue) == ApplyAll(add, old(entries), old(addQueue))
        decreases |addQueue|
      {
        entries := add(entries, addQueue[0]);
        addQueue := addQueue[1..];
      }
    }

    method DrainDels()
      requires !sendingEvents
      modifies this`entries, this`delQueue
      ensures delQueue == [] && entries == ApplyAll(del, old(entries), old(delQueue))
    {
      while |delQueue| > 0
        invariant ApplyAll(del, entries, delQueue) == ApplyAll(del, old(entries), old(delQueue))
        decreases |delQueue|
      {
        entries := del(entries, delQueue[0]);
        delQueue := delQueue[1..];
      }
    }
  }

  /** Keeps the elements whose flag is set. */
  function Keep(entries: seq<Entry>, kept: seq<bool>): seq<Entry>
    requires |kept| == |entries|
  {
    if entries == [] then []
    else (if kept[0] then [entries[0]] else []) + Keep(entries[1..], kept[1..])
  }

  /** The entry at `i` goes if and only if it was called and its own call, numbered by the calls made
      before it, came back dead. */
  function Stays(entries: seq<Entry>, event: string, replies: nat -> Reply, k: nat): seq<bool> {
    seq(|entries|, i requires 0 <= i < |entries| =>
      !(entries[i].event == event && replies(k + |Called(entries[..i], event)|).dead))
  }

  lemma StaysTail(entries: seq<Entry>, event: string, replies: nat -> Reply, k: nat)
    requires entries != []
    ensures
      var k' := if entries[0].event == event then k + 1 else k;
      Stays(entries, event, replies, k)[1..] == Stays(entries[1..], event, replies, k')
  {
    forall i | 0 <= i < |entries| - 1
      ensures |Called(entries[..i + 1], event)| == (if entries[0].event == event then 1 else 0)
                                                   + |Called(entries[1..][..i], event)|
    {
      assert entries[..i + 1] == [entries[0]] + entries[1..][..i];
    }
  }

  /** Send's survivors are told from the rest one by one: no listener goes for another's failure. */
  lemma {:induction false} SurvivorsAreThoseNotDead(
      entries: seq<Entry>, event: string, replies: nat -> Reply, k: nat)
    ensures Survivors(entries, event, replies, k) == Keep(entries, Stays(entries, event, replies, k))
    decreases |entries|
  {
    if entries != [] {
      StaysTail(entries, event, replies, k);
      SurvivorsAreThoseNotDead(entries[1..], event, replies,
                               if entries[0].event == event then k + 1 else k);
      assert entries[..0] == [];
    }
  }

  /** Requests are applied one after the other, from the first. */
  lemma {:induction false} RequestsApplyInOrder(
      change: Change, entries: seq<Entry>, first: seq<Entry>, second: seq<Entry>)
    ensures ApplyAll(change, entries, first + second)
         == ApplyAll(change, ApplyAll(change, entries, first), second)
    ensures first != [] ==>
              ApplyAll(change, entries, first)
              == change(ApplyAll(change, entries, first[..|first| - 1]), first[|first| - 1])
    decreases |first|
  {
    if first == [] {
      assert first + second == second;
    } else {
      var next, rest := change(entries, first[0]), first[1..];
      assert (first + second)[0] == first[0] && (first + second)[1..] == rest + second;
      RequestsApplyInOrder(change, next, rest, second);
      if rest != [] {
        assert first[..|first| - 1][0] == first[0] && first[..|first| - 1][1..] == rest[..|rest| - 1];
      }
    }
  }

  /** With a base class that adds at the end, what was asked for stands at the end in the order of asking:
      first what the first call's listener asked for. */
  lemma {:induction false} AddingAtTheEnd(entries: seq<Entry>, requests: seq<Entry>)
    ensures ApplyAll((es: seq<Entry>, e: Entry) => es + [e], entries, requests) == entries + requests
    decreases |requests|
  {
    if requests == [] {
      assert entries + requests == entries;
    } else {
      AddingAtTheEnd(entries + [requests[0]], requests[1..]);
      Unfold(entries, requests);
    }
  }

  lemma {:induction false} EarlierCallsAskFirst(replies: nat -> Reply, earlier: nat, calls: nat)
    requires earlier <= calls
    ensures Adds(replies, earlier) <= Adds(replies, calls) && Dels(replies, earlier) <= Dels(replies, calls)
    decreases calls
  {
    if earlier < calls { EarlierCallsAskFirst(replies, earlier, calls - 1); }
  }
}
