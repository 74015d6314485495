/** The member-count path of the guild-profile plugin as a state machine:
    the store, the log of `requestMembers` calls, the `onReceived` listeners
    subscribed to GUILD_MEMBER_LIST_UPDATE, the promises handed out by
    `getMemberCounts`, and whether the ambient handler is subscribed.
    The dispatcher delivers one event at a time, to every subscriber in turn. */
module Plugin {
  import opened Counts
  import opened Store
  import opened Promises

  /** An `onReceived` closure: the guild id it captured and the promise its
      `resolve` belongs to (an index into the plugin's promises). */
  datatype Listener = Listener(id: string, promise: nat)

  /** A promise returned by `getMemberCounts`, with the guild it was asked for. */
  datatype Promise = Promise(guildId: string, state: PromiseState)

  /** Some listener among the first `n` resolves promise `p`. */
  predicate ResolvesAmong(ls: seq<Listener>, n: nat, p: nat)
    requires n <= |ls|
  {
    exists i :: 0 <= i < n && ls[i].promise == p
  }

  /** Some listener among the first `n` waits for guild `id`. */
  predicate ListensAmong(ls: seq<Listener>, n: nat, id: string)
    requires n <= |ls|
  {
    exists i :: 0 <= i < n && ls[i].id == id
  }

  lemma ListensAmongStep(ls: seq<Listener>, n: nat, id: string)
    requires n < |ls|
    ensures ListensAmong(ls, n + 1, id) <==> ListensAmong(ls, n, id) || ls[n].id == id
  {
  }

  /** Registering a fresh listener for a fresh pending promise keeps the
      links, and every promise that had a listener still has one. */
  lemma LinkNewListener(ps: seq<Promise>, ls: seq<Listener>, id: string)
    requires WellLinked(ps, ls)
    ensures var ps', ls' := ps + [Promise(id, Pending)], ls + [Listener(id, |ps|)];
      && WellLinked(ps', ls')
      && ResolvesAmong(ls', |ls'|, |ps|)
      && forall p :: ResolvesAmong(ls, |ls|, p) ==> ResolvesAmong(ls', |ls'|, p)
  {
    var ps', ls' := ps + [Promise(id, Pending)], ls + [Listener(id, |ps|)];
    assert ls'[|ls|].promise == |ps|;
    forall p | ResolvesAmong(ls, |ls|, p)
      ensures ResolvesAmong(ls', |ls'|, p)
    {
      var j :| 0 <= j < |ls| && ls[j].promise == p;
      assert ls'[j] == ls[j];
    }
  }

  /** Listener `l` sees update `e`: if it is for the listener's guild, the
      listener's promise is resolved with the update's record. */
  function Deliver(ps: seq<Promise>, l: Listener, e: MemberListUpdate): seq<Promise>
  {
    if l.id == e.guildId && l.promise < |ps|
    then ps[l.promise := ps[l.promise].(state := Settle(ps[l.promise].state, ToRecord(e)))]
    else ps
  }

  /** Every listener of `ls` sees update `e`, in subscription order. */
  function DeliverAll(ps: seq<Promise>, ls: seq<Listener>, e: MemberListUpdate): seq<Promise>
  {
    if ls == [] then ps else Deliver(DeliverAll(ps, ls[..|ls| - 1], e), ls[|ls| - 1], e)
  }

  /** Each listener names a promise of `ps` asked for its own guild, and no
      two listeners share a promise. */
  predicate WellLinked(ps: seq<Promise>, ls: seq<Listener>)
  {
    && (forall i :: 0 <= i < |ls| ==> ls[i].promise < |ps| && ps[ls[i].promise].guildId == ls[i].id)
    && (forall i, j :: 0 <= i < j < |ls| ==> ls[i].promise != ls[j].promise)
  }

  /** Delivering an update to every listener acts on each promise on its own:
      a promise with a listener takes the effect of the update on it; a
      promise without one is untouched. */
  lemma {:induction false} DeliverAllEffect(ps: seq<Promise>, ls: seq<Listener>, e: MemberListUpdate)
    requires WellLinked(ps, ls)
    ensures |DeliverAll(ps, ls, e)| == |ps|
    ensures forall p :: 0 <= p < |ps| ==>
      DeliverAll(ps, ls, e)[p] == if ResolvesAmong(ls, |ls|, p)
                                  then ps[p].(state := OnEvent(ps[p].state, ps[p].guildId, e))
                                  else ps[p]
  {
    if ls != [] {
      var pre := ls[..|ls| - 1];
      var l := ls[|ls| - 1];
      assert WellLinked(ps, pre);
      DeliverAllEffect(ps, pre, e);
      assert !ResolvesAmong(pre, |pre|, l.promise);
      forall p | 0 <= p < |ps|
        ensures DeliverAll(ps, ls, e)[p] == if ResolvesAmong(ls, |ls|, p)
                                            then ps[p].(state := OnEvent(ps[p].state, ps[p].guildId, e))
                                            else ps[p]
      {
        if p == l.promise {
          assert ResolvesAmong(ls, |ls|, p);
        } else if ResolvesAmong(ls, |ls|, p) {
          var k :| 0 <= k < |ls| && ls[k].promise == p;
          assert ResolvesAmong(pre, |pre|, p);
        } else {
          assert !ResolvesAmong(pre, |pre|, p);
        }
      }
    }
  }

  /** When every pending promise has a listener, delivering an update to all
      listeners gives each promise exactly the effect of the update on a
      listener for its own guild. */
  lemma DeliverAllOnEvent(ps: seq<Promise>, ls: seq<Listener>, e: MemberListUpdate)
    requires WellLinked(ps, ls)
    requires forall p :: 0 <= p < |ps| && ps[p].state.Pending? ==> ResolvesAmong(ls, |ls|, p)
    ensures |DeliverAll(ps, ls, e)| == |ps|
    ensures forall p :: 0 <= p < |ps| ==>
      && DeliverAll(ps, ls, e)[p].guildId == ps[p].guildId
      && DeliverAll(ps, ls, e)[p].state == OnEvent(ps[p].state, ps[p].guildId, e)
  {
    DeliverAllEffect(ps, ls, e);
  }

  class GuildProfile {
    /** The member-count store, guild id to record. */
    var store: Table
    /** Every `requestMembers(id)` call, in order. */
    var requested: seq<string>
    /** The `onReceived` listeners, in subscription order; none is ever removed. */
    var listeners: seq<Listener>
    /** Every promise `getMemberCounts` has returned, in order. */
    var promises: seq<Promise>
    /** Whether `handleMemberListUpdate` is subscribed. */
    var subscribed: bool

    ghost predicate Valid()
      reads this
    {
      && Keyed(store)
      && WellLinked(promises, listeners)
      && (forall p :: 0 <= p < |promises| && promises[p].state.Pending? ==>
            ResolvesAmong(listeners, |listeners|, p))
      && (forall p :: 0 <= p < |promises| && promises[p].state.Fulfilled? ==>
            promises[p].state.value.guildId == promises[p].guildId)
    }

    /** The plugin before `start`, over a store that already holds `initial`. */
    constructor (initial: Table)
      requires Keyed(initial)
      ensures Valid()
      ensures store == initial && requested == [] && listeners == [] && promises == []
      ensures !subscribed
    {
      store, requested, listeners, promises := initial, [], [], [];
      subscribed := false;
    }

    /** `start`: subscribe the ambient handler. */
    method Start()
      requires Valid()
      modifies this
      ensures Valid() && subscribed
      ensures store == old(store) && requested == old(requested)
      ensures listeners == old(listeners) && promises == old(promises)
    {
      subscribed := true;
    }

    /** `stop`: unsubscribe the ambient handler. The `onReceived` listeners
        stay subscribed. */
    method Stop()
      requires Valid()
      modifies this
      ensures Valid() && !subscribed
      ensures store == old(store) && requested == old(requested)
      ensures listeners == old(listeners) && promises == old(promises)
    {
      subscribed := false;
    }

    /** `updateMemberCounts`: derive the record from the update, write it to
        the store, and return the very record written. */
    method UpdateMemberCounts(e: MemberListUpdate) returns (r: MemberCounts)
      requires Valid()
      modifies this
      ensures Valid()
      ensures r == ToRecord(e) && store == Put(old(store), r)
      ensures requested == old(requested) && listeners == old(listeners)
      ensures promises == old(promises) && subscribed == old(subscribed)
    {
      r := MemberCounts(e.guildId, e.memberCount, OnlineCount(e.groups));
      store := Put(store, r);
    }

    /** `handleMemberListUpdate`: the ambient handler, for every guild. */
    method HandleMemberListUpdate(e: MemberListUpdate)
      requires Valid()
      modifies this
      ensures Valid()
      ensures store == Put(old(store), ToRecord(e))
      ensures requested == old(requested) && listeners == old(listeners)
      ensures promises == old(promises) && subscribed == old(subscribed)
    {
      var _ := UpdateMemberCounts(e);
    }

    /** `getMemberCounts(id)`: on a cache hit, a promise already holding the
        stored record; on a miss, one `requestMembers(id)`, a pending promise
        and one new listener for `id`. Returns the index of the promise. */
    method GetMemberCounts(id: string) returns (p: nat)
      requires Valid()
      modifies this
      ensures Valid()
      ensures p == |old(promises)| && |promises| == p + 1
      ensures promises[..p] == old(promises) && promises[p].guildId == id
      ensures store == old(store) && subscribed == old(subscribed)
      ensures id in old(store) ==>
        && promises[p].state == Fulfilled(old(store)[id])
        && requested == old(requested) && listeners == old(listeners)
      ensures id !in old(store) ==>
        && promises[p].state == Pending
        && requested == old(requested) + [id]
        && listeners == old(listeners) + [Listener(id, p)]
    {
      p := |promises|;
      var cached := Lookup(store, id);
      if cached.Some? {
        promises := promises + [Promise(id, Fulfilled(cached.value))];
        return;
      }
      LinkNewListener(promises, listeners, id);
      requested := requested + [id];
      promises := promises + [Promise(id, Pending)];
      listeners := listeners + [Listener(id, p)];
    }

    /** `onReceived`, the body of listener `i`: an update for its guild goes
        through `updateMemberCounts` and resolves its promise; others are
        ignored. */
    method OnReceived(i: nat, e: MemberListUpdate)
      requires Valid() && i < |listeners|
      modifies this
      ensures Valid()
      ensures requested == old(requested) && listeners == old(listeners) && subscribed == old(subscribed)
      ensures store == if e.guildId == listeners[i].id then Put(old(store), ToRecord(e)) else old(store)
      ensures promises == Deliver(old(promises), listeners[i], e)
    {
      var l := listeners[i];
      if l.id == e.guildId {
        var r := UpdateMemberCounts(e);
        var pr := promises[l.promise];
        promises := promises[l.promise := pr.(state := Settle(pr.state, r))];
      }
    }

    /** One GUILD_MEMBER_LIST_UPDATE delivery: the ambient handler if it is
        subscribed, then every `onReceived` listener in subscription order. */
    method Dispatch(e: MemberListUpdate)
      requires Valid()
      modifies this
      ensures Valid()
      ensures requested == old(requested) && listeners == old(listeners) && subscribed == old(subscribed)
      ensures store == if old(subscribed) || ListensAmong(listeners, |listeners|, e.guildId)
                       then Put(old(store), ToRecord(e)) else old(store)
      ensures |promises| == |old(promises)|
      ensures forall p :: 0 <= p < |promises| ==> promises[p].guildId == old(promises[p].guildId)
      ensures forall p :: 0 <= p < |promises| ==>
        promises[p].state == OnEvent(old(promises[p].state), promises[p].guildId, e)
    {
      ghost var ps0 := promises;
      if subscribed {
        HandleMemberListUpdate(e);
      }
      ghost var before := store;
      var i := 0;
      while i < |listeners|
        invariant Valid()
        invariant 0 <= i <= |listeners|
        invariant requested == old(requested) && listeners == old(listeners) && subscribed == old(subscribed)
        invariant before == if subscribed then Put(old(store), ToRecord(e)) else old(store)
        invariant store == if ListensAmong(listeners, i, e.guildId) then Put(before, ToRecord(e)) else before
        invariant promises == DeliverAll(ps0, listeners[..i], e)
      {
        PutIdempotent(before, ToRecord(e));
        ListensAmongStep(listeners, i, e.guildId);
        assert listeners[..i + 1][..i] == listeners[..i];
        OnReceived(i, e);
        i := i + 1;
      }
      assert listeners[..i] == listeners;
      PutIdempotent(old(store), ToRecord(e));
      DeliverAllOnEvent(ps0, listeners, e);
    }
  }

  /** The dispatcher delivers a run of updates, one after another. Each
      promise ends as its own listener leaves it after the whole run, and
      while the ambient handler is subscribed the store ends as the run's
      ingestion. */
  method DeliverUpdates(plugin: GuildProfile, es: seq<MemberListUpdate>)
    requires plugin.Valid()
    modifies plugin
    ensures plugin.Valid()
    ensures plugin.requested == old(plugin.requested) && plugin.listeners == old(plugin.listeners)
    ensures plugin.subscribed == old(plugin.subscribed)
    ensures |plugin.promises| == |old(plugin.promises)|
    ensures forall p :: 0 <= p < |plugin.promises| ==>
      && plugin.promises[p].guildId == old(plugin.promises[p].guildId)
      && plugin.promises[p].state == AfterEvents(old(plugin.promises[p].state), plugin.promises[p].guildId, es)
    ensures old(plugin.subscribed) ==> plugin.store == Ingest(old(plugin.store), es)
  {
    ghost var ps0 := plugin.promises;
    var k := 0;
    while k < |es|
      invariant 0 <= k <= |es|
      invariant plugin.Valid()
      invariant plugin.requested == old(plugin.requested) && plugin.listeners == old(plugin.listeners)
      invariant plugin.subscribed == old(plugin.subscribed)
      invariant |plugin.promises| == |ps0|
      invariant forall p :: 0 <= p < |ps0| ==>
        && plugin.promises[p].guildId == ps0[p].guildId
        && plugin.promises[p].state == AfterEvents(ps0[p].state, ps0[p].guildId, es[..k])
      invariant plugin.subscribed ==> plugin.store == Ingest(old(plugin.store), es[..k])
    {
      assert es[..k + 1][..k] == es[..k];
      plugin.Dispatch(es[k]);
      k := k + 1;
    }
    assert es[..k] == es;
  }

  /** Two callers ask for the same uncached guild before its update arrives. */
  method DuplicateRequestsScenario(first: MemberListUpdate, later: MemberListUpdate, other: MemberListUpdate)
    requires first.guildId == "G2" && later.guildId == "G2" && other.guildId != "G2"
  {
    var plugin := new GuildProfile(map[]);
    plugin.Start();
    var a := plugin.GetMemberCounts("G2");
    var b := plugin.GetMemberCounts("G2");
    // Nothing coalesces the two misses: two fetches, two listeners.
    assert plugin.requested == ["G2", "G2"];
    assert plugin.listeners == [Listener("G2", a), Listener("G2", b)] && a != b;

    plugin.Dispatch(other);
    assert plugin.promises[a].state == Pending && plugin.promises[b].state == Pending;

    plugin.Dispatch(first);
    assert plugin.promises[a].state == Fulfilled(ToRecord(first));
    assert plugin.promises[b].state == Fulfilled(ToRecord(first));

    // A later update leaves the promise as it was but overwrites the store.
    plugin.Dispatch(later);
    assert plugin.promises[a].state == Fulfilled(ToRecord(first));
    assert plugin.store["G2"] == ToRecord(later);
  }

  /** A request still waiting when the plugin stops keeps its listener, which
      goes on writing updates for its guild to the store. */
  method StopKeepsListenerScenario(update: MemberListUpdate, other: MemberListUpdate)
    requires update.guildId == "G3" && other.guildId != "G3"
  {
    var plugin := new GuildProfile(map[]);
    plugin.Start();
    var a := plugin.GetMemberCounts("G3");
    plugin.Stop();
    assert plugin.listeners == [Listener("G3", a)];

    plugin.Dispatch(other);
    assert !ListensAmong(plugin.listeners, 1, other.guildId);
    assert plugin.store == map[];

    plugin.Dispatch(update);
    assert ListensAmong(plugin.listeners, 1, update.guildId) by {
      assert plugin.listeners[0].id == update.guildId;
    }
    assert plugin.store == Put(map[], ToRecord(update));
    assert plugin.promises[a].state == Fulfilled(ToRecord(update));
  }
}
