/** The promise that `getMemberCounts` returns, and what one `onReceived`
    listener does to it as update events arrive. Promise scheduling is not
    modelled: a promise is a slot that is pending or holds its value. */
module Promises {
  import opened Counts

  datatype PromiseState = Pending | Fulfilled(value: MemberCounts)

  /** `resolve(r)`: a pending promise takes `r`; a settled one ignores it. */
  function Settle(s: PromiseState, r: MemberCounts): (s': PromiseState)
    ensures s'.Fulfilled?
    ensures s.Fulfilled? ==> s' == s
    ensures s.Pending? ==> s'.value == r
  {
    if s.Pending? then Fulfilled(r) else s
  }

  /** The effect of one event on the promise of a listener waiting for guild
      `id`: an update for that guild resolves it with the update's record;
      any other update leaves it alone. */
  function OnEvent(s: PromiseState, id: string, e: MemberListUpdate): PromiseState
  {
    if e.guildId == id then Settle(s, ToRecord(e)) else s
  }

  /** The promise after the listener has seen every event of `es`, in order. */
  function AfterEvents(s: PromiseState, id: string, es: seq<MemberListUpdate>): PromiseState
  {
    if es == [] then s else OnEvent(AfterEvents(s, id, es[..|es| - 1]), id, es[|es| - 1])
  }

  /** The index of the first update of `es` for guild `id`, or `|es|` if none is. */
  function FirstFor(id: string, es: seq<MemberListUpdate>): (k: nat)
    ensures k <= |es|
    ensures k < |es| ==> es[k].guildId == id
    ensures forall j :: 0 <= j < k ==> es[j].guildId != id
  {
    if es == [] then 0
    else
      var k := FirstFor(id, es[..|es| - 1]);
      if k < |es| - 1 then k
      else if es[|es| - 1].guildId == id then |es| - 1
      else |es|
  }

  /** A pending listener is resolved by the first update for its guild, with
      that update's record, and stays pending while no such update came. */
  lemma {:induction false} FirstMatchSettles(id: string, es: seq<MemberListUpdate>)
    ensures var k := FirstFor(id, es);
            AfterEvents(Pending, id, es) == if k < |es| then Fulfilled(ToRecord(es[k])) else Pending
  {
    if es != [] {
      var pre := es[..|es| - 1];
      FirstMatchSettles(id, pre);
      var k := FirstFor(id, pre);
      if k < |pre| {
        assert es[k] == pre[k];
      }
    }
  }

  /** Once resolved, a promise keeps its value whatever events follow. */
  lemma {:induction false} SettledStays(r: MemberCounts, id: string, es: seq<MemberListUpdate>)
    ensures AfterEvents(Fulfilled(r), id, es) == Fulfilled(r)
  {
    if es != [] {
      SettledStays(r, id, es[..|es| - 1]);
    }
  }

  /** Events for other guilds never change a listener's promise. */
  lemma {:induction false} OtherGuildsIgnored(s: PromiseState, id: string, es: seq<MemberListUpdate>)
    requires forall j :: 0 <= j < |es| ==> es[j].guildId != id
    ensures AfterEvents(s, id, es) == s
  {
    if es != [] {
      OtherGuildsIgnored(s, id, es[..|es| - 1]);
    }
  }
}
