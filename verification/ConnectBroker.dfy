/**
 * The broker as it runs: maps and counters its callbacks update in place.
 */
module ConnectBroker {
  import opened Wrappers
  import opened ConnectSpec

  class Broker {
    var next: FlowId
    var all: map<FlowId, Flow>
    var registry: set<FlowId>
    var slots: map<AccountId, FlowId>
    var waits: map<RequestId, FlowId>
    var terminals: seq<Terminal>
    var started: seq<FlowId>
    var sources: set<SourceId>
    var profiles: map<SourceId, ProfileId>
    ghost var groups: seq<seq<FlowId>>

    ghost function View(): ConnectSpec.Broker
      reads this
    {
      ConnectSpec.Broker(next, all, registry, slots, waits, terminals, started, sources, profiles, groups)
    }

    constructor ()
      ensures View() == Open()
    {
      next, all, registry, slots, waits, terminals, started := 0, map[], {}, map[], map[], [], [];
      sources, profiles, groups := {}, map[], [];
    }

    // Reject and forget every pending prompt or picker of the flow.
    method SweepFlow(f: FlowId)
      modifies this`waits
      ensures waits == Sweep(old(waits), f)
    {
      var left := waits.Keys;
      var kept: map<RequestId, FlowId> := map[];
      while left != {}
        invariant left <= waits.Keys
        invariant kept == map r | r in waits && r !in left && waits[r] != f :: waits[r]
        decreases left
      {
        var r :| r in left;
        if waits[r] != f {
          kept := kept[r := waits[r]];
        }
        left := left - {r};
      }
      waits := kept;
    }

    method Finish(f: FlowId, done: bool)
      requires f in all && all[f].AccountFlow?
      modifies this
      ensures View() == ConnectSpec.Finish(old(View()), f, done)
    {
      var flow := all[f];
      if flow.settled { return; }
      all := all[f := flow.(settled := true, armed := false)];
      terminals := terminals + [Terminal(f, done)];
      registry := registry - {f};
      SweepFlow(f);
      if flow.account in slots && slots[flow.account] == f {
        slots := slots - {flow.account};
      }
    }

    /** Claims the slot, or refuses with a terminal event and holds nothing. */
    method RunAccountFlow(account: AccountId) returns (f: FlowId)
      modifies this
      ensures View() == Next(old(View()), StartAccount(account)) && f == old(next)
    {
      f := next;
      next := next + 1;
      if account in slots {
        terminals := terminals + [Terminal(f, false)];
        return;
      }
      slots := slots[account := f];
      all := all[f := AccountFlow(account, false, false, false, true)];
      registry := registry + {f};
    }

    method BodySettles(f: FlowId, ok: bool)
      requires Legal(View(), BodyEnds(f, ok))
      modifies this
      ensures View() == Next(old(View()), BodyEnds(f, ok))
    {
      all := all[f := all[f].(body := false)];
      Finish(f, ok);
    }

    method WatchdogFires(f: FlowId)
      requires Legal(View(), Watchdog(f))
      modifies this
      ensures View() == Next(old(View()), Watchdog(f))
    {
      Finish(f, false);
    }

    method Cancel(f: FlowId)
      requires Legal(View(), Step.Cancel(f))
      modifies this
      ensures View() == Next(old(View()), Step.Cancel(f))
    {
      if f !in registry { return; }
      all := all[f := Abandon(all[f])];
      SweepFlow(f);
    }

    method Launch(source: SourceId, after: Option<FlowId>) returns (f: FlowId)
      modifies this
      ensures View() == LaunchOne(old(View()), source in old(sources), after) && f == old(next)
    {
      f := next;
      next := next + 1;
      if source !in sources {
        all := all[f := ConnectFlow(None, Ended, false)];
        terminals := terminals + [Terminal(f, false)];
        return;
      }
      all := all[f := ConnectFlow(after, Waiting, false)];
      registry := registry + {f};
    }

    /** Refuses a group without one shared profile; otherwise one flow per source, in order. */
    method StartGroup(ids: seq<SourceId>) returns (flows: Option<seq<FlowId>>)
      modifies this
      ensures View() == Next(old(View()), Step.StartGroup(ids))
      ensures flows.Some? <==> GroupAccepted(old(View()), ids)
      ensures flows.Some? ==> flows.value == LaunchAll(old(View()), ids).1
    {
      var first := if |ids| == 0 then "" else ids[0];
      if first !in profiles ||
         (exists k :: 0 <= k < |ids| && !(ids[k] in profiles && profiles[ids[k]] == profiles[first])) {
        return None;
      }
      var launched: seq<FlowId> := [];
      var previous := None;
      for k := 0 to |ids|
        invariant (View(), launched) == LaunchAll(old(View()), ids[..k])
        invariant previous == if k == 0 then None else Some(launched[k - 1])
        invariant sources == old(sources)
      {
        assert ids[..k + 1][..k] == ids[..k];
        var f := Launch(ids[k], previous);
        launched := launched + [f];
        previous := Some(f);
      }
      assert ids[..|ids|] == ids;
      groups := groups + [launched];
      flows := Some(launched);
    }

    // The event and the finally block.
    method EndFlow(f: FlowId, done: bool)
      requires f in all && all[f].ConnectFlow?
      modifies this
      ensures View() == End(old(View()), f, done)
    {
      if done {
        started := started + [f];
      }
      terminals := terminals + [Terminal(f, done)];
      all := all[f := all[f].(stage := Ended)];
      registry := registry - {f};
      SweepFlow(f);
    }

    method PreviousSettles(f: FlowId)
      requires Legal(View(), AfterSettles(f))
      modifies this
      ensures View() == Next(old(View()), AfterSettles(f))
    {
      if all[f].cancelled {
        EndFlow(f, false);
      } else {
        all := all[f := all[f].(stage := Connecting)];
      }
    }

    method ConnectSettles(f: FlowId, ok: bool)
      requires Legal(View(), ConnectEnds(f, ok))
      modifies this
      ensures View() == Next(old(View()), ConnectEnds(f, ok))
    {
      if ok && all[f].cancelled {
        all := all[f := all[f].(stage := Removing)];
      } else {
        EndFlow(f, ok);
      }
    }
  }
}
