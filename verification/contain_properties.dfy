/** Properties of the contain plugin over sequences of events: what a
    subscriber to the contain topic observes, and when nothing is published. */
module ContainProperties {
  import opened Wrappers
  import opened ContainPlugin

  /** The last publication a subscriber saw carries the status the plugin
      has stored, whenever one is stored. */
  predicate InSync(s: Plugin, seen: seq<Publication>) {
    s.contain != Unset ==>
      && seen != []
      && seen[|seen| - 1] == Publication(ContainTopic(s.ns), s.contain, s.contain == 1)
  }

  /** Publications that each report a change: the first differs from the
      status `prev` stored before them, and consecutive ones alternate. */
  predicate EdgeTriggered(prev: int, pubs: seq<Publication>) {
    && (forall i :: 0 <= i < |pubs| ==> pubs[i].gzData == ContainValue(pubs[i].ignData))
    && (pubs != [] ==> pubs[0].gzData != prev)
    && (forall i :: 0 < i < |pubs| ==> pubs[i].ignData != pubs[i - 1].ignData)
  }

  predicate OnlyWorldSteps(events: seq<Event>) {
    forall i :: 0 <= i < |events| ==> events[i].WorldStep?
  }

  /** A request the plugin receives and that asks for it to be enabled. */
  predicate Enabling(s: Plugin, e: Event) {
    && !e.WorldStep?
    && s.enableService == Some(e.target)
    && (if e.IgnRequest? then e.enable else e.value == 1)
  }

  /** No event is a request that would enable the plugin. */
  predicate NoEnablingRequests(s: Plugin, events: seq<Event>) {
    forall i :: 0 <= i < |events| ==> !Enabling(s, events[i])
  }

  /** Enabling a disabled plugin and disabling it again restores it exactly. */
  lemma EnableDisableRoundTrip(s: Plugin)
    requires Valid(s) && !s.updateConnected
    ensures Enable(s, true).ok
    ensures Enable(Enable(s, true).next, false) == Toggle(s, true)
  {
  }

  /** A disabled plugin publishes nothing and stays as it is until a request
      to enable it reaches it; disable requests fail and change nothing. */
  lemma {:induction false} DisabledRunIsSilent(s: Plugin, events: seq<Event>, inside: Oracle)
    requires Valid(s) && !s.updateConnected
    requires NoEnablingRequests(s, events)
    ensures Run(s, events, inside) == Output(s, [])
    decreases |events|
  {
    if events != [] {
      assert Handle(s, events[0], inside) == Output(s, []);
      assert !Enabling(s, events[0]);
      assert NoEnablingRequests(s, events[1..]) by {
        forall i | 0 <= i < |events[1..]| ensures !Enabling(s, events[1..][i]) {
          assert events[1..][i] == events[i + 1];
        }
      }
      DisabledRunIsSilent(s, events[1..], inside);
    }
  }

  /** A plugin whose configuration misses a required element never publishes
      and never changes, whatever events follow. */
  lemma {:induction false} IncompleteConfigNeverPublishes(cfg: Config, events: seq<Event>, inside: Oracle)
    requires !Complete(cfg)
    ensures Run(Load(cfg), events, inside) == Output(Load(cfg), [])
  {
    DisabledRunIsSilent(Load(cfg), events, inside);
  }

  /** After a disable and a re-enable the stored status is unset, so the next
      world iteration publishes the current status, whatever it was before. */
  lemma ReenableRepublishes(s: Plugin, world: World, inside: Oracle)
    requires Valid(s) && s.updateConnected
    ensures var off := Enable(s, false);
      && off.ok
      && var on := Enable(off.next, true);
      && on.ok
      && var o := WorldUpdate(on.next, world, inside);
      && o.published == [Publication(ContainTopic(s.ns), ContainValue(Containment(s, world, inside)),
                                     Containment(s, world, inside))]
  {
  }

  /** One event keeps a subscriber in sync. */
  lemma HandleKeepsInSync(s: Plugin, seen: seq<Publication>, e: Event, inside: Oracle)
    requires Valid(s) && InSync(s, seen)
    ensures InSync(Handle(s, e, inside).next, seen + Handle(s, e, inside).published)
  {
  }

  /** Whatever events arrive, a subscriber that saw every publication sees
      the status the plugin has stored, whenever one is stored. */
  lemma {:induction false} RunKeepsInSync(s: Plugin, seen: seq<Publication>, events: seq<Event>, inside: Oracle)
    requires Valid(s) && InSync(s, seen)
    ensures InSync(Run(s, events, inside).next, seen + Run(s, events, inside).published)
    decreases |events|
  {
    if events != [] {
      var first := Handle(s, events[0], inside);
      HandleKeepsInSync(s, seen, events[0], inside);
      RunKeepsInSync(first.next, seen + first.published, events[1..], inside);
      var rest := Run(first.next, events[1..], inside);
      assert seen + first.published + rest.published == seen + (first.published + rest.published);
    }
  }

  /** From the freshly loaded plugin, every subscriber that saw all
      publications agrees with the plugin. */
  lemma LoadedRunInSync(cfg: Config, events: seq<Event>, inside: Oracle)
    ensures InSync(Run(Load(cfg), events, inside).next, Run(Load(cfg), events, inside).published)
  {
    RunKeepsInSync(Load(cfg), [], events, inside);
    assert [] + Run(Load(cfg), events, inside).published == Run(Load(cfg), events, inside).published;
  }

  /** Without enable requests, publications only report changes: the first
      differs from the stored status and consecutive ones alternate. */
  lemma {:induction false} WorldStepsAreEdgeTriggered(s: Plugin, events: seq<Event>, inside: Oracle)
    requires Valid(s) && OnlyWorldSteps(events)
    ensures EdgeTriggered(s.contain, Run(s, events, inside).published)
    ensures Run(s, events, inside).published != [] ==>
      Run(s, events, inside).next.contain == Run(s, events, inside).published[|Run(s, events, inside).published| - 1].gzData
    ensures Run(s, events, inside).published == [] ==> Run(s, events, inside).next.contain == s.contain
    decreases |events|
  {
    if events != [] {
      var first := Handle(s, events[0], inside);
      assert OnlyWorldSteps(events[1..]) by {
        forall i | 0 <= i < |events[1..]| ensures events[1..][i].WorldStep? {
          assert events[1..][i] == events[i + 1];
        }
      }
      WorldStepsAreEdgeTriggered(first.next, events[1..], inside);
      var rest := Run(first.next, events[1..], inside);
      var all := first.published + rest.published;
      if first.published != [] {
        var p := first.published[0];
        assert first.published == [p];
        assert p in first.published;
        assert p.gzData == first.next.contain && p.gzData != s.contain;
        forall i | 0 < i < |all| ensures all[i].ignData != all[i - 1].ignData {
          if i == 1 {
            assert all[1] == rest.published[0];
          } else {
            assert all[i] == rest.published[i - 1] && all[i - 1] == rest.published[i - 2];
          }
        }
        forall i | 0 <= i < |all| ensures all[i].gzData == ContainValue(all[i].ignData) {
          if i > 0 { assert all[i] == rest.published[i - 1]; }
        }
      } else {
        assert all == rest.published;
      }
    }
  }

  /** Removing the tracked entity, or the entity the box is attached to,
      while the plugin reports "contained" makes the next iteration publish
      "not contained". */
  lemma RemovedEntityPublishesOutside(s: Plugin, world: World, inside: Oracle)
    requires Valid(s) && s.updateConnected && s.contain == 1
    requires s.entityName !in world || (s.containerEntityName != "" && s.containerEntityName !in world)
    ensures WorldUpdate(s, world, inside).published == [Publication(ContainTopic(s.ns), 0, false)]
  {
  }

  /** The enable/disable sequence of the plugin's integration test, with the
      entity placed inside (`inWorld`) or outside (`outWorld`) the box. */
  lemma DisableScenario(cfg: Config, inWorld: World, outWorld: World, inside: Oracle)
    requires Complete(cfg) && cfg.enabled.None?
    requires Containment(Load(cfg), inWorld, inside)
    requires !Containment(Load(cfg), outWorld, inside)
    ensures var topic := ContainTopic(cfg.namespace.value);
      var s0 := Load(cfg);
      var o1 := WorldUpdate(s0, inWorld, inside);
      var o2 := WorldUpdate(o1.next, outWorld, inside);
      var d1 := EnableIgn(o2.next, false);
      var o3 := WorldUpdate(d1.next, inWorld, inside);
      var d2 := EnableIgn(o3.next, false);
      var e1 := EnableIgn(d2.next, true);
      var o4 := WorldUpdate(e1.next, inWorld, inside);
      var e2 := EnableIgn(o4.next, true);
      && s0.updateConnected
      && o1.published == [Publication(topic, 1, true)]
      && o2.published == [Publication(topic, 0, false)]
      && d1.result && d1.response
      && o3.published == []
      && !d2.result && !d2.response
      && e1.result && e1.response
      && o4.published == [Publication(topic, 1, true)]
      && !e2.result && !e2.response
  {
  }
}
