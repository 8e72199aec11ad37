/** Properties of the shader-parameter partition relating several params,
    and of loading as a whole. */
module ShaderProperties {
  import opened Wrappers
  import opened ShaderParamVisualPlugin

  /** Processing two runs of params one after the other gives the results of
      the first run followed by those of the second: params are handled
      independently and in document order. */
  lemma {:induction false} PartitionAppend(a: seq<Param>, b: seq<Param>)
    ensures Partition(a + b) ==
      Split(Partition(a).applied + Partition(b).applied, Partition(a).simTime + Partition(b).simTime)
    decreases |b|
  {
    if b == [] {
      assert a + b == a;
    } else {
      var b' := b[..|b| - 1];
      assert (a + b)[..|a + b| - 1] == a + b';
      assert (a + b)[|a + b| - 1] == b[|b| - 1];
      PartitionAppend(a, b');
    }
  }

  /** An incomplete param contributes nothing, wherever it stands. */
  lemma SkippedParamIsIgnored(a: seq<Param>, p: Param, b: seq<Param>)
    requires !Complete(p)
    ensures Partition(a + [p] + b) == Partition(a + b)
  {
    PartitionAppend(a + [p], b);
    PartitionAppend(a, [p]);
    PartitionAppend(a, b);
  }

  /** The first param's contribution comes before everything the following
      params contribute: an applied action for a non-TIME param, a sim-time
      entry for a TIME param, nothing for an incomplete one. */
  lemma {:induction false} PartitionCons(p: Param, rest: seq<Param>)
    ensures AppliesNow(p) ==>
      Partition([p] + rest) == Split([ApplyOf(p)] + Partition(rest).applied, Partition(rest).simTime)
    ensures BindsSimTime(p) ==>
      Partition([p] + rest) == Split(Partition(rest).applied, [SimTimeOf(p)] + Partition(rest).simTime)
    ensures !Complete(p) ==> Partition([p] + rest) == Partition(rest)
  {
    PartitionAppend([p], rest);
    assert [p][..0] == [];
  }

  /** A param whose value is the time keyword is never applied at load time,
      and only such params are bound to simulation time. */
  lemma TimeKeywordNeverApplied(params: seq<Param>)
    ensures forall a :: a in Partition(params).applied ==> a.value != Text(TimeKeyword)
    ensures forall t :: t in Partition(params).simTime ==>
      exists i :: 0 <= i < |params| && params[i].value == Some(TimeKeyword) && params[i].name == Some(t.name)
  {
  }

  /** Params that are all incomplete yield nothing. */
  lemma {:induction false} AllIncompleteYieldNothing(params: seq<Param>)
    requires forall i :: 0 <= i < |params| ==> !Complete(params[i])
    ensures Partition(params) == Split([], [])
    decreases |params|
  {
    if params != [] {
      AllIncompleteYieldNothing(params[..|params| - 1]);
    }
  }

  /** When every param is incomplete, loading still connects the update but
      applies nothing, binds nothing and does not subscribe to time. */
  lemma AllSkippedStillConnects(visual: Visual, params: seq<Param>)
    requires params != []
    requires forall i :: 0 <= i < |params| ==> !Complete(params[i])
    ensures var r := Load(Some(visual), Some(Sdf(params)));
      && r.plugin.updateConnected
      && r.applied == []
      && r.plugin.simTimeParams == []
      && r.plugin.infoTopic.None?
  {
    AllIncompleteYieldNothing(params);
  }

  /** A time message changes nothing that a later render tick does not read,
      and a plugin with no sim-time params ignores it altogether. */
  lemma InfoOnlyMovesTime(s: Plugin, topic: string, time: SimTime)
    requires Valid(s)
    ensures DeliverInfo(s, topic, time).simTimeParams == s.simTimeParams
    ensures s.simTimeParams == [] ==> DeliverInfo(s, topic, time) == s
  {
  }
}
