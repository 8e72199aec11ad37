/** Model of the visual plugin that sets shader parameters of a visual's
    material from its `<param>` elements, binding the ones whose value is the
    keyword TIME to simulation time.

    Calls into the renderer are returned as `SetParam` actions in call order;
    simulation time is an opaque value whose decimal rendering is left to the
    renderer call. */
module ShaderParamVisualPlugin {
  import opened Wrappers

  /** One `<param>` element; each child may be absent. */
  datatype Param = Param(shaderType: Option<string>, name: Option<string>, value: Option<string>)

  /** The reserved value that binds a parameter to simulation time. */
  const TimeKeyword := "TIME"

  /** The topic that carries simulation time. */
  const InfoTopic := "~/pose/local/info"

  predicate Complete(p: Param) {
    p.shaderType.Some? && p.name.Some? && p.value.Some?
  }

  /** A complete param bound to simulation time. */
  predicate BindsSimTime(p: Param) {
    Complete(p) && p.value.value == TimeKeyword
  }

  /** A complete param set once, when loading. */
  predicate AppliesNow(p: Param) {
    Complete(p) && p.value.value != TimeKeyword
  }

  datatype SimTime = SimTime(sec: int, nsec: int)

  /** A value handed to the renderer: literal text, or the text of a time. */
  datatype ShaderValue = Text(text: string) | TimeText(time: SimTime)

  /** One call setting a shader parameter of the visual's material. */
  datatype SetParam = SetParam(name: string, shaderType: string, value: ShaderValue)

  /** A parameter bound to simulation time: its name and shader type. */
  datatype SimTimeParam = SimTimeParam(name: string, shaderType: string)

  datatype Visual = Visual(name: string)

  /** The plugin's SDF element: its `<param>` children in document order. */
  datatype Sdf = Sdf(params: seq<Param>)

  /** `updateConnected` is the pre-render connection; `infoTopic` is the
      topic subscribed to for simulation time, None when not subscribed. */
  datatype Plugin = Plugin(
    visual: Option<Visual>,
    simTimeParams: seq<SimTimeParam>,
    updateConnected: bool,
    infoTopic: Option<string>,
    currentSimTime: SimTime)

  /** The plugin as constructed, before `Load`. */
  const Fresh := Plugin(None, [], false, None, SimTime(0, 0))

  /** The state every loaded plugin is in. */
  predicate Valid(s: Plugin) {
    && (s.infoTopic.Some? <==> s.simTimeParams != [])
    && (s.infoTopic.Some? ==> s.infoTopic.value == InfoTopic)
    && (s.simTimeParams != [] ==> s.updateConnected)
    && (s.updateConnected ==> s.visual.Some?)
  }

  function ApplyOf(p: Param): SetParam
    requires Complete(p)
  {
    SetParam(p.name.value, p.shaderType.value, Text(p.value.value))
  }

  function SimTimeOf(p: Param): SimTimeParam
    requires Complete(p)
  {
    SimTimeParam(p.name.value, p.shaderType.value)
  }

  /** Params applied at load time, and params bound to simulation time. */
  datatype Split = Split(applied: seq<SetParam>, simTime: seq<SimTimeParam>)

  /** The params in document order, incomplete ones dropped, split by whether
      their value is the time keyword. */
  function Partition(params: seq<Param>): (r: Split)
    ensures |r.applied| + |r.simTime| <= |params|
    ensures (forall i :: 0 <= i < |params| ==> Complete(params[i])) ==> |r.applied| + |r.simTime| == |params|
    ensures forall a :: a in r.applied <==>
      exists i :: 0 <= i < |params| && AppliesNow(params[i]) && a == ApplyOf(params[i])
    ensures forall t :: t in r.simTime <==>
      exists i :: 0 <= i < |params| && BindsSimTime(params[i]) && t == SimTimeOf(params[i])
    decreases |params|
  {
    if params == [] then Split([], [])
    else
      var init := Partition(params[..|params| - 1]);
      var p := params[|params| - 1];
      if !Complete(p) then init
      else if p.value.value == TimeKeyword then Split(init.applied, init.simTime + [SimTimeOf(p)])
      else Split(init.applied + [ApplyOf(p)], init.simTime)
  }

  /** The loop over `<param>` elements: an incomplete one is reported and
      skipped, a TIME one is recorded, any other is applied. */
  method LoadParams(params: seq<Param>) returns (applied: seq<SetParam>, simTime: seq<SimTimeParam>)
    ensures Split(applied, simTime) == Partition(params)
  {
    applied, simTime := [], [];
    var i := 0;
    while i < |params|
      invariant 0 <= i <= |params|
      invariant Split(applied, simTime) == Partition(params[..i])
    {
      var p := params[i];
      assert params[..i + 1][..i] == params[..i];
      if !Complete(p) {
        i := i + 1;
        continue;
      }
      if p.value.value == TimeKeyword {
        simTime := simTime + [SimTimeOf(p)];
      } else {
        applied := applied + [ApplyOf(p)];
      }
      i := i + 1;
    }
    assert params[..|params|] == params;
  }

  /** State after loading, and the parameters set while loading. */
  datatype Loaded = Loaded(plugin: Plugin, applied: seq<SetParam>)

  /** Loads from a visual and an SDF element, either possibly null. Without
      both nothing happens; without any `<param>` only the visual is kept;
      otherwise the params are partitioned, the pre-render update is
      connected, and simulation time is subscribed to only if some param is
      bound to it. */
  function Load(visual: Option<Visual>, sdf: Option<Sdf>): (r: Loaded)
    ensures Valid(r.plugin)
    ensures r.plugin.currentSimTime == Fresh.currentSimTime
    ensures visual.None? || sdf.None? ==> r == Loaded(Fresh, [])
    ensures r.plugin.updateConnected <==> visual.Some? && sdf.Some? && sdf.value.params != []
    ensures r.plugin.updateConnected ==>
      && r.plugin.visual == visual
      && Split(r.applied, r.plugin.simTimeParams) == Partition(sdf.value.params)
    ensures !r.plugin.updateConnected ==> r.applied == [] && r.plugin.simTimeParams == []
    ensures r.plugin.infoTopic == (if r.plugin.simTimeParams != [] then Some(InfoTopic) else None)
  {
    if visual.None? || sdf.None? then Loaded(Fresh, [])
    else
      var s := Fresh.(visual := visual);
      if sdf.value.params == [] then Loaded(s, [])
      else
        var split := Partition(sdf.value.params);
        var t := s.(simTimeParams := split.simTime, updateConnected := true);
        if t.simTimeParams != [] then Loaded(t.(infoTopic := Some(InfoTopic)), split.applied)
        else Loaded(t, split.applied)
  }

  /** The pre-render callback: sets every sim-time param, in list order, to
      the current simulation time. */
  method Update(s: Plugin) returns (actions: seq<SetParam>)
    requires s.simTimeParams != [] ==> s.visual.Some?
    ensures |actions| == |s.simTimeParams|
    ensures forall i :: 0 <= i < |actions| ==>
      actions[i] == SetParam(s.simTimeParams[i].name, s.simTimeParams[i].shaderType, TimeText(s.currentSimTime))
  {
    actions := [];
    for i := 0 to |s.simTimeParams|
      invariant |actions| == i
      invariant forall j :: 0 <= j < i ==>
        actions[j] == SetParam(s.simTimeParams[j].name, s.simTimeParams[j].shaderType, TimeText(s.currentSimTime))
    {
      var p := s.simTimeParams[i];
      actions := actions + [SetParam(p.name, p.shaderType, TimeText(s.currentSimTime))];
    }
  }

  /** One pre-render event: `Update` runs only while connected. */
  method RenderTick(s: Plugin) returns (actions: seq<SetParam>)
    requires Valid(s)
    ensures !s.updateConnected ==> actions == []
    ensures |actions| == |s.simTimeParams|
    ensures s.updateConnected ==> forall i :: 0 <= i < |actions| ==>
      actions[i] == SetParam(s.simTimeParams[i].name, s.simTimeParams[i].shaderType, TimeText(s.currentSimTime))
    ensures forall a :: a in actions ==> a.value == TimeText(s.currentSimTime)
  {
    if s.updateConnected {
      actions := Update(s);
    } else {
      actions := [];
    }
  }

  /** The simulation-time callback: replaces the stored time and nothing else. */
  function OnInfo(s: Plugin, time: SimTime): (r: Plugin)
    ensures r.currentSimTime == time
    ensures r.visual == s.visual && r.simTimeParams == s.simTimeParams
    ensures r.updateConnected == s.updateConnected && r.infoTopic == s.infoTopic
  {
    s.(currentSimTime := time)
  }

  /** A time message on `topic`: reaches the plugin only when it subscribed
      to that topic. */
  function DeliverInfo(s: Plugin, topic: string, time: SimTime): (r: Plugin)
    requires Valid(s)
    ensures Valid(r)
    ensures r.currentSimTime == (if s.simTimeParams != [] && topic == InfoTopic then time else s.currentSimTime)
    ensures r.(currentSimTime := s.currentSimTime) == s
  {
    if s.infoTopic == Some(topic) then OnInfo(s, time) else s
  }
}
