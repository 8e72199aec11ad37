/** Model of the world plugin that reports whether an entity's origin lies
    inside a box volume, publishing only when that answer changes.

    Geometry is abstract: an `Oracle` answers whether a world position lies in
    the box, given the pose of the box's reference entity when the box
    follows one.  Transport is modelled as data: publications are returned as
    a list, and enable requests arrive as `Event`s addressed by name. */
module ContainPlugin {
  import opened Wrappers

  // ---------------------------------------------------------------------
  // Geometry values: carried around, never inspected by the plugin logic.
  // ---------------------------------------------------------------------

  datatype Vector3 = Vector3(x: real, y: real, z: real)

  /** Position plus roll/pitch/yaw, as written in a `<pose>` element. */
  datatype Pose = Pose(pos: Vector3, roll: real, pitch: real, yaw: real)

  /** A box of the given size centred at the given pose. */
  datatype OrientedBox = OrientedBox(size: Vector3, pose: Pose)

  const Origin := Vector3(0.0, 0.0, 0.0)

  /** The default-constructed box the plugin holds before `Load` completes. */
  const DefaultBox := OrientedBox(Origin, Pose(Origin, 0.0, 0.0, 0.0))

  /** Whether a world position lies inside the box; the third argument is the
      world pose of the box's reference entity, or None when the box is given
      in world coordinates. Stands for the pose inversion, rotation and
      point-in-box test. */
  type Oracle = (OrientedBox, Vector3, Option<Pose>) -> bool

  /** Every entity currently in the world, by scoped name, with its world pose. */
  type World = map<string, Pose>

  // ---------------------------------------------------------------------
  // Configuration: the plugin's SDF element, each child possibly absent.
  // ---------------------------------------------------------------------

  datatype PoseElement = PoseElement(value: Pose, frame: Option<string>)
  datatype BoxElement = BoxElement(size: Option<Vector3>)
  datatype GeometryElement = GeometryElement(box: Option<BoxElement>)

  datatype Config = Config(
    entity: Option<string>,
    namespace: Option<string>,
    pose: Option<PoseElement>,
    geometry: Option<GeometryElement>,
    enabled: Option<bool>)

  /** All six required elements are present. */
  predicate Complete(cfg: Config) {
    && cfg.entity.Some?
    && cfg.namespace.Some?
    && cfg.pose.Some?
    && cfg.geometry.Some?
    && cfg.geometry.value.box.Some?
    && cfg.geometry.value.box.value.size.Some?
  }

  // ---------------------------------------------------------------------
  // Plugin state and output
  // ---------------------------------------------------------------------

  /** Value of `contain` before anything was published since the last enable. */
  const Unset: int := -1

  /** One publication: the same status sent as a Gazebo int message and as
      an Ignition boolean message on `topic`. */
  datatype Publication = Publication(topic: string, gzData: int, ignData: bool)

  /** `updateConnected` is the world-update connection (the plugin is enabled
      exactly when it exists); `publisher` is the topic the contain publishers
      are advertised on, None when they are reset; `enableService` is the name
      the enable subscriber and service are advertised under. `contain` is 1,
      0 or `Unset`. */
  datatype Plugin = Plugin(
    entityName: string,
    ns: string,
    containerEntityName: string,
    box: OrientedBox,
    enableService: Option<string>,
    updateConnected: bool,
    publisher: Option<string>,
    contain: int)

  /** The plugin as constructed, before `Load`. */
  const Fresh := Plugin("", "", "", DefaultBox, None, false, None, Unset)

  /** New state and the publications made on the way there. */
  datatype Output = Output(next: Plugin, published: seq<Publication>)

  function EnableService(ns: string): string {
    "/" + ns + "/enable"
  }

  function ContainTopic(ns: string): string {
    "/" + ns + "/contain"
  }

  /** The state every reachable plugin is in. */
  predicate Valid(s: Plugin) {
    && (s.contain == Unset || s.contain == 0 || s.contain == 1)
    && (s.updateConnected ==> s.publisher == Some(ContainTopic(s.ns)))
    && (!s.updateConnected ==> s.publisher.None? && s.contain == Unset)
    && (s.updateConnected ==> s.enableService.Some?)
    && (s.enableService.Some? ==> s.enableService.value == EnableService(s.ns))
  }

  /** Everything `Load` fixes is the same in both states. */
  predicate SameConfig(s: Plugin, t: Plugin) {
    && s.entityName == t.entityName
    && s.ns == t.ns
    && s.containerEntityName == t.containerEntityName
    && s.box == t.box
    && s.enableService == t.enableService
  }

  function ContainValue(contains: bool): int {
    if contains then 1 else 0
  }

  // ---------------------------------------------------------------------
  // Operations
  // ---------------------------------------------------------------------

  /** Validates the configuration element by element, stopping at the first
      missing one (fields read before it stay set); when all are present,
      builds the box, advertises the enable service and enables unless
      `<enabled>` says false. */
  function Load(cfg: Config): (s: Plugin)
    ensures Valid(s)
    ensures s.contain == Unset
    ensures s.enableService.Some? <==> Complete(cfg)
    ensures Complete(cfg) ==>
      && s.enableService == Some("/" + cfg.namespace.value + "/enable")
      && s.entityName == cfg.entity.value
      && s.ns == cfg.namespace.value
      && s.containerEntityName == cfg.pose.value.frame.GetOr("")
      && s.box == OrientedBox(cfg.geometry.value.box.value.size.value, cfg.pose.value.value)
    ensures s.updateConnected <==> Complete(cfg) && cfg.enabled != Some(false)
  {
    if cfg.entity.None? then Fresh
    else
      var s1 := Fresh.(entityName := cfg.entity.value);
      if cfg.namespace.None? then s1
      else
        var s2 := s1.(ns := cfg.namespace.value);
        if cfg.pose.None? then s2
        else
          var s3 := s2.(containerEntityName := cfg.pose.value.frame.GetOr(""));
          if cfg.geometry.None? then s3
          else if cfg.geometry.value.box.None? then s3
          else if cfg.geometry.value.box.value.size.None? then s3
          else
            var s4 := s3.(box := OrientedBox(cfg.geometry.value.box.value.size.value, cfg.pose.value.value),
                          enableService := Some(EnableService(s3.ns)));
            if cfg.enabled.GetOr(true) then Enable(s4, true).next else s4
  }

  /** Result of an enable request: the new state and whether it succeeded. */
  datatype Toggle = Toggle(next: Plugin, ok: bool)

  /** Enables (connects the update and advertises the contain publishers) or
      disables (drops both and forgets the last status). Asking for the state
      the plugin is already in fails and changes nothing. */
  function Enable(s: Plugin, enable: bool): (r: Toggle)
    ensures r.ok <==> enable != s.updateConnected
    ensures !r.ok ==> r.next == s
    ensures r.next.updateConnected == enable
    ensures SameConfig(s, r.next)
    ensures r.ok && enable ==> r.next.publisher == Some(ContainTopic(s.ns)) && r.next.contain == s.contain
    ensures r.ok && !enable ==> r.next.publisher.None? && r.next.contain == Unset
    ensures Valid(s) && s.enableService.Some? ==> Valid(r.next)
  {
    if enable && s.updateConnected then Toggle(s, false)
    else if !enable && !s.updateConnected then Toggle(s, false)
    else if enable then
      Toggle(s.(updateConnected := true, publisher := Some(ContainTopic(s.ns))), true)
    else
      Toggle(s.(updateConnected := false, publisher := None, contain := Unset), true)
  }

  /** The deprecated Gazebo-message handler: data 1 requests enabling, any
      other value requests disabling; the outcome is not reported. */
  function EnableGz(s: Plugin, data: int): (r: Plugin)
    ensures r.updateConnected <==> data == 1
    ensures SameConfig(s, r)
    ensures (data == 1) == s.updateConnected ==> r == s
  {
    Enable(s, data == 1).next
  }

  /** Reply of the Ignition enable service. */
  datatype Reply = Reply(next: Plugin, result: bool, response: bool)

  /** The Ignition service handler: the request data is the enable flag and
      both the call result and the response message carry `Enable`'s outcome. */
  function EnableIgn(s: Plugin, request: bool): (r: Reply)
    ensures r.result <==> request != s.updateConnected
    ensures r.response == r.result
    ensures r.next.updateConnected == request
    ensures SameConfig(s, r.next)
  {
    var t := Enable(s, request);
    Reply(t.next, t.ok, t.ok)
  }

  /** Stores the new status and publishes it on both transports, but only
      when it differs from the stored one. */
  function PublishContains(s: Plugin, contains: bool): (r: Output)
    requires s.publisher.Some?
    ensures r.next == s.(contain := ContainValue(contains))
    ensures |r.published| <= 1
    ensures r.published != [] <==> ContainValue(contains) != s.contain
    ensures forall p :: p in r.published ==>
      p.topic == s.publisher.value && p.gzData == r.next.contain && p.ignData == contains
  {
    var now := ContainValue(contains);
    if now != s.contain then
      var t := s.(contain := now);
      Output(t, [Publication(t.publisher.value, t.contain, t.contain == 1)])
    else
      Output(s, [])
  }

  /** Whether the tracked entity is currently inside the box. An entity, or a
      named reference entity, that is not in the world counts as outside. */
  function Containment(s: Plugin, world: World, inside: Oracle): (c: bool)
    ensures s.entityName !in world ==> !c
    ensures s.containerEntityName != "" && s.containerEntityName !in world ==> !c
    ensures s.entityName in world && s.containerEntityName == "" ==>
      (c <==> inside(s.box, world[s.entityName].pos, None))
    ensures s.entityName in world && s.containerEntityName != "" && s.containerEntityName in world ==>
      (c <==> inside(s.box, world[s.entityName].pos, Some(world[s.containerEntityName])))
  {
    if s.entityName !in world then false
    else
      var position := world[s.entityName].pos;
      if s.containerEntityName != "" then
        if s.containerEntityName !in world then false
        else inside(s.box, position, Some(world[s.containerEntityName]))
      else
        inside(s.box, position, None)
  }

  /** The world-update callback. */
  function OnUpdate(s: Plugin, world: World, inside: Oracle): (r: Output)
    requires s.publisher.Some?
    ensures r.next.contain == ContainValue(Containment(s, world, inside))
    ensures r.published != [] <==> r.next.contain != s.contain
    ensures s.entityName !in world ==> r.next.contain == 0
  {
    PublishContains(s, Containment(s, world, inside))
  }

  /** One world iteration: the callback runs only while the update is
      connected. At most one publication, carrying the new status, and only
      when the status changed. */
  function WorldUpdate(s: Plugin, world: World, inside: Oracle): (r: Output)
    requires Valid(s)
    ensures Valid(r.next)
    ensures SameConfig(s, r.next) && r.next.updateConnected == s.updateConnected
    ensures !s.updateConnected ==> r == Output(s, [])
    ensures s.updateConnected ==> r.next.contain == ContainValue(Containment(s, world, inside))
    ensures |r.published| <= 1
    ensures r.published == [] <==> r.next.contain == s.contain
    ensures forall p :: p in r.published ==>
      && p.topic == ContainTopic(s.ns)
      && p.gzData == r.next.contain
      && p.ignData == (r.next.contain == 1)
  {
    if s.updateConnected then OnUpdate(s, world, inside) else Output(s, [])
  }

  // ---------------------------------------------------------------------
  // Event loop
  // ---------------------------------------------------------------------

  /** What can reach the plugin: a world iteration, a request to the Ignition
      service named `target`, or a message on the Gazebo topic `target`. */
  datatype Event =
    | WorldStep(world: World)
    | IgnRequest(target: string, enable: bool)
    | GzMessage(target: string, value: int)

  /** Dispatches one event. Enable requests reach the plugin only when they
      are addressed to the name it advertised. */
  function Handle(s: Plugin, e: Event, inside: Oracle): (r: Output)
    requires Valid(s)
    ensures Valid(r.next)
    ensures SameConfig(s, r.next)
    ensures !e.WorldStep? ==> r.published == []
    ensures !e.WorldStep? ==> r.next.contain == s.contain || r.next.contain == Unset
    ensures !e.WorldStep? && s.enableService != Some(e.target) ==> r.next == s
    ensures e.IgnRequest? && s.enableService == Some(e.target) ==> r.next.updateConnected == e.enable
    ensures e.GzMessage? && s.enableService == Some(e.target) ==> r.next.updateConnected == (e.value == 1)
  {
    match e
    case WorldStep(world) => WorldUpdate(s, world, inside)
    case IgnRequest(target, data) =>
      if s.enableService == Some(target) then Output(EnableIgn(s, data).next, []) else Output(s, [])
    case GzMessage(target, data) =>
      if s.enableService == Some(target) then Output(EnableGz(s, data), []) else Output(s, [])
  }

  /** Dispatches the events in order, collecting every publication. */
  function Run(s: Plugin, events: seq<Event>, inside: Oracle): (r: Output)
    requires Valid(s)
    ensures Valid(r.next)
    ensures SameConfig(s, r.next)
    ensures |r.published| <= |events|
    ensures forall p :: p in r.published ==> p.topic == ContainTopic(s.ns)
    decreases |events|
  {
    if events == [] then Output(s, [])
    else
      var first := Handle(s, events[0], inside);
      var rest := Run(first.next, events[1..], inside);
      Output(rest.next, first.published + rest.published)
  }
}
