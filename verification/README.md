# Gazebo contain and shader-parameter plugins in Dafny

A model of two small plugins of the Gazebo simulator.

The **contain plugin** is a world plugin. It watches one entity and reports whether the entity's origin lies inside a box volume. The box may follow a reference entity. The plugin publishes a Gazebo int message and an Ignition boolean message on `/<namespace>/contain`. It publishes only when the status changes. An enable service, and a deprecated enable topic, both live under `/<namespace>/enable` and switch the plugin on and off.

The **shader-parameter plugin** is a visual plugin. It reads `<param>` elements, each with a name, a shader type and a value. It sets each complete param on the visual's material once, at load time. The exception is a param whose value is the keyword `TIME`. Such a param is re-set to the current simulation time on every pre-render event. The plugin subscribes to the simulation-time topic only when at least one param needs it.

Both plugins are modelled as immutable state records with pure transition functions. Each transition returns the new state plus what it emitted: publications for the contain plugin, renderer calls for the shader plugin.

- `wrappers.dfy`: `Option`, for absent SDF elements and null pointers.
- `contain_plugin.dfy` (module `ContainPlugin`): configuration, state, `Load`, `Enable` and its two transport handlers, the update callback, edge-triggered publishing, and an event loop (`Run`).
- `contain_properties.dfy` (module `ContainProperties`): properties over event sequences. These cover what a subscriber sees, silence while disabled, re-publication after re-enabling, and the integration test's scenarios.
- `shader_param_visual_plugin.dfy` (module `ShaderParamVisualPlugin`): the param partition (a pure function and the loop that computes it), `Load`, `Update`, `OnInfo`.
- `shader_properties.dfy` (module `ShaderProperties`): document-order and skipping properties of the partition.

Design choices:
- Geometry is an `Oracle`: a function parameter that takes the box, the entity's world position and the optional pose of the reference entity, and says whether the entity is inside. It stands for the pose inverse, the rotation and `OrientedBoxd::Contains`.
- The world is a map from scoped entity names to world poses. An entity that is not in the map does not exist. This replaces the weak-pointer lookup cache.
- A transport request reaches the plugin only when it is addressed to the name the plugin advertised. The enable name is advertised only by a `Load` that found every required element.
- The contain topic follows the code: `/<ns>/contain`. The header comment's `/<namespace>/box/contains` is not used by the code or the tests.
- In the deprecated Gazebo handler, data `1` requests enabling and every other value requests disabling. This follows the code; the header mentions only 0 and 1.

## Model

| member | source | states |
|---|---|---|
| ContainPlugin.Load | plugins/ContainPlugin.cc:105-190 | The enable service is advertised, as `/<ns>/enable`, exactly when entity, namespace, pose, geometry, box and size are all present; the plugin ends enabled exactly when they are present and `<enabled>` is not false; the status starts unset and the box, entity, namespace and reference frame come from the configuration. |
| ContainPlugin.Enable | plugins/ContainPlugin.cc:210-259 | Succeeds exactly when the request differs from the current enabled state; a failure changes nothing; afterwards the plugin is enabled iff the request was true; enabling advertises `/<ns>/contain` and keeps the status; disabling drops the publishers and resets the status to unset; configuration never changes. |
| ContainPlugin.EnableGz | plugins/ContainPlugin.cc:193-199 | Afterwards the plugin is enabled exactly when the message data was 1, whatever state it was in; a request for the current state changes nothing. |
| ContainPlugin.EnableIgn | plugins/ContainPlugin.cc:202-207 | The call result is true exactly when the request differs from the current state, and the response message carries the same value as the result. |
| ContainPlugin.PublishContains | plugins/ContainPlugin.cc:316-338 | Stores the new status (1 or 0) and publishes at most one message pair, exactly when the new status differs from the stored one; the pair goes to the advertised topic, with the int equal to the stored status and the bool equal to the containment. |
| ContainPlugin.Containment | plugins/ContainPlugin.cc:264-312 | A missing tracked entity, or a missing named reference entity, means "not contained"; otherwise the geometry oracle decides, given the reference entity's pose only when a frame is named. |
| ContainPlugin.OnUpdate | plugins/ContainPlugin.cc:262-313 | After the callback the stored status is the current containment, a missing entity gives 0, and something is published exactly when the status changed. |
| ContainPlugin.WorldUpdate | plugins/ContainPlugin.cc:229-231 | The callback runs only while the update is connected: a disabled plugin is left unchanged and publishes nothing; an enabled one publishes at most once, on `/<ns>/contain`, with the int equal to the new status and the bool equal to `status == 1`, and only when the status changed; the invariant and configuration are kept. |
| ContainPlugin.Handle | plugins/ContainPlugin.cc:170-180 | An Ignition request addressed to the advertised enable name leaves the plugin enabled exactly when it asked for that, and a Gazebo message addressed to it leaves the plugin enabled exactly when its data is 1; requests addressed elsewhere change nothing; enable requests publish nothing and either keep the status or reset it to unset; the invariant and configuration are kept. |
| ContainPlugin.Run | plugins/ContainPlugin.cc:233-239 | Over any event sequence the invariant and configuration are kept, there are at most as many publications as events, and every publication is on `/<ns>/contain`. |
| ContainProperties.EnableDisableRoundTrip | plugins/ContainPlugin.cc:226-258 | Enabling a disabled plugin succeeds, and disabling it again succeeds and restores exactly the state before. |
| ContainProperties.DisabledRunIsSilent | test/integration/contain_plugin.cc:98-117 | A disabled plugin publishes nothing and does not change, whatever world iterations, disable requests and misaddressed requests arrive; only a request to enable it can change that. |
| ContainProperties.IncompleteConfigNeverPublishes | plugins/ContainPlugin.cc:107-163 | A plugin whose configuration lacks a required element never publishes and never changes, whatever events follow. |
| ContainProperties.ReenableRepublishes | test/integration/contain_plugin.cc:119-133 | Disabling then re-enabling succeeds both times, and the next world iteration publishes the current status even if it equals the last one published. |
| ContainProperties.HandleKeepsInSync | plugins/ContainPlugin.cc:316-336 | After any one event, the last publication a subscriber saw matches the plugin's stored status on `/<ns>/contain`, whenever a status is stored. |
| ContainProperties.RunKeepsInSync | plugins/ContainPlugin.cc:316-336 | The same agreement holds after any sequence of events. |
| ContainProperties.LoadedRunInSync | plugins/ContainPlugin.hh:30-32 | From a freshly loaded plugin, a subscriber that saw every publication agrees with the stored status after any events. |
| ContainProperties.WorldStepsAreEdgeTriggered | plugins/ContainPlugin.hh:30-32 | Without enable requests, publications only report changes: the first differs from the stored status, consecutive ones alternate, every int is the bool as 1 or 0, and the final stored status is the last one published. |
| ContainProperties.RemovedEntityPublishesOutside | test/integration/contain_plugin.cc:196-230 | Removing the tracked entity, or the entity the box follows, while "contained" is stored makes the next iteration publish "not contained". |
| ContainProperties.DisableScenario | test/integration/contain_plugin.cc:44-146 | The integration test's sequence: publish true, publish false, disable succeeds, silence while disabled, a second disable fails, re-enable succeeds and republishes true, a second enable fails; each response matches its result. |
| ShaderParamVisualPlugin.Partition | plugins/ShaderParamVisualPlugin.cc:91-119 | An immediate action exists exactly for each complete non-TIME param, and a sim-time entry `(name, type)` exists exactly for each complete TIME param; there are never more results than params, and exactly one per param when all are complete. |
| ShaderParamVisualPlugin.LoadParams | plugins/ShaderParamVisualPlugin.cc:93-119 | The loop over `<param>` elements computes the same applied actions and sim-time list as the partition. |
| ShaderParamVisualPlugin.Load | plugins/ShaderParamVisualPlugin.cc:74-133 | With a null visual or SDF nothing is applied, recorded or connected; the update is connected exactly when both exist and there is at least one `<param>`, even if all are skipped; it then keeps the visual and applies and records the partition of the params; time is subscribed to exactly when the sim-time list is non-empty. |
| ShaderParamVisualPlugin.Update | plugins/ShaderParamVisualPlugin.cc:136-146 | Emits one call per sim-time param, in list order, each setting that param's name and type to the current simulation time; nothing when the list is empty. |
| ShaderParamVisualPlugin.RenderTick | plugins/ShaderParamVisualPlugin.cc:121-123 | A pre-render event emits nothing unless the update is connected; while connected it emits one call per sim-time param, in list order, setting that param's name and type to the current time. |
| ShaderParamVisualPlugin.OnInfo | plugins/ShaderParamVisualPlugin.cc:149-154 | Replaces the stored simulation time and changes nothing else. |
| ShaderParamVisualPlugin.DeliverInfo | plugins/ShaderParamVisualPlugin.cc:125-132 | A time message changes the stored time only when the plugin has sim-time params and the message is on `~/pose/local/info`; nothing else ever changes and the invariant is kept. |
| ShaderProperties.PartitionAppend | plugins/ShaderParamVisualPlugin.cc:107-118 | Partitioning two runs of params one after the other gives the first run's results followed by the second's, so results follow document order. |
| ShaderProperties.SkippedParamIsIgnored | plugins/ShaderParamVisualPlugin.cc:95-102 | An incomplete param contributes nothing wherever it stands, and the params after it are still processed. |
| ShaderProperties.PartitionCons | plugins/ShaderParamVisualPlugin.cc:103-118 | The first param's contribution comes before everything the remaining params contribute: an applied action for a non-TIME param, a sim-time entry for a TIME param, nothing for an incomplete one. |
| ShaderProperties.TimeKeywordNeverApplied | plugins/ShaderParamVisualPlugin.cc:107-117 | No load-time action carries the value `TIME`, and every sim-time entry comes from a param whose value is `TIME` and whose name it carries. |
| ShaderProperties.AllIncompleteYieldNothing | plugins/ShaderParamVisualPlugin.cc:95-102 | Params that are all incomplete produce no action and no sim-time entry. |
| ShaderProperties.AllSkippedStillConnects | plugins/ShaderParamVisualPlugin.cc:121-132 | When every param is incomplete, loading still connects the update but applies nothing, records nothing and does not subscribe to time. |
| ShaderProperties.InfoOnlyMovesTime | plugins/ShaderParamVisualPlugin.cc:149-154 | A time message never changes the sim-time list, and a plugin with no sim-time params ignores it altogether. |

## Left out

- Transport: Gazebo and Ignition nodes, publishers, subscribers and services are not modelled as such. Publications are returned as data. Requests are `Event`s routed by name. Whether a request was delivered (`executed` in the test) is not modelled.
- ContainPlugin.Run: drops the Ignition service's response. The response is modelled and specified on its own in `EnableIgn`.
- Geometry: `OrientedBoxd::Contains`, pose inversion and quaternion rotation are floating point. They are the `Oracle` parameter.
- Entity lookup caching: the weak pointers are replaced by a fresh lookup in the world map on every update. The two agree while the entity is in the world and once a removed entity has been destroyed. They differ in two cases. First, an entity removed from the world but still held elsewhere keeps being tracked by the source at its last pose, while the model reports "not contained". Second, an entity renamed after the first lookup is still tracked by the source, but is looked up under its old name by the model.
- SDF parsing: `<pose>` and `<size>` are parsed by a library that is not part of this model. The configuration arrives already parsed, with each element optional. Numbers are carried but never interpreted.
- The pose element's `frame` attribute: when it is absent, the reference-frame name stays empty, which means world coordinates.
- Logging (`gzerr`, `gzwarn`, `gzmsg`) has no effect on state and is left out.
- The shader plugin's mutex: `Update` and `OnInfo` are atomic steps.
- Concurrency in the contain plugin: the model handles one event at a time, each as an atomic step. In the source, `EnableGz` runs on the Gazebo transport thread, `EnableIgn` on the Ignition service thread and `OnUpdate` on the world-update thread. They share the connection, the publishers and the stored status without a lock. So, for example, a disable that lands between the comparison and the store in `PublishContains` is outside the model. `Valid` and the properties over event sequences hold for serialised events only.
- Simulation-time formatting: `std::to_string` of the time as a double is left to the renderer call. The emitted value is the opaque time itself (`TimeText`).
- `SetMaterialShaderParam`: a foreign rendering call, emitted as a `SetParam` action.
- `Load` is modelled for a freshly constructed plugin only. The source appends to the sim-time list, so a second load would add to it.
