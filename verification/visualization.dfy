/**
 * The per-node bookkeeping of the visualization: the node list, the
 * vehicle record of each node and the scene's background and children.
 * Meshes, materials and geometries are reduced to the values the code
 * assigns to them (position, colour, sphere radius, label present).
 */
module Visualization {
  import opened Wrappers
  import opened Data

  /** A scene position (x, y, z), with y the vertical axis. */
  datatype Vec3 = Vec3(x: real, y: real, z: real)

  /** A colour as the code builds it. */
  datatype Color =
    | Hex(code: nat)          // a numeric literal such as 0xffffff
    | Css(text: string)       // a CSS colour string, e.g. from stored preferences
    | RgbText(rgb: Rgb)       // the string `rgb(r, g, b)` built by paint_node
    | RgbUnit(rgb: Rgb)       // THREE.Color(r, g, b) built by paint_environment

  /** One vehicle: its sphere's position, material colour and radius, and whether it has a label. */
  datatype Vehicle = Vehicle(position: Vec3, color: Color, size: real, hasLabel: bool)

  /** The objects added to the scene. */
  datatype SceneObject = Ground | Sphere(node: string) | Label(node: string)

  datatype Scene = Scene(background: Color, children: seq<SceneObject>)

  /** The preferences read from local storage, already parsed. */
  datatype StoredConfigs = StoredConfigs(
    background: Option<string>,
    nodeSize: Option<real>,
    colors: map<string, string>)

  /** The module-level `nodes`, `vehicles` and `scene`, as one value. */
  datatype View = View(nodes: seq<string>, vehicles: map<string, Vehicle>, scene: Option<Scene>)

  const InitialBackground: Color := Css("#39d7ff")
  const VehicleColor: Color := Hex(0xffffff)
  const VehicleRadius: real := 0.1
  const Origin: Vec3 := Vec3(0.0, 0.0, 0.0)

  /**
   * Without a scene there are no nodes and no vehicles; with one, every
   * node has a vehicle.
   */
  ghost predicate Coherent(v: View) {
    && (v.scene.None? ==> v.nodes == [] && v.vehicles == map[])
    && (v.scene.Some? ==> forall n :: n in v.nodes ==> n in v.vehicles)
  }

  /** A server position `[a, b, c]` placed in the scene as (a, c, b): the server's z is the scene's y. */
  function AxisSwap(pos: Triple): Vec3 {
    Vec3(pos.0, pos.2, pos.1)
  }

  /** One sphere per node, in order. */
  function Spheres(nodes: seq<string>): (s: seq<SceneObject>)
    ensures |s| == |nodes|
    ensures forall i :: 0 <= i < |nodes| ==> s[i] == Sphere(nodes[i])
  {
    if nodes == [] then [] else [Sphere(nodes[0])] + Spheres(nodes[1..])
  }

  /** A vehicle with the stored colour of node `n` and the stored node size applied, where present. */
  function Restyled(v: Vehicle, stored: StoredConfigs, n: string): (r: Vehicle)
    ensures r.position == v.position && r.hasLabel == v.hasLabel
    ensures r.color == if n in stored.colors then Css(stored.colors[n]) else v.color
    ensures r.size == if stored.nodeSize.Some? then stored.nodeSize.value else v.size
  {
    v.(color := if n in stored.colors then Css(stored.colors[n]) else v.color,
       size := if stored.nodeSize.Some? then stored.nodeSize.value else v.size)
  }

  /**
   * Restyling twice with the same preferences is restyling once, so a node
   * named twice in the node list ends as if it were named once.
   */
  lemma RestyledIdempotent(v: Vehicle, stored: StoredConfigs, n: string)
    ensures Restyled(Restyled(v, stored, n), stored, n) == Restyled(v, stored, n)
  {
  }

  /** The vehicle `initializeVisualization` leaves for node `n`, stored preferences applied. */
  function NewVehicle(stored: StoredConfigs, n: string): (v: Vehicle)
    ensures v.position == Origin && !v.hasLabel
    ensures v.color == if n in stored.colors then Css(stored.colors[n]) else VehicleColor
    ensures v.size == if stored.nodeSize.Some? then stored.nodeSize.value else VehicleRadius
  {
    Restyled(Vehicle(Origin, VehicleColor, VehicleRadius, false), stored, n)
  }

  /**
   * The vehicles after the position loop of `update` has handled the first
   * `k` nodes: node i's sphere is placed at `positions[i]`, axes swapped.
   */
  function Moved(vs: map<string, Vehicle>, nodes: seq<string>, positions: seq<Triple>, k: nat): (r: map<string, Vehicle>)
    requires k <= |nodes| && k <= |positions|
    requires forall n :: n in nodes ==> n in vs
    ensures r.Keys == vs.Keys
  {
    if k == 0 then vs
    else
      var prev := Moved(vs, nodes, positions, k - 1);
      prev[nodes[k - 1] := prev[nodes[k - 1]].(position := AxisSwap(positions[k - 1]))]
  }

  /**
   * After the loop, node i's sphere stands at `positions[i]` (axes
   * swapped), unless a later entry of the node list names the same node.
   */
  lemma {:induction false} MovedPosition(vs: map<string, Vehicle>, nodes: seq<string>, positions: seq<Triple>, k: nat, i: nat)
    requires k <= |nodes| && k <= |positions|
    requires forall n :: n in nodes ==> n in vs
    requires i < k
    requires forall j :: i < j < k ==> nodes[j] != nodes[i]
    ensures Moved(vs, nodes, positions, k)[nodes[i]].position == AxisSwap(positions[i])
  {
    if i < k - 1 {
      MovedPosition(vs, nodes, positions, k - 1, i);
    }
  }

  /**
   * The loop changes positions only: colour, size and label stay, and a
   * vehicle whose node is not among the first `k` nodes is untouched.
   */
  lemma {:induction false} MovedKeepsRest(vs: map<string, Vehicle>, nodes: seq<string>, positions: seq<Triple>, k: nat, n: string)
    requires k <= |nodes| && k <= |positions|
    requires forall m :: m in nodes ==> m in vs
    requires n in vs
    ensures var v := Moved(vs, nodes, positions, k)[n];
      v.color == vs[n].color && v.size == vs[n].size && v.hasLabel == vs[n].hasLabel
    ensures n !in nodes[..k] ==> Moved(vs, nodes, positions, k)[n] == vs[n]
  {
    if k > 0 {
      MovedKeepsRest(vs, nodes, positions, k - 1, n);
      assert nodes[..k] == nodes[..k - 1] + [nodes[k - 1]];
    }
  }

  /**
   * `executeCommand` on a view: `None` when the command throws (a
   * `paint_node` whose index names no node, a `paint_environment` without
   * a scene), in which case nothing has changed.
   */
  function Execute(v: View, cmd: VisualizationCommand): (r: Option<View>)
    requires Coherent(v)
    ensures r.None? <==>
      (cmd.PaintNode? && !(0 <= cmd.nodeId < |v.nodes|)) || (cmd.PaintEnvironment? && v.scene.None?)
    ensures r.Some? ==> r.value.nodes == v.nodes && r.value.vehicles.Keys == v.vehicles.Keys
    ensures r.Some? ==> Coherent(r.value) && r.value.scene.Some? == v.scene.Some?
    ensures r.Some? && cmd.PaintNode? ==>
      var n := v.nodes[cmd.nodeId];
      var after := r.value.vehicles[n];
      && after.hasLabel == cmd.showId
      && after.color == RgbText(cmd.color)
      && after.position == v.vehicles[n].position && after.size == v.vehicles[n].size
      && (forall m :: m in v.vehicles && m != n ==> r.value.vehicles[m] == v.vehicles[m])
      && r.value.scene.value.background == v.scene.value.background
      && r.value.scene.value.children ==
           v.scene.value.children + (if !v.vehicles[n].hasLabel && cmd.showId then [Label(n)] else [])
    ensures r.Some? && cmd.PaintEnvironment? ==>
      r.value.vehicles == v.vehicles
      && r.value.scene == Some(v.scene.value.(background := RgbUnit(cmd.color)))
    ensures cmd.ResizeNodes? ==>
      r.Some? && r.value.scene == v.scene
      && forall m :: m in v.vehicles ==> r.value.vehicles[m] == v.vehicles[m].(size := cmd.size)
    ensures cmd.Other? ==> r == Some(v)
  {
    match cmd
    case PaintNode(id, color, showId) =>
      if !(0 <= id < |v.nodes|) then None
      else
        var n := v.nodes[id];
        var before := v.vehicles[n];
        var painted := before.(color := RgbText(color));
        if before.hasLabel then
          Some(v.(vehicles := v.vehicles[n := painted.(hasLabel := showId)]))
        else if showId then
          var s := v.scene.value;
          Some(View(v.nodes, v.vehicles[n := painted.(hasLabel := true)],
                    Some(s.(children := s.children + [Label(n)]))))
        else
          Some(v.(vehicles := v.vehicles[n := painted]))
    case PaintEnvironment(color) =>
      if v.scene.None? then None
      else Some(v.(scene := Some(v.scene.value.(background := RgbUnit(color)))))
    case ResizeNodes(size) =>
      Some(v.(vehicles := map m | m in v.vehicles :: v.vehicles[m].(size := size)))
    case Other(_) =>
      Some(v)
  }

  /** Repeating a `paint_node` that succeeded changes nothing more: no second label, same colour. */
  lemma PaintNodeIdempotent(v: View, cmd: VisualizationCommand)
    requires Coherent(v) && cmd.PaintNode?
    requires Execute(v, cmd).Some?
    ensures Execute(Execute(v, cmd).value, cmd) == Execute(v, cmd)
  {
    var w := Execute(v, cmd).value;
    var n := v.nodes[cmd.nodeId];
    assert w.vehicles[n := w.vehicles[n]] == w.vehicles;
  }

  /** Of two `resize_nodes` commands in a row only the second one's size remains. */
  lemma ResizeLastWins(v: View, a: real, b: real)
    requires Coherent(v)
    ensures Execute(v, ResizeNodes(a)).Some?
    ensures Execute(Execute(v, ResizeNodes(a)).value, ResizeNodes(b)) == Execute(v, ResizeNodes(b))
  {
    var w := Execute(v, ResizeNodes(a)).value;
    assert Execute(w, ResizeNodes(b)).value.vehicles == Execute(v, ResizeNodes(b)).value.vehicles;
  }

  /** The module-level state of `visualization.ts` (camera and renderer reduced to whether they are set). */
  class VisualizationState {
    var nodes: seq<string>
    var vehicles: map<string, Vehicle>
    var scene: Option<Scene>
    var hasCamera: bool
    var hasRenderer: bool

    function Snapshot(): View
      reads this
    {
      View(nodes, vehicles, scene)
    }

    ghost predicate Valid()
      reads this
    {
      Coherent(View(nodes, vehicles, scene)) && hasCamera == scene.Some? && hasRenderer == scene.Some?
    }

    /** Module initialisation: empty lists, null scene, camera and renderer. */
    constructor ()
      ensures Valid() && nodes == [] && vehicles == map[] && scene.None?
    {
      nodes := [];
      vehicles := map[];
      scene := None;
      hasCamera := false;
      hasRenderer := false;
    }

    /**
     * `initializeVisualization`: take the node list, build a new scene with
     * the ground and one sphere per node, add one vehicle per node at the
     * origin without a label, then apply the stored preferences
     * (`loadStoredConfigs`). Vehicles of other nodes are kept.
     */
    method InitializeVisualization(data: InitializationData, stored: StoredConfigs)
      requires Valid()
      modifies this
      ensures Valid()
      ensures nodes == data.nodes
      ensures scene == Some(Scene(
        if stored.background.Some? then Css(stored.background.value) else InitialBackground,
        [Ground] + Spheres(data.nodes)))
      ensures forall n :: n in vehicles <==> n in old(vehicles) || n in data.nodes
      ensures forall n :: n in data.nodes ==> vehicles[n] == NewVehicle(stored, n)
      ensures forall n :: n in old(vehicles) && n !in data.nodes ==> vehicles[n] == old(vehicles)[n]
    {
      nodes := data.nodes;
      hasCamera, hasRenderer := true, true;
      var spheres := AddSpheres(data.nodes);
      scene := Some(Scene(InitialBackground, [Ground] + spheres));
      ghost var created := vehicles;
      LoadStoredConfigs(stored);
      forall n | n in data.nodes ensures vehicles[n] == NewVehicle(stored, n) {
        assert vehicles[n] == Restyled(created[n], stored, n);
      }
    }

    /** The node loop of `initializeVisualization`: one white sphere of radius 0.1 at the origin per node, in order. */
    method AddSpheres(ns: seq<string>) returns (spheres: seq<SceneObject>)
      modifies this
      ensures nodes == old(nodes) && scene == old(scene)
      ensures hasCamera == old(hasCamera) && hasRenderer == old(hasRenderer)
      ensures spheres == Spheres(ns)
      ensures forall n :: n in vehicles <==> n in old(vehicles) || n in ns
      ensures forall n :: n in vehicles ==>
        vehicles[n] == if n in ns then Vehicle(Origin, VehicleColor, VehicleRadius, false) else old(vehicles)[n]
    {
      spheres := [];
      ghost var added: set<string> := {};
      var i := 0;
      while i < |ns|
        invariant 0 <= i <= |ns|
        invariant nodes == old(nodes) && scene == old(scene)
        invariant hasCamera == old(hasCamera) && hasRenderer == old(hasRenderer)
        invariant spheres == Spheres(ns[..i])
        invariant forall j :: 0 <= j < i ==> ns[j] in added
        invariant forall n :: n in added ==> n in ns
        invariant forall n :: n in vehicles <==> n in old(vehicles) || n in added
        invariant forall n :: n in vehicles ==>
          vehicles[n] == if n in added then Vehicle(Origin, VehicleColor, VehicleRadius, false) else old(vehicles)[n]
      {
        var node := ns[i];
        assert ns[..i + 1] == ns[..i] + [node];
        spheres := spheres + [Sphere(node)];
        vehicles := vehicles[node := Vehicle(Origin, VehicleColor, VehicleRadius, false)];
        added := added + {node};
        i := i + 1;
      }
      assert ns[..i] == ns;
    }

    /** `loadStoredConfigs`: apply the stored background, per-node colours and node size. */
    method LoadStoredConfigs(stored: StoredConfigs)
      requires scene.Some? && forall n :: n in nodes ==> n in vehicles
      modifies this
      ensures nodes == old(nodes) && hasCamera == old(hasCamera) && hasRenderer == old(hasRenderer)
      ensures scene == Some(old(scene).value.(background :=
        if stored.background.Some? then Css(stored.background.value) else old(scene).value.background))
      ensures vehicles.Keys == old(vehicles).Keys
      ensures forall n :: n in nodes ==> vehicles[n] == Restyled(old(vehicles)[n], stored, n)
      ensures forall n :: n in vehicles && n !in nodes ==> vehicles[n] == old(vehicles)[n]
    {
      if stored.background.Some? {
        scene := Some(scene.value.(background := Css(stored.background.value)));
      }
      ghost var styled := scene;
      ghost var done: set<string> := {};
      var i := 0;
      while i < |nodes|
        invariant 0 <= i <= |nodes|
        invariant nodes == old(nodes) && scene == styled
        invariant hasCamera == old(hasCamera) && hasRenderer == old(hasRenderer)
        invariant vehicles.Keys == old(vehicles).Keys
        invariant forall j :: 0 <= j < i ==> nodes[j] in done
        invariant forall n :: n in done ==> n in nodes
        invariant forall n :: n in vehicles ==>
          vehicles[n] == if n in done then Restyled(old(vehicles)[n], stored, n) else old(vehicles)[n]
      {
        var node := nodes[i];
        RestyledIdempotent(old(vehicles)[node], stored, node);
        var v := vehicles[node];
        if node in stored.colors {
          v := v.(color := Css(stored.colors[node]));
        }
        if stored.nodeSize.Some? {
          v := v.(size := stored.nodeSize.value);
        }
        vehicles := vehicles[node := v];
        done := done + {node};
        i := i + 1;
      }
    }

    /**
     * `update`: without a scene, nothing happens; otherwise node i's sphere
     * is moved to `positions[i]`, axes swapped, node by node. When there are
     * fewer positions than nodes the loop throws at the first missing one,
     * after moving the nodes before it.
     */
    method Update(data: SimulationData) returns (completed: bool)
      requires Valid()
      modifies this
      ensures Valid()
      ensures nodes == old(nodes) && scene == old(scene)
      ensures hasCamera == old(hasCamera) && hasRenderer == old(hasRenderer)
      ensures old(scene).None? ==> completed && vehicles == old(vehicles)
      ensures old(scene).Some? ==> completed == (|nodes| <= |data.positions|)
      ensures old(scene).Some? ==>
        vehicles == Moved(old(vehicles), nodes, data.positions,
                          if |nodes| <= |data.positions| then |nodes| else |data.positions|)
    {
      if scene.None? {
        return true;
      }
      assert forall n :: n in nodes ==> n in old(vehicles);
      var i := 0;
      while i < |nodes|
        invariant 0 <= i <= |nodes| && i <= |data.positions|
        invariant nodes == old(nodes) && scene == old(scene)
        invariant hasCamera == old(hasCamera) && hasRenderer == old(hasRenderer)
        invariant vehicles == Moved(old(vehicles), nodes, data.positions, i)
      {
        if i >= |data.positions| {
          return false;
        }
        var node := nodes[i];
        vehicles := vehicles[node := vehicles[node].(position := AxisSwap(data.positions[i]))];
        i := i + 1;
      }
      completed := true;
    }

    /**
     * `executeCommand`: `paint_node`, `paint_environment` and `resize_nodes`
     * as `Execute` describes; any other command changes nothing. `ok` is
     * false when the command throws.
     */
    method ExecuteCommand(cmd: VisualizationCommand) returns (ok: bool)
      requires Valid()
      modifies this
      ensures Valid()
      ensures hasCamera == old(hasCamera) && hasRenderer == old(hasRenderer)
      ensures var r := Execute(old(Snapshot()), cmd);
        ok == r.Some? && Snapshot() == if r.Some? then r.value else old(Snapshot())
    {
      match cmd
      case PaintNode(id, color, showId) =>
        if !(0 <= id < |nodes|) {
          return false;
        }
        var node := nodes[id];
        var v := vehicles[node].(color := RgbText(color));
        if v.hasLabel {
          v := v.(hasLabel := showId);
        } else if showId {
          v := v.(hasLabel := true);
          scene := Some(scene.value.(children := scene.value.children + [Label(node)]));
        }
        vehicles := vehicles[node := v];
        ok := true;
      case PaintEnvironment(color) =>
        if scene.None? {
          return false;
        }
        scene := Some(scene.value.(background := RgbUnit(color)));
        ok := true;
      case ResizeNodes(size) =>
        ghost var before := vehicles;
        var pending := vehicles.Keys;
        while pending != {}
          invariant nodes == old(nodes) && scene == old(scene)
          invariant hasCamera == old(hasCamera) && hasRenderer == old(hasRenderer)
          invariant pending <= before.Keys && vehicles.Keys == before.Keys
          invariant forall m :: m in before ==>
            vehicles[m] == if m in pending then before[m] else before[m].(size := size)
          decreases pending
        {
          var m :| m in pending;
          vehicles := vehicles[m := vehicles[m].(size := size)];
          pending := pending - {m};
        }
        ok := true;
      case Other(_) =>
        ok := true;
    }

    /**
     * `finalizeVisualization`: empty the vehicles, remove the scene's
     * children one at a time from the front, then clear the node list and
     * drop the scene, camera and renderer. `removed` counts the removals.
     */
    method FinalizeVisualization() returns (removed: nat)
      requires Valid()
      modifies this
      ensures Valid()
      ensures vehicles == map[] && nodes == [] && scene.None? && !hasCamera && !hasRenderer
      ensures removed == if old(scene).Some? then |old(scene).value.children| else 0
    {
      vehicles := map[];
      removed := 0;
      if scene.Some? {
        while |scene.value.children| > 0
          invariant vehicles == map[] && nodes == old(nodes)
          invariant hasCamera == old(hasCamera) && hasRenderer == old(hasRenderer)
          invariant scene.Some? && scene.value.background == old(scene).value.background
          invariant removed + |scene.value.children| == |old(scene).value.children|
          invariant scene.value.children == old(scene).value.children[removed..]
          decreases |scene.value.children|
        {
          scene := Some(scene.value.(children := scene.value.children[1..]));
          removed := removed + 1;
        }
      }
      nodes := [];
      hasRenderer, hasCamera := false, false;
      scene := None;
    }
  }
}
