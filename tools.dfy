/**
 * The MCP tools of the server: each one builds the `params` dictionary for
 * one add-on command and calls `_send_command` with it. A tool is given
 * here by its arguments, and `Invoke` is the pair of arguments it passes to
 * `_send_command`: the command name and the parameters (None where the tool
 * passes none, so the default `{}` applies).
 *
 * Numbers are integers in this model, as JSON numbers are throughout; a
 * `list[float] = None` argument is a sequence, with None and the empty list
 * both falsy and so both left out of the request.
 */
module Tools {
  import opened Common
  import opened Json
  import Registry

  datatype Tool =
    | Ping
    | ListObjects
    | GetObjectInfo(name: string)
    | DeleteObject(name: string)
    | ClearScene(keepCamera: bool, keepLights: bool)
    | GetSceneInfo
    | CreateCube(name: string, size: int, location: seq<int>, rotation: seq<int>, scale: seq<int>)
    | CreateSphere(name: string, radius: int, segments: int, ringCount: int, location: seq<int>, rotation: seq<int>)
    | CreateIcoSphere(name: string, radius: int, subdivisions: int, location: seq<int>)
    | CreateCylinder(name: string, radius: int, depth: int, vertices: int, location: seq<int>, rotation: seq<int>)
    | CreateCone(name: string, radius1: int, radius2: int, depth: int, vertices: int, location: seq<int>)
    | CreateTorus(name: string, majorRadius: int, minorRadius: int, majorSegments: int, minorSegments: int,
                  location: seq<int>)
    | CreatePlane(name: string, size: int, location: seq<int>)
    | CreateMonkey(name: string, location: seq<int>)
    | CreateText(name: string, text: string, size: int, extrude: int, location: seq<int>)
    | SetLocation(name: string, location: seq<int>)
    | SetRotation(name: string, rotation: seq<int>)
    | SetScale(name: string, scale: seq<int>)
    | Translate(name: string, offset: seq<int>)
    | Rotate(name: string, axis: string, angle: int)
    | ScaleObject(name: string, factor: int)
    | AddModifier(name: string, modifierType: string, modifierName: string, properties: seq<(string, Json)>)
    | ApplyModifier(name: string, modifierName: string)
    | RemoveModifier(name: string, modifierName: string)
    | BooleanOperation(objectA: string, objectB: string, operation: string, resultName: string, deleteTool: bool)
    | SetMaterial(name: string, color: seq<int>, materialName: string, metallic: int, roughness: int)
    | ExportStl(filepath: string, selectedOnly: bool)
    | ExportObj(filepath: string)
    | ExportFbx(filepath: string)
    | ExportGltf(filepath: string)
    | ImportStl(filepath: string, name: string)
    | ImportObj(filepath: string)
    | ImportFbx(filepath: string)
    | RenderImage(filepath: string, resolutionX: int, resolutionY: int)
    | SetCamera(location: seq<int>, rotation: seq<int>, focalLength: int)
    | AddLight(name: string, lightType: string, energy: int, color: seq<int>, location: seq<int>)
    | SetRenderSettings(engine: string, resolutionX: int, resolutionY: int, samples: int, filmTransparent: bool)
    | RunBlenderScript(script: string)
    | SetParent(child: string, parent: string)
    | ClearParent(name: string)

  /** A list of numbers as JSON. */
  function Nums(xs: seq<int>): (r: Json)
    ensures r.JArr? && |r.items| == |xs|
    ensures forall i :: 0 <= i < |xs| ==> r.items[i] == JNum(xs[i])
  {
    JArr(seq(|xs|, i requires 0 <= i < |xs| => JNum(xs[i])))
  }

  /** Looking a key up after one more entry was appended. */
  lemma {:induction false} LookupAppend(fields: seq<(string, Json)>, key: string, value: Json, k: string)
    ensures Lookup(fields + [(key, value)], k) ==
              if Lookup(fields, k).Some? then Lookup(fields, k) else if k == key then Some(value) else None
    decreases |fields|
  {
    if |fields| > 0 {
      assert (fields + [(key, value)])[1..] == fields[1..] + [(key, value)];
      LookupAppend(fields[1..], key, value, k);
    }
  }

  /**
   * `if cond: params[key] = value`, on a key the dictionary does not hold
   * yet: the key is present afterwards exactly when the condition held.
   */
  function Put(fields: seq<(string, Json)>, cond: bool, key: string, value: Json): (r: seq<(string, Json)>)
    requires Lookup(fields, key).None?
    ensures Lookup(r, key) == if cond then Some(value) else None
  {
    if cond then
      LookupAppend(fields, key, value, key);
      fields + [(key, value)]
    else fields
  }

  /** Putting one key leaves every other key as it was. */
  lemma PutKeeps(fields: seq<(string, Json)>, cond: bool, key: string, value: Json, k: string)
    requires Lookup(fields, key).None? && k != key
    ensures Lookup(Put(fields, cond, key, value), k) == Lookup(fields, k)
  {
    LookupAppend(fields, key, value, k);
  }

  /** One `if cond: params[key] = value` of a tool. */
  datatype Optional = Optional(send: bool, key: string, value: Json)

  /** An optional list argument, sent only when it is not empty. */
  function ListArg(key: string, xs: seq<int>): Optional
  {
    Optional(xs != [], key, Nums(xs))
  }

  /** An optional string argument, sent only when it is not empty. */
  function TextArg(key: string, s: string): Optional
  {
    Optional(s != "", key, JStr(s))
  }

  /** The optional keys are distinct and none is among the fixed ones. */
  predicate Fresh(base: seq<(string, Json)>, opts: seq<Optional>)
  {
    (forall i :: 0 <= i < |opts| ==> Lookup(base, opts[i].key).None?) &&
    (forall i, j :: 0 <= i < j < |opts| ==> opts[i].key != opts[j].key)
  }

  /** The dictionary after the tool's conditional assignments, made in order. */
  function Build(base: seq<(string, Json)>, opts: seq<Optional>): seq<(string, Json)>
    requires Fresh(base, opts)
    decreases |opts|
  {
    if |opts| == 0 then base
    else
      var next := Put(base, opts[0].send, opts[0].key, opts[0].value);
      FreshAfterPut(base, opts);
      Build(next, opts[1..])
  }

  /** The first assignment keeps the other optional keys fresh. */
  lemma FreshAfterPut(base: seq<(string, Json)>, opts: seq<Optional>)
    requires Fresh(base, opts) && |opts| > 0
    ensures Fresh(Put(base, opts[0].send, opts[0].key, opts[0].value), opts[1..])
  {
    forall m | 1 <= m < |opts|
      ensures Lookup(Put(base, opts[0].send, opts[0].key, opts[0].value), opts[m].key).None?
    {
      PutKeeps(base, opts[0].send, opts[0].key, opts[0].value, opts[m].key);
    }
  }

  /**
   * After the conditional assignments an optional key holds its value
   * exactly when its condition held.
   */
  lemma {:induction false} BuildLookup(base: seq<(string, Json)>, opts: seq<Optional>, i: nat)
    requires Fresh(base, opts) && i < |opts|
    ensures Lookup(Build(base, opts), opts[i].key) == if opts[i].send then Some(opts[i].value) else None
    decreases |opts|
  {
    var next := Put(base, opts[0].send, opts[0].key, opts[0].value);
    FreshAfterPut(base, opts);
    if i == 0 {
      BuildBase(next, opts[1..], opts[0].key);
    } else {
      BuildLookup(next, opts[1..], i - 1);
    }
  }

  /** A key no conditional assignment touches keeps the value the fixed part gave it. */
  lemma {:induction false} BuildBase(base: seq<(string, Json)>, opts: seq<Optional>, k: string)
    requires Fresh(base, opts)
    requires forall i :: 0 <= i < |opts| ==> opts[i].key != k
    ensures Lookup(Build(base, opts), k) == Lookup(base, k)
    decreases |opts|
  {
    if |opts| > 0 {
      var next := Put(base, opts[0].send, opts[0].key, opts[0].value);
      FreshAfterPut(base, opts);
      PutKeeps(base, opts[0].send, opts[0].key, opts[0].value, k);
      BuildBase(next, opts[1..], k);
    }
  }

  // ---------------------------------------------------------------------
  // The parameter dictionaries of the tools with optional arguments.
  // ---------------------------------------------------------------------

  function CubeParams(name: string, size: int, location: seq<int>, rotation: seq<int>, scale: seq<int>): (p: seq<(string, Json)>)
    ensures Lookup(p, "location") == if location != [] then Some(Nums(location)) else None
    ensures Lookup(p, "rotation") == if rotation != [] then Some(Nums(rotation)) else None
    ensures Lookup(p, "scale") == if scale != [] then Some(Nums(scale)) else None
  {
    var base := [("name", JStr(name)), ("size", JNum(size))];
    var opts := [ListArg("location", location), ListArg("rotation", rotation), ListArg("scale", scale)];
    BuildLookup(base, opts, 0);
    BuildLookup(base, opts, 1);
    BuildLookup(base, opts, 2);
    Build(base, opts)
  }

  /** The fixed parameters, then `if location: params["location"] = location`. */
  function Located(base: seq<(string, Json)>, location: seq<int>): (p: seq<(string, Json)>)
    requires Lookup(base, "location").None?
    ensures Lookup(p, "location") == if location != [] then Some(Nums(location)) else None
    ensures forall k :: k != "location" ==> Lookup(p, k) == Lookup(base, k)
  {
    var opts := [ListArg("location", location)];
    BuildLookup(base, opts, 0);
    forall k | k != "location" ensures Lookup(Build(base, opts), k) == Lookup(base, k) {
      BuildBase(base, opts, k);
    }
    Build(base, opts)
  }

  /** The fixed parameters, then the optional `location` and `rotation`, each sent only when given. */
  function Placed(base: seq<(string, Json)>, location: seq<int>, rotation: seq<int>): (p: seq<(string, Json)>)
    requires Lookup(base, "location").None? && Lookup(base, "rotation").None?
    ensures Lookup(p, "location") == if location != [] then Some(Nums(location)) else None
    ensures Lookup(p, "rotation") == if rotation != [] then Some(Nums(rotation)) else None
    ensures forall k :: k != "location" && k != "rotation" ==> Lookup(p, k) == Lookup(base, k)
  {
    var opts := [ListArg("location", location), ListArg("rotation", rotation)];
    BuildLookup(base, opts, 0);
    BuildLookup(base, opts, 1);
    forall k | k != "location" && k != "rotation" ensures Lookup(Build(base, opts), k) == Lookup(base, k) {
      BuildBase(base, opts, k);
    }
    Build(base, opts)
  }

  function SphereParams(name: string, radius: int, segments: int, ringCount: int, location: seq<int>, rotation: seq<int>): (p: seq<(string, Json)>)
    ensures Lookup(p, "name") == Some(JStr(name))
    ensures Lookup(p, "location") == if location != [] then Some(Nums(location)) else None
    ensures Lookup(p, "rotation") == if rotation != [] then Some(Nums(rotation)) else None
  {
    Placed([("name", JStr(name)), ("radius", JNum(radius)), ("segments", JNum(segments)), ("ring_count", JNum(ringCount))],
           location, rotation)
  }

  function IcoSphereParams(name: string, radius: int, subdivisions: int, location: seq<int>): (p: seq<(string, Json)>)
    ensures Lookup(p, "name") == Some(JStr(name))
    ensures Lookup(p, "location") == if location != [] then Some(Nums(location)) else None
  {
    Located([("name", JStr(name)), ("radius", JNum(radius)), ("subdivisions", JNum(subdivisions))], location)
  }

  function CylinderParams(name: string, radius: int, depth: int, vertices: int, location: seq<int>, rotation: seq<int>): (p: seq<(string, Json)>)
    ensures Lookup(p, "name") == Some(JStr(name))
    ensures Lookup(p, "location") == if location != [] then Some(Nums(location)) else None
    ensures Lookup(p, "rotation") == if rotation != [] then Some(Nums(rotation)) else None
  {
    Placed([("name", JStr(name)), ("radius", JNum(radius)), ("depth", JNum(depth)), ("vertices", JNum(vertices))],
           location, rotation)
  }

  function ConeParams(name: string, radius1: int, radius2: int, depth: int, vertices: int, location: seq<int>): (p: seq<(string, Json)>)
    ensures Lookup(p, "name") == Some(JStr(name))
    ensures Lookup(p, "location") == if location != [] then Some(Nums(location)) else None
  {
    Located([("name", JStr(name)), ("radius1", JNum(radius1)), ("radius2", JNum(radius2)),
             ("depth", JNum(depth)), ("vertices", JNum(vertices))], location)
  }

  function TorusParams(name: string, majorRadius: int, minorRadius: int, majorSegments: int, minorSegments: int,
                       location: seq<int>): (p: seq<(string, Json)>)
    ensures Lookup(p, "name") == Some(JStr(name))
    ensures Lookup(p, "location") == if location != [] then Some(Nums(location)) else None
  {
    Located([("name", JStr(name)), ("major_radius", JNum(majorRadius)), ("minor_radius", JNum(minorRadius)),
             ("major_segments", JNum(majorSegments)), ("minor_segments", JNum(minorSegments))], location)
  }

  function PlaneParams(name: string, size: int, location: seq<int>): (p: seq<(string, Json)>)
    ensures Lookup(p, "name") == Some(JStr(name))
    ensures Lookup(p, "location") == if location != [] then Some(Nums(location)) else None
  {
    Located([("name", JStr(name)), ("size", JNum(size))], location)
  }

  function MonkeyParams(name: string, location: seq<int>): (p: seq<(string, Json)>)
    ensures Lookup(p, "name") == Some(JStr(name))
    ensures Lookup(p, "location") == if location != [] then Some(Nums(location)) else None
  {
    Located([("name", JStr(name))], location)
  }

  /** `create_text` always sends name, text and size, and the extrusion depth only when it is positive. */
  function TextParams(name: string, text: string, size: int, extrude: int, location: seq<int>): (p: seq<(string, Json)>)
    ensures Lookup(p, "name") == Some(JStr(name)) && Lookup(p, "text") == Some(JStr(text)) &&
            Lookup(p, "size") == Some(JNum(size))
    ensures Lookup(p, "extrude") == if extrude > 0 then Some(JNum(extrude)) else None
    ensures Lookup(p, "location") == if location != [] then Some(Nums(location)) else None
  {
    var base := [("name", JStr(name)), ("text", JStr(text)), ("size", JNum(size))];
    var opts := [Optional(extrude > 0, "extrude", JNum(extrude)), ListArg("location", location)];
    BuildLookup(base, opts, 0);
    BuildLookup(base, opts, 1);
    BuildBase(base, opts, "name");
    BuildBase(base, opts, "text");
    BuildBase(base, opts, "size");
    assert Lookup(base, "text") == Lookup(base[1..], "text");
    assert Lookup(base, "size") == Lookup(base[1..], "size") == Lookup(base[2..], "size");
    Build(base, opts)
  }

  /** The modifier's name is sent only when not empty, its properties only when the dictionary is not empty. */
  function ModifierParams(name: string, modifierType: string, modifierName: string, properties: seq<(string, Json)>): (p: seq<(string, Json)>)
    ensures Lookup(p, "modifier_name") == if modifierName != "" then Some(JStr(modifierName)) else None
    ensures Lookup(p, "properties") == if properties != [] then Some(JObj(properties)) else None
  {
    var base := [("name", JStr(name)), ("modifier_type", JStr(modifierType))];
    var opts := [TextArg("modifier_name", modifierName), Optional(properties != [], "properties", JObj(properties))];
    BuildLookup(base, opts, 0);
    BuildLookup(base, opts, 1);
    Build(base, opts)
  }

  function BooleanParams(objectA: string, objectB: string, operation: string, resultName: string, deleteTool: bool): (p: seq<(string, Json)>)
    ensures Lookup(p, "result_name") == if resultName != "" then Some(JStr(resultName)) else None
  {
    var base := [("object_a", JStr(objectA)), ("object_b", JStr(objectB)), ("operation", JStr(operation)),
                 ("delete_tool", JBool(deleteTool))];
    BuildLookup(base, [TextArg("result_name", resultName)], 0);
    Build(base, [TextArg("result_name", resultName)])
  }

  function MaterialParams(name: string, color: seq<int>, materialName: string, metallic: int, roughness: int): (p: seq<(string, Json)>)
    ensures Lookup(p, "material_name") == if materialName != "" then Some(JStr(materialName)) else None
  {
    var base := [("name", JStr(name)), ("color", Nums(color)), ("metallic", JNum(metallic)), ("roughness", JNum(roughness))];
    BuildLookup(base, [TextArg("material_name", materialName)], 0);
    Build(base, [TextArg("material_name", materialName)])
  }

  function ImportStlParams(filepath: string, name: string): (p: seq<(string, Json)>)
    ensures Lookup(p, "name") == if name != "" then Some(JStr(name)) else None
  {
    BuildLookup([("filepath", JStr(filepath))], [TextArg("name", name)], 0);
    Build([("filepath", JStr(filepath))], [TextArg("name", name)])
  }

  function RenderParams(filepath: string, resolutionX: int, resolutionY: int): (p: seq<(string, Json)>)
    ensures Lookup(p, "filepath") == if filepath != "" then Some(JStr(filepath)) else None
  {
    var base := [("resolution_x", JNum(resolutionX)), ("resolution_y", JNum(resolutionY))];
    BuildLookup(base, [TextArg("filepath", filepath)], 0);
    Build(base, [TextArg("filepath", filepath)])
  }

  /** `set_camera` sends the focal length only when it is positive, and the location and rotation only when given. */
  function CameraParams(location: seq<int>, rotation: seq<int>, focalLength: int): (p: seq<(string, Json)>)
    ensures Lookup(p, "location") == if location != [] then Some(Nums(location)) else None
    ensures Lookup(p, "rotation") == if rotation != [] then Some(Nums(rotation)) else None
    ensures Lookup(p, "focal_length") == if focalLength > 0 then Some(JNum(focalLength)) else None
  {
    var opts := [ListArg("location", location), ListArg("rotation", rotation),
                 Optional(focalLength > 0, "focal_length", JNum(focalLength))];
    BuildLookup([], opts, 0);
    BuildLookup([], opts, 1);
    BuildLookup([], opts, 2);
    Build([], opts)
  }

  function LightParams(name: string, lightType: string, energy: int, color: seq<int>, location: seq<int>): (p: seq<(string, Json)>)
    ensures Lookup(p, "color") == if color != [] then Some(Nums(color)) else None
    ensures Lookup(p, "location") == if location != [] then Some(Nums(location)) else None
  {
    var base := [("name", JStr(name)), ("type", JStr(lightType)), ("energy", JNum(energy))];
    var opts := [ListArg("color", color), ListArg("location", location)];
    BuildLookup(base, opts, 0);
    BuildLookup(base, opts, 1);
    Build(base, opts)
  }

  /**
   * `set_render_settings` sends only what is to change: the engine when it
   * is not empty, each of the resolutions and the sample count when
   * positive, and `film_transparent` only when true.
   */
  function RenderSettingsParams(engine: string, resolutionX: int, resolutionY: int, samples: int, filmTransparent: bool): (p: seq<(string, Json)>)
    ensures Lookup(p, "engine") == if engine != "" then Some(JStr(engine)) else None
    ensures Lookup(p, "resolution_x") == if resolutionX > 0 then Some(JNum(resolutionX)) else None
    ensures Lookup(p, "resolution_y") == if resolutionY > 0 then Some(JNum(resolutionY)) else None
    ensures Lookup(p, "samples") == if samples > 0 then Some(JNum(samples)) else None
    ensures Lookup(p, "film_transparent") == if filmTransparent then Some(JBool(true)) else None
  {
    var opts := [TextArg("engine", engine),
                 Optional(resolutionX > 0, "resolution_x", JNum(resolutionX)),
                 Optional(resolutionY > 0, "resolution_y", JNum(resolutionY)),
                 Optional(samples > 0, "samples", JNum(samples)),
                 Optional(filmTransparent, "film_transparent", JBool(filmTransparent))];
    assert Fresh([], opts);
    BuildLookup([], opts, 0);
    BuildLookup([], opts, 1);
    BuildLookup([], opts, 2);
    BuildLookup([], opts, 3);
    BuildLookup([], opts, 4);
    Build([], opts)
  }

  // ---------------------------------------------------------------------
  // The call each tool makes.
  // ---------------------------------------------------------------------

  /** The command a tool sends; three tools use a name different from their own. */
  function Command(t: Tool): string
  {
    match t
    case Ping => "ping"
    case ListObjects => "list_objects"
    case GetObjectInfo(_) => "get_object_info"
    case DeleteObject(_) => "delete_object"
    case ClearScene(_, _) => "clear_scene"
    case GetSceneInfo => "get_scene_info"
    case CreateCube(_, _, _, _, _) => "create_cube"
    case CreateSphere(_, _, _, _, _, _) => "create_uv_sphere"
    case CreateIcoSphere(_, _, _, _) => "create_ico_sphere"
    case CreateCylinder(_, _, _, _, _, _) => "create_cylinder"
    case CreateCone(_, _, _, _, _, _) => "create_cone"
    case CreateTorus(_, _, _, _, _, _) => "create_torus"
    case CreatePlane(_, _, _) => "create_plane"
    case CreateMonkey(_, _) => "create_monkey"
    case CreateText(_, _, _, _, _) => "create_text"
    case SetLocation(_, _) => "set_location"
    case SetRotation(_, _) => "set_rotation"
    case SetScale(_, _) => "set_scale"
    case Translate(_, _) => "translate"
    case Rotate(_, _, _) => "rotate"
    case ScaleObject(_, _) => "scale"
    case AddModifier(_, _, _, _) => "add_modifier"
    case ApplyModifier(_, _) => "apply_modifier"
    case RemoveModifier(_, _) => "remove_modifier"
    case BooleanOperation(_, _, _, _, _) => "boolean_operation"
    case SetMaterial(_, _, _, _, _) => "set_material"
    case ExportStl(_, _) => "export_stl"
    case ExportObj(_) => "export_obj"
    case ExportFbx(_) => "export_fbx"
    case ExportGltf(_) => "export_gltf"
    case ImportStl(_, _) => "import_stl"
    case ImportObj(_) => "import_obj"
    case ImportFbx(_) => "import_fbx"
    case RenderImage(_, _, _) => "render_image"
    case SetCamera(_, _, _) => "set_camera"
    case AddLight(_, _, _, _, _) => "add_light"
    case SetRenderSettings(_, _, _, _, _) => "set_render_settings"
    case RunBlenderScript(_) => "run_script"
    case SetParent(_, _) => "set_parent"
    case ClearParent(_) => "clear_parent"
  }

  /** The `params` a tool passes; None for the tools that pass none. */
  function Params(t: Tool): Option<seq<(string, Json)>>
  {
    match t
    case Ping => None
    case ListObjects => None
    case GetObjectInfo(name) => Some([("name", JStr(name))])
    case DeleteObject(name) => Some([("name", JStr(name))])
    case ClearScene(keepCamera, keepLights) => Some([("keep_camera", JBool(keepCamera)), ("keep_lights", JBool(keepLights))])
    case GetSceneInfo => None
    case CreateCube(name, size, location, rotation, scale) => Some(CubeParams(name, size, location, rotation, scale))
    case CreateSphere(name, radius, segments, ringCount, location, rotation) =>
      Some(SphereParams(name, radius, segments, ringCount, location, rotation))
    case CreateIcoSphere(name, radius, subdivisions, location) => Some(IcoSphereParams(name, radius, subdivisions, location))
    case CreateCylinder(name, radius, depth, vertices, location, rotation) =>
      Some(CylinderParams(name, radius, depth, vertices, location, rotation))
    case CreateCone(name, radius1, radius2, depth, vertices, location) =>
      Some(ConeParams(name, radius1, radius2, depth, vertices, location))
    case CreateTorus(name, majorRadius, minorRadius, majorSegments, minorSegments, location) =>
      Some(TorusParams(name, majorRadius, minorRadius, majorSegments, minorSegments, location))
    case CreatePlane(name, size, location) => Some(PlaneParams(name, size, location))
    case CreateMonkey(name, location) => Some(MonkeyParams(name, location))
    case CreateText(name, text, size, extrude, location) => Some(TextParams(name, text, size, extrude, location))
    case SetLocation(name, location) => Some([("name", JStr(name)), ("location", Nums(location))])
    case SetRotation(name, rotation) => Some([("name", JStr(name)), ("rotation", Nums(rotation))])
    case SetScale(name, scale) => Some([("name", JStr(name)), ("scale", Nums(scale))])
    case Translate(name, offset) => Some([("name", JStr(name)), ("offset", Nums(offset))])
    case Rotate(name, axis, angle) => Some([("name", JStr(name)), ("axis", JStr(axis)), ("angle", JNum(angle))])
    case ScaleObject(name, factor) => Some([("name", JStr(name)), ("factor", JNum(factor))])
    case AddModifier(name, modifierType, modifierName, properties) =>
      Some(ModifierParams(name, modifierType, modifierName, properties))
    case ApplyModifier(name, modifierName) => Some([("name", JStr(name)), ("modifier_name", JStr(modifierName))])
    case RemoveModifier(name, modifierName) => Some([("name", JStr(name)), ("modifier_name", JStr(modifierName))])
    case BooleanOperation(objectA, objectB, operation, resultName, deleteTool) =>
      Some(BooleanParams(objectA, objectB, operation, resultName, deleteTool))
    case SetMaterial(name, color, materialName, metallic, roughness) =>
      Some(MaterialParams(name, color, materialName, metallic, roughness))
    case ExportStl(filepath, selectedOnly) => Some([("filepath", JStr(filepath)), ("selected_only", JBool(selectedOnly))])
    case ExportObj(filepath) => Some([("filepath", JStr(filepath))])
    case ExportFbx(filepath) => Some([("filepath", JStr(filepath))])
    case ExportGltf(filepath) => Some([("filepath", JStr(filepath))])
    case ImportStl(filepath, name) => Some(ImportStlParams(filepath, name))
    case ImportObj(filepath) => Some([("filepath", JStr(filepath))])
    case ImportFbx(filepath) => Some([("filepath", JStr(filepath))])
    case RenderImage(filepath, resolutionX, resolutionY) => Some(RenderParams(filepath, resolutionX, resolutionY))
    case SetCamera(location, rotation, focalLength) => Some(CameraParams(location, rotation, focalLength))
    case AddLight(name, lightType, energy, color, location) => Some(LightParams(name, lightType, energy, color, location))
    case SetRenderSettings(engine, resolutionX, resolutionY, samples, filmTransparent) =>
      Some(RenderSettingsParams(engine, resolutionX, resolutionY, samples, filmTransparent))
    case RunBlenderScript(script) => Some([("script", JStr(script))])
    case SetParent(child, parent) => Some([("child", JStr(child)), ("parent", JStr(parent))])
    case ClearParent(name) => Some([("name", JStr(name))])
  }

  /** The arguments of the tool's `_send_command` call. */
  function Invoke(t: Tool): (string, Option<Json>)
  {
    (Command(t), match Params(t) case None => None case Some(p) => Some(JObj(p)))
  }

  // ---------------------------------------------------------------------
  // Properties.
  // ---------------------------------------------------------------------

  /** Every command a tool sends is one the add-on has a handler for, so no tool call meets "Comando sconosciuto". */
  lemma CommandRegistered(t: Tool)
    ensures Invoke(t).0 in Registry.HandlerNames
  {
  }
}
