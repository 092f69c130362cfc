/**
 * The workspace of the CAD server: the module-level dictionary from object
 * names to CadQuery workplanes that every tool reads or updates in place.
 *
 * The dictionary is the pair of its keys in insertion order and the map
 * they index; geometry is not modelled, so a workplane is an opaque handle
 * and each kernel operation is a parameter that either gives a new handle
 * or raises.
 */
module CadWorkspace {
  import opened Common
  import opened Json

  /** A CadQuery workplane, as an opaque handle. */
  datatype Shape = Shape(id: nat)

  /** The exceptions the workspace tools raise. */
  datatype CadError =
    | ValueError(message: string)
    | TypeError(message: string)
    | KernelError(message: string)   // raised by CadQuery, OpenCASCADE or the user's script

  /** The dictionary: its keys in insertion order, and what each key holds. */
  datatype Space = Space(keys: seq<string>, shapes: map<string, Shape>)

  const Empty := Space([], map[])

  ghost predicate Distinct(keys: seq<string>)
  {
    forall i, j :: 0 <= i < j < |keys| ==> keys[i] != keys[j]
  }

  /** The key order lists each key of the map exactly once. */
  ghost predicate Valid(s: Space)
  {
    Distinct(s.keys) && forall k :: k in s.shapes <==> k in s.keys
  }

  /** `_workspace[name] = shape`: a key already present keeps its place, a new key goes last. */
  function Put(s: Space, name: string, shape: Shape): Space
  {
    Space(if name in s.shapes then s.keys else s.keys + [name], s.shapes[name := shape])
  }

  /** The keys without `name`, the others in their order. */
  function Without(keys: seq<string>, name: string): (r: seq<string>)
    ensures forall k :: k in r <==> k in keys && k != name
    ensures |r| <= |keys|
  {
    if |keys| == 0 then []
    else (if keys[0] == name then [] else [keys[0]]) + Without(keys[1..], name)
  }

  /** `del _workspace[name]`. */
  function Remove(s: Space, name: string): Space
  {
    Space(Without(s.keys, name), s.shapes - {name})
  }

  // ---------------------------------------------------------------------
  // Properties of the dictionary updates.
  // ---------------------------------------------------------------------

  /**
   * Storing under a name keeps the dictionary well formed, makes the name
   * hold the new shape, and changes nothing else: every other name holds
   * what it held, and the existing keys keep their order, with a new name
   * added at the end.
   */
  lemma PutEffect(s: Space, name: string, shape: Shape)
    requires Valid(s)
    ensures var t := Put(s, name, shape);
            Valid(t) && name in t.shapes && t.shapes[name] == shape &&
            (forall k :: k != name ==> (k in t.shapes <==> k in s.shapes)) &&
            (forall k :: k != name && k in s.shapes ==> t.shapes[k] == s.shapes[k]) &&
            t.keys[..|s.keys|] == s.keys &&
            |t.keys| == |s.keys| + (if name in s.shapes then 0 else 1)
  {
    var t := Put(s, name, shape);
    if name !in s.shapes {
      assert t.keys[..|s.keys|] == s.keys;
      forall i, j | 0 <= i < j < |t.keys| ensures t.keys[i] != t.keys[j] {
        if j == |s.keys| {
          assert s.keys[i] in s.keys;
        }
      }
    }
  }

  /** In a list of distinct keys, removing one key is cutting it out at its position. */
  lemma {:induction false} WithoutAt(keys: seq<string>, i: nat)
    requires Distinct(keys) && i < |keys|
    ensures Without(keys, keys[i]) == keys[..i] + keys[i + 1..]
    decreases |keys|
  {
    if i == 0 {
      WithoutAbsent(keys[1..], keys[0]);
    } else {
      assert Distinct(keys[1..]);
      WithoutAt(keys[1..], i - 1);
      assert keys[1..][i - 1] == keys[i];
      assert keys[..i] == [keys[0]] + keys[1..][..i - 1];
      assert keys[i + 1..] == keys[1..][i..];
    }
  }

  /** Removing a key that is not there changes nothing. */
  lemma {:induction false} WithoutAbsent(keys: seq<string>, name: string)
    requires name !in keys
    ensures Without(keys, name) == keys
    decreases |keys|
  {
    if |keys| > 0 {
      assert keys[0] != name;
      WithoutAbsent(keys[1..], name);
      assert [keys[0]] + keys[1..] == keys;
    }
  }

  /** Cutting one element out of distinct keys leaves them distinct. */
  lemma CutDistinct(keys: seq<string>, i: nat)
    requires Distinct(keys) && i < |keys|
    ensures Distinct(keys[..i] + keys[i + 1..])
  {
    var r := keys[..i] + keys[i + 1..];
    forall a, b | 0 <= a < b < |r| ensures r[a] != r[b] {
      var a' := if a < i then a else a + 1;
      var b' := if b < i then b else b + 1;
      assert r[a] == keys[a'] && r[b] == keys[b'];
    }
  }

  /**
   * Deleting a present name keeps the dictionary well formed, removes that
   * name only, and leaves the other keys in their order.
   */
  lemma RemoveEffect(s: Space, name: string)
    requires Valid(s) && name in s.shapes
    ensures var t := Remove(s, name);
            Valid(t) && name !in t.shapes &&
            (forall k :: k != name ==> (k in t.shapes <==> k in s.shapes)) &&
            (forall k :: k in t.shapes ==> t.shapes[k] == s.shapes[k]) &&
            (exists i :: 0 <= i < |s.keys| && s.keys[i] == name && t.keys == s.keys[..i] + s.keys[i + 1..])
  {
    var i :| 0 <= i < |s.keys| && s.keys[i] == name;
    WithoutAt(s.keys, i);
    CutDistinct(s.keys, i);
  }

  /** Distinct keys are as many as the set they make up. */
  lemma {:induction false} DistinctCard(keys: seq<string>)
    requires Distinct(keys)
    ensures |(set k | k in keys)| == |keys|
    decreases |keys|
  {
    if |keys| > 0 {
      var rest := keys[1..];
      assert Distinct(rest);
      DistinctCard(rest);
      assert keys[0] !in rest;
      assert (set k | k in keys) == {keys[0]} + (set k | k in rest);
    }
  }

  /** A well-formed dictionary has as many entries as its key list has elements. */
  lemma KeysCount(s: Space)
    requires Valid(s)
    ensures |s.shapes| == |s.keys|
  {
    assert s.shapes.Keys == set k | k in s.keys;
    DistinctCard(s.keys);
  }

  // ---------------------------------------------------------------------
  // Messages and paths.
  // ---------------------------------------------------------------------

  /** The names between single quotes, separated by ", ". */
  function QuotedNames(names: seq<string>): string
  {
    if |names| == 0 then ""
    else if |names| == 1 then "'" + names[0] + "'"
    else "'" + names[0] + "', " + QuotedNames(names[1..])
  }

  /** The message of `_get_object` for a missing name, listing the names present. */
  function NotFoundMessage(name: string, keys: seq<string>): string
  {
    "Oggetto '" + name + "' non trovato. Oggetti disponibili: [" + QuotedNames(keys) + "]"
  }

  /** The file formats the export tools write. */
  datatype Format = Step | Stl(tolerance: int) | Svg

  function Extension(f: Format): string
  {
    match f
    case Step => ".step"
    case Stl(_) => ".stl"
    case Svg => ".svg"
  }

  /**
   * `str(Path(dir) / leaf)`: an absolute leaf replaces the directory, an
   * empty directory is the current one, and one separator joins the two.
   */
  function JoinPath(dir: string, leaf: string): (p: string)
    ensures |leaf| > 0 && leaf[0] == '/' ==> p == leaf
    ensures dir == "" ==> p == leaf
    ensures (leaf == "" || leaf[0] != '/') && dir != "" ==>
              p == dir + (if dir[|dir| - 1] == '/' then "" else "/") + leaf
  {
    if |leaf| > 0 && leaf[0] == '/' then leaf
    else if dir == "" then leaf
    else if dir[|dir| - 1] == '/' then dir + leaf
    else dir + "/" + leaf
  }

  /** `<export_dir>/<object_name>.<ext>`, the default output of an export. */
  function DefaultPath(exportDir: string, objectName: string, f: Format): (p: string)
    ensures |p| >= |Extension(f)| && p[|p| - |Extension(f)|..] == Extension(f)
    ensures exportDir == "" || (|objectName| > 0 && objectName[0] == '/') ==> p == objectName + Extension(f)
    ensures exportDir != "" && (objectName == "" || objectName[0] != '/') ==>
              p == exportDir + (if exportDir[|exportDir| - 1] == '/' then "" else "/") + objectName + Extension(f)
  {
    var leaf := objectName + Extension(f);
    assert leaf[|leaf| - |Extension(f)|..] == Extension(f);
    assert objectName != "" ==> leaf[0] == objectName[0];
    JoinPath(exportDir, leaf)
  }

  /** The report an export returns. */
  function ExportReport(path: string, f: Format): Json
  {
    match f
    case Step => JObj([("exported", JStr(path)), ("format", JStr("STEP"))])
    case Stl(tolerance) => JObj([("exported", JStr(path)), ("format", JStr("STL")), ("tolerance", JNum(tolerance))])
    case Svg => JObj([("exported", JStr(path)), ("format", JStr("SVG"))])
  }

  /** What a CadQuery script leaves in its locals under some name: a workplane or a value of another type. */
  datatype Value = Workplane(shape: Shape) | Other(typeName: string)

  const MissingResultMessage := "Lo script deve assegnare il risultato finale alla variabile 'result'."

  /** The value the script must leave in `result`, or the error raised. */
  function ScriptResult(locals: map<string, Value>): (r: Result<Shape, CadError>)
    ensures r.Ok? <==> "result" in locals && locals["result"].Workplane?
    ensures "result" !in locals ==> r == Err(ValueError(MissingResultMessage))
  {
    if "result" !in locals then Err(ValueError(MissingResultMessage))
    else match locals["result"]
      case Other(t) => Err(TypeError("'result' deve essere un cq.Workplane, ricevuto: " + t))
      case Workplane(s) => Ok(s)
  }

  // ---------------------------------------------------------------------
  // The workspace and its tools.
  // ---------------------------------------------------------------------

  class Workspace {
    var keys: seq<string>
    var shapes: map<string, Shape>
    /** `CAD_EXPORT_DIR`, or the working directory when unset. */
    const exportDir: string

    function Current(): Space
      reads this
    {
      Space(keys, shapes)
    }

    constructor (exportDir: string)
      ensures Current() == Empty && this.exportDir == exportDir
      ensures Valid(Current())
    {
      keys, shapes := [], map[];
      this.exportDir := exportDir;
    }

    /** `_get_object`: the stored workplane, or ValueError naming the ones present. */
    method GetObject(name: string) returns (r: Result<Shape, CadError>)
      ensures name in shapes ==> r == Ok(shapes[name])
      ensures name !in shapes ==> r == Err(ValueError(NotFoundMessage(name, keys)))
    {
      if name !in shapes {
        return Err(ValueError(NotFoundMessage(name, keys)));
      }
      return Ok(shapes[name]);
    }

    /** The store at the end of every creating tool: `_workspace[name] = wp`. */
    method Store(name: string, shape: Shape)
      requires Valid(Current())
      modifies this
      ensures Valid(Current())
      ensures Current() == Put(old(Current()), name, shape)
    {
      PutEffect(Current(), name, shape);
      if name !in shapes {
        keys := keys + [name];
      }
      shapes := shapes[name := shape];
    }

    /**
     * A tool deriving a new object from one operand (translate, rotate,
     * mirror, fillet, chamfer, shell): a missing operand or a kernel error
     * raises before anything is stored.
     */
    method DeriveOne(name: string, objectName: string, op: Shape -> Result<Shape, string>)
      returns (r: Result<Shape, CadError>)
      requires Valid(Current())
      modifies this
      ensures Valid(Current())
      ensures objectName !in old(shapes) ==>
                r == Err(ValueError(NotFoundMessage(objectName, old(keys)))) && Current() == old(Current())
      ensures objectName in old(shapes) && op(old(shapes)[objectName]).Err? ==>
                r == Err(KernelError(op(old(shapes)[objectName]).error)) && Current() == old(Current())
      ensures objectName in old(shapes) && op(old(shapes)[objectName]).Ok? ==>
                r == Ok(op(old(shapes)[objectName]).value) && Current() == Put(old(Current()), name, r.value)
    {
      var obj := GetObject(objectName);
      if obj.Err? {
        return Err(obj.error);
      }
      match op(obj.value) {
        case Err(m) =>
          r := Err(KernelError(m));
        case Ok(result) =>
          Store(name, result);
          r := Ok(result);
      }
    }

    /**
     * A boolean operation: `object_a` is looked up first, then `object_b`;
     * a missing operand or a kernel error raises before anything is stored.
     */
    method DeriveTwo(name: string, objectA: string, objectB: string, op: (Shape, Shape) -> Result<Shape, string>)
      returns (r: Result<Shape, CadError>)
      requires Valid(Current())
      modifies this
      ensures Valid(Current())
      ensures objectA !in old(shapes) ==>
                r == Err(ValueError(NotFoundMessage(objectA, old(keys)))) && Current() == old(Current())
      ensures objectA in old(shapes) && objectB !in old(shapes) ==>
                r == Err(ValueError(NotFoundMessage(objectB, old(keys)))) && Current() == old(Current())
      ensures objectA in old(shapes) && objectB in old(shapes) ==>
                var o := op(old(shapes)[objectA], old(shapes)[objectB]);
                (o.Err? ==> r == Err(KernelError(o.error)) && Current() == old(Current())) &&
                (o.Ok? ==> r == Ok(o.value) && Current() == Put(old(Current()), name, o.value))
    {
      var a := GetObject(objectA);
      if a.Err? {
        return Err(a.error);
      }
      var b := GetObject(objectB);
      if b.Err? {
        return Err(b.error);
      }
      match op(a.value, b.value) {
        case Err(m) =>
          r := Err(KernelError(m));
        case Ok(result) =>
          Store(name, result);
          r := Ok(result);
      }
    }

    /**
     * `run_cadquery_script`, given what `exec` did: raised, or left these
     * locals. The result is stored only when `result` is present and is a
     * workplane.
     */
    method RunCadqueryScript(name: string, exec: Result<map<string, Value>, string>)
      returns (r: Result<Shape, CadError>)
      requires Valid(Current())
      modifies this
      ensures Valid(Current())
      ensures exec.Err? ==> r == Err(KernelError(exec.error)) && Current() == old(Current())
      ensures exec.Ok? ==> r == ScriptResult(exec.value)
      ensures exec.Ok? && r.Err? ==> Current() == old(Current())
      ensures r.Ok? ==> Current() == Put(old(Current()), name, r.value)
    {
      if exec.Err? {
        return Err(KernelError(exec.error));
      }
      r := ScriptResult(exec.value);
      if r.Ok? {
        Store(name, r.value);
      }
    }

    /**
     * The export tools: the object must exist; an empty path means the
     * default file in the export directory; `writer` is what CadQuery's
     * exporter does with the file (None when it writes it). The workspace
     * is not changed.
     */
    method Export(objectName: string, filepath: string, f: Format, writer: Option<string>)
      returns (r: Result<Json, CadError>)
      ensures objectName !in shapes ==> r == Err(ValueError(NotFoundMessage(objectName, keys)))
      ensures objectName in shapes && writer.Some? ==> r == Err(KernelError(writer.value))
      ensures objectName in shapes && writer.None? ==>
                r == Ok(ExportReport(if filepath == "" then DefaultPath(exportDir, objectName, f) else filepath, f))
    {
      var obj := GetObject(objectName);
      if obj.Err? {
        return Err(obj.error);
      }
      var path := filepath;
      if path == "" {
        path := DefaultPath(exportDir, objectName, f);
      }
      if writer.Some? {
        return Err(KernelError(writer.value));
      }
      return Ok(ExportReport(path, f));
    }

    /**
     * `list_objects`: an empty workspace gives an empty list and a message;
     * otherwise one summary per object in insertion order, and the count of
     * objects.
     */
    function ListObjects(summary: (string, Shape) -> Json): (r: Json)
      reads this
      requires Valid(Current())
      ensures r.JObj? && |r.fields| == 2 && r.fields[0].0 == "objects" && r.fields[0].1.JArr?
      ensures |r.fields[0].1.items| == |keys| == |shapes|
      ensures shapes == map[] <==> r.fields[1] == ("message", JStr("Workspace vuoto."))
      ensures shapes != map[] ==> r.fields[1] == ("count", JNum(|shapes|))
      ensures forall i :: 0 <= i < |keys| ==> keys[i] in shapes && r.fields[0].1.items[i] == summary(keys[i], shapes[keys[i]])
    {
      KeysCount(Current());
      if keys == [] then
        JObj([("objects", JArr([])), ("message", JStr("Workspace vuoto."))])
      else
        var ks, sh := keys, shapes;
        var summaries := seq(|ks|, i requires 0 <= i < |ks| && ks[i] in sh => summary(ks[i], sh[ks[i]]));
        JObj([("objects", JArr(summaries)), ("count", JNum(|summaries|))])
    }

    /** `delete_object`: a missing name raises and changes nothing; otherwise only that name goes. */
    method DeleteObject(name: string) returns (r: Result<Json, CadError>)
      requires Valid(Current())
      modifies this
      ensures Valid(Current())
      ensures name !in old(shapes) ==>
                r == Err(ValueError("Oggetto '" + name + "' non trovato.")) && Current() == old(Current())
      ensures name in old(shapes) ==>
                Current() == Remove(old(Current()), name) &&
                r == Ok(JObj([("deleted", JStr(name)), ("remaining", JArr(StrList(keys)))]))
    {
      if name !in shapes {
        return Err(ValueError("Oggetto '" + name + "' non trovato."));
      }
      RemoveEffect(Current(), name);
      keys := Without(keys, name);
      shapes := shapes - {name};
      return Ok(JObj([("deleted", JStr(name)), ("remaining", JArr(StrList(keys)))]));
    }

    /** `clear_workspace`: reports how many objects there were, and leaves none. */
    method ClearWorkspace() returns (r: Json)
      requires Valid(Current())
      modifies this
      ensures Valid(Current())
      ensures Current() == Empty
      ensures r == JObj([("cleared", JNum(|old(shapes)|)), ("message", JStr("Workspace svuotato."))])
    {
      var count := |shapes|;
      keys, shapes := [], map[];
      return JObj([("cleared", JNum(count)), ("message", JStr("Workspace svuotato."))]);
    }
  }
}
