/**
 * Two handlers of the add-on whose logic does not depend on Blender's
 * geometry: the filter of `cmd_clear_scene`, which removes every object but
 * the cameras and lights it is asked to keep, and the axis table of
 * `cmd_rotate`. The scene is abstracted to its objects' names and types.
 */
module Scene {
  import opened Common
  import opened Json

  /** The type of a Blender object (`obj.type`): the two the filter looks at, and every other one by name ("MESH", "CURVE", ...). */
  datatype ObjectType = Camera | Light | OtherType(name: string)

  /** An object of `bpy.data.objects`: its name and its type. */
  datatype SceneObject = SceneObject(name: string, kind: ObjectType)

  /** Whether `clear_scene` keeps an object, given the two options. */
  predicate Keeps(keepCamera: bool, keepLights: bool, o: SceneObject)
  {
    (keepCamera && o.kind == Camera) || (keepLights && o.kind == Light)
  }

  /** The objects kept, in their order. */
  function Kept(objs: seq<SceneObject>, keepCamera: bool, keepLights: bool): (r: seq<SceneObject>)
    ensures |r| <= |objs|
  {
    if |objs| == 0 then []
    else if Keeps(keepCamera, keepLights, objs[0]) then [objs[0]] + Kept(objs[1..], keepCamera, keepLights)
    else Kept(objs[1..], keepCamera, keepLights)
  }

  /** The names of the objects removed, in their order. */
  function RemovedNames(objs: seq<SceneObject>, keepCamera: bool, keepLights: bool): (r: seq<string>)
    ensures |r| <= |objs|
  {
    if |objs| == 0 then []
    else if Keeps(keepCamera, keepLights, objs[0]) then RemovedNames(objs[1..], keepCamera, keepLights)
    else [objs[0].name] + RemovedNames(objs[1..], keepCamera, keepLights)
  }

  /** `params.get(key, True)` read as a condition. */
  function OptionOn(params: seq<(string, Json)>, key: string): bool
  {
    Truthy(GetOr(params, key, JBool(true)))
  }

  /** Every object is either kept or removed, never both: the two lists split the scene. */
  lemma {:induction false} KeptAndRemovedPartition(objs: seq<SceneObject>, keepCamera: bool, keepLights: bool)
    ensures |Kept(objs, keepCamera, keepLights)| + |RemovedNames(objs, keepCamera, keepLights)| == |objs|
    ensures forall o :: o in Kept(objs, keepCamera, keepLights) <==> o in objs && Keeps(keepCamera, keepLights, o)
    decreases |objs|
  {
    if |objs| > 0 {
      KeptAndRemovedPartition(objs[1..], keepCamera, keepLights);
      assert objs == [objs[0]] + objs[1..];
    }
  }

  /** An object not kept has its name in the removed list. */
  lemma {:induction false} RemovedListed(objs: seq<SceneObject>, keepCamera: bool, keepLights: bool, o: SceneObject)
    requires o in objs && !Keeps(keepCamera, keepLights, o)
    ensures o.name in RemovedNames(objs, keepCamera, keepLights)
    decreases |objs|
  {
    if objs[0] != o {
      RemovedListed(objs[1..], keepCamera, keepLights, o);
    }
  }

  /** With both options off the scene is emptied. */
  lemma {:induction false} ClearAll(objs: seq<SceneObject>)
    ensures Kept(objs, false, false) == []
    ensures |RemovedNames(objs, false, false)| == |objs|
    decreases |objs|
  {
    if |objs| > 0 {
      ClearAll(objs[1..]);
    }
  }

  /** The objects of the scene, which `clear_scene` removes from. */
  class Blend {
    var objects: seq<SceneObject>

    constructor (objs: seq<SceneObject>)
      ensures objects == objs
    {
      objects := objs;
    }

    /**
     * `cmd_clear_scene(params)`: both options default to true; the
     * response lists the names removed and their number.
     */
    method ClearScene(params: seq<(string, Json)>) returns (result: Json)
      modifies this
      ensures var kc, kl := OptionOn(params, "keep_camera"), OptionOn(params, "keep_lights");
              objects == Kept(old(objects), kc, kl) &&
              result == JObj([("removed", JArr(StrList(RemovedNames(old(objects), kc, kl)))),
                              ("count", JNum(|RemovedNames(old(objects), kc, kl)|))])
    {
      var keepCamera := OptionOn(params, "keep_camera");
      var keepLights := OptionOn(params, "keep_lights");
      var removed := RemoveUnkept(keepCamera, keepLights);
      result := JObj([("removed", JArr(StrList(removed))), ("count", JNum(|removed|))]);
    }

    /**
     * The loop of `cmd_clear_scene`: the objects are visited in order on a
     * copy of the list; each one not kept is recorded and removed from the
     * scene.
     */
    method RemoveUnkept(keepCamera: bool, keepLights: bool) returns (removed: seq<string>)
      modifies this
      ensures objects == Kept(old(objects), keepCamera, keepLights)
      ensures removed == RemovedNames(old(objects), keepCamera, keepLights)
    {
      var snapshot := objects;
      removed := [];
      var i, kept := 0, 0;
      while i < |snapshot|
        invariant 0 <= i <= |snapshot|
        invariant objects == Kept(snapshot[..i], keepCamera, keepLights) + snapshot[i..]
        invariant kept == |Kept(snapshot[..i], keepCamera, keepLights)|
        invariant removed == RemovedNames(snapshot[..i], keepCamera, keepLights)
      {
        var obj := snapshot[i];
        if keepCamera && obj.kind == Camera {
          KeepStep(snapshot, i, keepCamera, keepLights, objects);
          kept := kept + 1;
        } else if keepLights && obj.kind == Light {
          KeepStep(snapshot, i, keepCamera, keepLights, objects);
          kept := kept + 1;
        } else {
          RemoveStep(snapshot, i, keepCamera, keepLights, objects);
          removed := removed + [obj.name];
          objects := objects[..kept] + objects[kept + 1..];
        }
        i := i + 1;
      }
      assert snapshot[..i] == snapshot;
    }
  }

  /** A visit that keeps the object: it stays where it is, after the ones kept before it. */
  lemma KeepStep(snapshot: seq<SceneObject>, i: nat, keepCamera: bool, keepLights: bool, objects: seq<SceneObject>)
    requires i < |snapshot| && Keeps(keepCamera, keepLights, snapshot[i])
    requires objects == Kept(snapshot[..i], keepCamera, keepLights) + snapshot[i..]
    ensures objects == Kept(snapshot[..i + 1], keepCamera, keepLights) + snapshot[i + 1..]
    ensures |Kept(snapshot[..i + 1], keepCamera, keepLights)| == |Kept(snapshot[..i], keepCamera, keepLights)| + 1
    ensures RemovedNames(snapshot[..i + 1], keepCamera, keepLights) == RemovedNames(snapshot[..i], keepCamera, keepLights)
  {
    PrefixStep(snapshot, i, keepCamera, keepLights);
    assert snapshot[i..] == [snapshot[i]] + snapshot[i + 1..];
  }

  /**
   * A visit that removes the object: the scene is the objects kept so far
   * followed by those not yet visited, so the object sits right after the
   * kept ones, and removing that position removes it.
   */
  lemma RemoveStep(snapshot: seq<SceneObject>, i: nat, keepCamera: bool, keepLights: bool, objects: seq<SceneObject>)
    requires i < |snapshot| && !Keeps(keepCamera, keepLights, snapshot[i])
    requires objects == Kept(snapshot[..i], keepCamera, keepLights) + snapshot[i..]
    ensures var n := |Kept(snapshot[..i], keepCamera, keepLights)|;
            objects[..n] + objects[n + 1..] == Kept(snapshot[..i + 1], keepCamera, keepLights) + snapshot[i + 1..]
    ensures |Kept(snapshot[..i + 1], keepCamera, keepLights)| == |Kept(snapshot[..i], keepCamera, keepLights)|
    ensures RemovedNames(snapshot[..i + 1], keepCamera, keepLights) ==
              RemovedNames(snapshot[..i], keepCamera, keepLights) + [snapshot[i].name]
  {
    PrefixStep(snapshot, i, keepCamera, keepLights);
    var before := Kept(snapshot[..i], keepCamera, keepLights);
    var n := |before|;
    assert objects[..n] == before;
    assert objects[n + 1..] == snapshot[i + 1..];
  }

  /** Kept and RemovedNames of a prefix grow by the next object. */
  lemma PrefixStep(objs: seq<SceneObject>, i: nat, keepCamera: bool, keepLights: bool)
    requires i < |objs|
    ensures var o := objs[i];
            Kept(objs[..i + 1], keepCamera, keepLights) ==
              Kept(objs[..i], keepCamera, keepLights) + (if Keeps(keepCamera, keepLights, o) then [o] else [])
    ensures var o := objs[i];
            RemovedNames(objs[..i + 1], keepCamera, keepLights) ==
              RemovedNames(objs[..i], keepCamera, keepLights) + (if Keeps(keepCamera, keepLights, o) then [] else [o.name])
  {
    assert objs[..i + 1] == objs[..i] + [objs[i]];
    KeptAppend(objs[..i], objs[i], keepCamera, keepLights);
  }

  lemma {:induction false} KeptAppend(objs: seq<SceneObject>, o: SceneObject, keepCamera: bool, keepLights: bool)
    ensures Kept(objs + [o], keepCamera, keepLights) ==
              Kept(objs, keepCamera, keepLights) + (if Keeps(keepCamera, keepLights, o) then [o] else [])
    ensures RemovedNames(objs + [o], keepCamera, keepLights) ==
              RemovedNames(objs, keepCamera, keepLights) + (if Keeps(keepCamera, keepLights, o) then [] else [o.name])
    decreases |objs|
  {
    if |objs| == 0 {
      assert objs + [o] == [o];
    } else {
      assert (objs + [o])[1..] == objs[1..] + [o];
      KeptAppend(objs[1..], o, keepCamera, keepLights);
    }
  }

  // ---------------------------------------------------------------------
  // `cmd_rotate`'s axis.
  // ---------------------------------------------------------------------

  /** `str.upper` on the letters a to z; every other character is left as it is. */
  function UpperChar(c: char): char
  {
    if 'a' <= c <= 'z' then (c as int - 32) as char else c
  }

  function Upper(s: string): (r: string)
    ensures |r| == |s|
    ensures forall i :: 0 <= i < |s| ==> r[i] == UpperChar(s[i])
  {
    seq(|s|, i requires 0 <= i < |s| => UpperChar(s[i]))
  }

  /**
   * `{"X": 0, "Y": 1, "Z": 2}[params.get("axis", "Z").upper()]`: the index
   * of the rotated coordinate, or the error the handler raises (a value
   * that is not a string has no `upper`; any other text is a missing key).
   */
  function AxisIndex(params: seq<(string, Json)>): (r: Result<nat, string>)
    ensures r.Ok? ==> r.value < 3
  {
    var axis := GetOr(params, "axis", JStr("Z"));
    if !axis.JStr? then Err("AttributeError")
    else
      var key := Upper(axis.s);
      if key == "X" then Ok(0)
      else if key == "Y" then Ok(1)
      else if key == "Z" then Ok(2)
      else Err("KeyError")
  }

  /** Without an "axis" the rotation is about Z. */
  lemma AxisDefault(params: seq<(string, Json)>)
    requires forall i :: 0 <= i < |params| ==> params[i].0 != "axis"
    ensures AxisIndex(params) == Ok(2)
  {
    assert Upper("Z") == "Z";
  }

  /** A one-letter axis is taken in either case: x or X gives 0, y or Y gives 1, z or Z gives 2, any other letter is refused. */
  lemma AxisLetter(params: seq<(string, Json)>, c: char)
    requires Lookup(params, "axis") == Some(JStr([c]))
    ensures AxisIndex(params) ==
              if c == 'x' || c == 'X' then Ok(0)
              else if c == 'y' || c == 'Y' then Ok(1)
              else if c == 'z' || c == 'Z' then Ok(2)
              else Err("KeyError")
  {
    assert Upper([c]) == [UpperChar(c)];
  }

  /** An axis of any other length, or one that is not a string, is refused. */
  lemma AxisRefused(params: seq<(string, Json)>)
    requires Lookup(params, "axis").Some?
    requires var a := Lookup(params, "axis").value; !a.JStr? || |a.s| != 1
    ensures AxisIndex(params).Err?
  {
  }
}
