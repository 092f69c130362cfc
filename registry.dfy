/**
 * The add-on's command table and `_handle_command`, and the hand-off of a
 * decoded request to Blender's main thread with a 60-second wait.
 *
 * The handlers themselves call into Blender and are outside the model: a
 * `Host` says, for the k-th request of a connection, what the named handler
 * returns or raises, and whether the main thread ran the scheduled work
 * before the waiting thread gave up. Both are free choices, so every
 * property below holds whatever Blender and the scheduler do.
 */
module Registry {
  import opened Common
  import opened Json

  /** The keys of the handler table, in the order `list(handlers.keys())` yields them. */
  const HandlerNames: seq<string> := [
    "ping", "list_objects", "get_object_info", "delete_object", "clear_scene",
    "get_scene_info", "create_cube", "create_sphere", "create_uv_sphere",
    "create_ico_sphere", "create_cylinder", "create_cone", "create_torus",
    "create_plane", "create_circle", "create_monkey", "create_text",
    "create_bezier_curve", "set_location", "set_rotation", "set_scale",
    "translate", "rotate", "scale", "add_modifier", "apply_modifier",
    "remove_modifier", "boolean_operation", "set_material", "set_parent",
    "clear_parent", "export_stl", "export_obj", "export_fbx", "export_gltf",
    "import_stl", "import_obj", "import_fbx", "render_image", "set_camera",
    "add_light", "set_render_settings", "run_script"
  ]

  /** What a handler does with its `params`: return a value or raise. */
  datatype HandlerOutcome =
    | Returned(result: Json)
    | Raised(message: string, traceback: string)

  /**
   * The environment of the main thread. `run(k, name, params)` is the outcome
   * of handler `name` for the k-th request of the connection (Blender's state
   * at that moment is folded into k); `inTime(k)` says whether the timer
   * callback for that request ran before the 60-second wait ended.
   */
  datatype Host = Host(run: (nat, string, Json) -> HandlerOutcome, inTime: nat -> bool)

  // ---------------------------------------------------------------------
  // Response envelopes.
  // ---------------------------------------------------------------------

  function SuccessEnvelope(result: Json): Json
  {
    JObj([("ok", JBool(true)), ("result", result)])
  }

  function RaisedEnvelope(message: string, traceback: string): Json
  {
    JObj([("ok", JBool(false)), ("error", JStr(message)), ("traceback", JStr(traceback))])
  }

  function UnknownEnvelope(command: Json): Json
    requires Hashable(command)
  {
    JObj([("ok", JBool(false)),
          ("error", JStr("Comando sconosciuto: '" + PyStr(command) + "'")),
          ("available", JArr(StrList(HandlerNames)))])
  }

  const TimeoutEnvelope: Json := JObj([("ok", JBool(false)), ("error", JStr("Timeout 60s."))])

  function ParseErrorEnvelope(message: string): Json
  {
    JObj([("ok", JBool(false)), ("error", JStr("JSON non valido: " + message))])
  }

  /** Every response the add-on sends is an object whose first key is a boolean "ok". */
  predicate IsEnvelope(j: Json)
  {
    j.JObj? && |j.fields| > 0 && j.fields[0].0 == "ok" && j.fields[0].1.JBool?
  }

  function OkFlag(j: Json): bool
    requires IsEnvelope(j)
  {
    j.fields[0].1.b
  }

  // ---------------------------------------------------------------------
  // `_handle_command`.
  // ---------------------------------------------------------------------

  /** `data.get("command", "")`. */
  function CommandOf(fields: seq<(string, Json)>): Json
  {
    GetOr(fields, "command", JStr(""))
  }

  /** `data.get("params", {})`. */
  function ParamsOf(fields: seq<(string, Json)>): Json
  {
    GetOr(fields, "params", JObj([]))
  }

  /**
   * `_handle_command(data)` run on the main thread with handlers `run`.
   * None stands for an exception escaping it: `data.get` on a value that is
   * not an object, or `handlers.get` on an unhashable command.
   */
  function HandleCommand(data: Json, run: (string, Json) -> HandlerOutcome): (r: Option<Json>)
    ensures r.None? <==> !data.JObj? || !Hashable(CommandOf(data.fields))
    ensures r.Some? ==> IsEnvelope(r.value)
    ensures r.Some? && OkFlag(r.value) ==>
              CommandOf(data.fields).JStr? && CommandOf(data.fields).s in HandlerNames
  {
    if !data.JObj? then None
    else
      var command := CommandOf(data.fields);
      var params := ParamsOf(data.fields);
      if !Hashable(command) then None
      else if !command.JStr? || command.s !in HandlerNames then Some(UnknownEnvelope(command))
      else
        match run(command.s, params)
        case Returned(result) => Some(SuccessEnvelope(result))
        case Raised(message, traceback) => Some(RaisedEnvelope(message, traceback))
  }

  /**
   * An unknown command name gets `ok` false, an error naming it, and the full
   * list of registered names; no handler is consulted, so the answer is the
   * same whatever the handlers would do.
   */
  lemma UnknownCommand(fields: seq<(string, Json)>, run: (string, Json) -> HandlerOutcome,
                       other: (string, Json) -> HandlerOutcome)
    requires Hashable(CommandOf(fields))
    requires !(CommandOf(fields).JStr? && CommandOf(fields).s in HandlerNames)
    ensures HandleCommand(JObj(fields), run) == HandleCommand(JObj(fields), other)
    ensures var r := HandleCommand(JObj(fields), run).value;
            !OkFlag(r) &&
            Lookup(r.fields, "available") == Some(JArr(StrList(HandlerNames))) &&
            (forall n :: n in HandlerNames <==> JStr(n) in StrList(HandlerNames))
  {
    var names := StrList(HandlerNames);
    var r := HandleCommand(JObj(fields), run).value;
    assert Lookup(r.fields, "available") == Lookup(r.fields[1..], "available") == Lookup(r.fields[2..], "available");
    forall n ensures n in HandlerNames <==> JStr(n) in names {
      if JStr(n) in names {
        var i :| 0 <= i < |names| && names[i] == JStr(n);
        assert HandlerNames[i] == n;
      }
      if n in HandlerNames {
        var i :| 0 <= i < |HandlerNames| && HandlerNames[i] == n;
        assert names[i] == JStr(n);
      }
    }
  }

  /** A request without a "command" key is treated as the unknown name "". */
  lemma MissingCommand(fields: seq<(string, Json)>, run: (string, Json) -> HandlerOutcome)
    requires forall i :: 0 <= i < |fields| ==> fields[i].0 != "command"
    ensures HandleCommand(JObj(fields), run) == Some(UnknownEnvelope(JStr("")))
    ensures Lookup(UnknownEnvelope(JStr("")).fields, "error") == Some(JStr("Comando sconosciuto: ''"))
  {
    forall i | 0 <= i < |HandlerNames| ensures |HandlerNames[i]| > 0 {
    }
    assert "" !in HandlerNames;
    var r := UnknownEnvelope(JStr(""));
    assert Lookup(r.fields, "error") == Lookup(r.fields[1..], "error");
    assert PyStr(JStr("")) == "";
    assert "Comando sconosciuto: '" + "" + "'" == "Comando sconosciuto: ''";
  }

  /**
   * A registered name runs its handler on the request's "params" (an empty
   * object when the key is missing): a returned value r gives
   * `{"ok": true, "result": r}`, a raised exception gives `ok` false with
   * its message under "error" and the trace under "traceback".
   */
  lemma RegisteredCommand(fields: seq<(string, Json)>, run: (string, Json) -> HandlerOutcome, name: string)
    requires CommandOf(fields) == JStr(name) && name in HandlerNames
    ensures var p := ParamsOf(fields);
            (forall i :: 0 <= i < |fields| ==> fields[i].0 != "params") ==> p == JObj([])
    ensures var r := HandleCommand(JObj(fields), run).value;
            match run(name, ParamsOf(fields))
            case Returned(v) =>
              OkFlag(r) && Lookup(r.fields, "result") == Some(v)
            case Raised(m, t) =>
              !OkFlag(r) && Lookup(r.fields, "error") == Some(JStr(m)) &&
              Lookup(r.fields, "traceback") == Some(JStr(t))
  {
    var r := HandleCommand(JObj(fields), run).value;
    if r.fields != [] && r.fields[1..] != [] {
      assert Lookup(r.fields, "traceback") == Lookup(r.fields[1..], "traceback") == Lookup(r.fields[2..], "traceback");
    }
  }

  // ---------------------------------------------------------------------
  // The main-thread hand-off.
  // ---------------------------------------------------------------------

  /** The handlers as Blender answers them for the k-th request. */
  function HandlersAt(host: Host, k: nat): (string, Json) -> HandlerOutcome
  {
    (name, params) => host.run(k, name, params)
  }

  /**
   * `result_holder[0]` when `done_event.wait(timeout=60.0)` returns: filled
   * only if the timer callback ran in time and `_handle_command` did not
   * raise inside it.
   */
  function SlotAfterWait(data: Json, k: nat, host: Host): (slot: Option<Json>)
    ensures slot.Some? ==> host.inTime(k) && HandleCommand(data, HandlersAt(host, k)) == slot
  {
    if host.inTime(k) then HandleCommand(data, HandlersAt(host, k)) else None
  }

  /** The response built from the slot: the timeout envelope when empty, the slot's value otherwise. */
  function Await(slot: Option<Json>): Json
  {
    match slot
    case None => TimeoutEnvelope
    case Some(r) => r
  }

  /** The response to a decoded request. */
  function Dispatch(data: Json, k: nat, host: Host): (r: Json)
    ensures IsEnvelope(r)
  {
    Await(SlotAfterWait(data, k, host))
  }

  /**
   * The client sees the timeout envelope exactly when the slot is still
   * empty after the wait; otherwise it sees exactly the slot's value. A
   * value that is not an object, or an unhashable command, never fills the
   * slot and so always ends in the timeout envelope.
   */
  lemma TimeoutIffSlotEmpty(data: Json, k: nat, host: Host)
    ensures Dispatch(data, k, host) == TimeoutEnvelope <==> SlotAfterWait(data, k, host).None?
    ensures SlotAfterWait(data, k, host).Some? ==> Dispatch(data, k, host) == SlotAfterWait(data, k, host).value
    ensures !data.JObj? ==> Dispatch(data, k, host) == TimeoutEnvelope
  {
    var slot := SlotAfterWait(data, k, host);
    if slot.Some? {
      var r := slot.value;
      assert data.JObj?;
      var command := CommandOf(data.fields);
      if command.JStr? && command.s in HandlerNames {
        match HandlersAt(host, k)(command.s, ParamsOf(data.fields))
        case Returned(v) => assert r.fields[0].1 != TimeoutEnvelope.fields[0].1;
        case Raised(m, t) => assert |r.fields| != |TimeoutEnvelope.fields|;
      } else {
        assert |r.fields| != |TimeoutEnvelope.fields|;
      }
    }
  }
}
