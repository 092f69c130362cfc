# A Dafny model of the Blender and CadQuery MCP bridges

The repository connects an AI assistant to two CAD back ends. It has four parts.

- **The Blender add-on** (`blender_mcp_addon.py`) runs a TCP server inside Blender.
  - It reads newline-terminated JSON requests on each connection.
  - It hands each request to Blender's main thread through a timer, waits up to 60 seconds, and writes one JSON response line back.
  - A table maps command names to handlers.
  - Panel operators and `register`/`unregister` switch the server on and off through a module-level flag.
- **The Blender MCP server** (`blender_mcp_server.py`) is the client side.
  - `_send_command` sends one request, reads the first reply line and turns it into a value or an exception.
  - Each MCP tool builds the parameters of one command. Its optional arguments are sent only when they are given.
- **The CadQuery MCP server** (`freecad_mcp_server.py`) keeps a workspace: a dictionary from object names to CadQuery workplanes.
  - Its tools create objects, derive objects from other objects, run scripts, export files, and list, delete and clear objects.
- **Two stand-alone scripts:**
  - `create_appdata_directory.py` computes and creates the desktop client's data directory.
  - `step_to_stl.py` converts a STEP file to STL.

The model is one Dafny module per concern.

- **`Common`, `Json`, `Utf8`:** the shared data.
  - `Common` holds the option and result types, bytes and the search for the first line feed.
  - `Json` holds JSON values and the exact text `json.dumps` writes with `ensure_ascii`.
  - `Utf8` is strict UTF-8 decoding, as `bytes.decode("utf-8")` does it.
- **`Registry`:** the add-on's command table, `_handle_command`, and the main-thread hand-off with its 60-second slot.
- **`Connection`:** `_handle_client`.
  - `Serve` is a function of the whole byte stream.
  - `HandleClient` is the chunked receive loop. It is proved equal to `Serve` however the bytes are split into chunks.
- **`Lifecycle`:** the `_running` flag, the operators, `register`/`unregister`, and the accept loop of `_server_loop`.
- **`Scene`:** the filter of `cmd_clear_scene` and the axis table of `cmd_rotate`.
- **`Client`:** `_send_command`. It includes the round trip through the add-on.
- **`Tools`:** the command each MCP tool sends, and the optional-argument rules of the tools that have them.
- **`CadWorkspace`:** the CadQuery workspace.
  - It is a class whose fields are the dictionary's keys in insertion order and the map they index.
  - Its methods are the tools.
  - What they do to the dictionary is stated through the pure functions `Put` and `Remove`.
- **`AppData`:** `get_claude_appdata_dir` and `main` of the directory script.
- **`StepToStl`:** the checks and the output-path choice of the converter's `main`.

These parts are abstract and enter the model as parameters:

- Blender itself, the main-thread scheduler, `json.loads`, the socket, CadQuery and OpenCASCADE;
- the file system.

Every property is stated for all behaviours of those parameters.

## Model

| member | source | states |
|---|---|---|
| Json.Lookup | blender_mcp_server.py:60-65 | `dict.get` on an object's members: None exactly when no member has the key, otherwise a value bound to the key |
| Json.IntText | blender_mcp_addon.py:686 | the decimal text of an integer is non-empty printable ASCII and starts with a minus sign exactly when the integer is negative |
| Json.EscapeChar | blender_mcp_addon.py:686 | with `ensure_ascii` every character is written as printable ASCII; a line feed becomes `\n` and printable ASCII other than the quote and backslash stays as it is |
| Json.EscapeString | blender_mcp_addon.py:686 | an escaped string is printable ASCII and at least as long as the string |
| Json.Quote | blender_mcp_addon.py:686 | a string literal starts with a double quote and is printable ASCII |
| Json.StrList | blender_mcp_addon.py:206 | a list of names is the JSON array of the same strings in the same order |
| Json.EncodePrintable | blender_mcp_addon.py:686 | the text `json.dumps` writes is non-empty printable ASCII not starting with a space, so it never holds a raw line feed |
| Json.EncodeBytes | blender_mcp_addon.py:686 | the UTF-8 bytes of an encoded response are non-empty and hold no line feed |
| Utf8.DecodeAscii | blender_mcp_addon.py:667 | bytes below 0x80 always decode, one character per byte, with the same codes |
| Utf8.SequenceLength | blender_mcp_addon.py:667 | a leading byte announces a sequence of at most four bytes |
| Utf8.DecodeOne | blender_mcp_addon.py:667 | a decoded character uses exactly the bytes its leading byte announces, and an ASCII byte decodes to itself |
| Utf8.AsciiRoundTrip | blender_mcp_server.py:62 | the bytes of `json.dumps` output decode back to the same text |
| Registry.HandleCommand | blender_mcp_addon.py:45-104 | `_handle_command` raises exactly when the request is not an object or its command is unhashable; otherwise it answers with an envelope, and `ok` true only for a registered command name |
| Registry.UnknownCommand | blender_mcp_addon.py:95-97 | an unknown name gets `ok` false and the full list of registered names under "available", and no handler is consulted |
| Registry.MissingCommand | blender_mcp_addon.py:45-97 | a request without "command" is answered as the unknown name `''`, which no handler is registered under |
| Registry.RegisteredCommand | blender_mcp_addon.py:47-102 | a registered name runs its handler on "params" (`{}` when missing); a returned value is sent under "result" with `ok` true, an exception as `ok` false with its message and traceback |
| Registry.SlotAfterWait | blender_mcp_addon.py:669-677 | the result slot is filled only when the timer ran within the 60-second wait and `_handle_command` returned, and then with this request's envelope; this is the callback bound to its own request (see Findings) |
| Registry.Dispatch | blender_mcp_addon.py:669-681 | the response to a decoded request is always an envelope |
| Registry.TimeoutIffSlotEmpty | blender_mcp_addon.py:677-681 | the client gets "Timeout 60s." exactly when the slot is empty after the wait, and otherwise exactly the slot's value; a request that is not an object always times out |
| Callback.InTimeAgrees | blender_mcp_addon.py:669-677 | a callback that finishes while its own line is current fills its own holder with its own request's envelope, as the bound callback does |
| Callback.EarlyBoundOwnRequest | blender_mcp_addon.py:669-677 | bound per request, a callback fills only its own request's holder with its own request's envelope, whenever it runs, and that is the slot `SlotAfterWait` gives |
| Callback.EchoEnvelope | blender_mcp_addon.py:45-102 | with handlers that return their own name, a registered request's envelope carries its name under "result" |
| Callback.CrossedReply | blender_mcp_addon.py:667-677 | as written, a `ping` callback that ends after `list_objects` was decoded fills the `list_objects` holder with the `ping` envelope |
| Callback.RerunRequest | blender_mcp_addon.py:667-677 | as written, a `ping` callback that starts after `list_objects` was decoded runs `list_objects`, not `ping` |
| Connection.HandleLine | blender_mcp_addon.py:666-684 | in the model, a line is dropped when it is not UTF-8 and otherwise answered with an envelope; the other exceptions that escape are listed under Left out |
| Connection.FrameBytes | blender_mcp_addon.py:686-687 | a response frame ends in a line feed and holds no other |
| Connection.ServeLineFirst | blender_mcp_addon.py:662-687 | the first complete line is handled first: skipped when blank, otherwise answered or the end of the connection, and the rest is served as the next line |
| Connection.ServeNoNewline | blender_mcp_addon.py:662 | bytes with no line feed are never answered |
| Connection.Lines | blender_mcp_addon.py:662-663 | the complete lines of a stream, each free of line feeds |
| Connection.BlankLineSkipped | blender_mcp_addon.py:664-665 | an empty or white-space line gets no response and does not affect what follows |
| Connection.NonUtf8LineDrops | blender_mcp_addon.py:667-691 | a line that is not UTF-8 ends the connection with no response to it or to any later line |
| Connection.ParseErrorAnswered | blender_mcp_addon.py:683-687 | a line that is not JSON is answered with `ok` false and the parser's message, and serving goes on |
| Connection.RequestAnswered | blender_mcp_addon.py:667-687 | a request line is answered by the main thread's slot or the timeout envelope, then serving goes on |
| Connection.ServeByLines | blender_mcp_addon.py:662-665 | serving a stream is handling its complete lines in order, with the bytes after the last line feed unanswered |
| Connection.OneResponsePerLine | blender_mcp_addon.py:662-687 | when no line is dropped there is exactly one response per non-blank line, in line order: the response numbered by the non-blank lines before a line answers that line; the trailing bytes stay unanswered |
| Connection.FramesSplit | blender_mcp_addon.py:686-687 | cutting the bytes sent into lines gives back the encoded responses one per line, with nothing trailing |
| Connection.DrainLines | blender_mcp_addon.py:662-687 | the inner loop sends exactly the frames of the responses `Serve` gives for the lines it takes, and stops at a drop or when no line feed is left |
| Connection.ReceiveChunk | blender_mcp_addon.py:659-687 | one turn of the receive loop keeps the sent bytes equal to the frames of the responses so far and the buffer free of line feeds |
| Connection.StreamEnd | blender_mcp_addon.py:659-661 | once the peer closes, the bytes left in the buffer stay unanswered and end the transcript |
| Connection.HandleClient | blender_mcp_addon.py:654-691 | what is sent and how the connection ends depend only on the bytes received, not on how `recv` split them |
| Lifecycle.OperatorOutcome | blender_mcp_addon.py:727-750 | Start is cancelled exactly when the server runs and Stop exactly when it does not; a cancelled operator changes nothing, a finished one flips the flag, and only Start or `register` starts a server thread |
| Lifecycle.RunningAfter | blender_mcp_addon.py:727-787 | after Start or `register` the server runs, after Stop or `unregister` it does not |
| Lifecycle.RepeatIsCancelled | blender_mcp_addon.py:729-747 | pressing Start or Stop twice in a row cancels the second press |
| Lifecycle.RegisterStarts | blender_mcp_addon.py:773-785 | after `register` Start is cancelled; after `unregister` Stop is cancelled |
| Lifecycle.ThreadsCounted | blender_mcp_addon.py:732-780 | the server threads started are the finished Starts plus the `register` calls |
| Lifecycle.ClientsBeforeStop | blender_mcp_addon.py:703-710 | the accept loop's hand-out, computed poll by poll; its own contract bounds it by the number of polls, and `ClientsBeforeStopSpec` pins its value |
| Lifecycle.StopIndex | blender_mcp_addon.py:703 | the first poll at which the flag is cleared, or the end of the polls: no poll before it stops the loop |
| Lifecycle.ClientIds | blender_mcp_addon.py:705-708 | the ids of the accepted clients: every id comes from a client poll and every client poll's id is listed |
| Lifecycle.ClientsBeforeStopSpec | blender_mcp_addon.py:703-710 | the clients handed out are exactly the client polls before the first Stop, in the order they were accepted |
| Lifecycle.Addon.constructor | blender_mcp_addon.py:36-38 | the add-on starts with the server stopped, no thread started and nothing registered |
| Lifecycle.Addon.StartServer | blender_mcp_addon.py:727-737 | the Start operator moves the state as `Apply` says and returns its result |
| Lifecycle.Addon.StopServer | blender_mcp_addon.py:743-750 | the Stop operator moves the state as `Apply` says and returns its result |
| Lifecycle.Addon.RegisterAddon | blender_mcp_addon.py:773-780 | `register` registers the classes and starts the server unconditionally |
| Lifecycle.Addon.UnregisterAddon | blender_mcp_addon.py:783-787 | `unregister` clears the flag and unregisters the classes |
| Lifecycle.Addon.ServerLoop | blender_mcp_addon.py:694-716 | a failed bind hands out no client; otherwise exactly the client polls before the first Stop are handed to handler threads, in order |
| Scene.KeptAndRemovedPartition | blender_mcp_addon.py:196-207 | every object is kept or removed, never both; an object is kept exactly when it is a camera to keep or a light to keep |
| Scene.Blend.constructor | blender_mcp_addon.py:196-199 | the scene holds the given objects in order |
| Scene.Upper | blender_mcp_addon.py:399 | `str.upper` keeps the length and maps each character |
| Scene.RemovedListed | blender_mcp_addon.py:205-206 | every object not kept has its name in the removed list |
| Scene.ClearAll | blender_mcp_addon.py:197-207 | with both options off the scene is emptied and every object is reported |
| Scene.Blend.ClearScene | blender_mcp_addon.py:196-207 | both options default to true; the scene keeps exactly the kept objects in order, and the response lists the removed names and their count |
| Scene.Blend.RemoveUnkept | blender_mcp_addon.py:200-206 | the loop over a copy of the objects leaves exactly the kept ones and records the removed names in order |
| Scene.AxisIndex | blender_mcp_addon.py:398-400 | a resolved axis index is 0, 1 or 2 |
| Scene.AxisDefault | blender_mcp_addon.py:398-400 | without "axis" the rotation is about Z |
| Scene.AxisLetter | blender_mcp_addon.py:398-400 | x/X, y/Y and z/Z select 0, 1 and 2; any other single letter raises |
| Scene.AxisRefused | blender_mcp_addon.py:398-400 | an axis that is not a one-character string raises |
| Client.RequestFrame | blender_mcp_server.py:38-40 | the request frame ends in its only line feed |
| Client.RequestReadBack | blender_mcp_server.py:38-40 | the add-on reads back the command and parameters sent, with missing parameters as `{}` |
| Client.RequestServed | blender_mcp_server.py:38-46 | a request frame sent to the add-on is the first thing it answers |
| Client.FirstLine | blender_mcp_server.py:55 | the first line is a line-feed-free prefix that ends at the first line feed |
| Client.ReadReply | blender_mcp_server.py:48-53 | the read times out exactly when the add-on neither sent a line feed nor closed; otherwise the first line read is the first line of everything the add-on sent |
| Client.ReadStops | blender_mcp_server.py:49-53 | when the loop stops at a line feed or a close, the buffer is a prefix of the stream with the same first line |
| Client.ReadTimesOut | blender_mcp_server.py:49-53 | every chunk read with no line feed among them means the add-on neither answered nor closed |
| Client.EncodedNotBlank | blender_mcp_server.py:40 | an encoded request is never a blank line for the add-on |
| Client.SendCommand | blender_mcp_server.py:36-69 | a refused connection sends nothing and raises the fixed message; otherwise the request frame is sent and the reply's first line decides the outcome |
| Client.FirstResponseLine | blender_mcp_server.py:55 | the client's first line is the add-on's first response, whatever follows |
| Client.EnvelopeRead | blender_mcp_server.py:58-63 | `ok` true returns "result" (`{}` when absent); `ok` false raises with "error" (the stock message when absent) |
| Client.SuccessReturned | blender_mcp_server.py:63 | a handler's value reaches the tool unchanged |
| Client.RaisedSurfaces | blender_mcp_server.py:58-61 | a handler's exception reaches the tool as RuntimeError with its message |
| Client.MissingOkFails | blender_mcp_server.py:58-61 | a reply without "ok" and "error" raises the stock message |
| Client.ReadsFirstFrame | blender_mcp_server.py:48-56 | the client reads the first frame the add-on sends, whatever follows |
| Client.RoundTrip | blender_mcp_server.py:36-63 | for a registered command run in time, the tool gets the handler's value or raises with its message |
| Client.ServedAlone | blender_mcp_server.py:38-46 | a lone request frame gets exactly one response, the one its slot gives, and then the add-on sees the close |
| Client.ReadAlone | blender_mcp_server.py:48-56 | when the add-on sends one frame, however the client's reads split it, the client interprets exactly that frame |
| Client.CommandRoundTrip | blender_mcp_server.py:36-63 | for a registered command run in time, the add-on sends exactly the one dispatched response and sees the close, and the tool returns the handler's value or raises RuntimeError with its message |
| Client.LateRoundTrip | blender_mcp_server.py:36-61 | a request not run in time makes the tool raise "Timeout 60s." when that reply arrives before the client's own socket timeout |
| Tools.Put | blender_mcp_server.py:140-163 | `if cond: params[key] = value` leaves the key present exactly when the condition held |
| Tools.Located | blender_mcp_server.py:301-312 | the location is present exactly when given and every other parameter is unchanged |
| Tools.Placed | blender_mcp_server.py:168-191 | location and rotation are each present exactly when given and every other parameter is unchanged |
| Tools.CubeParams | blender_mcp_server.py:140-163 | location, rotation and scale are sent only when given |
| Tools.SphereParams | blender_mcp_server.py:168-191 | the name is always sent; location and rotation are sent only when given |
| Tools.IcoSphereParams | blender_mcp_server.py:196-213 | the name is always sent; location is sent only when given |
| Tools.CylinderParams | blender_mcp_server.py:218-241 | the name is always sent; location and rotation are sent only when given |
| Tools.ConeParams | blender_mcp_server.py:246-267 | the name is always sent; location is sent only when given |
| Tools.TorusParams | blender_mcp_server.py:272-296 | the name is always sent; location is sent only when given |
| Tools.PlaneParams | blender_mcp_server.py:301-312 | the name is always sent; location is sent only when given |
| Tools.MonkeyParams | blender_mcp_server.py:317-327 | the name is always sent; location is sent only when given |
| Tools.TextParams | blender_mcp_server.py:332-353 | name, text and size are always sent; the extrusion only when positive; location only when given |
| Tools.ModifierParams | blender_mcp_server.py:439-458 | the modifier's name only when not empty, its properties only when not empty |
| Tools.BooleanParams | blender_mcp_server.py:491-510 | the result name only when not empty |
| Tools.MaterialParams | blender_mcp_server.py:519-538 | the material name only when not empty |
| Tools.ImportStlParams | blender_mcp_server.py:592-602 | the object name only when not empty |
| Tools.RenderParams | blender_mcp_server.py:633-644 | the file path only when not empty |
| Tools.CameraParams | blender_mcp_server.py:649-668 | location and rotation only when given, the focal length only when positive |
| Tools.LightParams | blender_mcp_server.py:673-694 | colour and location only when given |
| Tools.RenderSettingsParams | blender_mcp_server.py:699-726 | the engine only when not empty, each resolution and the samples only when positive, `film_transparent` only when true |
| Tools.CommandRegistered | blender_mcp_server.py:77-771 | every tool sends a command name the add-on registers |
| CadWorkspace.PutEffect | freecad_mcp_server.py:73-85 | storing under a name makes it hold the new object and changes nothing else: other names keep their objects, existing keys keep their order, and a new name goes last |
| CadWorkspace.RemoveEffect | freecad_mcp_server.py:480 | deleting a present name removes only it and leaves the other keys in their order |
| CadWorkspace.KeysCount | freecad_mcp_server.py:463-489 | the number of objects is the number of keys listed |
| CadWorkspace.DefaultPath | freecad_mcp_server.py:412-456 | the default export file is `<export_dir>/<object_name>` followed by the format's extension, with one separator after the directory; an empty directory gives the bare file name |
| CadWorkspace.JoinPath | freecad_mcp_server.py:412-456 | `Path(dir) / leaf`: an absolute leaf or an empty directory gives the leaf; otherwise the leaf follows the directory after exactly one separator |
| CadWorkspace.ScriptResult | freecad_mcp_server.py:383-388 | a script's result is taken exactly when `result` is set to a workplane; a missing `result` raises the ValueError |
| CadWorkspace.Workspace.constructor | freecad_mcp_server.py:38-39 | the workspace starts empty with the export directory given |
| CadWorkspace.Workspace.GetObject | freecad_mcp_server.py:42-47 | a present name gives its object; an absent one raises ValueError listing the names present |
| CadWorkspace.Workspace.Store | freecad_mcp_server.py:73-85 | a creating tool stores its object under `name` as `Put` says, keeping the key list and the map in step |
| CadWorkspace.Workspace.DeriveOne | freecad_mcp_server.py:210-306 | a missing operand or a kernel error raises with the workspace unchanged; otherwise the result is stored under `name`; the key list and the map stay in step |
| CadWorkspace.Workspace.DeriveTwo | freecad_mcp_server.py:158-201 | `object_a` is checked before `object_b`; a missing operand or a kernel error raises with the workspace unchanged; otherwise the result is stored; the key list and the map stay in step |
| CadWorkspace.Workspace.RunCadqueryScript | freecad_mcp_server.py:369-391 | the result is stored only when the script sets `result` to a workplane; otherwise it raises with the workspace unchanged |
| CadWorkspace.Workspace.Export | freecad_mcp_server.py:412-458 | the object must exist; an empty path becomes the default file in the export directory; the report names the file and format |
| CadWorkspace.Workspace.ListObjects | freecad_mcp_server.py:463-468 | an empty workspace gives an empty list and "Workspace vuoto."; otherwise one summary per object in insertion order and the number of objects |
| CadWorkspace.Workspace.DeleteObject | freecad_mcp_server.py:472-481 | an absent name raises with no change; a present one is removed as `Remove` says and the remaining names are reported |
| CadWorkspace.Workspace.ClearWorkspace | freecad_mcp_server.py:485-489 | the workspace is left empty and the previous number of objects is reported |
| AppData.Join | create_appdata_directory.py:20-28 | `os.path.join` of a plain name: no separator after an empty base, a base ending in a separator, or a bare drive; one separator otherwise |
| AppData.JoinLast | create_appdata_directory.py:20-28 | a joined plain name is the whole last component |
| AppData.GetClaudeAppdataDir | create_appdata_directory.py:15-28 | the last component is always "Claude" |
| AppData.WindowsAppData | create_appdata_directory.py:18-21 | on Windows a non-empty APPDATA is the parent of the directory |
| AppData.WindowsFallback | create_appdata_directory.py:18-21 | on Windows an unset or empty APPDATA gives home\AppData\Roaming\Claude |
| AppData.DarwinPath | create_appdata_directory.py:22-25 | on macOS the directory is home/Library/Application Support/Claude, whatever the environment |
| AppData.PosixBase | create_appdata_directory.py:26-28 | elsewhere a set XDG_CONFIG_HOME is the parent even when empty, which gives the relative path `Claude`; unset gives home/.config/Claude |
| AppData.CreateDirectory | create_appdata_directory.py:31-38 | the target is the computed directory; nothing is created exactly when it is already a directory; it is created exactly when nothing is there; creation fails exactly over a non-directory |
| AppData.CreateIdempotent | create_appdata_directory.py:31-38 | a second run after a creation finds the same directory and creates nothing |
| StepToStl.Name | step_to_stl.py:88 | a path's name holds no separator |
| StepToStl.Suffix | step_to_stl.py:86 | the suffix is empty or a dot followed by no other dot, at the end of the name |
| StepToStl.Lower | step_to_stl.py:86 | lowering keeps the length and maps each character |
| StepToStl.WithStlSuffix | step_to_stl.py:95 | the default output is refused exactly when the input has no name, with ValueError `PosixPath('<input>') has an empty name` |
| StepToStl.WithStlSuffixParts | step_to_stl.py:94-95 | the default output keeps the input's directory and stem and has the suffix `.stl` |
| StepToStl.WithStlSuffixReplaces | step_to_stl.py:94-95 | the input's last suffix is replaced by `.stl`, or `.stl` is appended when there is none |
| StepToStl.OutputPath | step_to_stl.py:92-95 | a non-empty output argument is used unchanged; otherwise the default output |
| StepToStl.Convert | step_to_stl.py:81-103 | a missing input exits with status 1; the warning appears exactly for a suffix other than .step/.stp in any case; the STL is written exactly when the output path, the read, the mesh and the write all succeed, and a failed read raises its RuntimeError; a failed mesh raises "Errore durante la generazione della mesh." and a failed write raises with the output path; the warning names the input file |
| StepToStl.MissingInputFirst | step_to_stl.py:82-84 | a missing input ends the run whatever the reader and writer would do |
| StepToStl.StepSuffixCase | step_to_stl.py:86 | `.STEP`, `.Stp` and `.step` are STEP suffixes; `.stl` and the empty suffix are not |
| StepToStl.LastSuffixReplaced | step_to_stl.py:95 | `archive.tar.gz` becomes `archive.tar.stl` |
| StepToStl.HiddenNameAppended | step_to_stl.py:95 | `.step` has no suffix and becomes `.step.stl` |

## Left out

- Floating-point values are not modelled; JSON numbers are integers. This affects:
  - tool arguments such as sizes and angles;
  - `math.radians`;
  - the STL tolerance;
  - the geometry summaries of both servers (`_obj_summary`, `_summary`).
- `json.loads` is an abstract parser. Round trips assume it reads back the text `json.dumps` wrote.
  - Duplicate keys, NaN and the `indent=2` formatting of tool results are not modelled.
- Threads, timers, sockets and the 60-second waits are modelled by their outcomes:
  - whether the timer callback ran in time;
  - the chunks `recv` returns;
  - running out of chunks for the client's socket timeout;
  - whether `connect` was refused.
  - Connection errors other than a refused connection are not modelled.
- The handler bodies (`cmd_*` in the add-on) are Blender API calls. They are one abstract function from the request index, the name and the parameters to a returned value or a raised message.
  - Only the scene filter of `cmd_clear_scene` and the axis table of `cmd_rotate` are modelled.
- Connection.HandleLine: handler results are JSON values, so the TypeError `json.dumps` raises on a result holding a non-JSON value is not modelled. Such a result can come from `run_script`. That TypeError is not caught by the add-on, and the connection closes with no reply; the model does not have that ending. The same ending follows other exceptions the model does not have: `json.loads` raising RecursionError on deeply nested input or ValueError on an integer of more than 4300 digits (only `json.JSONDecodeError` is caught), and `json.dumps` raising ValueError on such an integer or on a circular result. So a valid UTF-8 line can also end the connection.
- Registry.SlotAfterWait: each request's slot is filled only by its own callback, the behaviour of a callback bound to its own request. As written, a callback that runs after its 60-second wait can read a later line's request or fill a later line's holder (see Findings and the `Callback` module). So `Registry.Dispatch`, `Connection.RequestAnswered`, `Connection.OneResponsePerLine`, `Client.RoundTrip` and `Client.CommandRoundTrip` describe the code only when no earlier request of the connection timed out with its callback still pending.
- Client.LateRoundTrip: the client's socket has its own 60-second timeout, equal to the add-on's wait. It usually expires before the add-on's "Timeout 60s." reply arrives, and then the tool raises `socket.timeout` instead; `SendCommand` covers that case as a read that runs out of chunks.
- Scene.AxisIndex: `str.upper` is modelled on the letters a to z only. Non-ASCII case mappings cannot produce the one-letter keys X, Y or Z except through characters the table does not hold.
- Lifecycle.Addon.ServerLoop: the accept loop is given the finite sequence of polls it observes. A server that is never stopped is not modelled, and neither is the 1-second accept timeout.
- The tools' default argument values are not modelled. Each tool is given its arguments, and lists passed as None are the empty list.
- `server_info`, the tools that only forward fixed parameters, and the MCP framework around the tools are not modelled.
- CadWorkspace: CadQuery workplanes are opaque handles, and every kernel operation is a parameter that gives a new handle or raises.
  - `exec` of a user script is given by what it raised or the locals it left.
  - `get_object_info` is `GetObject` followed by geometry that is left out.
- CadWorkspace.Workspace.RunCadqueryScript: the `_summary` each creating or deriving tool computes after the store is not modelled. This also applies to `Store`, `DeriveOne` and `DeriveTwo`. The model therefore does not capture a summary that raises after the object is stored, for example on a script whose `result` is an empty `cq.Workplane()`; there the tool raises but the object stays stored.
- CadWorkspace.Workspace.ListObjects: the summary of each object is a total parameter. `_summary` can raise, for example on an empty `cq.Workplane()` stored by `run_cadquery_script`, and then every later `list_objects` raises until that object is deleted; the model does not have that outcome.
- CadWorkspace.Workspace.GetObject: the list of names in the message is written with each name between single quotes. Python's `repr` escaping of quotes, backslashes and non-printable characters is not modelled.
- CadWorkspace.JoinPath: `pathlib` normalisation is not modelled. This applies to the export directory and to the object name joined under it. It covers doubled or trailing separators and `.` components: an object name `a//b` is written `a/b` by pathlib but kept as it is here. The directory is taken as pathlib prints it.
- AppData: `os.path.join` is modelled only for the plain names the script joins, with no separator or drive in them. `expanduser("~")` is the home directory given as a parameter.
- AppData.CreateDirectory: the file system is a map from paths to directory or non-directory. The parent directories `os.makedirs` also creates are not tracked.
- StepToStl: the rules below come from the pathlib suffix rules of Python 3.12.
  - Paths are taken in the form pathlib prints them, and `/` is the only separator.
  - A trailing dot is not a suffix.
  - The suffix test lowers ASCII letters only. Python's full `str.lower` gives the same answer here, because no other character lowers to a letter of `.step` or `.stp`.
  - The printed progress messages and the `-t`/`--ascii` options are not modelled. The options only reach the abstract mesher and writer.
- StepToStl.WithStlSuffix: the message uses `repr` of a `PosixPath`. As pathlib prints them, the only paths with no name are `.`, `/` and `//`. None of them holds a character that `repr` would escape.

## Findings

| source | as written | input that shows it | evidently intended | confidence | as-written member | corrected member |
|---|---|---|---|---|---|---|
| blender_mcp_addon.py:667-677 | `execute_in_main` reads `data`, `result_holder` and `done_event` from the loop's variables when the main thread runs it, and the loop rebinds them for every line | line 0 `{"command": "ping"}` whose callback runs past the 60-second wait, then line 1 `{"command": "list_objects"}`: ending after line 1 is decoded, the callback answers line 1 with the `ping` envelope; starting after it, the callback runs `list_objects` and `ping` never runs | each callback bound to its own request's data, holder and event, as in `def execute_in_main(data=data, holder=result_holder, ev=done_event)` | medium, not executed | Callback.CrossedReply | Callback.EarlyBoundOwnRequest |
