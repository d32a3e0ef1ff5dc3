# Input bindings and level-editor state, modelled in Dafny

This project models the two stateful parts of a tile-based level editor.

- **The input-binding registry** (`Bindings`). It maps a lookup key, built
  from a list of input codes, to the record of an installed event listener:
  the handler, the element id it is scoped to, and the event type. It
  attaches and detaches those listeners on the element with the binding's
  id, or on the document when the id is empty. Registering again
  under a key replaces the old record, and bindings can be removed one at a
  time or all at once.
- **The editor state machine** (`LevelEditorDesign`). It has five mode
  flags, a fixed texture type `"tiles"` and one brush shared by every
  editor. Together these decide whether a placement or removal request
  reaches the texture renderer.

Layout:

- `dom.dfy` (module `Dom`): the document as a set of attached listeners.
  Each listener is a target (the document or an element id), an event type
  and a handler. `Page.Attach` stands for the listener installer inherited
  from the input base class. It hands out a handler with a token that no
  attached listener uses.
- `keys.dfy` (module `Keys`): how keys are built (`inputs.join(",")` and
  `key + "+" + type`), and the split/join round trips.
- `binding_spec.dfy` (module `BindingSpec`): the registry as a value, the
  binding map plus the attached listeners. It has one function per
  operation, following the code's branches, and the lemmas about
  them. `Sound` is the invariant that the code's teardown of the old record
  before each registration aims at: the attached
  listeners are exactly the listeners of the records, and no two records
  share a handler, so each key has one live listener and none dangles.
- `bindings.dfy` (module `Input`): class `Bindings`. It changes its map and
  the page in place. Each method is proved to produce the state that the
  matching `BindingSpec` function computes from the state before it.
- `level_editor_design.dfy` (module `Design`): class `LevelEditorDesign`.
  The renderer is an abstract object that records every call in a ghost
  log, together with the arguments and the returned coordinates. A
  `BrushRegistry` object shared by the editors stands for the static
  `brush` field.

The method `AddBinding` models both branches of the source literally:

- `removeBinding(k)` looks up the record without checking that it exists,
  so the key must be present.
- The multi-type branch tests whether `key+"+"+type` exists, but calls
  `removeBinding` on the bare `key`. `NoCrash` is exactly the condition
  under which that loop never looks up a missing record. `AddBinding`
  requires it.

## Model

| member | source | states |
|---|---|---|
| `Dom.TargetOf` | src/libs/input/lib/Bindings.tsx:41-45 | A binding's listener is on the element `id` when `id` is non-empty, and on the document otherwise |
| `Dom.Page.Attach` | src/libs/input/lib/Bindings.tsx:61 | The installer returns a handler wrapping the callback, with a token no attached listener uses, and attaches exactly that listener |
| `Dom.Page.Detach` | src/libs/input/lib/Bindings.tsx:42-44 | Detaching removes exactly that (target, type, handler) listener and has no effect if it is absent |
| `Keys.BindingKey` | src/libs/input/lib/Bindings.tsx:55 | The key of an empty input list is `""`; the key of one input is that input, with no event-type suffix |
| `Keys.TypedKey` | src/libs/input/lib/Bindings.tsx:59-60 | The typed key is the bare key, then `+`, then the event type |
| `Keys.TypedKeyInjective` | src/libs/input/lib/Bindings.tsx:59-60 | A typed key never equals the bare key, and two typed keys of one bare key are equal exactly when their types are |
| `Keys.Split` | src/libs/input/lib/Bindings.tsx:55 | Splitting a key gives at least one piece, and no piece contains the separator (the inverse used for the join) |
| `Keys.SplitJoin` | src/libs/input/lib/Bindings.tsx:55 | Splitting the key of a non-empty list of comma-free input codes gives that list back |
| `Keys.JoinSplit` | src/libs/input/lib/Bindings.tsx:55 | Joining the pieces of any split string gives the string back |
| `Keys.BindingKeyInjective` | src/libs/input/lib/Bindings.tsx:55 | Two non-empty lists of comma-free input codes have the same key exactly when they are the same list |
| `Keys.BindingKeyCollisions` | src/libs/input/lib/Bindings.tsx:55 | Keys collide outside those conditions: `[]` and `[""]`, and `["KeyA,KeyB"]` and `["KeyA","KeyB"]` |
| `BindingSpec.ListenerOf` | src/libs/input/lib/Bindings.tsx:38-45 | A record stands for the listener of its handler and type, on element `id` when `id` is non-empty and on the document otherwise |
| `BindingSpec.Remove` | src/libs/input/lib/Bindings.tsx:37-47 | removeBinding requires `k` to be present, deletes only `k`, keeps every other record, and detaches exactly `k`'s listener |
| `BindingSpec.RemoveAll` | src/libs/input/lib/Bindings.tsx:23-35 | removeAllBindings empties the map and detaches the listener of every record present on entry, and no other listener |
| `BindingSpec.Install` | src/libs/input/lib/Bindings.tsx:61 | The installer hands out the next token, leaves the map alone and adds exactly one listener where `id` says |
| `BindingSpec.AddSingle` | src/libs/input/lib/Bindings.tsx:66-73 | A single-type addBinding stores the new handler with the given id and type under exactly `inputs.join(",")`, and keeps every other record. The attached listeners become the old ones, minus the replaced record's listener, plus the new one |
| `BindingSpec.NoCrash` | src/libs/input/lib/Bindings.tsx:57-59 | For one type: the loop cannot crash unless `key+"+"+type` is present while the bare key is absent |
| `BindingSpec.Step` | src/libs/input/lib/Bindings.tsx:58-64 | One loop iteration removes the bare key when `key+"+"+type` was present, and stores the new handler, the id and the type under `key+"+"+type`. The attached listeners become the old ones, minus the bare key's listener when it was removed, plus the new one |
| `BindingSpec.AddMulti` | src/libs/input/lib/Bindings.tsx:57-65 | The multi-type loop as written, one `Step` per type, defined only under `NoCrash`. It installs one listener per type (one token each). Which listeners it attaches and detaches is stated by `AddMultiKeepsOthers` and `AddMultiAttachesEachType` |
| `BindingSpec.StepIntended` | src/libs/input/lib/Bindings.tsx:58-64 | One loop iteration with the teardown on `key+"+"+type`: it adds only that key, and the new handler, id and type are stored there |
| `BindingSpec.AddMultiIntended` | src/libs/input/lib/Bindings.tsx:57-65 | The multi-type loop with that teardown: one listener per type, no key lost, and a record under `key+"+"+type` for every given type |
| `BindingSpec.RemoveKeepsSound` | src/libs/input/lib/Bindings.tsx:37-47 | removeBinding preserves one live listener per record and no dangling listener |
| `BindingSpec.RemoveAllDetachesEverything` | src/libs/input/lib/Bindings.tsx:23-35 | For a sound registry, removeAllBindings leaves no listener attached |
| `BindingSpec.AddSingleKeepsSound` | src/libs/input/lib/Bindings.tsx:67-72 | A single-type addBinding preserves soundness. The new listener is attached, and the listener of the record it replaced is detached |
| `BindingSpec.AddSingleReplacesListener` | src/libs/input/lib/Bindings.tsx:67-72 | Under `Fresh` alone, the invariant the class keeps, a single-type addBinding attaches the new listener and detaches the listener of the record it replaced |
| `BindingSpec.AddMultiKeepsFresh` | src/libs/input/lib/Bindings.tsx:57-65 | The multi-type loop keeps every handler token below the token counter |
| `BindingSpec.AddMultiFrame` | src/libs/input/lib/Bindings.tsx:57-65 | The multi-type loop leaves every key other than the bare key and the typed keys of its types untouched |
| `BindingSpec.AddMultiStoresEachType` | src/libs/input/lib/Bindings.tsx:57-65 | After a multi-type addBinding, every given type has a record under `key+"+"+type` with that type, the given id and the given callback |
| `BindingSpec.AddMultiKeepsOthers` | src/libs/input/lib/Bindings.tsx:57-65 | The multi-type loop, for any list of types, detaches nothing but the bare key's listener: every other attached listener stays attached, the listeners of replaced `key+"+"+type` records included |
| `BindingSpec.AddMultiAttachesEachType` | src/libs/input/lib/Bindings.tsx:57-65 | With tokens below the counter, after a multi-type addBinding the listener of the record under `key+"+"+type` is attached, for every type given |
| `BindingSpec.AddMultiLeaksListener` | src/libs/input/lib/Bindings.tsx:59-60 | As written: when both `key` and `key+"+"+type` are bound, the bare key is torn down and the old typed listener stays attached with no record, so soundness breaks |
| `BindingSpec.ReRegisterMultiThrows` | src/libs/input/lib/Bindings.tsx:59 | As written: after one multi-type registration with the bare key unbound, a second identical registration looks up a missing record |
| `BindingSpec.ReRegisterMultiThrowsExample` | src/libs/input/lib/Bindings.tsx:59 | The same failure for `["KeyA"]` with `["keydown"]`, registered twice on an empty registry |
| `BindingSpec.AddMultiIntendedKeepsSound` | src/libs/input/lib/Bindings.tsx:57-65 | With the teardown on `key+"+"+type`, a multi-type addBinding preserves soundness for every list of types |
| `Input.Bindings.constructor` | src/libs/input/lib/Bindings.tsx:7-13 | A new registry has an empty binding map |
| `Input.Bindings.CheckBindingExists` | src/libs/input/lib/Bindings.tsx:15-17 | True exactly when a record is stored under the key |
| `Input.Bindings.RemoveAllBindings` | src/libs/input/lib/Bindings.tsx:23-35 | The loop detaches each record's listener, using the element/document rule, then clears the map. The result is `RemoveAll` of the old state |
| `Input.Bindings.RemoveBinding` | src/libs/input/lib/Bindings.tsx:37-47 | Requires the key to be present. The new state is `Remove` of the old state |
| `Input.Bindings.EventListener` | src/libs/input/lib/Bindings.tsx:61 | Installs a listener through `Install`. Its handler differs from every attached listener's and every stored record's |
| `Input.Bindings.AddBinding` | src/libs/input/lib/Bindings.tsx:49-74 | One type gives `AddSingle` of the old state. An array of types gives `AddMulti` of the old state, provided `NoCrash` holds |
| `Design.LevelEditorDesign.constructor` | src/libs/design/level/LevelEditorDesign.tsx:7-18 | A new editor has editable=false, clipping=true, trash=false, drag=false and safety=true, a fresh renderer with no calls, and the shared brush slot |
| `Design.LevelEditorDesign.Add` | src/libs/design/level/LevelEditorDesign.tsx:31-38 | Without editable and a brush: returns `[]`, no renderer call. Otherwise: exactly `addTexture(clipping, "tiles", group, id, x, y)`, then `render()`, and it returns addTexture's result |
| `Design.LevelEditorDesign.Remove` | src/libs/design/level/LevelEditorDesign.tsx:46-49 | Requires a brush and ignores editable. Makes exactly one call, `removeTexture(clipping, "tiles", group, id, x, y)`, with no render, and returns its result |
| `Design.LevelEditorDesign.RemoveAll` | src/libs/design/level/LevelEditorDesign.tsx:54-56 | Makes exactly one call, `removeAllTexture()`, whatever `safety` is |
| `Design.LevelEditorDesign.SetBrush` | src/libs/design/level/LevelEditorDesign.tsx:63-68 | The shared brush becomes exactly `{id, group, name}`, and every editor sharing the slot sees it |
| `Design.LevelEditorDesign.SetSafety` | src/libs/design/level/LevelEditorDesign.tsx:96-98 | The `safety` getter then returns the value set, and the other four flags are unchanged |
| `Design.LevelEditorDesign.SetDrag` | src/libs/design/level/LevelEditorDesign.tsx:100-102 | The `drag` getter then returns the value set, and the other four flags are unchanged |
| `Design.LevelEditorDesign.SetTrash` | src/libs/design/level/LevelEditorDesign.tsx:104-106 | The `trash` getter then returns the value set, and the other four flags are unchanged |
| `Design.LevelEditorDesign.SetEditable` | src/libs/design/level/LevelEditorDesign.tsx:108-110 | The `editable` getter then returns the value set, and the other four flags are unchanged |
| `Design.LevelEditorDesign.SetClipping` | src/libs/design/level/LevelEditorDesign.tsx:112-114 | The `clipping` getter then returns the value set, and the other four flags are unchanged |

The getters are plain reads. `Input.Bindings.View` stands for the
`bindings` getter (src/libs/input/lib/Bindings.tsx:19-21). The functions
`Safety`, `Drag`, `Trash`, `Editable` and `Clipping` stand for the flag
getters (src/libs/design/level/LevelEditorDesign.tsx:72-94). The setter
contracts above state what these getters return. The client methods
`Input.ReplaceOnRegister`, `Design.AddWithoutBrush` and
`Design.PaintWithBrush` apply the contracts to concrete scenarios, and the verifier proves the expected outcomes:
- registering twice under one key leaves only the second listener attached;
- placing without a brush makes no renderer call;
- selecting the brush `{"1-1", "dungeon", "floor"}` and placing at (5, 5)
  forwards exactly those arguments, and another editor sees the same brush.

## Left out

- The `Input` base class, the `KMMapping` object and the scoped `new Input(mapping, id)` of `addBinding` (src/libs/input/lib/Bindings.tsx:52-53): their code is not part of this model. The installer is abstract. It returns a fresh handler and attaches it where `id` says. The choice of mapping it is given is not modelled.
- "Fire once, then remove itself" for `once = true` listeners: this happens inside the installer, whose code is not part of this model. The `once` flag is only recorded in the handler.
- Real DOM calls (`document.getElementById`, `removeEventListener`): these are replaced by the set of attached listeners. The model takes the element with a record's id to exist, so detaching from `Element(id)` always removes the listener. In the source, when `getElementById` returns null the detach is skipped and the listener stays attached; that case is not modelled.
- JavaScript property lookup on the plain-object binding map: names inherited from `Object.prototype` (`toString`, `__proto__`) make `checkBindingExists` true without a record. The model treats the map as a pure dictionary.
- Input codes are modelled as strings. Numeric codes are assumed to be joined through their string forms.
- Event dispatch and the invocation of handlers are not modelled: the core only registers and tears down listeners.
- `initEditor` (src/libs/design/level/LevelEditorDesign.tsx:20-22) is asynchronous renderer set-up and is left out. The canvas context passed to the constructor is left out too.
- The `TextureRenderer` internals: the renderer is abstract. Its placement and removal results are arbitrary coordinate lists, recorded in its call log.
- `trash` as a reactive signal, and the `trashSignal` getter (src/libs/design/level/LevelEditorDesign.tsx:9, 84-86): subscription and notification belong to a foreign library, so `trash` is a plain boolean.
- The `log(...)` call of `setBrush` (src/libs/design/level/LevelEditorDesign.tsx:69): this is a logging sink.
- The static `brush` field is modelled as one `BrushRegistry` object passed to each editor at construction. Two editors that share that object see the same brush, as in the source. The model cannot forbid two separate registries.
- `Input.Bindings.View` hands out the binding map as a value. The `bindings` getter (src/libs/input/lib/Bindings.tsx:19-21) returns the live object, so a caller would see later changes and could change the registry through it; that aliasing is not modelled.
- Coordinates are `int`s; the source's `number` also admits fractions.
- `removeBinding` on an absent key: the code has no guard for it and looks up the record unchecked, which throws, so the model requires the key rather than treating the call as a no-op.

## Findings

| source | as written | input that shows it | evidently intended | confidence | as-written member | corrected member |
|---|---|---|---|---|---|---|
| src/libs/input/lib/Bindings.tsx:59 | A present `key+"+"+type` record triggers `removeBinding(key)` on the bare key | `addBinding(f, ["KeyA"], ["keydown"])` twice on an empty registry: the second call looks up the missing record `"KeyA"` and throws. With `"KeyA"` also bound, the bare binding is torn down instead, and the old `"KeyA+keydown"` listener stays attached with no record | `removeBinding(key + "+" + type)`, so each key keeps exactly one live listener | not executed; high | `BindingSpec.ReRegisterMultiThrows`, `BindingSpec.AddMultiLeaksListener` (with `BindingSpec.AddMulti`) | `BindingSpec.AddMultiIntendedKeepsSound` (with `BindingSpec.AddMultiIntended`) |

`Input.Bindings.AddBinding` keeps the as-written behaviour, because that is
what the code does. `BindingSpec.AddMultiIntended` is the corrected
definition.
