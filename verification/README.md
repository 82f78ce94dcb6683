# Tool X endstop router — a Dafny model

This project models the routing engine of a Klipper extension for multi-tool
printers (`tool_x_router.py`). Each tool carries its own X endstop, and the
router presents them to the homing code as one virtual pin, `x_virtual_endstop`.

The engine has three pieces of state:

- the **registry** `tool_endstops`, which maps a tool number to that tool's endstop handle;
- the **fan-out lists** `_mcus` and `_steppers` of the `EndstopRouter`: every stepper
  the homing code attaches to the virtual endstop is attached to every registered handle;
- the **active selection** (`active_tool_number`, `active_mcu`), which decides which
  handle the endstop calls reach.

Around this state sit the pin-request check `setup_pin`, the selection transition
`set_active_tool`, and the homing-begin handler. That handler asks the external tool
detector which tool is mounted whenever X is about to be homed.

Everything is modelled as immutable values and pure transitions:

- `FanOut` (fan_out.dfy): handles and steppers as opaque integer ids. The attach side
  effects are an `AttachLog`, a map from each handle to the steppers it has been given, in call order.
- `EndstopRouting` (endstop_router.dfy): the `EndstopRouter`. The source swaps bound
  methods when the active handle changes; here that swap is a `Selection` value,
  `Bound(handle)` or `Unbound`. `Forward` says where each of `get_mcu`, `home_start`,
  `home_wait` and `query_endstop` ends up.
- `ToolXRouting` (tool_x_router.dfy): the `ToolXRouter`, covering registration, `setup_pin`,
  `set_active_tool`, and the invariant `Valid`.
- `HomingTrigger` (homing_trigger.dfy): `_handle_home_rails_begin`. The detector is an
  input of type `Option<DetectorStatus>`. `None` means no `tool_probe_endstop` was found
  at connect time. `Some(status)` is the status read back after the detection command ran.
- `RouterProperties` (router_properties.dfy): calls as an `Op` datatype, runs of calls,
  and the lemmas that relate several calls.

The invariants proved for every state reachable from start-up:

- if a handle is active, it is the handle registered under `active_tool_number`;
- if no handle is active, `active_tool_number` is -1;
- the handle list mirrors the registry;
- every registered handle has received every stepper in `_steppers`.

When every registered handle is new, as it is when each tool builds its own endstop
wrapper (tool_x_endstop.py:17), the sharper `WiredExactly` invariant holds in every
reachable state: each handle has received exactly `_steppers`, once each and in order
(`RunPreservesWiredExactly`, `ReachableStatesWiredExactly`).

The homing-begin handler ends in `set_active_tool(n)`, where n is the number the
detector reports, or -1 when the status lacks one (tool_x_router.py:66-70). So the
previous selection is not kept when the detector answers -1. If -1 is unregistered,
`set_active_tool(-1)` clears the selection to unbound (tool_x_router.py:78-85;
`SentinelClearsSelection`). If -1 is registered, it binds -1's handle. The selection
stays as it was in three cases:
- the event homes no X stepper (tool_x_router.py:51-52);
- no detector was resolved (tool_x_router.py:56-58);
- the detector answers the number that is already active, because of the early return
  (tool_x_router.py:72-74).

Tool number -1 can be registered, because the code never checks for it. Even so,
`set_active_tool(-1)` from the initial state returns early, because the active number
is already -1 (`SentinelToolCannotBeSelectedFromStart`).

## Model

| member | source | states |
|---|---|---|
| FanOut.AttachEach | tool_x_router.py:99-100 | the new handle receives the given steppers appended in order; no other handle's log changes |
| FanOut.AttachToEach | tool_x_router.py:121-122 | a handle absent from the list is left untouched; `AttachToEachReceived` gives what each listed handle receives |
| FanOut.AttachToEachReceived | tool_x_router.py:121-122 | a handle listed k times in `_mcus` receives k more copies of the stepper; an unlisted handle receives nothing |
| EndstopRouting.NewEndstopRouter | tool_x_router.py:90-95 | the router starts with no handles, no steppers, nothing active, and nothing attached anywhere |
| EndstopRouting.AddMcu | tool_x_router.py:97-100 | `_mcus` grows by exactly the new handle; that handle receives every stepper already in `_steppers`, in insertion order; nothing else changes |
| EndstopRouting.SetActiveMcu | tool_x_router.py:102-114 | the selection becomes the given handle or none; handles, steppers and attach log are untouched |
| EndstopRouting.AddStepper | tool_x_router.py:119-122 | `_steppers` gains the stepper at its end, without deduplication; each listed handle receives it once per listing |
| EndstopRouting.GetSteppers | tool_x_router.py:124-125 | returns a copy equal to `_steppers`; while the router is wired, every stepper it lists has been given to every registered handle |
| EndstopRouting.Forward | tool_x_router.py:102-117 | when bound, all four calls reach the active handle; when unbound, `get_mcu` returns the default MCU and the other three raise a command error |
| EndstopRouting.ForwardReachesOnlyActive | tool_x_router.py:127-128 | a call reaches handle h if and only if h is active; a call fails if and only if nothing is active and it is not `get_mcu` |
| EndstopRouting.AddMcuPreservesWired | tool_x_router.py:97-100 | registering a handle keeps "every handle has received every stepper" |
| EndstopRouting.AddStepperPreservesWired | tool_x_router.py:119-122 | adding a stepper keeps "every handle has received every stepper" |
| EndstopRouting.AddMcuPreservesWiredExactly | tool_x_router.py:97-100 | a handle not seen before ends with exactly `_steppers` in its log, like every earlier handle |
| EndstopRouting.WiredExactlyIsWired | tool_x_router.py:97-122 | a router whose every handle has received exactly `_steppers` has given every stepper to every handle |
| EndstopRouting.AddStepperPreservesWiredExactly | tool_x_router.py:119-122 | with distinct handles, every handle's log stays exactly equal to `_steppers` |
| ToolXRouting.NewToolXRouter | tool_x_router.py:10-14 | the router starts with an empty registry, active tool -1, no active handle, and satisfies the invariant |
| ToolXRouting.AddToolEndstop | tool_x_router.py:29-33 | registration fails if and only if the tool number is already present, and then only with the duplicate error; otherwise it succeeds and registry and `_mcus` grow by exactly that entry, the handle receives all known steppers in order, and the selection is unchanged |
| ToolXRouting.SetupPin | tool_x_router.py:35-40 | the request succeeds if and only if it is an endstop pin named `x_virtual_endstop` with invert and pullup both unset; a wrong type or name is reported ahead of a modifier; success returns the endstop router |
| ToolXRouting.SetupPinErrorPrecedence | tool_x_router.py:35-40 | a rejection carries one of the two configuration errors; a wrong type or name is reported whatever `invert` and `pullup` hold; the answer depends on the request alone, not on the router's state |
| ToolXRouting.SetActiveTool | tool_x_router.py:72-85 | the current number is a no-op; a registered number binds its handle and becomes active; any other number clears to unbound and -1; the registry and wiring never change |
| HomingTrigger.IsHomingX | tool_x_router.py:44-49 | the scan loop answers true exactly when some stepper of some rail is active on X |
| HomingTrigger.DetectedTool | tool_x_router.py:68 | the `active_tool_number` the status carries, or the sentinel -1 when it carries none |
| HomingTrigger.HomeRailsBegin | tool_x_router.py:42-70 | no X stepper: state unchanged; no detector: state unchanged; otherwise the state after `set_active_tool` with the detected number |
| HomingTrigger.HandleHomeRailsBegin | tool_x_router.py:42-70 | the handler as written, with the loop scan, agrees with `HomeRailsBegin`, and the selection is untouched unless detection ran |
| RouterProperties.AddToolEndstopPreservesValid | tool_x_router.py:29-33 | a successful registration keeps selection consistency, registry mirroring and stepper wiring |
| RouterProperties.AddStepperPreservesValid | tool_x_router.py:119-122 | adding a stepper keeps the router invariant |
| RouterProperties.SetActiveToolPreservesValid | tool_x_router.py:78-85 | any selection keeps "an active handle is the one registered under the active number" |
| RouterProperties.HomeRailsBeginPreservesValid | tool_x_router.py:42-70 | the homing-begin handler keeps the router invariant |
| RouterProperties.RunPreservesValid | tool_x_router.py:29-122 | any sequence of calls, including a failing registration, keeps the router invariant |
| RouterProperties.ReachableStatesValid | tool_x_router.py:10-14 | from the initial state, after any calls, the full router invariant holds: an active handle is the registered one, the handle list mirrors the registry, -1 means unbound when -1 is unregistered, and every handle has every stepper |
| RouterProperties.RunOnlyGrows | tool_x_router.py:29-122 | registry entries are never lost or overwritten, and `_mcus` and `_steppers` only grow at their end |
| RouterProperties.RunPreservesWiredExactly | tool_x_router.py:29-122 | over any run whose registrations all bring new handles, every handle's log stays exactly equal to `_steppers` |
| RouterProperties.ReachableStatesWiredExactly | tool_x_router.py:90-125 | from start-up, with new handles only, each registered handle has received exactly what `get_steppers` lists, in order, and so every stepper has reached every handle |
| RouterProperties.DuplicateRegistrationChangesNothing | tool_x_router.py:29-31 | a duplicate registration fails and leaves the whole state, registry and handle list included, as it was |
| RouterProperties.SetActiveToolIdempotent | tool_x_router.py:72-74 | selecting the same number twice equals selecting it once |
| RouterProperties.SelectionKeepsSteppers | tool_x_router.py:124-125 | `get_steppers` is the same before and after any selection change or homing-begin event |
| RouterProperties.UnregisteredToolBlocksHoming | tool_x_router.py:82-85 | after selecting an unregistered number, the router is unbound, homing calls fail with the command error, and `get_mcu` returns the default MCU |
| RouterProperties.ForwardedHandleIsActiveTools | tool_x_router.py:102-109 | a call that reaches a handle reaches the one registered under the active tool number |
| RouterProperties.TriggerLeavesSelectionAlone | tool_x_router.py:51-58 | with no X stepper, or with no resolved detector, the handler changes nothing and runs no detection |
| RouterProperties.SentinelClearsSelection | tool_x_router.py:66-85 | a detector answer of -1 during X homing clears the selection, unless -1 itself is registered, and homing calls then fail |
| RouterProperties.SentinelToolCannotBeSelectedFromStart | tool_x_router.py:72-74 | a registered tool -1 is never bound from the initial state, because the early return fires |
| RouterProperties.RegisterAllLookup | tool_x_router.py:29-33 | registering pairwise-distinct new tool numbers succeeds, each number then looks up its own handle, and earlier entries are kept |
| RouterProperties.RegisterAllRejectsRepeat | tool_x_router.py:29-31 | a repeated tool number anywhere in a registration sequence ends loading with the duplicate error |
| RouterProperties.TwoToolScenario | tool_x_router.py:97-125 | tools 0 and 1 registered around two stepper additions, then tool 1 selected: `home_start` reaches tool 1's handle only, both handles have both steppers in order, and `get_steppers` lists both whichever tool is active |

## Left out

- tool_x_endstop.py (`ToolXEndstop`, `ProbeEndstopWrapper`): pin lookup and MCU pin setup happen in Klipper code that is not part of this model. Only the tool number and the handle that `add_tool_endstop` receives are modelled.
- `_handle_connect` and `printer.lookup_object`: resolving the detector is an input to the handler (`None` or `Some(status)`), not an operation. The handler raising `AttributeError` when it runs before the connect event is not modelled.
- The detection command `DETECT_ACTIVE_TOOL_PROBE` and `reactor.monotonic()`: these are an external G-code command and a clock. Only their result is modelled, as the status that `get_status` returns. An exception raised by the command is not modelled.
- Logging calls (info, warning, error), `register_event_handler` and `register_chip`: host plumbing with no effect on the router's state.
- `home_start`, `home_wait`, `query_endstop` and `get_mcu` on real hardware: these are blocking MCU I/O. The model records only which handle a call reaches, or that it fails. Call arguments and return values are not modelled.
- `get_default_mcu`: the MCU that `lookup_object('mcu')` returns is the single value `DefaultMcu`.
- Exception messages: each raised exception becomes an error variant. The formatted text is not modelled.
- Exceptions raised by a handle's own `add_stepper` (tool_x_router.py:100 and :122) are not modelled: each attach is taken to return normally. In the source such a raise leaves partial state behind: inside `add_tool_endstop` the registry entry (:32) and the `_mcus` entry (:98) are already stored, so the tool is registered with a handle that holds only some steppers; inside `add_stepper` the stepper is already in `_steppers` (:120) while only the handles before the failing one have it. The model's `AddToolEndstop` and `AddStepper` succeed or fail as a whole.
- `setup_pin` with a parameter mapping missing `pin`, `invert` or `pullup` (a `KeyError`) is not modelled. Klipper's pin lookup always supplies all three.
