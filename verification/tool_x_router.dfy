/** The `ToolXRouter` of tool_x_router.py: the registry from tool number to
    that tool's endstop handle, the active tool number, and the endstop
    router it configures. */
module ToolXRouting {
  import opened Wrappers
  import opened FanOut
  import opened EndstopRouting

  /** The part of a `ToolXEndstop` the router uses: its tool number and its
      endstop handle (`mcu_endstop`). */
  datatype ToolEndstop = ToolEndstop(tool: int, mcuEndstop: Handle)

  datatype ToolXRouter = ToolXRouter(
    toolEndstops: map<int, Handle>,   // `tool_endstops`, tool number -> its handle
    activeToolNumber: int,            // `active_tool_number`, -1 when none
    mcuRouter: EndstopRouter)         // `mcu_router`

  /** The exceptions raised while the configuration is loaded. */
  datatype ConfigError =
    | DuplicateToolEndstop(tool: int)  // a second endstop for the same tool
    | NotAnEndstopPin                  // wrong pin type or wrong pin name
    | CannotPullupInvert               // a `^`, `~` or `!` modifier on the pin

  /** The pin parameters Klipper's pin lookup hands to `setup_pin`. `invert`
      and `pullup` are integers and count as set when non-zero, as Python's
      truth test does. */
  datatype PinParams = PinParams(pin: string, invert: int, pullup: int)

  /** The one tool number meaning "no tool". */
  const NoTool: int := -1

  /** If a handle is active, it is the one registered under the active tool
      number; if none is, the active tool number is the sentinel. */
  ghost predicate SelectionConsistent(r: ToolXRouter)
  {
    match r.mcuRouter.active
    case Bound(h) =>
      r.activeToolNumber in r.toolEndstops && r.toolEndstops[r.activeToolNumber] == h
    case Unbound => r.activeToolNumber == NoTool
  }

  /** The router's handle list holds exactly the registered handles, one
      entry per registered tool. */
  ghost predicate RegistryMirrored(r: ToolXRouter)
  {
    && |r.mcuRouter.mcus| == |r.toolEndstops|
    && (forall t :: t in r.toolEndstops ==> r.toolEndstops[t] in r.mcuRouter.mcus)
    && (forall h :: h in r.mcuRouter.mcus ==> exists t :: t in r.toolEndstops && r.toolEndstops[t] == h)
  }

  /** Everything the router keeps true between calls. */
  ghost predicate Valid(r: ToolXRouter)
  {
    && SelectionConsistent(r)
    && RegistryMirrored(r)
    && Wired(r.mcuRouter)
  }

  /** `ToolXRouter.__init__`: nothing registered, no active tool. */
  function NewToolXRouter(): (r: ToolXRouter)
    ensures r.toolEndstops == map[] && r.activeToolNumber == NoTool
    ensures r.mcuRouter.active == Unbound && r.mcuRouter.mcus == [] && r.mcuRouter.steppers == []
    ensures Valid(r)
  {
    ToolXRouter(map[], NoTool, NewEndstopRouter())
  }

  /** `add_tool_endstop`: a tool number already registered is rejected before
      anything changes; otherwise the handle is stored under it and handed to
      the endstop router, which attaches every stepper known so far. */
  function AddToolEndstop(r: ToolXRouter, te: ToolEndstop): (res: Result<ToolXRouter, ConfigError>)
    ensures res.Err? <==> te.tool in r.toolEndstops
    ensures res.Err? ==> res.error == DuplicateToolEndstop(te.tool)
    ensures res.Ok? ==>
      && res.value.toolEndstops == r.toolEndstops[te.tool := te.mcuEndstop]
      && |res.value.toolEndstops| == |r.toolEndstops| + 1
      && res.value.mcuRouter.mcus == r.mcuRouter.mcus + [te.mcuEndstop]
      && res.value.mcuRouter.steppers == r.mcuRouter.steppers
      && Received(res.value.mcuRouter.attached, te.mcuEndstop)
           == Received(r.mcuRouter.attached, te.mcuEndstop) + r.mcuRouter.steppers
      && (forall g :: g != te.mcuEndstop ==>
            Received(res.value.mcuRouter.attached, g) == Received(r.mcuRouter.attached, g))
      && res.value.activeToolNumber == r.activeToolNumber
      && res.value.mcuRouter.active == r.mcuRouter.active
  {
    if te.tool in r.toolEndstops then Err(DuplicateToolEndstop(te.tool))
    else Ok(r.(toolEndstops := r.toolEndstops[te.tool := te.mcuEndstop],
               mcuRouter := AddMcu(r.mcuRouter, te.mcuEndstop)))
  }

  /** `setup_pin`: only the endstop pin named `x_virtual_endstop`, without
      inversion or pull-up, is served, and it is served by the endstop
      router. A wrong type or name is reported before a modifier is. */
  function SetupPin(r: ToolXRouter, pinType: string, params: PinParams): (res: Result<EndstopRouter, ConfigError>)
    ensures res.Ok? <==>
      pinType == "endstop" && params.pin == "x_virtual_endstop" && params.invert == 0 && params.pullup == 0
    ensures res.Ok? ==> res.value == r.mcuRouter
    ensures res == Err(NotAnEndstopPin) <==> pinType != "endstop" || params.pin != "x_virtual_endstop"
    ensures res == Err(CannotPullupInvert) <==>
      pinType == "endstop" && params.pin == "x_virtual_endstop" && (params.invert != 0 || params.pullup != 0)
  {
    if pinType != "endstop" || params.pin != "x_virtual_endstop" then Err(NotAnEndstopPin)
    else if params.invert != 0 || params.pullup != 0 then Err(CannotPullupInvert)
    else Ok(r.mcuRouter)
  }

  /** How `setup_pin` rejects: only with one of its two errors; a wrong type
      or name is reported whatever the modifiers say; and the answer depends
      on the request alone, not on the router's state. */
  lemma SetupPinErrorPrecedence(r: ToolXRouter, r2: ToolXRouter, pinType: string, params: PinParams,
                                invert2: int, pullup2: int)
    ensures SetupPin(r, pinType, params).Err? ==>
      SetupPin(r, pinType, params).error in {NotAnEndstopPin, CannotPullupInvert}
    ensures pinType != "endstop" || params.pin != "x_virtual_endstop" ==>
      SetupPin(r, pinType, params) == SetupPin(r2, pinType, params.(invert := invert2, pullup := pullup2))
    ensures SetupPin(r, pinType, params).Ok? == SetupPin(r2, pinType, params).Ok?
    ensures SetupPin(r, pinType, params).Err? ==> SetupPin(r, pinType, params) == SetupPin(r2, pinType, params)
  {
  }

  /** `set_active_tool`: nothing happens when `n` is already the active tool
      number. Otherwise a registered `n` becomes active together with its
      handle, and any other `n` clears the selection to "no tool". The
      registry and the stepper wiring are never touched. */
  function SetActiveTool(r: ToolXRouter, n: int): (r': ToolXRouter)
    ensures n == r.activeToolNumber ==> r' == r
    ensures n != r.activeToolNumber && n in r.toolEndstops ==>
      r'.activeToolNumber == n && r'.mcuRouter.active == Bound(r.toolEndstops[n])
    ensures n != r.activeToolNumber && n !in r.toolEndstops ==>
      r'.activeToolNumber == NoTool && r'.mcuRouter.active == Unbound
    ensures r'.toolEndstops == r.toolEndstops
    ensures r'.mcuRouter.mcus == r.mcuRouter.mcus
    ensures r'.mcuRouter.steppers == r.mcuRouter.steppers
    ensures r'.mcuRouter.attached == r.mcuRouter.attached
  {
    if r.activeToolNumber == n then r
    else if n in r.toolEndstops then
      r.(mcuRouter := SetActiveMcu(r.mcuRouter, Bound(r.toolEndstops[n])), activeToolNumber := n)
    else
      r.(mcuRouter := SetActiveMcu(r.mcuRouter, Unbound), activeToolNumber := NoTool)
  }
}
