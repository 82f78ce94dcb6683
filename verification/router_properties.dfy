/** Properties of the router across calls: the invariants every operation
    keeps, the idempotence of tool selection, the safety of forwarding, and
    the behaviour of the homing trigger around the detector's sentinel. */
module RouterProperties {
  import opened Wrappers
  import opened FanOut
  import opened EndstopRouting
  import opened ToolXRouting
  import opened HomingTrigger

  /** The calls that change the router's state. */
  datatype Op =
    | RegisterTool(te: ToolEndstop)       // `add_tool_endstop`, at configuration load
    | AttachStepper(s: Stepper)           // `add_stepper` on the endstop router
    | SelectTool(n: int)                  // `set_active_tool`
    | RailsHomingBegins(rails: seq<Rail>, detector: Option<DetectorStatus>)

  /** One call. A failed registration raises, so the state is left as it was
      and the error is reported alongside it. */
  function Apply(r: ToolXRouter, op: Op): (ToolXRouter, Option<ConfigError>)
  {
    match op
    case RegisterTool(te) =>
      (match AddToolEndstop(r, te)
       case Ok(r') => (r', None)
       case Err(e) => (r, Some(e)))
    case AttachStepper(s) => (r.(mcuRouter := AddStepper(r.mcuRouter, s)), None)
    case SelectTool(n) => (SetActiveTool(r, n), None)
    case RailsHomingBegins(rails, detector) => (HomeRailsBegin(r, rails, detector).0, None)
  }

  /** A run of calls, stopped by the first error (a configuration error
      aborts start-up). */
  function Run(r: ToolXRouter, ops: seq<Op>): (ToolXRouter, Option<ConfigError>)
    decreases |ops|
  {
    if ops == [] then (r, None)
    else
      var (r', err) := Apply(r, ops[0]);
      if err.Some? then (r', err) else Run(r', ops[1..])
  }

  /** A call that does not fail hands its state on to the rest of the run. */
  lemma RunCons(r: ToolXRouter, op: Op, rest: seq<Op>)
    requires Apply(r, op).1.None?
    ensures Run(r, [op] + rest) == Run(Apply(r, op).0, rest)
  {
    assert ([op] + rest)[1..] == rest;
  }

  lemma AddToolEndstopPreservesValid(r: ToolXRouter, te: ToolEndstop)
    requires Valid(r)
    requires AddToolEndstop(r, te).Ok?
    ensures Valid(AddToolEndstop(r, te).value)
  {
    var r' := AddToolEndstop(r, te).value;
    AddMcuPreservesWired(r.mcuRouter, te.mcuEndstop);
    assert te.mcuEndstop == r'.toolEndstops[te.tool];
    forall h | h in r'.mcuRouter.mcus
      ensures exists t :: t in r'.toolEndstops && r'.toolEndstops[t] == h
    {
      if h != te.mcuEndstop {
        assert h in r.mcuRouter.mcus;
        var t :| t in r.toolEndstops && r.toolEndstops[t] == h;
        assert r'.toolEndstops[t] == h;
      }
    }
  }

  lemma AddStepperPreservesValid(r: ToolXRouter, s: Stepper)
    requires Valid(r)
    ensures Valid(r.(mcuRouter := AddStepper(r.mcuRouter, s)))
  {
    AddStepperPreservesWired(r.mcuRouter, s);
  }

  lemma SetActiveToolPreservesValid(r: ToolXRouter, n: int)
    requires Valid(r)
    ensures Valid(SetActiveTool(r, n))
  {
  }

  lemma HomeRailsBeginPreservesValid(r: ToolXRouter, rails: seq<Rail>, detector: Option<DetectorStatus>)
    requires Valid(r)
    ensures Valid(HomeRailsBegin(r, rails, detector).0)
  {
    if HomesX(rails) && detector.Some? {
      SetActiveToolPreservesValid(r, DetectedTool(detector.value));
    }
  }

  lemma ApplyPreservesValid(r: ToolXRouter, op: Op)
    requires Valid(r)
    ensures Valid(Apply(r, op).0)
  {
    match op
    case RegisterTool(te) =>
      if AddToolEndstop(r, te).Ok? {
        AddToolEndstopPreservesValid(r, te);
      }
    case AttachStepper(s) => AddStepperPreservesValid(r, s);
    case SelectTool(n) => SetActiveToolPreservesValid(r, n);
    case RailsHomingBegins(rails, detector) => HomeRailsBeginPreservesValid(r, rails, detector);
  }

  /** Every call keeps the invariants, whether or not it fails. */
  lemma {:induction false} RunPreservesValid(r: ToolXRouter, ops: seq<Op>)
    requires Valid(r)
    ensures Valid(Run(r, ops).0)
    decreases |ops|
  {
    if ops != [] {
      ApplyPreservesValid(r, ops[0]);
      var (r', err) := Apply(r, ops[0]);
      if err.None? {
        RunPreservesValid(r', ops[1..]);
      }
    }
  }

  /** Every handle a run registers is new: absent from `mcus`, the handles
      registered before the run, and from every handle registered earlier in
      the run. Each `ToolXEndstop` builds its own endstop wrapper, so this is
      what configuration loading supplies. */
  ghost predicate FreshHandles(mcus: seq<Handle>, ops: seq<Op>)
    decreases |ops|
  {
    ops == [] ||
    match ops[0]
    case RegisterTool(te) => te.mcuEndstop !in mcus && FreshHandles(mcus + [te.mcuEndstop], ops[1..])
    case _ => FreshHandles(mcus, ops[1..])
  }

  lemma ApplyPreservesWiredExactly(r: ToolXRouter, op: Op)
    requires WiredExactly(r.mcuRouter)
    requires op.RegisterTool? ==> op.te.mcuEndstop !in r.mcuRouter.mcus
    ensures WiredExactly(Apply(r, op).0.mcuRouter)
    ensures Apply(r, op).1.None? ==>
      Apply(r, op).0.mcuRouter.mcus == r.mcuRouter.mcus + (if op.RegisterTool? then [op.te.mcuEndstop] else [])
  {
    match op
    case RegisterTool(te) =>
      if AddToolEndstop(r, te).Ok? {
        AddMcuPreservesWiredExactly(r.mcuRouter, te.mcuEndstop);
      }
    case AttachStepper(s) => AddStepperPreservesWiredExactly(r.mcuRouter, s);
    case SelectTool(n) =>
    case RailsHomingBegins(rails, detector) =>
  }

  /** With fresh handles, every run keeps each handle's log exactly equal to
      the stepper list: each handle has received every stepper once, in
      insertion order, and nothing else. */
  lemma {:induction false} RunPreservesWiredExactly(r: ToolXRouter, ops: seq<Op>)
    requires WiredExactly(r.mcuRouter)
    requires FreshHandles(r.mcuRouter.mcus, ops)
    ensures WiredExactly(Run(r, ops).0.mcuRouter)
    decreases |ops|
  {
    if ops != [] {
      ApplyPreservesWiredExactly(r, ops[0]);
      var (r', err) := Apply(r, ops[0]);
      if err.None? {
        RunPreservesWiredExactly(r', ops[1..]);
      }
    }
  }

  /** From start-up, when every registered handle is new, each registered
      handle has received exactly the steppers of `get_steppers`, in order. */
  lemma ReachableStatesWiredExactly(ops: seq<Op>)
    requires FreshHandles([], ops)
    ensures var r := Run(NewToolXRouter(), ops).0;
      forall h :: h in r.mcuRouter.mcus ==> Received(r.mcuRouter.attached, h) == GetSteppers(r.mcuRouter)
    ensures Wired(Run(NewToolXRouter(), ops).0.mcuRouter)
  {
    RunPreservesWiredExactly(NewToolXRouter(), ops);
    WiredExactlyIsWired(Run(NewToolXRouter(), ops).0.mcuRouter);
  }

  /** What one call may change: registrations are never lost or
      overwritten, and the handle and stepper lists only grow at their end. */
  ghost predicate OnlyGrows(r: ToolXRouter, r': ToolXRouter)
  {
    && (forall t :: t in r.toolEndstops ==> t in r'.toolEndstops && r'.toolEndstops[t] == r.toolEndstops[t])
    && r.mcuRouter.mcus <= r'.mcuRouter.mcus
    && r.mcuRouter.steppers <= r'.mcuRouter.steppers
  }

  lemma ApplyOnlyGrows(r: ToolXRouter, op: Op)
    ensures OnlyGrows(r, Apply(r, op).0)
  {
  }

  /** However many calls are made, the registry keeps every entry it had and
      the handle and stepper lists keep their old contents as a prefix. */
  lemma {:induction false} RunOnlyGrows(r: ToolXRouter, ops: seq<Op>)
    ensures OnlyGrows(r, Run(r, ops).0)
    decreases |ops|
  {
    if ops != [] {
      ApplyOnlyGrows(r, ops[0]);
      var (r', err) := Apply(r, ops[0]);
      if err.None? {
        RunOnlyGrows(r', ops[1..]);
        var r'' := Run(r', ops[1..]).0;
        assert r.mcuRouter.mcus <= r''.mcuRouter.mcus by {
          assert r.mcuRouter.mcus == r'.mcuRouter.mcus[..|r.mcuRouter.mcus|];
        }
        assert r.mcuRouter.steppers <= r''.mcuRouter.steppers by {
          assert r.mcuRouter.steppers == r'.mcuRouter.steppers[..|r.mcuRouter.steppers|];
        }
      }
    }
  }

  /** From start-up on, after any sequence of calls: an active handle is the
      one registered under the active tool number, no handle is active when
      the tool number is -1 and unregistered, and every registered handle has
      received every stepper. */
  lemma ReachableStatesValid(ops: seq<Op>)
    ensures Valid(Run(NewToolXRouter(), ops).0)
    ensures var r := Run(NewToolXRouter(), ops).0;
      && SelectionConsistent(r)
      && RegistryMirrored(r)
      && (r.activeToolNumber == NoTool && NoTool !in r.toolEndstops ==> r.mcuRouter.active == Unbound)
      && (forall i, j :: 0 <= i < |r.mcuRouter.mcus| && 0 <= j < |r.mcuRouter.steppers| ==>
            r.mcuRouter.steppers[j] in Received(r.mcuRouter.attached, r.mcuRouter.mcus[i]))
  {
    RunPreservesValid(NewToolXRouter(), ops);
  }

  /** A duplicate registration fails and leaves the whole state, registry and
      handle list included, exactly as it was. */
  lemma DuplicateRegistrationChangesNothing(r: ToolXRouter, te: ToolEndstop)
    requires te.tool in r.toolEndstops
    ensures Apply(r, RegisterTool(te)) == (r, Some(DuplicateToolEndstop(te.tool)))
  {
  }

  /** Selecting the same tool twice has no further effect. */
  lemma SetActiveToolIdempotent(r: ToolXRouter, n: int)
    ensures SetActiveTool(SetActiveTool(r, n), n) == SetActiveTool(r, n)
  {
  }

  /** Changing the selection never changes what `get_steppers` returns. */
  lemma SelectionKeepsSteppers(r: ToolXRouter, n: int, rails: seq<Rail>, detector: Option<DetectorStatus>)
    ensures GetSteppers(SetActiveTool(r, n).mcuRouter) == GetSteppers(r.mcuRouter)
    ensures GetSteppers(HomeRailsBegin(r, rails, detector).0.mcuRouter) == GetSteppers(r.mcuRouter)
  {
  }

  /** After selecting a tool nobody registered, homing calls fail with a
      command error while `get_mcu` still answers with the default MCU. */
  lemma UnregisteredToolBlocksHoming(r: ToolXRouter, n: int, call: Call)
    requires Valid(r)
    requires n !in r.toolEndstops
    ensures SetActiveTool(r, n).mcuRouter.active == Unbound
    ensures call != GetMcu ==> Forward(SetActiveTool(r, n).mcuRouter, call) == Err(NoActiveTool)
    ensures call == GetMcu ==> Forward(SetActiveTool(r, n).mcuRouter, call) == Ok(DefaultMcu)
  {
  }

  /** In a valid state a forwarded call reaches a handle only if that handle
      is the one registered under the active tool number. */
  lemma ForwardedHandleIsActiveTools(r: ToolXRouter, call: Call, h: Handle)
    requires Valid(r)
    requires Forward(r.mcuRouter, call) == Ok(Endstop(h))
    ensures r.activeToolNumber in r.toolEndstops && r.toolEndstops[r.activeToolNumber] == h
  {
    ForwardReachesOnlyActive(r.mcuRouter, call, h);
  }

  /** A homing event for other axes neither runs detection nor touches the
      selection; neither does an X homing when no detector was resolved. */
  lemma TriggerLeavesSelectionAlone(r: ToolXRouter, rails: seq<Rail>, detector: Option<DetectorStatus>)
    requires !HomesX(rails) || detector.None?
    ensures HomeRailsBegin(r, rails, detector).0 == r
    ensures !HomeRailsBegin(r, rails, detector).1.Detected?
  {
  }

  /** The detector answering "no tool" does NOT keep the previous selection:
      unless -1 itself is a registered tool, the selection is cleared and
      homing calls fail from then on. */
  lemma SentinelClearsSelection(r: ToolXRouter, rails: seq<Rail>, status: DetectorStatus, call: Call)
    requires Valid(r)
    requires HomesX(rails)
    requires DetectedTool(status) == NoTool
    requires NoTool !in r.toolEndstops
    ensures HomeRailsBegin(r, rails, Some(status)).0.mcuRouter.active == Unbound
    ensures HomeRailsBegin(r, rails, Some(status)).0.activeToolNumber == NoTool
    ensures call != GetMcu ==> Forward(HomeRailsBegin(r, rails, Some(status)).0.mcuRouter, call).Err?
  {
  }

  /** Tool number -1 collides with the "no tool" sentinel: even when -1 is
      registered, selecting it from the unbound start state returns early and
      leaves nothing active. */
  lemma SentinelToolCannotBeSelectedFromStart(h: Handle)
    ensures var r := AddToolEndstop(NewToolXRouter(), ToolEndstop(NoTool, h));
      && r.Ok?
      && NoTool in r.value.toolEndstops
      && SetActiveTool(r.value, NoTool).mcuRouter.active == Unbound
  {
  }

  /** Registering tools one by one, as configuration loading does. */
  function RegisterAll(r: ToolXRouter, tes: seq<ToolEndstop>): Result<ToolXRouter, ConfigError>
    decreases |tes|
  {
    if tes == [] then Ok(r)
    else match AddToolEndstop(r, tes[0])
      case Err(e) => Err(e)
      case Ok(r') => RegisterAll(r', tes[1..])
  }

  /** Registering distinct tool numbers succeeds, and afterwards each tool
      number looks up the handle registered with it; nothing else in the
      registry changes. */
  lemma {:induction false} RegisterAllLookup(r: ToolXRouter, tes: seq<ToolEndstop>)
    requires forall i :: 0 <= i < |tes| ==> tes[i].tool !in r.toolEndstops
    requires forall i, j :: 0 <= i < j < |tes| ==> tes[i].tool != tes[j].tool
    ensures RegisterAll(r, tes).Ok?
    ensures forall i :: 0 <= i < |tes| ==>
      tes[i].tool in RegisterAll(r, tes).value.toolEndstops
      && RegisterAll(r, tes).value.toolEndstops[tes[i].tool] == tes[i].mcuEndstop
    ensures forall t :: t in r.toolEndstops ==>
      t in RegisterAll(r, tes).value.toolEndstops
      && RegisterAll(r, tes).value.toolEndstops[t] == r.toolEndstops[t]
    decreases |tes|
  {
    if tes != [] {
      var r' := AddToolEndstop(r, tes[0]).value;
      forall i | 0 <= i < |tes[1..]| ensures tes[1..][i].tool !in r'.toolEndstops {
        assert tes[1..][i] == tes[i + 1];
      }
      RegisterAllLookup(r', tes[1..]);
      forall i | 0 <= i < |tes|
        ensures tes[i].tool in RegisterAll(r, tes).value.toolEndstops
        ensures RegisterAll(r, tes).value.toolEndstops[tes[i].tool] == tes[i].mcuEndstop
      {
        if i > 0 {
          assert tes[i] == tes[1..][i - 1];
        }
      }
    }
  }

  /** A repeated tool number anywhere in the configuration stops loading with
      the duplicate-endstop error. */
  lemma {:induction false} RegisterAllRejectsRepeat(r: ToolXRouter, tes: seq<ToolEndstop>, i: nat, j: nat)
    requires i < j < |tes| && tes[i].tool == tes[j].tool
    ensures RegisterAll(r, tes).Err?
    ensures RegisterAll(r, tes).error.DuplicateToolEndstop?
    decreases |tes|
  {
    match AddToolEndstop(r, tes[0])
    case Err(e) =>
    case Ok(r') =>
      if i == 0 {
        RegisteredStaysRegistered(r', tes[1..], j - 1);
      } else {
        RegisterAllRejectsRepeat(r', tes[1..], i - 1, j - 1);
      }
  }

  /** Once a tool number is registered, registering it again later in the
      same run fails. */
  lemma {:induction false} RegisteredStaysRegistered(r: ToolXRouter, tes: seq<ToolEndstop>, k: nat)
    requires k < |tes| && tes[k].tool in r.toolEndstops
    ensures RegisterAll(r, tes).Err?
    ensures RegisterAll(r, tes).error.DuplicateToolEndstop?
    decreases |tes|
  {
    match AddToolEndstop(r, tes[0])
    case Err(e) =>
    case Ok(r') =>
      RegisteredStaysRegistered(r', tes[1..], k - 1);
  }

  /* The two-tool scenario: handles 10 and 11 for tools 0 and 1, stepper 100
     added before registration and stepper 101 after, then tool 1 selected.
     The states after each call are spelled out below. */
  const ScenarioCalls: seq<Op> :=
    [AttachStepper(100), RegisterTool(ToolEndstop(0, 10)), RegisterTool(ToolEndstop(1, 11)),
     AttachStepper(101), SelectTool(1)]
  const AfterFirstStepper := ToolXRouter(map[], NoTool, EndstopRouter([], [100], Unbound, map[]))
  const AfterTool0 :=
    ToolXRouter(map[0 := 10], NoTool, EndstopRouter([10], [100], Unbound, map[10 := [100]]))
  const AfterTool1 :=
    ToolXRouter(map[0 := 10, 1 := 11], NoTool,
                EndstopRouter([10, 11], [100], Unbound, map[10 := [100], 11 := [100]]))
  const AfterSecondStepper :=
    ToolXRouter(map[0 := 10, 1 := 11], NoTool,
                EndstopRouter([10, 11], [100, 101], Unbound, map[10 := [100, 101], 11 := [100, 101]]))
  const AfterSelect :=
    ToolXRouter(map[0 := 10, 1 := 11], 1,
                EndstopRouter([10, 11], [100, 101], Bound(11), map[10 := [100, 101], 11 := [100, 101]]))

  lemma ScenarioFirstStepper()
    ensures Apply(NewToolXRouter(), AttachStepper(100)) == (AfterFirstStepper, None)
  {
    var r0 := NewToolXRouter();
    assert AttachToEach(map[], [], 100) == map[];
    assert AddStepper(r0.mcuRouter, 100) == AfterFirstStepper.mcuRouter;
  }

  /** The tool registered after stepper 100 receives it at registration. */
  lemma ScenarioRegisterTools()
    ensures Apply(AfterFirstStepper, RegisterTool(ToolEndstop(0, 10))) == (AfterTool0, None)
    ensures Apply(AfterTool0, RegisterTool(ToolEndstop(1, 11))) == (AfterTool1, None)
  {
    assert [100][1..] == [] && [] + [100] == [100];
    assert AttachEach(map[], 10, [100]) == Attach(map[], 10, 100);
    assert AttachEach(map[], 10, [100]) == map[10 := [100]];
    assert AddMcu(AfterFirstStepper.mcuRouter, 10) == AfterTool0.mcuRouter;
    assert AttachEach(map[10 := [100]], 11, [100]) == Attach(map[10 := [100]], 11, 100);
    assert AttachEach(map[10 := [100]], 11, [100]) == map[10 := [100], 11 := [100]];
    assert AddMcu(AfterTool0.mcuRouter, 11) == AfterTool1.mcuRouter;
  }

  /** Stepper 101 reaches both registered handles. */
  lemma ScenarioSecondStepper()
    ensures Apply(AfterTool1, AttachStepper(101)) == (AfterSecondStepper, None)
  {
    var log := map[10 := [100], 11 := [100]];
    var log1 := Attach(log, 10, 101);
    assert [10, 11][1..] == [11] && [11][1..] == [];
    assert AttachToEach(log, [10, 11], 101) == Attach(log1, 11, 101);
    assert Received(log, 10) == [100] && Received(log1, 11) == [100];
    assert [100] + [101] == [100, 101];
    assert AddStepper(AfterTool1.mcuRouter, 101) == AfterSecondStepper.mcuRouter;
  }

  /** Two tools, one stepper added before and one after registration, then
      tool 1 selected: homing reaches tool 1's handle and never tool 0's, both
      handles have received both steppers in order, and `get_steppers` lists
      both steppers whichever tool is active. */
  lemma TwoToolScenario()
    ensures var (r, err) := Run(NewToolXRouter(), ScenarioCalls);
      && err.None?
      && Forward(r.mcuRouter, HomeStart) == Ok(Endstop(11))
      && Forward(r.mcuRouter, HomeStart) != Ok(Endstop(10))
      && Received(r.mcuRouter.attached, 10) == [100, 101]
      && Received(r.mcuRouter.attached, 11) == [100, 101]
      && GetSteppers(r.mcuRouter) == [100, 101]
      && GetSteppers(SetActiveTool(r, 0).mcuRouter) == [100, 101]
  {
    var c := ScenarioCalls;
    ScenarioFirstStepper();
    ScenarioRegisterTools();
    ScenarioSecondStepper();
    assert Apply(AfterSecondStepper, c[4]) == (AfterSelect, None);
    assert c == [c[0], c[1], c[2], c[3], c[4]];
    RunCons(AfterSecondStepper, c[4], []);
    RunCons(AfterTool1, c[3], [c[4]]);
    RunCons(AfterTool0, c[2], [c[3], c[4]]);
    RunCons(AfterFirstStepper, c[1], [c[2], c[3], c[4]]);
    RunCons(NewToolXRouter(), c[0], [c[1], c[2], c[3], c[4]]);
  }
}
