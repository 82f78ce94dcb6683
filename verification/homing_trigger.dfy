/** `_handle_home_rails_begin` of tool_x_router.py: when X is about to be
    homed, ask the external tool detector which tool is mounted and select it. */
module HomingTrigger {
  import opened Wrappers
  import opened FanOut
  import opened ToolXRouting

  /** A stepper of a rail, as far as the trigger looks at it: the axes for
      which its `is_active_axis` answers true. */
  datatype RailStepper = RailStepper(id: Stepper, activeAxes: set<char>)

  /** A rail, as the list its `get_steppers` returns. */
  type Rail = seq<RailStepper>

  /** The status mapping `get_status` of the detector returns. */
  type DetectorStatus = map<string, int>

  /** What the event handler did. */
  datatype TriggerOutcome =
    | NotHomingX            // no X stepper among the rails: returned at once
    | DetectorMissing       // `tool_probe_endstop` was not found at connect time
    | Detected(tool: int)   // detection ran and reported this tool number

  /** Some stepper of some rail is active on the X axis. */
  predicate HomesX(rails: seq<Rail>)
  {
    exists i, j :: 0 <= i < |rails| && 0 <= j < |rails[i]| && 'x' in rails[i][j].activeAxes
  }

  /** The scan at the head of the handler: every rail is visited, and the
      scan of a rail stops at its first X stepper. */
  method IsHomingX(rails: seq<Rail>) returns (isHomingX: bool)
    ensures isHomingX <==> HomesX(rails)
  {
    isHomingX := false;
    for i := 0 to |rails|
      invariant isHomingX <==>
        exists i', j :: 0 <= i' < i && 0 <= j < |rails[i']| && 'x' in rails[i'][j].activeAxes
    {
      ghost var before := isHomingX;
      var j := 0;
      while j < |rails[i]|
        invariant 0 <= j <= |rails[i]|
        invariant isHomingX == before
        invariant forall j' :: 0 <= j' < j ==> 'x' !in rails[i][j'].activeAxes
      {
        if 'x' in rails[i][j].activeAxes {
          isHomingX := true;
          break;
        }
        j := j + 1;
      }
    }
  }

  /** `status.get('active_tool_number', -1)`: the detected tool number, or
      the "no tool" sentinel when the status does not carry one. */
  function DetectedTool(status: DetectorStatus): (n: int)
    ensures "active_tool_number" in status ==> n == status["active_tool_number"]
    ensures "active_tool_number" !in status ==> n == NoTool
  {
    if "active_tool_number" in status then status["active_tool_number"] else NoTool
  }

  /** The whole handler. `detector` is `None` when no detector was resolved at
      connect time, and otherwise the status it reports once the detection
      command has run. Only an X homing with a detector changes the router,
      and then exactly as `set_active_tool` with the reported number does. */
  function HomeRailsBegin(r: ToolXRouter, rails: seq<Rail>, detector: Option<DetectorStatus>)
    : (res: (ToolXRouter, TriggerOutcome))
    ensures !HomesX(rails) ==> res == (r, NotHomingX)
    ensures HomesX(rails) && detector.None? ==> res == (r, DetectorMissing)
    ensures HomesX(rails) && detector.Some? ==>
      var n := DetectedTool(detector.value);
      res == (SetActiveTool(r, n), Detected(n))
  {
    if !HomesX(rails) then (r, NotHomingX)
    else match detector
      case None => (r, DetectorMissing)
      case Some(status) =>
        var n := DetectedTool(status);
        (SetActiveTool(r, n), Detected(n))
  }

  /** The handler as the source runs it: the scan loop, then the detector. */
  method HandleHomeRailsBegin(r: ToolXRouter, rails: seq<Rail>, detector: Option<DetectorStatus>)
    returns (r': ToolXRouter, outcome: TriggerOutcome)
    ensures (r', outcome) == HomeRailsBegin(r, rails, detector)
    ensures outcome.NotHomingX? <==> !HomesX(rails)
    ensures outcome.NotHomingX? || outcome.DetectorMissing? ==> r' == r
  {
    var isHomingX := IsHomingX(rails);
    if !isHomingX {
      return r, NotHomingX;
    }
    if detector.None? {
      return r, DetectorMissing;
    }
    var n := DetectedTool(detector.value);
    r' := SetActiveTool(r, n);
    outcome := Detected(n);
  }
}
