/** The `EndstopRouter` of tool_x_router.py: the list of every registered
    endstop handle, the steppers fanned out to all of them, and the single
    active handle that endstop calls are forwarded to. */
module EndstopRouting {
  import opened Wrappers
  import opened FanOut

  /** Which handle forwarded calls reach. The source swaps bound methods on
      the router object; here the swap is a change of variant. */
  datatype Selection = Unbound | Bound(handle: Handle)

  datatype EndstopRouter = EndstopRouter(
    mcus: seq<Handle>,        // `_mcus`, in registration order
    steppers: seq<Stepper>,   // `_steppers`, in insertion order, not deduplicated
    active: Selection,        // `active_mcu`
    attached: AttachLog)      // every `add_stepper` call made on a handle

  /** The endstop calls the homing code makes on the virtual endstop. */
  datatype Call = GetMcu | HomeStart | HomeWait | QueryEndstop

  /** Where a forwarded call ends up. */
  datatype Target = Endstop(handle: Handle) | DefaultMcu

  /** The `command_error` raised by `on_error`. */
  datatype RoutingError = NoActiveTool

  /** Every handle in `mcus` has received every stepper in `steppers`. */
  ghost predicate Wired(r: EndstopRouter)
  {
    forall i, j :: 0 <= i < |r.mcus| && 0 <= j < |r.steppers| ==>
      r.steppers[j] in Received(r.attached, r.mcus[i])
  }

  /** The sharper form that holds while all handles are distinct: each handle
      has received exactly `steppers`, in order, and no other handle has
      received anything. */
  ghost predicate WiredExactly(r: EndstopRouter)
  {
    && (forall i, j :: 0 <= i < j < |r.mcus| ==> r.mcus[i] != r.mcus[j])
    && (forall h :: h in r.mcus ==> Received(r.attached, h) == r.steppers)
    && (forall h :: h !in r.mcus ==> Received(r.attached, h) == [])
  }

  /** `EndstopRouter.__init__`: no handles, no steppers, nothing active. */
  function NewEndstopRouter(): (r: EndstopRouter)
    ensures r.active == Unbound
    ensures r.mcus == [] && r.steppers == []
    ensures forall h :: Received(r.attached, h) == []
    ensures WiredExactly(r)
  {
    EndstopRouter([], [], Unbound, map[])
  }

  /** `add_mcu`: append the handle and attach every known stepper to it, in
      insertion order. Nothing else is attached and nothing else changes. */
  function AddMcu(r: EndstopRouter, h: Handle): (r': EndstopRouter)
    ensures r'.mcus == r.mcus + [h]
    ensures r'.steppers == r.steppers && r'.active == r.active
    ensures Received(r'.attached, h) == Received(r.attached, h) + r.steppers
    ensures forall g :: g != h ==> Received(r'.attached, g) == Received(r.attached, g)
  {
    r.(mcus := r.mcus + [h], attached := AttachEach(r.attached, h, r.steppers))
  }

  /** `set_active_mcu`: choose the handle calls are forwarded to, or none. */
  function SetActiveMcu(r: EndstopRouter, sel: Selection): (r': EndstopRouter)
    ensures r'.active == sel
    ensures r'.mcus == r.mcus && r'.steppers == r.steppers && r'.attached == r.attached
  {
    r.(active := sel)
  }

  /** `add_stepper`: append `s` (no deduplication) and attach it once to each
      entry of `mcus`. */
  function AddStepper(r: EndstopRouter, s: Stepper): (r': EndstopRouter)
    ensures r'.steppers == r.steppers + [s]
    ensures r'.mcus == r.mcus && r'.active == r.active
    ensures forall h :: Received(r'.attached, h) == Received(r.attached, h) + Copies(s, Count(r.mcus, h))
  {
    forall h ensures Received(AttachToEach(r.attached, r.mcus, s), h) == Received(r.attached, h) + Copies(s, Count(r.mcus, h)) {
      AttachToEachReceived(r.attached, r.mcus, s, h);
    }
    r.(steppers := r.steppers + [s], attached := AttachToEach(r.attached, r.mcus, s))
  }

  /** `get_steppers`: a copy of `_steppers`. While the router is wired,
      every stepper it lists has been given to every registered handle. */
  function GetSteppers(r: EndstopRouter): (s: seq<Stepper>)
    ensures s == r.steppers
    ensures Wired(r) ==> forall i, j :: 0 <= i < |r.mcus| && 0 <= j < |s| ==>
      s[j] in Received(r.attached, r.mcus[i])
  {
    r.steppers
  }

  /** The wrappers installed by `set_active_mcu`: when bound, all four calls
      reach the active handle; when unbound, `get_mcu` falls back to the
      default MCU (`get_default_mcu`) and the other three raise (`on_error`). */
  function Forward(r: EndstopRouter, call: Call): (res: Result<Target, RoutingError>)
    ensures r.active.Bound? ==> res == Ok(Endstop(r.active.handle))
    ensures r.active.Unbound? && call == GetMcu ==> res == Ok(DefaultMcu)
    ensures r.active.Unbound? && call != GetMcu ==> res == Err(NoActiveTool)
  {
    match r.active
    case Bound(h) => Ok(Endstop(h))
    case Unbound =>
      if call == GetMcu then Ok(DefaultMcu) else Err(NoActiveTool)
  }

  /** A forwarded call reaches a handle only when one is active, and then
      reaches exactly that handle; a call fails only when nothing is active
      and it is not `get_mcu`. */
  lemma ForwardReachesOnlyActive(r: EndstopRouter, call: Call, h: Handle)
    ensures Forward(r, call) == Ok(Endstop(h)) <==> r.active == Bound(h)
    ensures Forward(r, call).Err? <==> r.active == Unbound && call != GetMcu
  {
  }

  lemma AddMcuPreservesWired(r: EndstopRouter, h: Handle)
    requires Wired(r)
    ensures Wired(AddMcu(r, h))
  {
    var r' := AddMcu(r, h);
    forall i, j | 0 <= i < |r'.mcus| && 0 <= j < |r'.steppers|
      ensures r'.steppers[j] in Received(r'.attached, r'.mcus[i])
    {
      if i == |r.mcus| {
        assert Received(r'.attached, h)[|Received(r.attached, h)| + j] == r.steppers[j];
      } else if r.mcus[i] == h {
        assert r.steppers[j] in Received(r.attached, h);
      } else {
        assert r.steppers[j] in Received(r.attached, r.mcus[i]);
      }
    }
  }

  lemma AddStepperPreservesWired(r: EndstopRouter, s: Stepper)
    requires Wired(r)
    ensures Wired(AddStepper(r, s))
  {
    var r' := AddStepper(r, s);
    forall i, j | 0 <= i < |r'.mcus| && 0 <= j < |r'.steppers|
      ensures r'.steppers[j] in Received(r'.attached, r'.mcus[i])
    {
      var h := r.mcus[i];
      var k := Count(r.mcus, h);
      assert Received(r'.attached, h) == Received(r.attached, h) + Copies(s, k);
      if j == |r.steppers| {
        assert Received(r'.attached, h)[|Received(r.attached, h)|] == s;
      } else {
        assert r.steppers[j] in Received(r.attached, h);
      }
    }
  }

  lemma WiredExactlyIsWired(r: EndstopRouter)
    requires WiredExactly(r)
    ensures Wired(r)
  {
    forall i, j | 0 <= i < |r.mcus| && 0 <= j < |r.steppers|
      ensures r.steppers[j] in Received(r.attached, r.mcus[i])
    {
      assert r.mcus[i] in r.mcus;
    }
  }

  /** Registering a handle not seen before keeps every log exactly equal to
      `steppers`: the new handle receives the steppers added before it. */
  lemma AddMcuPreservesWiredExactly(r: EndstopRouter, h: Handle)
    requires WiredExactly(r)
    requires h !in r.mcus
    ensures WiredExactly(AddMcu(r, h))
  {
    var r' := AddMcu(r, h);
    forall g | g in r'.mcus ensures Received(r'.attached, g) == r'.steppers {
      if g != h {
        assert g in r.mcus;
      }
    }
  }

  lemma AddStepperPreservesWiredExactly(r: EndstopRouter, s: Stepper)
    requires WiredExactly(r)
    ensures WiredExactly(AddStepper(r, s))
  {
    var r' := AddStepper(r, s);
    forall h | h in r'.mcus ensures Received(r'.attached, h) == r'.steppers {
      CountOfDistinct(r.mcus, h);
    }
    forall h | h !in r'.mcus ensures Received(r'.attached, h) == [] {
      assert Count(r.mcus, h) == 0;
    }
  }
}
