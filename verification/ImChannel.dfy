/** The IM layer's own bookkeeping: one control per route with a turn in progress, and a
    generation number that outdates dispatch callbacks across close and start. */
module ImChannel {
  import opened GatewayTurns

  /** `stamp` stands for the identity of the control object. */
  datatype Control = Control(id: Id, stamp: nat)

  datatype Im = Im(controls: map<Route, Control>, closed: bool, generation: nat, created: nat)

  const STARTED := Im(map[], false, 0, 0)

  datatype DispatchResult = Installed(stamp: nat) | GenerationError | AlreadyRunningError

  function Holds(im: Im, r: Route, id: Id): bool {
    r in im.controls && im.controls[r].id == id
  }

  /** The section at the start of the dispatch callback. */
  function Install(im: Im, t: Turn): (Im, DispatchResult) {
    if im.closed || t.generation != im.generation then (im, GenerationError)
    else if t.route in im.controls then (im, AlreadyRunningError)
    else
      (im.(controls := im.controls[t.route := Control(t.id, im.created)], created := im.created + 1),
       Installed(im.created))
  }

  /** The section after a failed publication: only this very control is taken back. */
  function Uninstall(im: Im, r: Route, stamp: nat): Im {
    if r in im.controls && im.controls[r].stamp == stamp
    then im.(controls := im.controls - {r})
    else im
  }

  /** The section of a delivery report: true when the turn's control was found and removed. */
  function Deliver(im: Im, r: Route, id: Id): (Im, bool) {
    if Holds(im, r, id) then (im.(controls := im.controls - {r}), true) else (im, false)
  }

  function Start(im: Im): Im {
    im.(generation := im.generation + 1, closed := false)
  }

  function Close(im: Im): Im {
    im.(generation := im.generation + 1, closed := true, controls := map[])
  }

  predicate AnyControlled(im: Im, matcher: RouteMatcher) {
    exists r | r in im.controls :: matcher(r)
  }

  class ImGateway {
    var controls: map<Route, Control>
    var closed: bool
    var generation: nat
    ghost var created: nat

    ghost function View(): Im
      reads this
    {
      Im(controls, closed, generation, created)
    }

    constructor ()
      ensures View() == STARTED
    {
      controls, closed, generation, created := map[], false, 0, 0;
    }

    method StartSection()
      modifies this
      ensures View() == Start(old(View()))
    {
      generation := generation + 1;
      closed := false;
    }

    method CloseSection()
      modifies this
      ensures View() == Close(old(View()))
    {
      generation := generation + 1;
      closed := true;
      controls := map[];
    }

    /** `stamp` is the identity of the control object just allocated. */
    method InstallSection(t: Turn, stamp: nat) returns (result: DispatchResult)
      requires stamp == created
      modifies this
      ensures (View(), result) == Install(old(View()), t)
    {
      if closed || t.generation != generation {
        return GenerationError;
      }
      if t.route in controls {
        return AlreadyRunningError;
      }
      controls := controls[t.route := Control(t.id, stamp)];
      created := created + 1;
      return Installed(stamp);
    }

    method UninstallSection(r: Route, stamp: nat)
      modifies this
      ensures View() == Uninstall(old(View()), r, stamp)
    {
      if r in controls && controls[r].stamp == stamp {
        controls := controls - {r};
      }
    }

    method DeliverSection(r: Route, id: Id) returns (complete: bool)
      modifies this
      ensures (View(), complete) == Deliver(old(View()), r, id)
    {
      if r !in controls || controls[r].id != id {
        return false;
      }
      controls := controls - {r};
      return true;
    }
  }
}
