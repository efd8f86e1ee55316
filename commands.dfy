/** Command intake: a cat location and a stop request, each held in a
    single-slot pending store until the main loop polls it. */
module Commands {
  import opened Base

  /** A callback fired by `poll_commands`. */
  datatype Callback = OnCatLocation(x: real, y: real) | OnStop

  /** The callbacks one poll fires, from the pending slots it consumed and
      from which callbacks the caller supplied. */
  function Fired(location: Option<(real, real)>, stop: bool,
                 hasOnCatLocation: bool, hasOnStop: bool): (r: seq<Callback>)
    ensures |r| <= 2
    ensures (location.Some? && hasOnCatLocation) <==> (|r| > 0 && r[0].OnCatLocation?)
    ensures location.Some? && hasOnCatLocation ==> r[0] == OnCatLocation(location.value.0, location.value.1)
    ensures (stop && hasOnStop) <==> (|r| > 0 && r[|r| - 1] == OnStop)
    ensures forall i :: 0 <= i < |r| && r[i].OnCatLocation? ==> i == 0
    ensures forall i :: 0 <= i < |r| && r[i].OnStop? ==> i == |r| - 1
    ensures forall i, j :: 0 <= i < j < |r| ==> r[i] != r[j]
  {
    var loc := if location.Some? && hasOnCatLocation
               then [OnCatLocation(location.value.0, location.value.1)] else [];
    loc + (if stop && hasOnStop then [OnStop] else [])
  }

  /** The two pending slots of the command module. */
  class CommandQueue {
    var pendingCatLocation: Option<(real, real)>
    var pendingStop: bool

    constructor()
      ensures pendingCatLocation == None && !pendingStop
    {
      pendingCatLocation := None;
      pendingStop := false;
    }

    /** `set_cat_location`: overwrites any location not yet polled. */
    method SetCatLocation(x: real, y: real)
      modifies this
      ensures pendingCatLocation == Some((x, y))
      ensures pendingStop == old(pendingStop)
    {
      pendingCatLocation := Some((x, y));
    }

    /** `set_stop_command`: raises the flag; raising it twice is raising it once. */
    method SetStopCommand()
      modifies this
      ensures pendingStop
      ensures pendingCatLocation == old(pendingCatLocation)
    {
      pendingStop := true;
    }

    /** `poll_commands`: consumes both slots, then fires the location callback
        before the stop callback. A missing callback still consumes its item. */
    method PollCommands(hasOnCatLocation: bool, hasOnStop: bool) returns (fired: seq<Callback>)
      modifies this
      ensures pendingCatLocation == None && !pendingStop
      ensures fired == Fired(old(pendingCatLocation), old(pendingStop), hasOnCatLocation, hasOnStop)
    {
      var catLoc: Option<(real, real)> := None;
      var doStop := false;
      if pendingCatLocation.Some? {
        catLoc := pendingCatLocation;
        pendingCatLocation := None;
      }
      if pendingStop {
        doStop := true;
        pendingStop := false;
      }
      fired := [];
      if catLoc.Some? && hasOnCatLocation {
        fired := fired + [OnCatLocation(catLoc.value.0, catLoc.value.1)];
      }
      if doStop && hasOnStop {
        fired := fired + [OnStop];
      }
    }
  }

  /** A poll with nothing pending fires nothing. */
  lemma NothingPendingFiresNothing(hasOnCatLocation: bool, hasOnStop: bool)
    ensures Fired(None, false, hasOnCatLocation, hasOnStop) == []
  {
  }

  /** With both pending and both callbacks given, the location comes first. */
  lemma BothPendingOrder(x: real, y: real)
    ensures Fired(Some((x, y)), true, true, true) == [OnCatLocation(x, y), OnStop]
  {
  }
}
