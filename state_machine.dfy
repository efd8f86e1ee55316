/** The cat-follow behaviour: six states, eight events, a fixed transition
    table, and the target / bbox payloads recorded along the way. */
module StateMachine {
  import opened Base

  datatype State = Idle | GotoTarget | Search | Approach | Track | LostSearch

  datatype Event =
    | CatLocationReceived
    | AtTarget
    | Timeout
    | CatFound
    | CatLost
    | DistanceAt15cm
    | StopCommand
    /** A full search circle finished without finding the cat. */
    | SearchCycleDone

  /** The transition table: (state, event) to the next state. */
  const Transitions: map<(State, Event), State> := map[
    (Idle, CatLocationReceived) := GotoTarget,
    (Idle, StopCommand) := Idle,
    (GotoTarget, AtTarget) := Search,
    (GotoTarget, CatFound) := Approach,
    (GotoTarget, Timeout) := Search,
    (GotoTarget, StopCommand) := Idle,
    (Search, CatFound) := Approach,
    (Search, SearchCycleDone) := Idle,
    (Search, StopCommand) := Idle,
    (Approach, DistanceAt15cm) := Track,
    (Approach, CatLost) := LostSearch,
    (Approach, StopCommand) := Idle,
    (Track, CatLost) := LostSearch,
    (Track, StopCommand) := Idle,
    (LostSearch, CatFound) := Approach,
    (LostSearch, SearchCycleDone) := Idle,
    (LostSearch, Timeout) := Search,
    (LostSearch, StopCommand) := Idle
  ]

  /** The table accepts exactly these (state, event) pairs. */
  lemma TransitionsTable(s: State, e: Event)
    ensures (s, e) in Transitions <==>
      match s
      case Idle => e == CatLocationReceived || e == StopCommand
      case GotoTarget => e == AtTarget || e == CatFound || e == Timeout || e == StopCommand
      case Search => e == CatFound || e == SearchCycleDone || e == StopCommand
      case Approach => e == DistanceAt15cm || e == CatLost || e == StopCommand
      case Track => e == CatLost || e == StopCommand
      case LostSearch => e == CatFound || e == SearchCycleDone || e == Timeout || e == StopCommand
  {
  }

  /** STOP_COMMAND leads to IDLE from every state. */
  lemma StopFromEveryState(s: State)
    ensures (s, StopCommand) in Transitions && Transitions[(s, StopCommand)] == Idle
  {
  }

  /** The next state depends only on the event: every accepted pair with the
      same event leads to the same state. */
  lemma TransitionsByEvent(s: State, e: Event)
    requires (s, e) in Transitions
    ensures Transitions[(s, e)] ==
      match e
      case CatLocationReceived => GotoTarget
      case AtTarget => Search
      case Timeout => Search
      case CatFound => Approach
      case CatLost => LostSearch
      case DistanceAt15cm => Track
      case StopCommand => Idle
      case SearchCycleDone => Idle
  {
  }

  /** CAT_FOUND leads to APPROACH wherever it is accepted. */
  lemma CatFoundApproaches(s: State)
    requires (s, CatFound) in Transitions
    ensures Transitions[(s, CatFound)] == Approach
  {
  }

  /** The machine's fields as one value. `targetXY` and `lastBbox` hold the
      leading components of the payload that set them. */
  datatype Snapshot = Snapshot(state: State, targetXY: Option<seq<real>>, lastBbox: Option<seq<real>>)

  const Initial: Snapshot := Snapshot(Idle, None, None)

  /** `tuple(payload[:n])`. */
  function Prefix(p: seq<real>, n: nat): (r: seq<real>)
    ensures |r| == if |p| < n then |p| else n
    ensures forall i :: 0 <= i < |r| ==> r[i] == p[i]
  {
    if |p| < n then p else p[..n]
  }

  /** `dispatch` as a function of the snapshot, the event and the payload. */
  function Step(snap: Snapshot, e: Event, payload: Option<seq<real>>): (r: Snapshot)
    ensures (snap.state, e) !in Transitions ==> r == snap
    ensures (snap.state, e) in Transitions ==> r.state == Transitions[(snap.state, e)]
    ensures e != CatLocationReceived || payload.None? ==> r.targetXY == snap.targetXY
    ensures e != CatFound || payload.None? ==> r.lastBbox == snap.lastBbox
  {
    if (snap.state, e) !in Transitions then snap
    else
      var targetXY :=
        if e == CatLocationReceived && payload.Some? then Some(Prefix(payload.value, 2))
        else snap.targetXY;
      var lastBbox :=
        if e == CatFound && payload.Some? then
          (if |payload.value| >= 4 then Some(Prefix(payload.value, 4)) else None)
        else snap.lastBbox;
      Snapshot(Transitions[(snap.state, e)], targetXY, lastBbox)
  }

  /** STOP_COMMAND goes to IDLE and keeps the recorded target and bbox. */
  lemma StopKeepsPayloads(snap: Snapshot, payload: Option<seq<real>>)
    ensures Step(snap, StopCommand, payload) == snap.(state := Idle)
  {
    StopFromEveryState(snap.state);
  }

  /** IDLE + CAT_LOCATION_RECEIVED(p) heads for the first two components of p. */
  lemma LocationFromIdle(snap: Snapshot, p: seq<real>)
    requires snap.state == Idle && |p| >= 2
    ensures var r := Step(snap, CatLocationReceived, Some(p));
      r.state == GotoTarget && r.targetXY == Some([p[0], p[1]]) && r.lastBbox == snap.lastBbox
  {
    assert Prefix(p, 2) == [p[0], p[1]];
  }

  /** An accepted CAT_FOUND records the first four payload components, or
      clears the bbox when the payload is shorter. */
  lemma CatFoundRecordsBbox(snap: Snapshot, p: seq<real>)
    requires (snap.state, CatFound) in Transitions
    ensures var r := Step(snap, CatFound, Some(p));
      && r.state == Approach
      && r.targetXY == snap.targetXY
      && (|p| >= 4 ==> r.lastBbox == Some([p[0], p[1], p[2], p[3]]))
      && (|p| < 4 ==> r.lastBbox == None)
  {
    if |p| >= 4 {
      assert Prefix(p, 4) == [p[0], p[1], p[2], p[3]];
    }
  }

  /** A payload outside an accepted transition is ignored. */
  lemma RejectedEventIgnoresPayload(snap: Snapshot, e: Event, payload: Option<seq<real>>)
    requires (snap.state, e) !in Transitions
    ensures Step(snap, e, payload) == snap
  {
  }

  /** From IDLE, a location, the arrival, a sighting and the 15 cm distance
      lead to TRACK. */
  lemma TrackReachable(snap: Snapshot, loc: seq<real>, bbox: seq<real>)
    requires snap.state == Idle
    ensures var s1 := Step(snap, CatLocationReceived, Some(loc));
      var s2 := Step(s1, AtTarget, None);
      var s3 := Step(s2, CatFound, Some(bbox));
      var s4 := Step(s3, DistanceAt15cm, None);
      s1.state == GotoTarget && s2.state == Search && s3.state == Approach && s4.state == Track
  {
  }

  /** The machine object: its three fields, updated in place. */
  class Machine {
    var state: State
    var targetXY: Option<seq<real>>
    var lastBbox: Option<seq<real>>

    function Snap(): Snapshot
      reads this
    {
      Snapshot(state, targetXY, lastBbox)
    }

    /** A new machine is IDLE with no target and no bbox. */
    constructor()
      ensures Snap() == Initial
    {
      state := Idle;
      targetXY := None;
      lastBbox := None;
    }

    /** `dispatch`: take the transition if the table has one, record the
        payload that goes with it, and return the (possibly new) state. */
    method Dispatch(e: Event, payload: Option<seq<real>>) returns (s: State)
      modifies this
      ensures Snap() == Step(old(Snap()), e, payload)
      ensures s == state
    {
      var key := (state, e);
      if key in Transitions {
        state := Transitions[key];
        if e == CatLocationReceived && payload.Some? {
          targetXY := Some(Prefix(payload.value, 2));
        }
        if e == CatFound && payload.Some? {
          lastBbox := if |payload.value| >= 4 then Some(Prefix(payload.value, 4)) else None;
        }
      }
      s := state;
    }

    /** `reset_to_idle`: IDLE with target and bbox cleared, from any state. */
    method ResetToIdle()
      modifies this
      ensures Snap() == Initial
    {
      state := Idle;
      targetXY := None;
      lastBbox := None;
    }
  }
}
