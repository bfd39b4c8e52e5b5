/** The forced-update guard (`flipRenderBit`): one callback instance lets at most one update through. */
module Updates {

  /** When a requested update will be delivered: not at all, at once, or at the next display frame. */
  datatype Schedule = Idle | Immediate | NextFrame

  /** The guard's state: whether this callback instance already fired, what it scheduled, and how
      many updates it has scheduled so far. */
  datatype FlipState = FlipState(flipped: bool, pending: Schedule, scheduled: nat)

  /** One call of the update request: ignored once the guard has fired; otherwise it fires and
      schedules an immediate update when `fast`, a next-frame update when not. */
  function Flip(s: FlipState, fast: bool): (t: FlipState)
    ensures t.flipped
    ensures t.scheduled <= s.scheduled + 1
  {
    if s.flipped then s
    else FlipState(true, if fast then Immediate else NextFrame, s.scheduled + 1)
  }

  /** A series of calls, each argument saying whether that call asked for a fast update. */
  function FlipAll(s: FlipState, calls: seq<bool>): FlipState
    decreases |calls|
  {
    if calls == [] then s else FlipAll(Flip(s, calls[0]), calls[1..])
  }

  /** However many requests arrive, at most one update is scheduled: none when the guard had already
      fired, otherwise exactly the first request's, at the speed that first request asked for. */
  lemma {:induction false} AtMostOneUpdate(s: FlipState, calls: seq<bool>)
    decreases |calls|
    ensures s.flipped ==> FlipAll(s, calls) == s
    ensures !s.flipped && calls != [] ==>
      FlipAll(s, calls) == FlipState(true, if calls[0] then Immediate else NextFrame, s.scheduled + 1)
    ensures FlipAll(s, calls).scheduled <= s.scheduled + 1
  {
    if calls != [] {
      AtMostOneUpdate(Flip(s, calls[0]), calls[1..]);
    }
  }
}
