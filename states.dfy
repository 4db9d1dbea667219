/** The door-state vocabulary: the six states the controller runs against,
    their display names and wire codes, the transition subset, and the
    limit-switch signature table. */
module States {
  import opened Wrappers

  datatype State = Unknown | Open | Closed | Opening | Closing | Stopped

  /** Second component of each namespace pair: the wire code posted to the
      webhook and served on GET /state. A known state's code is one digit
      from 0 to 4; Unknown alone has the word "unknown". */
  function Code(s: State): (c: string)
    ensures s == Unknown <==> c == "unknown"
    ensures s != Unknown ==> |c| == 1 && '0' <= c[0] <= '4'
  {
    match s
    case Unknown => "unknown"
    case Open => "0"
    case Closed => "1"
    case Opening => "2"
    case Closing => "3"
    case Stopped => "4"
  }

  /** Reads a wire code back; None for any string that is not a code.
      The controller never decodes codes: this inverse exists to state that
      the encoding loses nothing. */
  function FromCode(c: string): (r: Option<State>)
    ensures r.Some? ==> Code(r.value) == c
    ensures c in {"unknown", "0", "1", "2", "3", "4"} <==> r.Some?
  {
    if c == "unknown" then Some(Unknown)
    else if c == "0" then Some(Open)
    else if c == "1" then Some(Closed)
    else if c == "2" then Some(Opening)
    else if c == "3" then Some(Closing)
    else if c == "4" then Some(Stopped)
    else None
  }

  /** Decoding a state's code gives the state back. */
  lemma CodeRoundTrip(s: State)
    ensures FromCode(Code(s)) == Some(s)
  {
  }

  /** No two states share a wire code. */
  lemma CodeInjective(a: State, b: State)
    requires Code(a) == Code(b)
    ensures a == b
  {
    CodeRoundTrip(a);
    CodeRoundTrip(b);
  }

  /** Seconds after a committed state update during which a new reading or
      a door request is not acted on. */
  const StateUpdateDebounce: real := 3.0

  /** The states in which the door is travelling. */
  const TransitionStates: set<State> := {Opening, Closing}

  lemma TransitionStatesExactly(s: State)
    ensures s in TransitionStates <==> s == Opening || s == Closing
    ensures Stopped !in TransitionStates && Unknown !in TransitionStates
  {
  }

  /** A limit-switch reading: the top switch is engaged when the door is
      fully open, the bottom one when it is fully closed. */
  type Bit = b: int | 0 <= b <= 1

  datatype Sensor = Sensor(top: Bit, bottom: Bit)

  /** A state's expected reading and, for a travel state, the extreme state
      it leaves from. */
  datatype Definition = Definition(sensor: Sensor, previous: Option<State>)

  /** The definition table. Unknown and Stopped have no entry. */
  const Definitions: map<State, Definition> := map[
    Open := Definition(Sensor(1, 0), None),
    Closed := Definition(Sensor(0, 1), None),
    Opening := Definition(Sensor(0, 0), Some(Closed)),
    Closing := Definition(Sensor(0, 0), Some(Open))
  ]

  /** The table's keys in declaration order. */
  const TableOrder: seq<State> := [Open, Closed, Opening, Closing]

  lemma TableOrderIsTable()
    ensures forall s :: s in TableOrder <==> s in Definitions
    ensures forall i, j :: 0 <= i < j < |TableOrder| ==> TableOrder[i] != TableOrder[j]
  {
  }

  /** The entries of the table, one by one. */
  lemma TableEntries()
    ensures Definitions.Keys == {Open, Closed, Opening, Closing}
    ensures Definitions[Open] == Definition(Sensor(1, 0), None)
    ensures Definitions[Closed] == Definition(Sensor(0, 1), None)
    ensures Definitions[Opening] == Definition(Sensor(0, 0), Some(Closed))
    ensures Definitions[Closing] == Definition(Sensor(0, 0), Some(Open))
  {
  }

  /** Two distinct table states read alike only when both are travel states
      reading (0, 0). */
  lemma OnlySharedSignature(a: State, b: State)
    requires a in Definitions && b in Definitions && a != b
    requires Definitions[a].sensor == Definitions[b].sensor
    ensures Definitions[a].sensor == Sensor(0, 0)
    ensures a in TransitionStates && b in TransitionStates
  {
  }

  /** Exactly the travel states have a predecessor, and it is the extreme
      state the travel starts from. */
  lemma Predecessors(s: State)
    requires s in Definitions
    ensures Definitions[s].previous.Some? <==> s in TransitionStates
    ensures Definitions[s].previous == Some(Closed) <==> s == Opening
    ensures Definitions[s].previous == Some(Open) <==> s == Closing
  {
  }
}
