/** The SD-card presence notifier: a tri-state change detector that maps a
    card reading (the result of SD.begin) to PRESENT or NOT_PRESENT and
    calls its listener only when the state changes. */
module SdState {

  datatype CardState = UNKNOWN | NOT_PRESENT | PRESENT

  /** An 8-bit pin number, the type of the chip-select pin. */
  newtype Pin = x: int | 0 <= x < 256

  /** The listener function pointer: unset (null) or one callback, known
      by an identity. */
  datatype Listener = NoListener | Callback(id: nat)

  /** One call of the listener: which callback ran, the state it was
      given, and the state getCardState reported while it ran. */
  datatype Call = Call(id: nat, argument: CardState, reported: CardState)

  predicate IsPresent(s: CardState) { s == PRESENT }
  predicate IsNotPresent(s: CardState) { s == NOT_PRESENT }
  predicate IsUnknown(s: CardState) { s == UNKNOWN }

  /** Exactly one of the three queries holds of any state. */
  lemma ExactlyOneHolds(s: CardState)
    ensures (if IsPresent(s) then 1 else 0) + (if IsNotPresent(s) then 1 else 0) + (if IsUnknown(s) then 1 else 0) == 1
  {
  }

  /** The state a card reading stands for. */
  function Observe(present: bool): CardState
  {
    if present then PRESENT else NOT_PRESENT
  }

  /** One refresh from stored state `s` with card reading `present`: the
      new stored state and the states the listener is given. */
  function RefreshOnce(s: CardState, present: bool): (CardState, seq<CardState>)
  {
    var newState := Observe(present);
    if newState != s then (newState, [newState]) else (s, [])
  }

  /** After a refresh the state is the reading's, never UNKNOWN. */
  lemma RefreshReadsCard(s: CardState, present: bool)
    ensures RefreshOnce(s, present).0 != UNKNOWN
    ensures IsPresent(RefreshOnce(s, present).0) <==> present
  {
  }

  /** The listener is given the new state exactly once when the state
      changes and is not called otherwise. */
  lemma RefreshNotifiesOnChange(s: CardState, present: bool)
    ensures Observe(present) != s <==> RefreshOnce(s, present).1 == [Observe(present)]
    ensures Observe(present) == s <==> RefreshOnce(s, present).1 == []
  {
  }

  /** Two refreshes with the same reading notify at most once: the second
      never does. */
  lemma SecondRefreshSilent(s: CardState, present: bool)
    ensures RefreshOnce(RefreshOnce(s, present).0, present).1 == []
  {
  }

  /** A run of refreshes, one per reading, from stored state `s`: the final
      state and every state the listener was given, in order. */
  function Refreshes(s: CardState, readings: seq<bool>): (CardState, seq<CardState>)
    decreases |readings|
  {
    if readings == [] then (s, [])
    else
      var first := RefreshOnce(s, readings[0]);
      var rest := Refreshes(first.0, readings[1..]);
      (rest.0, first.1 + rest.1)
  }

  /** After a run of refreshes the state is the last reading's. */
  lemma {:induction false} RefreshesEndAtLastReading(s: CardState, readings: seq<bool>)
    requires readings != []
    ensures Refreshes(s, readings).0 == Observe(readings[|readings| - 1])
    decreases |readings|
  {
    if |readings| > 1 {
      RefreshesEndAtLastReading(RefreshOnce(s, readings[0]).0, readings[1..]);
    }
  }

  /** Over a run of refreshes the listener is called at most once per
      reading, is never given UNKNOWN, is first given a state other than
      the one stored before the run, is never given the same state twice
      in a row (so it sees PRESENT and NOT_PRESENT alternate), and is last
      given the final state. */
  lemma {:induction false} RefreshesAlternate(s: CardState, readings: seq<bool>)
    ensures var r := Refreshes(s, readings);
      && |r.1| <= |readings|
      && (forall i | 0 <= i < |r.1| :: r.1[i] != UNKNOWN)
      && (r.1 != [] ==> r.1[0] != s && r.1[|r.1| - 1] == r.0)
      && (r.1 == [] ==> r.0 == s)
      && (forall i | 0 < i < |r.1| :: r.1[i] != r.1[i - 1])
    decreases |readings|
  {
    if readings != [] {
      var first := RefreshOnce(s, readings[0]);
      RefreshesAlternate(first.0, readings[1..]);
      var rest := Refreshes(first.0, readings[1..]);
      var all := first.1 + rest.1;
      if first.1 != [] {
        assert all == [first.0] + rest.1;
        assert forall i | 0 < i < |all| :: all[i] == rest.1[i - 1];
      }
    }
  }

  /** The calls of listener `l` that give it each of `arguments` in turn
      while getCardState reports `reported`. */
  function CallsOf(l: Listener, arguments: seq<CardState>, reported: CardState): (calls: seq<Call>)
    requires arguments == [] || l.Callback?
    ensures |calls| == |arguments|
    ensures forall i | 0 <= i < |calls| :: calls[i] == Call(l.id, arguments[i], reported)
  {
    if arguments == [] then []
    else [Call(l.id, arguments[0], reported)] + CallsOf(l, arguments[1..], reported)
  }

  /** The notifier's module-level globals. */
  class CardMonitor {
    var chipSelectPin: Pin
    var state: CardState
    var listener: Listener
    /** Every listener call so far, oldest first. */
    var calls: seq<Call>

    /** The statics as the program starts: pin 0, state UNKNOWN, no
        listener. */
    constructor ()
      ensures chipSelectPin == 0 && state == UNKNOWN && listener == NoListener && calls == []
    {
      chipSelectPin := 0;
      state := UNKNOWN;
      listener := NoListener;
      calls := [];
    }

    /** Only the chip-select pin changes. */
    method RegisterCard(chipSelect: Pin)
      modifies this`chipSelectPin
      ensures chipSelectPin == chipSelect
    {
      chipSelectPin := chipSelect;
    }

    /** `present` is what SD.begin(chipSelectPin) returns.  On a change the
        listener is called with the new state while the old one is still
        stored, and the new state is then stored.  Calling an unset
        listener is not defined, so a change needs a listener. */
    method Refresh(present: bool)
      requires Observe(present) != state ==> listener.Callback?
      modifies this`state, this`calls
      ensures state == RefreshOnce(old(state), present).0
      ensures calls == old(calls) + CallsOf(listener, RefreshOnce(old(state), present).1, old(state))
    {
      var newState := if present then PRESENT else NOT_PRESENT;
      if newState != state {
        calls := calls + [Call(listener.id, newState, state)];
        state := newState;
      }
    }

    method SetListener(l: Listener)
      modifies this`listener
      ensures listener == l
    {
      listener := l;
    }

    function GetCardState(): CardState
      reads this
    {
      state
    }

    predicate IsCardPresent()
      reads this
    {
      IsPresent(GetCardState())
    }

    predicate IsCardNotPresent()
      reads this
    {
      IsNotPresent(GetCardState())
    }

    predicate IsCardStateUnknown()
      reads this
    {
      IsUnknown(GetCardState())
    }
  }
}
