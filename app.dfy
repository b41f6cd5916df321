/** The registry and dispatch loop of src/App.ts. */
module App {
  import opened MidiControl
  import opened Controls

  /** The trace of one dispatch: the indices of the controls whose
      `handleEvent` was called, in order, and the action executions. */
  datatype Dispatch = Dispatch(consulted: seq<nat>, calls: seq<Call>)

  /** Byte `i` of a message; `undefined` past its end. */
  function Byte(msg: seq<int>, i: nat): (b: MidiValue)
    ensures b.Defined? <==> i < |msg|
    ensures b.Defined? ==> b.n == msg[i]
  {
    if i < |msg| then Defined(msg[i]) else Undefined
  }

  /** A control answers to an id only when that id is a number equal to its own. */
  predicate Matches(c: Control, id: MidiValue)
  {
    id == Defined(c.id)
  }

  /** Control `j` answers to the id and fires on the event. */
  predicate FiresAt(controls: seq<Control>, eventType: int, id: MidiValue, velocity: MidiValue, j: nat)
    requires j < |controls|
  {
    Matches(controls[j], id) && HandleEvent(controls[j], eventType, velocity).fired
  }

  /** The scan from index `from` on: consult each matching control in
      order and stop after the first one that fires. */
  function Scan(controls: seq<Control>, eventType: int, id: MidiValue, velocity: MidiValue, from: nat): Dispatch
    requires from <= |controls|
    decreases |controls| - from
  {
    if from == |controls| then Dispatch([], [])
    else if !Matches(controls[from], id) then Scan(controls, eventType, id, velocity, from + 1)
    else
      var h := HandleEvent(controls[from], eventType, velocity);
      if h.fired then Dispatch([from], h.calls)
      else
        var rest := Scan(controls, eventType, id, velocity, from + 1);
        Dispatch([from] + rest.consulted, rest.calls)
  }

  /** Control `j` is reached: it matches, and no matching control between
      `from` and `j` fired. */
  predicate Reached(controls: seq<Control>, eventType: int, id: MidiValue, velocity: MidiValue, from: nat, j: nat)
  {
    && from <= j < |controls|
    && Matches(controls[j], id)
    && forall k :: from <= k < j ==> !FiresAt(controls, eventType, id, velocity, k)
  }

  /** The scan consults indices from `from` on, in strictly increasing order. */
  lemma {:induction false} ScanConsultsInOrder(controls: seq<Control>, eventType: int, id: MidiValue, velocity: MidiValue, from: nat)
    requires from <= |controls|
    ensures forall a :: 0 <= a < |Scan(controls, eventType, id, velocity, from).consulted| ==>
      from <= Scan(controls, eventType, id, velocity, from).consulted[a] < |controls|
    ensures forall a, b :: 0 <= a < b < |Scan(controls, eventType, id, velocity, from).consulted| ==>
      Scan(controls, eventType, id, velocity, from).consulted[a] < Scan(controls, eventType, id, velocity, from).consulted[b]
    decreases |controls| - from
  {
    if from < |controls| {
      ScanConsultsInOrder(controls, eventType, id, velocity, from + 1);
      var d := Scan(controls, eventType, id, velocity, from);
      var rest := Scan(controls, eventType, id, velocity, from + 1);
      assert forall a :: 0 <= a < |rest.consulted| ==> from < rest.consulted[a] < |controls|;
      if Matches(controls[from], id) && !HandleEvent(controls[from], eventType, velocity).fired {
        assert d.consulted == [from] + rest.consulted;
        forall a, b | 0 <= a < b < |d.consulted| ensures d.consulted[a] < d.consulted[b] {
          assert d.consulted[b] == rest.consulted[b - 1];
          if a > 0 {
            assert d.consulted[a] == rest.consulted[a - 1];
          }
        }
      } else if Matches(controls[from], id) {
        assert d.consulted == [from];
      } else {
        assert d == rest;
      }
    }
  }

  /** The scan consults control `j` exactly when `j` is reached. */
  lemma {:induction false} ScanConsultsReached(controls: seq<Control>, eventType: int, id: MidiValue, velocity: MidiValue, from: nat, j: nat)
    requires from <= |controls|
    ensures j in Scan(controls, eventType, id, velocity, from).consulted <==> Reached(controls, eventType, id, velocity, from, j)
    decreases |controls| - from
  {
    if from < |controls| {
      ScanConsultsReached(controls, eventType, id, velocity, from + 1, j);
      var d := Scan(controls, eventType, id, velocity, from);
      var rest := Scan(controls, eventType, id, velocity, from + 1);
      if j == from {
      } else if !Matches(controls[from], id) {
        assert d == rest;
        assert !FiresAt(controls, eventType, id, velocity, from);
      } else if FiresAt(controls, eventType, id, velocity, from) {
        assert d.consulted == [from];
      } else {
        assert d.consulted == [from] + rest.consulted;
      }
    }
  }

  /** When no matching control fires, no action runs. */
  lemma {:induction false} ScanNothingFires(controls: seq<Control>, eventType: int, id: MidiValue, velocity: MidiValue, from: nat)
    requires from <= |controls|
    requires forall j :: from <= j < |controls| ==> !FiresAt(controls, eventType, id, velocity, j)
    ensures Scan(controls, eventType, id, velocity, from).calls == []
    decreases |controls| - from
  {
    if from < |controls| {
      assert !FiresAt(controls, eventType, id, velocity, from);
      ScanNothingFires(controls, eventType, id, velocity, from + 1);
    }
  }

  /** First match wins: the first matching control that fires is the last
      one consulted, and only its action runs. */
  lemma {:induction false} ScanFirstMatchWins(controls: seq<Control>, eventType: int, id: MidiValue, velocity: MidiValue, from: nat, j: nat)
    requires from <= j < |controls|
    requires FiresAt(controls, eventType, id, velocity, j)
    requires forall k :: from <= k < j ==> !FiresAt(controls, eventType, id, velocity, k)
    ensures var d := Scan(controls, eventType, id, velocity, from);
      && d.consulted != [] && d.consulted[|d.consulted| - 1] == j
      && d.calls == HandleEvent(controls[j], eventType, velocity).calls
    decreases |controls| - from
  {
    if from < j {
      assert !FiresAt(controls, eventType, id, velocity, from);
      ScanFirstMatchWins(controls, eventType, id, velocity, from + 1, j);
    }
  }

  /** Of two controls sharing an id, the later one is never consulted
      for an event the earlier one fires on. */
  lemma ShadowedControlNeverConsulted(controls: seq<Control>, eventType: int, velocity: MidiValue, first: nat, later: nat)
    requires first < later < |controls|
    requires controls[first].id == controls[later].id
    requires HandleEvent(controls[first], eventType, velocity).fired
    ensures later !in Scan(controls, eventType, Defined(controls[first].id), velocity, 0).consulted
  {
    var id := Defined(controls[first].id);
    ScanConsultsReached(controls, eventType, id, velocity, 0, later);
    assert FiresAt(controls, eventType, id, velocity, first);
  }

  /** Registering another control never changes a dispatch that already fired. */
  lemma {:induction false} RegisterKeepsFiredDispatch(controls: seq<Control>, c: Control, eventType: int, id: MidiValue, velocity: MidiValue, from: nat)
    requires from <= |controls|
    requires Scan(controls, eventType, id, velocity, from).calls != []
    ensures Scan(controls + [c], eventType, id, velocity, from) == Scan(controls, eventType, id, velocity, from)
    decreases |controls| - from
  {
    var cs := controls + [c];
    assert cs[from] == controls[from];
    if !Matches(controls[from], id) || !HandleEvent(controls[from], eventType, velocity).fired {
      RegisterKeepsFiredDispatch(controls, c, eventType, id, velocity, from + 1);
    }
  }

  /** The application's control registry. */
  class App {
    var controls: seq<Control>

    constructor ()
      ensures controls == []
    {
      controls := [];
    }

    /** `registerControl`: appends, keeping earlier controls and their order. */
    method RegisterControl(control: Control)
      modifies this
      ensures controls == old(controls) + [control]
    {
      controls := controls + [control];
    }

    /** `handleMidiMessage`: reads the status, id and velocity from bytes 0,
        1 and 2 and scans the controls; reports which controls were consulted
        and which action executions happened. A message too short to carry
        an id reaches no control. */
    method HandleMidiMessage(msg: seq<int>) returns (consulted: seq<nat>, calls: seq<Call>)
      ensures |msg| < 2 ==> consulted == [] && calls == []
      ensures |msg| >= 2 ==> Dispatch(consulted, calls) == Scan(controls, msg[0], Defined(msg[1]), Byte(msg, 2), 0)
    {
      var eventType := Byte(msg, 0);
      var id := Byte(msg, 1);
      var velocity := Byte(msg, 2);
      ghost var et := if |msg| > 0 then msg[0] else 0;
      consulted, calls := [], [];
      var i := 0;
      while i < |controls|
        invariant 0 <= i <= |controls|
        invariant calls == []
        invariant |msg| < 2 ==> consulted == []
        invariant Scan(controls, et, id, velocity, 0)
          == Dispatch(consulted + Scan(controls, et, id, velocity, i).consulted, Scan(controls, et, id, velocity, i).calls)
      {
        var control := controls[i];
        if Matches(control, id) {
          var h := HandleEvent(control, eventType.n, velocity);
          consulted := consulted + [i];
          if h.fired {
            calls := h.calls;
            return;
          }
        }
        i := i + 1;
      }
      ScanNoId(controls, et, velocity, 0);
    }
  }

  /** Without an id nothing is consulted. */
  lemma {:induction false} ScanNoId(controls: seq<Control>, eventType: int, velocity: MidiValue, from: nat)
    requires from <= |controls|
    ensures Scan(controls, eventType, Undefined, velocity, from) == Dispatch([], [])
    decreases |controls| - from
  {
    if from < |controls| {
      ScanNoId(controls, eventType, velocity, from + 1);
    }
  }
}
