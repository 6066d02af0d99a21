/** The event-driven state machine engine (src/shared/stm.c): a table of states, each with optional hooks. */
module StateMachine {

  /** One row of the table; a hook that is false is a NULL function pointer. */
  datatype StateDef = StateDef(state: nat, arrival: bool, departure: bool, read: bool, write: bool, block: bool)

  /** stm_init: false where the source aborts. */
  method Init(states: seq<StateDef>, initial: nat, maxState: nat) returns (ok: bool)
    requires maxState < |states|
    ensures ok <==> (forall i :: 0 <= i <= maxState ==> states[i].state == i) && initial < maxState
  {
    var i := 0;
    while i <= maxState
      invariant 0 <= i <= maxState + 1
      invariant forall j :: 0 <= j < i ==> states[j].state == j
    {
      if i != states[i].state {
        return false;
      }
      i := i + 1;
    }
    ok := initial < maxState;
  }
}
