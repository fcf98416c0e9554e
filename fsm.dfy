/** The finite-state machine behind character behaviours (FSM.h): a table of
    named states and the current one, with enter/exit hooks on a change. */
module StateMachine {

  /** A 32-bit unsigned hash value. */
  newtype Hash = x: int | 0 <= x < 0x1_0000_0000

  /** Bit of a state's flag word that allows changing to the state it is already in. */
  const RE_ENTER_FLAG: bv32 := 1 << 0

  // ---------------------------------------------------------------- name hashing

  /** The byte a character contributes: ASCII letters fold to lower case. */
  function HashByte(c: char): bv32
  {
    var code := c as int;
    var folded := if 'A' as int <= code <= 'Z' as int then code + 32 else code;
    (folded % 256) as bv32
  }

  /** One SDBM step, wrapping at 32 bits. */
  function HashStep(hash: bv32, c: char): bv32
  {
    HashByte(c) + (hash << 6) + (hash << 16) - hash
  }

  function HashFrom(hash: bv32, s: string): bv32
    decreases |s|
  {
    if s == [] then hash else HashFrom(HashStep(hash, s[0]), s[1..])
  }

  /** The 32-bit hash a state is registered under. */
  function StringHash(s: string): Hash
  {
    HashFrom(0, s) as int as Hash
  }

  // ---------------------------------------------------------------- states

  class State {
    var name: string
    var nameHash: Hash
    var timeInState: real
    var flag: bv32

    constructor ()
      ensures name == "" && nameHash == 0 && timeInState == 0.0 && flag == 0
    {
      name := "";
      nameHash := 0;
      timeInState := 0.0;
      flag := 0;
    }

    /** Names the state and records the hash it is found by. */
    method SetName(name: string)
      modifies this
      ensures this.name == name && nameHash == StringHash(name)
      ensures timeInState == old(timeInState) && flag == old(flag)
    {
      this.name := name;
      nameHash := StringHash(name);
    }

    /** Entering restarts the time spent in the state. */
    method Enter(lastState: State?)
      modifies this
      ensures timeInState == 0.0
      ensures name == old(name) && nameHash == old(nameHash) && flag == old(flag)
    {
      timeInState := 0.0;
    }

    /** Leaving also resets the time spent in the state. */
    method Exit(nextState: State?)
      modifies this
      ensures timeInState == 0.0
      ensures name == old(name) && nameHash == old(nameHash) && flag == old(flag)
    {
      timeInState := 0.0;
    }

    /** Each update adds its time step to the time spent in the state. */
    method Update(dt: real)
      modifies this
      ensures timeInState == old(timeInState) + dt
      ensures name == old(name) && nameHash == old(nameHash) && flag == old(flag)
    {
      timeInState := timeInState + dt;
    }

    /** Whether a change to this state while it is current goes ahead. */
    function CanReEntered(): (r: bool)
      reads this
      ensures r <==> flag % 2 == 1
    {
      flag & RE_ENTER_FLAG != 0
    }
  }

  // ---------------------------------------------------------------- the machine

  /** A hook the machine ran, with the argument it passed. */
  datatype Hook = Exited(state: State, next: State?) | Entered(state: State, last: State?)

  /** The hooks a successful change from `current` to `target` runs, in order.
      Re-entering the current state runs its exit and enter twice: once in the
      re-entry branch and once more on the common path after it. */
  function TransitionHooks(current: State?, target: State): (r: seq<Hook>)
    ensures |r| == (if current == target then 4 else if current == null then 1 else 2)
    ensures r[|r| - 1] == Entered(target, current)
    ensures current != null ==> r[|r| - 2] == Exited(current, target)
    ensures current == target ==> r[..2] == [Exited(target, target), Entered(target, target)]
  {
    (if current == target then [Exited(target, target), Entered(target, target)] else [])
    + (if current != null then [Exited(current, target)] else [])
    + [Entered(target, current)]
  }

  class FSM {
    var states: map<Hash, State>
    var currentState: State?
    /** Every hook ChangeState has run so far. */
    ghost var hooks: seq<Hook>

    constructor ()
      ensures states == map[] && currentState == null && hooks == []
    {
      states := map[];
      currentState := null;
      hooks := [];
    }

    /** The states the machine can touch: the table and the current state. */
    ghost function Objects(): set<State>
      reads this
    {
      states.Values + (if currentState == null then {} else {currentState})
    }

    /** Registers a state under its hash, replacing any earlier one with that hash. */
    method AddState(state: State)
      modifies this
      ensures FindState(state.nameHash) == state
      ensures forall h :: h != state.nameHash ==> FindState(h) == old(FindState(h))
      ensures states == old(states)[state.nameHash := state]
      ensures currentState == old(currentState) && hooks == old(hooks)
    {
      states := states[state.nameHash := state];
    }

    /** The state registered under the hash, or null when there is none. */
    function FindState(nameHash: Hash): (r: State?)
      reads this
      ensures r == null <==> nameHash !in states
      ensures r != null ==> r == states[nameHash]
    {
      if nameHash in states then states[nameHash] else null
    }

    function FindStateByName(name: string): (r: State?)
      reads this
      ensures r == null <==> StringHash(name) !in states
      ensures r != null ==> r == states[StringHash(name)]
    {
      FindState(StringHash(name))
    }

    /** Changes to the state registered under the hash. An unknown hash, or the
        current state when it does not allow re-entry, changes nothing and gives
        false. Otherwise the old state (if any) is exited, the new one entered
        and made current, and the result is true. */
    method ChangeState(nameHash: Hash) returns (ok: bool)
      modifies this, Objects()
      ensures states == old(states)
      ensures ok <==> (nameHash in states
        && (states[nameHash] != old(currentState) || old(states[nameHash].CanReEntered())))
      ensures !ok ==> (currentState == old(currentState) && hooks == old(hooks)
        && forall s :: s in old(Objects()) ==> s.timeInState == old(s.timeInState))
      ensures ok ==> currentState == states[nameHash] && currentState.timeInState == 0.0
      ensures ok && old(currentState) != null ==> old(currentState).timeInState == 0.0
      ensures ok ==> hooks == old(hooks) + TransitionHooks(old(currentState), states[nameHash])
      ensures forall s :: s in old(Objects()) && s != old(currentState) && s != currentState ==>
        s.timeInState == old(s.timeInState)
      ensures forall s :: s in old(Objects()) ==>
        s.name == old(s.name) && s.nameHash == old(s.nameHash) && s.flag == old(s.flag)
    {
      var newState := FindState(nameHash);
      if newState == null {
        return false;
      }
      assert newState in old(Objects());
      if currentState == newState {
        if !currentState.CanReEntered() {
          return false;
        }
        currentState.Exit(newState);
        hooks := hooks + [Exited(currentState, newState)];
        currentState.Enter(newState);
        hooks := hooks + [Entered(currentState, newState)];
      }
      var oldState := currentState;
      if oldState != null {
        oldState.Exit(newState);
        hooks := hooks + [Exited(oldState, newState)];
      }
      newState.Enter(oldState);
      hooks := hooks + [Entered(newState, oldState)];
      currentState := newState;
      ok := true;
    }

    method ChangeStateByName(name: string) returns (ok: bool)
      modifies this, Objects()
      ensures states == old(states)
      ensures ok <==> (StringHash(name) in states
        && (states[StringHash(name)] != old(currentState) || old(states[StringHash(name)].CanReEntered())))
      ensures !ok ==> (currentState == old(currentState) && hooks == old(hooks)
        && forall s :: s in old(Objects()) ==> s.timeInState == old(s.timeInState))
      ensures ok ==> currentState == states[StringHash(name)] && currentState.timeInState == 0.0
      ensures ok && old(currentState) != null ==> old(currentState).timeInState == 0.0
      ensures ok ==> hooks == old(hooks) + TransitionHooks(old(currentState), states[StringHash(name)])
      ensures forall s :: s in old(Objects()) && s != old(currentState) && s != currentState ==>
        s.timeInState == old(s.timeInState)
      ensures forall s :: s in old(Objects()) ==>
        s.name == old(s.name) && s.nameHash == old(s.nameHash) && s.flag == old(s.flag)
    {
      ok := ChangeState(StringHash(name));
    }
  }
}
