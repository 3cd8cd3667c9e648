/**
  The application slice of the store (src/redux/appSlice.ts): two movement
  flags and one setter for each. The setters assign a field of the draft
  state in place, which amounts to a record update.
 */
module AppSlice {

  datatype AppState = AppState(isMovingBackward: bool, isMovingForwards: bool)

  datatype Action = SetIsMovingBackward(payload: bool) | SetIsMovingForwards(payload: bool)

  function InitialState(): (s: AppState)
    ensures !s.isMovingBackward && !s.isMovingForwards
  {
    AppState(false, false)
  }

  /** The slice's reducer. */
  function Reduce(s: AppState, action: Action): (r: AppState)
    ensures action.SetIsMovingBackward? ==>
      r.isMovingBackward == action.payload && r.isMovingForwards == s.isMovingForwards
    ensures action.SetIsMovingForwards? ==>
      r.isMovingForwards == action.payload && r.isMovingBackward == s.isMovingBackward
  {
    match action
    case SetIsMovingBackward(p) => s.(isMovingBackward := p)
    case SetIsMovingForwards(p) => s.(isMovingForwards := p)
  }

  /** Dispatching the same action twice is the same as dispatching it once. */
  lemma ReduceIdempotent(s: AppState, action: Action)
    ensures Reduce(Reduce(s, action), action) == Reduce(s, action)
  {
  }

  /** Setters of the two different flags commute. */
  lemma SettersCommute(s: AppState, backward: bool, forwards: bool)
    ensures Reduce(Reduce(s, SetIsMovingBackward(backward)), SetIsMovingForwards(forwards))
         == Reduce(Reduce(s, SetIsMovingForwards(forwards)), SetIsMovingBackward(backward))
  {
  }

  /** The state after a sequence of dispatched actions. */
  function ReduceAll(s: AppState, actions: seq<Action>): AppState
    decreases |actions|
  {
    if actions == [] then s else ReduceAll(Reduce(s, actions[0]), actions[1..])
  }

  /** Each flag holds the payload of the last action that set it, or its initial value if none did. */
  function LastSet(initial: bool, actions: seq<Action>, backward: bool): bool
  {
    if actions == [] then initial
    else if actions[|actions| - 1].SetIsMovingBackward? == backward then actions[|actions| - 1].payload
    else LastSet(initial, actions[..|actions| - 1], backward)
  }

  lemma {:induction false} ReduceAllLastWins(s: AppState, actions: seq<Action>)
    ensures ReduceAll(s, actions).isMovingBackward == LastSet(s.isMovingBackward, actions, true)
    ensures ReduceAll(s, actions).isMovingForwards == LastSet(s.isMovingForwards, actions, false)
  {
    if actions != [] {
      var init, last := actions[..|actions| - 1], actions[|actions| - 1];
      assert actions == init + [last];
      ReduceAllSnoc(s, init, last);
      ReduceAllLastWins(s, init);
    }
  }

  lemma {:induction false} ReduceAllSnoc(s: AppState, actions: seq<Action>, a: Action)
    ensures ReduceAll(s, actions + [a]) == Reduce(ReduceAll(s, actions), a)
    decreases |actions|
  {
    if actions == [] {
      assert actions + [a] == [a];
    } else {
      assert (actions + [a])[1..] == actions[1..] + [a];
      ReduceAllSnoc(Reduce(s, actions[0]), actions[1..], a);
    }
  }
}
