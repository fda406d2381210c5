/** The conversation states of states.py: the `UserProfile` group (six states)
    and the `WaterLogger` group (one state). `Idle` is aiogram's `None` state,
    set by `state.set_state(state=None)`. */
module States {
  import opened Wrappers

  datatype State =
    | Idle
    | Weight | Height | Age | ActivityLevel | City | CaloriesGoal
    | LogWater

  /** The `UserProfile` group, in declaration order. */
  function UserProfileStates(): seq<State>
  {
    [Weight, Height, Age, ActivityLevel, City, CaloriesGoal]
  }

  /** The `WaterLogger` group, in declaration order. */
  function WaterLoggerStates(): seq<State>
  {
    [LogWater]
  }

  /** Every declared state, group by group. */
  function DeclaredStates(): seq<State>
  {
    UserProfileStates() + WaterLoggerStates()
  }

  /** The name aiogram stores for a state: "<group>:<attribute>"; the idle
      state is stored as `None`. */
  function StateName(s: State): (name: Option<string>)
    ensures name == None <==> s == Idle
  {
    match s
    case Idle => None
    case Weight => Some("UserProfile:weight")
    case Height => Some("UserProfile:height")
    case Age => Some("UserProfile:age")
    case ActivityLevel => Some("UserProfile:activity_level")
    case City => Some("UserProfile:city")
    case CaloriesGoal => Some("UserProfile:calories_goal")
    case LogWater => Some("WaterLogger:log_water")
  }

  /** The profile group holds exactly six states and the water group one,
      all seven pairwise distinct and none of them the idle state. */
  lemma DeclaredStatesAreDistinct()
    ensures |UserProfileStates()| == 6 && |WaterLoggerStates()| == 1
    ensures forall i, j :: 0 <= i < j < |DeclaredStates()| ==> DeclaredStates()[i] != DeclaredStates()[j]
    ensures Idle !in DeclaredStates()
    ensures forall s: State :: s != Idle <==> s in DeclaredStates()
  {
  }

  /** Distinct states are stored under distinct names, so aiogram's filter
      `StateFilter(s)` fires in state `s` and in no other. */
  lemma StateNameInjective(a: State, b: State)
    requires StateName(a) == StateName(b)
    ensures a == b
  {
  }
}
