/** The conversation logic of handlers.py as a function of the session: which
    handler an incoming text reaches, and what that handler does to the FSM
    state, the stored data and the water ledger. */
module Dialogue {
  import opened Wrappers
  import opened States
  import opened Numbers
  import opened Commands
  import opened WaterNorm
  import opened Ledger

  /** What one conversation holds between messages: the aiogram FSM state,
      the data dictionary of `state.update_data`, and the shared water ledger. */
  datatype Session = Session(state: State, data: map<string, string>, ledger: LedgerState)

  /** One incoming text message. `temperature` is what the geocoding and
      weather services would report for the stored city while this message is
      handled; `None` when either lookup fails (an unknown city gives an empty
      geocoding result and `result[0]` raises). */
  datatype Incoming = Incoming(text: string, temperature: Option<real>)

  /** The kind of answer a handler sends. `Ignored`: no handler fires.
      `Failed`: the handler raised before answering. */
  datatype Reply =
    | Ignored
    | Failed
    | AskFor(key: string)
    | ProfileComplete
    | ProfileShown(weight: Option<string>, height: Option<string>, age: Option<string>,
                   activityLevel: Option<string>, city: Option<string>, caloriesGoal: Option<string>)
    | NormIs(norm: int)
    | AskVolume
    | NormMissing
    | GoalMet
    | Remaining(amount: int)

  /** The handlers of handlers.py, in the order the router registers them. */
  datatype Handler =
    | CommandStart
    | ProcessWeight | ProcessHeight | ProcessAge | ProcessActivityLevel | ProcessCity | ProcessCaloriesGoal
    | GetProfile
    | CalculateDailyWater
    | CommandLogWater
    | ProcessLogWater

  predicate IsProfileState(s: State)
  {
    s.Weight? || s.Height? || s.Age? || s.ActivityLevel? || s.City? || s.CaloriesGoal?
  }

  /** The key under which the handler of a profile state stores the text. */
  function ProfileKey(s: State): string
    requires IsProfileState(s)
  {
    match s
    case Weight => "weight"
    case Height => "height"
    case Age => "age"
    case ActivityLevel => "activity_level"
    case City => "city"
    case CaloriesGoal => "calories_goal"
  }

  /** The state the handler of a profile state moves to. */
  function ProfileSuccessor(s: State): State
    requires IsProfileState(s)
  {
    match s
    case Weight => Height
    case Height => Age
    case Age => ActivityLevel
    case ActivityLevel => City
    case City => CaloriesGoal
    case CaloriesGoal => Idle
  }

  /** The handler registered for a profile state. */
  function ProfileHandler(s: State): Handler
    requires IsProfileState(s)
  {
    match s
    case Weight => ProcessWeight
    case Height => ProcessHeight
    case Age => ProcessAge
    case ActivityLevel => ProcessActivityLevel
    case City => ProcessCity
    case CaloriesGoal => ProcessCaloriesGoal
  }

  /** aiogram tries the handlers in registration order and runs the first
      whose filters pass. The six profile handlers filter on the state only, so
      in a profile state they take every text except `/start`, which is
      registered before them. */
  function Dispatch(state: State, text: string): Option<Handler>
  {
    if IsCommand(text, "start") then Some(CommandStart)
    else if IsProfileState(state) then Some(ProfileHandler(state))
    else if IsCommand(text, "get_profile") then Some(GetProfile)
    else if IsCommand(text, "calculate_daily_water") then Some(CalculateDailyWater)
    else if IsCommand(text, "log_water") then Some(CommandLogWater)
    else if state == LogWater then Some(ProcessLogWater)
    else None
  }

  /** `command_start`: ask for the weight; the stored data is kept. */
  function StartStep(s: Session): (Session, Reply)
  {
    (s.(state := Weight), AskFor("weight"))
  }

  /** `process_weight` … `process_calories_goal`, the handler registered for
      `field`: store the raw text under the field's key, move to the next
      state, and ask for the next field or report the profile complete. */
  function ProfileStep(field: State, s: Session, text: string): (Session, Reply)
    requires IsProfileState(field)
  {
    var next := ProfileSuccessor(field);
    (s.(state := next, data := s.data[ProfileKey(field) := text]),
     if next == Idle then ProfileComplete else AskFor(ProfileKey(next)))
  }

  /** `data.get(key)`. */
  function Get(data: map<string, string>, key: string): Option<string>
  {
    if key in data then Some(data[key]) else None
  }

  /** `int(data.get(key))`: `None` where `int` raises, for a missing key
      (`int(None)`) as for malformed text. */
  function IntField(data: map<string, string>, key: string): Option<int>
  {
    if key in data then ParseInt(data[key]) else None
  }

  /** `get_profile`: show the six values as stored, changing nothing. */
  function GetProfileStep(s: Session): (Session, Reply)
  {
    (s, ProfileShown(Get(s.data, "weight"), Get(s.data, "height"), Get(s.data, "age"),
                     Get(s.data, "activity_level"), Get(s.data, "city"), Get(s.data, "calories_goal")))
  }

  /** The five profile fields `calculate_daily_water` converts all convert.
      The source converts the activity level with `float()`; here it goes
      through the `int()` rule like the other four. */
  predicate AllNumeric(data: map<string, string>)
  {
    IntField(data, "weight").Some? && IntField(data, "height").Some? && IntField(data, "age").Some?
    && IntField(data, "activity_level").Some? && IntField(data, "calories_goal").Some?
  }

  /** `calculate_daily_water` (the `/calculate_daily_water` command): convert
      weight, height, age, activity level and calorie goal, fetch the
      temperature, then store and show the norm. Any conversion or lookup that
      raises ends the handler before the ledger is touched. */
  function CalculateDailyWaterStep(s: Session, temperature: Option<real>): (Session, Reply)
  {
    var weight := IntField(s.data, "weight");
    var height := IntField(s.data, "height");
    var age := IntField(s.data, "age");
    var activity := IntField(s.data, "activity_level");
    var caloriesGoal := IntField(s.data, "calories_goal");
    if weight.None? || height.None? || age.None? || activity.None? || caloriesGoal.None? then (s, Failed)
    else if temperature.None? then (s, Failed)
    else
      var norm := DailyWaterNorm(weight.value, activity.value, temperature.value);
      (s.(ledger := SetNorm(s.ledger, norm)), NormIs(norm))
  }

  /** The `/log_water` command handler: wait for a volume. */
  function LogWaterCommandStep(s: Session): (Session, Reply)
  {
    (s.(state := LogWater), AskVolume)
  }

  /** The handler of state `log_water`. Without a norm it goes idle. With one,
      it stores the text under "log_water", converts it (a malformed volume
      raises here, leaving the state at `log_water`), adds it, and reports the
      goal met or what remains. */
  function LogWaterStep(s: Session, text: string): (Session, Reply)
  {
    match s.ledger.norm
    case None => (s.(state := Idle), NormMissing)
    case Some(norm) =>
      var data := s.data["log_water" := text];
      match ParseInt(data["log_water"])
      case None => (s.(data := data), Failed)
      case Some(volume) =>
        var ledger := AddConsumption(s.ledger, volume);
        (Session(Idle, data, ledger),
         if norm <= ledger.consumption then GoalMet else Remaining(norm - ledger.consumption))
  }

  function Apply(h: Handler, s: Session, msg: Incoming): (Session, Reply)
  {
    match h
    case CommandStart => StartStep(s)
    case ProcessWeight => ProfileStep(Weight, s, msg.text)
    case ProcessHeight => ProfileStep(Height, s, msg.text)
    case ProcessAge => ProfileStep(Age, s, msg.text)
    case ProcessActivityLevel => ProfileStep(ActivityLevel, s, msg.text)
    case ProcessCity => ProfileStep(City, s, msg.text)
    case ProcessCaloriesGoal => ProfileStep(CaloriesGoal, s, msg.text)
    case GetProfile => GetProfileStep(s)
    case CalculateDailyWater => CalculateDailyWaterStep(s, msg.temperature)
    case CommandLogWater => LogWaterCommandStep(s)
    case ProcessLogWater => LogWaterStep(s, msg.text)
  }

  /** One message: route it, and run the handler it reaches, if any. */
  function Step(s: Session, msg: Incoming): (Session, Reply)
  {
    match Dispatch(s.state, msg.text)
    case None => (s, Ignored)
    case Some(h) => Apply(h, s, msg)
  }

  /** The sessions after each message of a conversation, in order. */
  function Trace(s: Session, msgs: seq<Incoming>): (t: seq<Session>)
    ensures |t| == |msgs|
    decreases |msgs|
  {
    if msgs == [] then []
    else var s' := Step(s, msgs[0]).0; [s'] + Trace(s', msgs[1..])
  }
}
