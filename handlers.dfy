/** The handlers of handlers.py as they run: each one updates the FSM context
    (`state.set_state`, `state.update_data`) and the shared `WaterLogger` in
    place, and each is proved to do what the matching function of module
    Dialogue says. */
module Handlers {
  import opened Wrappers
  import opened States
  import opened Numbers
  import opened WaterNorm
  import opened Ledger
  import opened Dialogue

  /** The part of aiogram's `FSMContext` the handlers use: the current state
      and the data dictionary of one conversation. */
  class FsmContext {
    var state: State
    var data: map<string, string>

    constructor ()
      ensures state == Idle && data == map[]
    {
      state := Idle;
      data := map[];
    }

    /** `set_state`. */
    method SetState(s: State)
      modifies this
      ensures state == s && data == old(data)
    {
      state := s;
    }

    /** `update_data(key=value)`: this key changes, the others are kept. */
    method UpdateData(key: string, value: string)
      modifies this
      ensures state == old(state) && data == old(data)[key := value]
    {
      data := data[key := value];
    }

    /** `get_data`. */
    method GetData() returns (d: map<string, string>)
      ensures d == data
    {
      d := data;
    }
  }

  /** The conversation and the ledger, as one value. */
  function SessionOf(ctx: FsmContext, logger: WaterLogger): Session
    reads ctx, logger
  {
    Session(ctx.state, ctx.data, logger.Snapshot())
  }

  method HandleCommandStart(ctx: FsmContext, logger: WaterLogger) returns (reply: Reply)
    modifies ctx
    ensures (SessionOf(ctx, logger), reply) == StartStep(old(SessionOf(ctx, logger)))
  {
    ctx.SetState(Weight);
    reply := AskFor("weight");
  }

  method ProcessWeight(ctx: FsmContext, logger: WaterLogger, text: string) returns (reply: Reply)
    modifies ctx
    ensures (SessionOf(ctx, logger), reply) == ProfileStep(Weight, old(SessionOf(ctx, logger)), text)
  {
    ctx.UpdateData("weight", text);
    ctx.SetState(Height);
    reply := AskFor("height");
  }

  method ProcessHeight(ctx: FsmContext, logger: WaterLogger, text: string) returns (reply: Reply)
    modifies ctx
    ensures (SessionOf(ctx, logger), reply) == ProfileStep(Height, old(SessionOf(ctx, logger)), text)
  {
    ctx.UpdateData("height", text);
    ctx.SetState(Age);
    reply := AskFor("age");
  }

  method ProcessAge(ctx: FsmContext, logger: WaterLogger, text: string) returns (reply: Reply)
    modifies ctx
    ensures (SessionOf(ctx, logger), reply) == ProfileStep(Age, old(SessionOf(ctx, logger)), text)
  {
    ctx.UpdateData("age", text);
    ctx.SetState(ActivityLevel);
    reply := AskFor("activity_level");
  }

  method ProcessActivityLevel(ctx: FsmContext, logger: WaterLogger, text: string) returns (reply: Reply)
    modifies ctx
    ensures (SessionOf(ctx, logger), reply) == ProfileStep(ActivityLevel, old(SessionOf(ctx, logger)), text)
  {
    ctx.UpdateData("activity_level", text);
    ctx.SetState(City);
    reply := AskFor("city");
  }

  method ProcessCity(ctx: FsmContext, logger: WaterLogger, text: string) returns (reply: Reply)
    modifies ctx
    ensures (SessionOf(ctx, logger), reply) == ProfileStep(City, old(SessionOf(ctx, logger)), text)
  {
    ctx.UpdateData("city", text);
    ctx.SetState(CaloriesGoal);
    reply := AskFor("calories_goal");
  }

  method ProcessCaloriesGoal(ctx: FsmContext, logger: WaterLogger, text: string) returns (reply: Reply)
    modifies ctx
    ensures (SessionOf(ctx, logger), reply) == ProfileStep(CaloriesGoal, old(SessionOf(ctx, logger)), text)
  {
    ctx.UpdateData("calories_goal", text);
    reply := ProfileComplete;
    ctx.SetState(Idle);
  }

  /** `get_profile` reads the six fields and changes nothing. */
  method GetProfile(ctx: FsmContext, logger: WaterLogger) returns (reply: Reply)
    ensures (SessionOf(ctx, logger), reply) == GetProfileStep(SessionOf(ctx, logger))
    ensures reply == ProfileShown(Get(ctx.data, "weight"), Get(ctx.data, "height"), Get(ctx.data, "age"),
                                  Get(ctx.data, "activity_level"), Get(ctx.data, "city"), Get(ctx.data, "calories_goal"))
  {
    var data := ctx.GetData();
    reply := ProfileShown(Get(data, "weight"), Get(data, "height"), Get(data, "age"),
                          Get(data, "activity_level"), Get(data, "city"), Get(data, "calories_goal"));
  }

  /** `calculate_daily_water`; `temperature` is the outcome of the two
      lookups, `None` when one of them raises. */
  method CalculateDailyWater(ctx: FsmContext, logger: WaterLogger, temperature: Option<real>) returns (reply: Reply)
    modifies logger
    ensures (SessionOf(ctx, logger), reply) == CalculateDailyWaterStep(old(SessionOf(ctx, logger)), temperature)
  {
    var data := ctx.GetData();
    var weight := IntField(data, "weight");
    if weight.None? { return Failed; }
    var height := IntField(data, "height");
    if height.None? { return Failed; }
    var age := IntField(data, "age");
    if age.None? { return Failed; }
    var activityLevel := IntField(data, "activity_level");
    if activityLevel.None? { return Failed; }
    var caloriesGoal := IntField(data, "calories_goal");
    if caloriesGoal.None? { return Failed; }
    if temperature.None? { return Failed; }
    var waterNorm := DailyWaterNorm(weight.value, activityLevel.value, temperature.value);
    logger.UpdateWaterNorm(waterNorm);
    reply := NormIs(waterNorm);
  }

  /** The `/log_water` command. */
  method CommandLogWater(ctx: FsmContext, logger: WaterLogger) returns (reply: Reply)
    modifies ctx
    ensures (SessionOf(ctx, logger), reply) == LogWaterCommandStep(old(SessionOf(ctx, logger)))
  {
    ctx.SetState(LogWater);
    reply := AskVolume;
  }

  /** The handler of state `log_water`. The comparison and the remainder use
      the total after the volume has been added. */
  method ProcessLogWater(ctx: FsmContext, logger: WaterLogger, text: string) returns (reply: Reply)
    modifies ctx, logger
    ensures (SessionOf(ctx, logger), reply) == LogWaterStep(old(SessionOf(ctx, logger)), text)
  {
    if logger.dailyWaterNorm == None {
      reply := NormMissing;
      ctx.SetState(Idle);
      return;
    }
    ctx.UpdateData("log_water", text);
    var data := ctx.GetData();
    var waterVolume := ParseInt(data["log_water"]);
    if waterVolume.None? {
      return Failed;
    }
    logger.UpdateWaterConsumption(waterVolume.value);
    if logger.dailyWaterNorm.value <= logger.waterConsumption {
      reply := GoalMet;
    } else {
      reply := Remaining(logger.dailyWaterNorm.value - logger.waterConsumption);
    }
    ctx.SetState(Idle);
  }

  /** One incoming message, routed as aiogram's router routes it. */
  method HandleMessage(ctx: FsmContext, logger: WaterLogger, msg: Incoming) returns (reply: Reply)
    modifies ctx, logger
    ensures (SessionOf(ctx, logger), reply) == Step(old(SessionOf(ctx, logger)), msg)
  {
    var handler := Dispatch(ctx.state, msg.text);
    if handler.None? {
      return Ignored;
    }
    match handler.value
    case CommandStart => reply := HandleCommandStart(ctx, logger);
    case ProcessWeight => reply := ProcessWeight(ctx, logger, msg.text);
    case ProcessHeight => reply := ProcessHeight(ctx, logger, msg.text);
    case ProcessAge => reply := ProcessAge(ctx, logger, msg.text);
    case ProcessActivityLevel => reply := ProcessActivityLevel(ctx, logger, msg.text);
    case ProcessCity => reply := ProcessCity(ctx, logger, msg.text);
    case ProcessCaloriesGoal => reply := ProcessCaloriesGoal(ctx, logger, msg.text);
    case GetProfile => reply := GetProfile(ctx, logger);
    case CalculateDailyWater => reply := CalculateDailyWater(ctx, logger, msg.temperature);
    case CommandLogWater => reply := CommandLogWater(ctx, logger);
    case ProcessLogWater => reply := ProcessLogWater(ctx, logger, msg.text);
  }
}
