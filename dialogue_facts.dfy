/** What the conversation logic of handlers.py guarantees, stated over the
    functions of module Dialogue. */
module DialogueFacts {
  import opened Wrappers
  import opened States
  import opened Numbers
  import opened Commands
  import opened WaterNorm
  import opened Ledger
  import opened Dialogue

  /** `/start` puts the conversation in the weight state from any state, and
      keeps the stored data and the ledger. */
  lemma StartRestartsFromAnyState(s: Session, msg: Incoming)
    requires IsCommand(msg.text, "start")
    ensures Step(s, msg) == (Session(Weight, s.data, s.ledger), AskFor("weight"))
  {
  }

  /** The profile states are exactly the `UserProfile` group, each handler
      moves to the next state of the declaration, the last one to idle, and
      the six handlers store under six distinct keys. */
  lemma DeclarationOrderIsTransitionChain()
    ensures forall s :: IsProfileState(s) <==> s in UserProfileStates()
    ensures forall i :: 0 <= i < 5 ==> ProfileSuccessor(UserProfileStates()[i]) == UserProfileStates()[i + 1]
    ensures ProfileSuccessor(UserProfileStates()[5]) == Idle
    ensures forall i, j :: 0 <= i < j < 6 ==> ProfileKey(UserProfileStates()[i]) != ProfileKey(UserProfileStates()[j])
  {
  }

  /** The chain is linear: distinct profile states have distinct successors,
      no state is its own successor, and the chain never enters `log_water`. */
  lemma ProfileChainIsLinear(a: State, b: State)
    requires IsProfileState(a) && IsProfileState(b)
    ensures a != b ==> ProfileSuccessor(a) != ProfileSuccessor(b)
    ensures ProfileSuccessor(a) != a && ProfileSuccessor(a) != LogWater
    ensures ProfileSuccessor(a) == Idle <==> a == CaloriesGoal
  {
  }

  /** In a profile state every text but `/start` reaches that state's handler,
      commands included, because the state handlers are registered before the
      other commands. */
  lemma ProfileStatesTakeEveryTextButStart(state: State, text: string)
    requires IsProfileState(state) && !IsCommand(text, "start")
    ensures Dispatch(state, text) == Some(ProfileHandler(state))
  {
  }

  /** A profile step stores the raw text under its own key, changes no other
      key, advances one state along the chain and leaves the ledger alone. */
  lemma ProfileStepStoresAndAdvances(s: Session, msg: Incoming)
    requires IsProfileState(s.state) && !IsCommand(msg.text, "start")
    ensures Step(s, msg).0.state == ProfileSuccessor(s.state)
    ensures Step(s, msg).0.data == s.data[ProfileKey(s.state) := msg.text]
    ensures Get(Step(s, msg).0.data, ProfileKey(s.state)) == Some(msg.text)
    ensures forall k :: k != ProfileKey(s.state) ==> Get(Step(s, msg).0.data, k) == Get(s.data, k)
    ensures Step(s, msg).0.ledger == s.ledger
    ensures Step(s, msg).1 == if ProfileSuccessor(s.state) == Idle then ProfileComplete
                              else AskFor(ProfileKey(ProfileSuccessor(s.state)))
  {
    var h := ProfileHandler(s.state);
    assert Dispatch(s.state, msg.text) == Some(h);
  }

  /** Idle, a text reaches a handler exactly when it is one of the four known
      commands; any other text is ignored and changes nothing. */
  lemma {:induction false} IdleIgnoresNonCommands(s: Session, msg: Incoming)
    requires s.state == Idle
    ensures Dispatch(Idle, msg.text) == None <==> !IsKnownCommand(msg.text)
    ensures !IsKnownCommand(msg.text) ==> Step(s, msg) == (s, Ignored)
  {
  }

  /** Outside the profile states `/log_water` moves to the `log_water` state and
      changes nothing else. */
  lemma {:induction false} LogWaterCommandSetsState(s: Session, msg: Incoming)
    requires !IsProfileState(s.state) && IsCommand(msg.text, "log_water")
    ensures Step(s, msg) == (Session(LogWater, s.data, s.ledger), AskVolume)
  {
    if IsCommand(msg.text, "start") {
      CommandNameIsUnique(msg.text, "start", "log_water");
    }
    if IsCommand(msg.text, "get_profile") {
      CommandNameIsUnique(msg.text, "get_profile", "log_water");
    }
    if IsCommand(msg.text, "calculate_daily_water") {
      CommandNameIsUnique(msg.text, "calculate_daily_water", "log_water");
    }
  }

  /** `/calculate_daily_water` reaches its handler exactly outside the profile states. */
  lemma {:induction false} CalculateDailyWaterDispatch(state: State, text: string)
    requires IsCommand(text, "calculate_daily_water")
    ensures Dispatch(state, text) == Some(CalculateDailyWater) <==> !IsProfileState(state)
  {
    if IsCommand(text, "start") {
      CommandNameIsUnique(text, "start", "calculate_daily_water");
    }
    if IsCommand(text, "get_profile") {
      CommandNameIsUnique(text, "get_profile", "calculate_daily_water");
    }
  }

  /** The norm is stored only when weight, height, age, activity level and
      calorie goal all convert and the temperature lookup succeeds, and then
      it is the formula's value. Otherwise the session is untouched. The FSM
      state, the data and the consumption never change. */
  lemma CalculateStoresNormOnlyIfAllParse(s: Session, temperature: Option<real>)
    ensures CalculateDailyWaterStep(s, temperature).0.state == s.state
    ensures CalculateDailyWaterStep(s, temperature).0.data == s.data
    ensures CalculateDailyWaterStep(s, temperature).0.ledger.consumption == s.ledger.consumption
    ensures AllNumeric(s.data) && temperature.Some? ==>
      var norm := DailyWaterNorm(IntField(s.data, "weight").value, IntField(s.data, "activity_level").value, temperature.value);
      CalculateDailyWaterStep(s, temperature) == (s.(ledger := SetNorm(s.ledger, norm)), NormIs(norm))
    ensures !(AllNumeric(s.data) && temperature.Some?) ==> CalculateDailyWaterStep(s, temperature) == (s, Failed)
  {
  }

  /** A field that is missing from the data is as fatal as one that does not
      convert: without a stored weight no norm can be set. */
  lemma MissingWeightFails(s: Session, temperature: Option<real>)
    requires "weight" !in s.data
    ensures CalculateDailyWaterStep(s, temperature) == (s, Failed)
  {
  }

  /** `/get_profile` changes nothing and shows each field as stored. */
  lemma GetProfileOnlyReads(s: Session, msg: Incoming)
    requires Dispatch(s.state, msg.text) == Some(GetProfile)
    ensures Step(s, msg).0 == s
    ensures Step(s, msg).1 == ProfileShown(Get(s.data, "weight"), Get(s.data, "height"), Get(s.data, "age"),
                                           Get(s.data, "activity_level"), Get(s.data, "city"), Get(s.data, "calories_goal"))
  {
  }

  /** In the `log_water` state without a norm, a volume is not recorded, the
      consumption is unchanged and the conversation goes idle. */
  lemma LogWaterWithoutNorm(s: Session, msg: Incoming)
    requires s.state == LogWater && !IsKnownCommand(msg.text) && s.ledger.norm == None
    ensures Step(s, msg) == (s.(state := Idle), NormMissing)
  {
  }

  /** With a norm set, a volume that converts is added to the consumption;
      the goal is reported met exactly when norm <= consumption (inclusive),
      otherwise the reported remainder is norm - consumption, which is then
      positive. The conversation goes idle. */
  lemma LogWaterWithNorm(s: Session, msg: Incoming, norm: int, volume: int)
    requires s.state == LogWater && !IsKnownCommand(msg.text)
    requires s.ledger.norm == Some(norm) && ParseInt(msg.text) == Some(volume)
    ensures var (s', r) := Step(s, msg);
      s'.ledger == AddConsumption(s.ledger, volume)
      && s'.ledger.consumption == s.ledger.consumption + volume
      && s'.state == Idle && s'.data == s.data["log_water" := msg.text]
      && (r == GoalMet <==> norm <= s'.ledger.consumption)
      && (r != GoalMet ==> r == Remaining(norm - s'.ledger.consumption) && r.amount > 0)
  {
  }

  /** With a norm set, a volume `int()` rejects raises after the text is
      stored: the ledger is unchanged and the state stays `log_water`. */
  lemma LogWaterMalformedVolume(s: Session, msg: Incoming)
    requires s.state == LogWater && !IsKnownCommand(msg.text)
    requires s.ledger.norm.Some? && ParseInt(msg.text) == None
    ensures Step(s, msg) == (Session(LogWater, s.data["log_water" := msg.text], s.ledger), Failed)
  {
  }

  /** The log-water handler never changes the norm, and goes idle in every
      branch that does not raise. */
  lemma LogWaterKeepsNorm(s: Session, text: string)
    requires s.state == LogWater
    ensures LogWaterStep(s, text).0.ledger.norm == s.ledger.norm
    ensures LogWaterStep(s, text).0.state == Idle <==> LogWaterStep(s, text).1 != Failed
  {
  }

  /** Element `i` of a trace is the step from element `i - 1` (from the
      starting session for `i == 0`). */
  lemma {:induction false} TraceStep(s: Session, msgs: seq<Incoming>, i: nat)
    requires i < |msgs|
    ensures Trace(s, msgs)[i] == Step(if i == 0 then s else Trace(s, msgs)[i - 1], msgs[i]).0
    decreases i
  {
    var s' := Step(s, msgs[0]).0;
    assert Trace(s, msgs) == [s'] + Trace(s', msgs[1..]);
    if i > 0 {
      var rest := Trace(s', msgs[1..]);
      TraceStep(s', msgs[1..], i - 1);
      assert msgs[1..][i - 1] == msgs[i];
      assert Trace(s, msgs)[i] == rest[i - 1];
      assert Trace(s, msgs)[i - 1] == if i == 1 then s' else rest[i - 2];
    }
  }

  /** A trace element reached from a profile state by a text other than
      `/start` is the profile step of that state. */
  lemma ProfileTraceStep(s: Session, msgs: seq<Incoming>, i: nat)
    requires 0 < i < |msgs| && !IsCommand(msgs[i].text, "start")
    requires IsProfileState(Trace(s, msgs)[i - 1].state)
    ensures var prev := Trace(s, msgs)[i - 1];
      Trace(s, msgs)[i] == Session(ProfileSuccessor(prev.state), prev.data[ProfileKey(prev.state) := msgs[i].text], prev.ledger)
  {
    TraceStep(s, msgs, i);
    ProfileStepStoresAndAdvances(Trace(s, msgs)[i - 1], msgs[i]);
  }

  /** The full profile dialogue: `/start` followed by six answers (none of
      them `/start`) passes through the six profile states in declaration
      order, ends idle, and leaves each answer stored verbatim under its key. */
  lemma {:induction false} ProfileRoundTrip(s: Session, msgs: seq<Incoming>)
    requires |msgs| == 7 && IsCommand(msgs[0].text, "start")
    requires forall i :: 1 <= i < 7 ==> !IsCommand(msgs[i].text, "start")
    ensures |Trace(s, msgs)| == 7
    ensures forall i :: 0 <= i < 6 ==> Trace(s, msgs)[i].state == UserProfileStates()[i]
    ensures Trace(s, msgs)[6].state == Idle && Trace(s, msgs)[6].ledger == s.ledger
    ensures Trace(s, msgs)[6].data == s.data["weight" := msgs[1].text]["height" := msgs[2].text]["age" := msgs[3].text]
                                        ["activity_level" := msgs[4].text]["city" := msgs[5].text]
                                        ["calories_goal" := msgs[6].text]
  {
    var t := Trace(s, msgs);
    assert t[0] == Session(Weight, s.data, s.ledger) by {
      TraceStep(s, msgs, 0);
      StartRestartsFromAnyState(s, msgs[0]);
    }
    ProfileTraceStep(s, msgs, 1);
    ProfileTraceStep(s, msgs, 2);
    ProfileTraceStep(s, msgs, 3);
    ProfileTraceStep(s, msgs, 4);
    ProfileTraceStep(s, msgs, 5);
    ProfileTraceStep(s, msgs, 6);
  }

  /** Six answers stored under the six profile keys, in chain order, each
      read back under its own key: no later store overwrites an earlier one. */
  lemma StoredAnswersReadBack(d: map<string, string>, a: string, b: string, c: string, e: string, f: string, g: string)
    ensures var m := d["weight" := a]["height" := b]["age" := c]["activity_level" := e]["city" := f]["calories_goal" := g];
      Get(m, "weight") == Some(a) && Get(m, "height") == Some(b) && Get(m, "age") == Some(c) &&
      Get(m, "activity_level") == Some(e) && Get(m, "city") == Some(f) && Get(m, "calories_goal") == Some(g)
  {
  }

  /** After the full profile dialogue each answer reads back under its key. */
  lemma ProfileReadsBack(s: Session, msgs: seq<Incoming>)
    requires |msgs| == 7 && IsCommand(msgs[0].text, "start")
    requires forall i :: 1 <= i < 7 ==> !IsCommand(msgs[i].text, "start")
    ensures forall i :: 0 <= i < 6 ==> Get(Trace(s, msgs)[6].data, ProfileKey(UserProfileStates()[i])) == Some(msgs[i + 1].text)
  {
    var d := Trace(s, msgs)[6].data;
    assert d == s.data["weight" := msgs[1].text]["height" := msgs[2].text]["age" := msgs[3].text]
                ["activity_level" := msgs[4].text]["city" := msgs[5].text]["calories_goal" := msgs[6].text] by {
      ProfileRoundTrip(s, msgs);
    }
    StoredAnswersReadBack(s.data, msgs[1].text, msgs[2].text, msgs[3].text, msgs[4].text, msgs[5].text, msgs[6].text);
    forall i | 0 <= i < 6
      ensures Get(d, ProfileKey(UserProfileStates()[i])) == Some(msgs[i + 1].text)
    {
      if i == 0 { assert ProfileKey(UserProfileStates()[i]) == "weight"; }
      else if i == 1 { assert ProfileKey(UserProfileStates()[i]) == "height"; }
      else if i == 2 { assert ProfileKey(UserProfileStates()[i]) == "age"; }
      else if i == 3 { assert ProfileKey(UserProfileStates()[i]) == "activity_level"; }
      else if i == 4 { assert ProfileKey(UserProfileStates()[i]) == "city"; }
      else { assert ProfileKey(UserProfileStates()[i]) == "calories_goal"; }
    }
  }

  /** The volumes the examples below log convert as decimal numbers. */
  lemma VolumeLiterals()
    ensures ParseInt("2000") == Some(2000) && ParseInt("1999") == Some(1999) && ParseInt("-500") == Some(-500)
  {
    assert Show(2000) == "2000" && Show(1999) == "1999" && Show(-500) == "-500";
    ParseShowRoundTrip(2000);
    ParseShowRoundTrip(1999);
    ParseShowRoundTrip(-500);
  }

  /** Logging 2000 ml against a norm of 2000 meets the goal (the threshold is inclusive). */
  lemma {:induction false} GoalMetExample(data: map<string, string>, temperature: Option<real>)
    ensures Step(Session(LogWater, data, LedgerState(Some(2000), 0)), Incoming("2000", temperature)).1 == GoalMet
  {
    VolumeLiterals();
    NotACommand("2000");
    LogWaterWithNorm(Session(LogWater, data, LedgerState(Some(2000), 0)), Incoming("2000", temperature), 2000, 2000);
  }

  /** Logging 1999 ml against a norm of 2000 leaves 1 ml to go. */
  lemma {:induction false} RemainingExample(data: map<string, string>, temperature: Option<real>)
    ensures Step(Session(LogWater, data, LedgerState(Some(2000), 0)), Incoming("1999", temperature)).1 == Remaining(1)
  {
    VolumeLiterals();
    NotACommand("1999");
    LogWaterWithNorm(Session(LogWater, data, LedgerState(Some(2000), 0)), Incoming("1999", temperature), 2000, 1999);
  }

  /** Consumption has no floor: a negative volume takes the total below zero. */
  lemma {:induction false} NegativeVolumeExample(data: map<string, string>, temperature: Option<real>)
    ensures Step(Session(LogWater, data, LedgerState(Some(2000), 0)), Incoming("-500", temperature)).0.ledger.consumption == -500
  {
    VolumeLiterals();
    NotACommand("-500");
    LogWaterWithNorm(Session(LogWater, data, LedgerState(Some(2000), 0)), Incoming("-500", temperature), 2000, -500);
  }

  /** A text that starts with a digit or a sign, as a volume does, is no command. */
  lemma NotACommand(text: string)
    requires text != [] && (IsDigit(text[0]) || text[0] == '-' || text[0] == '+')
    ensures !IsKnownCommand(text)
  {
    NoSlashIsNoCommand(text, "start");
    NoSlashIsNoCommand(text, "get_profile");
    NoSlashIsNoCommand(text, "calculate_daily_water");
    NoSlashIsNoCommand(text, "log_water");
  }
}
