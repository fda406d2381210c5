# Health-tracking bot: conversation logic in Dafny

This project models the conversation core of a Telegram health-tracking bot
built on aiogram. It covers:

- the finite-state dialogue that collects a user profile (weight, height, age,
  activity level, city, calorie goal), one message per field;
- the water ledger `WaterLoggerClass`, which holds a nullable daily water
  norm and a running consumption total;
- the `/calculate_daily_water` command, which turns the stored profile and an
  outside temperature into a norm;
- the two-step `/log_water` flow, which adds a volume and reports either
  "goal met" or the amount still to drink.

## Layout

| file | module | what it holds |
|---|---|---|
| wrappers.dfy | `Wrappers` | `Option`, standing for Python's `None`-or-value |
| states.dfy | `States` | the `UserProfile` and `WaterLogger` state groups of states.py, plus the idle state |
| numbers.dfy | `Numbers` | Python's `int(str)` as a partial function, and the decimal rendering it inverts |
| commands.dfy | `Commands` | how aiogram's `Command`/`CommandStart` filters recognise `/name` |
| water_norm.dfy | `WaterNorm` | the norm formula of handlers.py line 133 |
| ledger.dfy | `Ledger` | `LedgerState` (the two fields as a value) and the class `WaterLogger` |
| dialogue.dfy | `Dialogue` | the specification: routing, and one step function per handler |
| dialogue_facts.dfy | `DialogueFacts` | the properties of that specification |
| handlers.dfy | `Handlers` | the handlers as methods that update an `FsmContext` object and the `WaterLogger` in place. Each is proved equal to its step function |

The conversation state is `States.State`: `Idle` (aiogram's `None`), the six
profile states, and `LogWater`. The stored profile is a `map<string, string>`
from field key to the raw message text, exactly as `state.update_data` keeps
it.

The pure model and the imperative model are tied together by
`Handlers.HandleMessage`. Its postcondition says that one message changes
the context and the ledger exactly as `Dialogue.Step` says.

## Routing

aiogram tries handlers in registration order and runs the first one whose
filters pass. The handlers are registered in this order:

1. `/start`;
2. the six profile-state handlers, which have no text filter;
3. `/get_profile`, `/calculate_daily_water` and `/log_water`;
4. the `log_water` state handler.

`Dialogue.Dispatch` follows this order, and it has a consequence:

- While a profile field is awaited, every text except `/start` is stored as
  that field, commands included. For example, `/get_profile` sent at the
  height prompt becomes the height.
- So commands registered after the state handlers do not override an
  awaited field. `/start`, registered before them, is the only command that
  takes precedence in every state.
- In the `log_water` state, the three later commands do win over the state
  handler.

## Errors

When a conversion raises (`int(...)` on malformed text, or `int(None)` for a
field never entered), or a lookup raises, the handler sends nothing. The
model reports this as `Failed`. Effects made before the exception are kept.
In the `log_water` handler, the text is already stored under `"log_water"`
when `int` raises, and the state stays `log_water`.

## Model

| member | source | states |
|---|---|---|
| States.StateName | states.py:5-15 | a declared state has a stored name; only the idle state is `None` |
| States.DeclaredStatesAreDistinct | states.py:5-15 | the profile group has six states and the water group one; all seven are distinct and none is idle |
| States.StateNameInjective | states.py:5-15 | distinct states have distinct stored names |
| Numbers.IsSpace | handlers.py:35 | the whitespace of Python's `str.isspace()`, which `str.split()` splits a command text at |
| Numbers.IsIntSpace | handlers.py:112 | the whitespace `int()` strips: that of `str.isspace()` except the information separators U+001C-U+001F |
| Numbers.SeparatorBlocksParse | handlers.py:112 | an information separator is whitespace to `str.split()`, yet in front of any text it makes `int()` raise |
| Numbers.StripRemovesOuterSpace | handlers.py:112 | stripping removes a leading and a trailing run of whitespace and nothing else; the result neither starts nor ends with whitespace |
| Numbers.StripIdempotent | handlers.py:112 | stripping a stripped text changes nothing |
| Numbers.ParseInt | handlers.py:112-117 | `int()` succeeds exactly on an optional sign plus decimal digits, after surrounding whitespace is stripped; a negative result comes from a leading `-` |
| Numbers.ParseShowRoundTrip | handlers.py:160 | converting the decimal rendering of any integer gives that integer back |
| Numbers.ParseIgnoresSurroundingSpace | handlers.py:112-117 | whitespace that `int()` strips, around a literal, does not change what `int()` returns |
| Commands.IsCommand | handlers.py:35 | the first whitespace-separated word is `/` plus the name; described by the lemmas below |
| Commands.IsKnownCommand | handlers.py:35-141 | one of the four registered commands; used by `DialogueFacts.IdleIgnoresNonCommands` |
| Commands.CommandWithArgument | handlers.py:35 | `/name` matches command `name` whether or not an argument follows after whitespace |
| Commands.PaddedCommand | handlers.py:35 | any whitespace before `/name` is skipped |
| Commands.NoBreakSpaceBeforeCommand | handlers.py:35 | a no-break space (U+00A0) before `/start` is skipped |
| Commands.NoBreakSpaceBeforeArgument | handlers.py:35 | a no-break space (U+00A0) ends the command word `/start` |
| Commands.NoSlashIsNoCommand | handlers.py:93 | a text whose first character is neither whitespace nor `/` matches no command |
| Commands.CommandNameIsUnique | handlers.py:109 | a text is a command for at most one name |
| WaterNorm.HeatBonus | handlers.py:133 | `1000*(temperature>25)`: 1000 above 25, else 0; described by `HeatBonusIsStrictStep` |
| WaterNorm.DailyWaterNorm | handlers.py:133 | the norm formula; described by `HeatBonusIsStrictStep`, `ActivityCountsFullBlocks` and the two monotonicity lemmas |
| WaterNorm.HeatBonusIsStrictStep | handlers.py:133 | up to and including a reported temperature of 25 there is no bonus; above 25 exactly 1000 ml is added |
| WaterNorm.ActivityCountsFullBlocks | handlers.py:133 | with `k` full 30-minute blocks of activity the norm is `30*weight + 500*k + 500` plus the heat bonus |
| WaterNorm.NonDecreasingInWeight | handlers.py:133 | the norm never decreases as weight grows |
| WaterNorm.NonDecreasingInActivity | handlers.py:133 | the norm never decreases as activity grows |
| Ledger.Initial | handlers.py:22-24 | no norm, consumption 0; produced by `WaterLogger.constructor` |
| Ledger.AddConsumption | handlers.py:26-27 | add the volume to the consumption; described by `AddConsumptionAccumulates` and `UpdatesCommute` |
| Ledger.SetNorm | handlers.py:29-30 | replace the norm; described by `SetNormIdempotent`, `SetNormOverwrites` and `UpdatesCommute` |
| Ledger.SetNormIdempotent | handlers.py:29-30 | setting the same norm twice equals setting it once |
| Ledger.SetNormOverwrites | handlers.py:29-30 | a later norm fully replaces an earlier one |
| Ledger.AddConsumptionAccumulates | handlers.py:26-27 | two additions equal one addition of the sum; the total goes below zero exactly when the volume exceeds minus the old total |
| Ledger.UpdatesCommute | handlers.py:26-30 | setting the norm keeps the consumption, adding keeps the norm, and the two updates commute |
| Ledger.WaterLogger.constructor | handlers.py:22-24 | a fresh ledger has no norm and consumption 0 |
| Ledger.WaterLogger.UpdateWaterConsumption | handlers.py:26-27 | consumption becomes old consumption plus the volume, with no floor; the norm is unchanged |
| Ledger.WaterLogger.UpdateWaterNorm | handlers.py:29-30 | the norm becomes the given value; consumption is unchanged |
| Ledger.UpdateNormTwice | handlers.py:29-30 | on the object, two updates with one value leave the state a single update leaves |
| Dialogue.ProfileKey | handlers.py:43-89 | the data key each profile handler stores under; distinctness in `DeclarationOrderIsTransitionChain` |
| Dialogue.ProfileSuccessor | handlers.py:43-89 | the state each profile handler sets next; described by `DeclarationOrderIsTransitionChain` and `ProfileChainIsLinear` |
| Dialogue.Dispatch | handlers.py:35-151 | the first registered handler whose filters pass; described by `StartRestartsFromAnyState`, `ProfileStatesTakeEveryTextButStart`, `IdleIgnoresNonCommands` and `CalculateDailyWaterDispatch` |
| Dialogue.StartStep | handlers.py:35-41 | `command_start`; described by `StartRestartsFromAnyState` |
| Dialogue.ProfileStep | handlers.py:43-89 | the six profile handlers; described by `ProfileStepStoresAndAdvances` |
| Dialogue.Get | handlers.py:94-99 | `data.get(key)`: the stored text, `None` when absent |
| Dialogue.IntField | handlers.py:112-117 | `int(data.get(key))`: `None` when the key is absent or `int()` raises |
| Dialogue.GetProfileStep | handlers.py:93-105 | `get_profile`; described by `GetProfileOnlyReads` |
| Dialogue.AllNumeric | handlers.py:112-117 | all five conversions of `calculate_daily_water` succeed |
| Dialogue.CalculateDailyWaterStep | handlers.py:109-137 | `calculate_daily_water`; described by `CalculateStoresNormOnlyIfAllParse` and `MissingWeightFails` |
| Dialogue.LogWaterCommandStep | handlers.py:141-147 | the `/log_water` command; described by `LogWaterCommandSetsState` |
| Dialogue.LogWaterStep | handlers.py:150-175 | the `log_water` state handler; described by `LogWaterWithoutNorm`, `LogWaterWithNorm`, `LogWaterMalformedVolume` and `LogWaterKeepsNorm` |
| Dialogue.Step | handlers.py:35-175 | one message: route, then run the handler; the examples below are stated on it |
| Dialogue.Trace | handlers.py:35-175 | the sessions after each message of a conversation, one per message; described by `TraceStep`, `ProfileRoundTrip` and `ProfileReadsBack` |
| DialogueFacts.StartRestartsFromAnyState | handlers.py:35-41 | `/start` moves any state to weight and keeps the stored data and the ledger |
| DialogueFacts.DeclarationOrderIsTransitionChain | states.py:5-11 | the profile states are exactly the declared group; each handler moves to the next declared state and the last moves to idle; the six keys are distinct |
| DialogueFacts.ProfileChainIsLinear | handlers.py:43-89 | distinct profile states have distinct successors; no state is its own successor; only calories_goal leads to idle; the chain never enters log_water |
| DialogueFacts.ProfileStatesTakeEveryTextButStart | handlers.py:35-93 | in a profile state every text except `/start` reaches that state's handler |
| DialogueFacts.ProfileStepStoresAndAdvances | handlers.py:43-89 | a profile step stores the raw text under its key, changes no other key, moves one state along the chain, leaves the ledger alone, and asks for the next field or reports the profile complete |
| DialogueFacts.IdleIgnoresNonCommands | handlers.py:35-151 | when idle, a text reaches a handler exactly when it is one of the four commands; any other text changes nothing and gets no reply |
| DialogueFacts.LogWaterCommandSetsState | handlers.py:141-147 | outside the profile states `/log_water` sets the log_water state and changes nothing else |
| DialogueFacts.CalculateDailyWaterDispatch | handlers.py:109 | `/calculate_daily_water` reaches its handler exactly when no profile field is awaited |
| DialogueFacts.CalculateStoresNormOnlyIfAllParse | handlers.py:110-137 | the norm is stored, with the formula's value, exactly when weight, height, age, activity level and calorie goal all convert and the lookup succeeds; otherwise nothing changes; state, data and consumption never change |
| DialogueFacts.MissingWeightFails | handlers.py:112 | without a stored weight no norm is set |
| DialogueFacts.GetProfileOnlyReads | handlers.py:93-105 | `/get_profile` changes nothing and shows all six fields as stored (`None` when absent) |
| DialogueFacts.LogWaterWithoutNorm | handlers.py:150-156 | without a norm, consumption and data are unchanged, the state becomes idle, and the reply is "norm missing" |
| DialogueFacts.LogWaterWithNorm | handlers.py:157-175 | with a norm, the converted volume is added; "goal met" is reported iff norm <= consumption; otherwise the remainder is norm - consumption, which is positive; the state becomes idle |
| DialogueFacts.LogWaterMalformedVolume | handlers.py:158-160 | a volume `int()` rejects leaves the ledger unchanged, the text stored, and the state at log_water |
| DialogueFacts.LogWaterKeepsNorm | handlers.py:150-175 | the log-water handler never changes the norm, and ends idle exactly when it does not raise |
| DialogueFacts.ProfileRoundTrip | handlers.py:35-89 | `/start` plus six answers passes through the six declared states in order, ends idle with the ledger unchanged, and stores each answer verbatim under its key |
| DialogueFacts.ProfileReadsBack | handlers.py:43-89 | after that dialogue each answer reads back under its own key |
| DialogueFacts.GoalMetExample | handlers.py:163-168 | norm 2000, logging "2000": goal met |
| DialogueFacts.RemainingExample | handlers.py:169-175 | norm 2000, logging "1999": 1 ml remains |
| DialogueFacts.NegativeVolumeExample | handlers.py:160-161 | logging "-500" against consumption 0 leaves consumption at -500 |
| Handlers.FsmContext.constructor | handlers.py:36 | a fresh user's context: no state (`None`) and no data |
| Handlers.FsmContext.SetState | handlers.py:37 | `state.set_state`: the state becomes the given one and the data is kept |
| Handlers.FsmContext.UpdateData | handlers.py:45 | `state.update_data`: one key is set to the text, the rest of the data and the state are kept |
| Handlers.FsmContext.GetData | handlers.py:159 | `state.get_data`: returns the stored data and changes nothing |
| Handlers.HandleCommandStart | handlers.py:35-41 | the context changes as `StartStep` says |
| Handlers.ProcessWeight | handlers.py:43-49 | the context changes as the weight profile step says |
| Handlers.ProcessHeight | handlers.py:51-57 | the context changes as the height profile step says |
| Handlers.ProcessAge | handlers.py:59-65 | the context changes as the age profile step says |
| Handlers.ProcessActivityLevel | handlers.py:67-73 | the context changes as the activity-level profile step says |
| Handlers.ProcessCity | handlers.py:75-81 | the context changes as the city profile step says |
| Handlers.ProcessCaloriesGoal | handlers.py:83-89 | the context changes as the calorie-goal profile step says, ending idle |
| Handlers.GetProfile | handlers.py:93-105 | the reply shows all six stored fields; context and ledger are read only |
| Handlers.CalculateDailyWater | handlers.py:109-137 | the ledger changes as `CalculateDailyWaterStep` says; the context is not modified |
| Handlers.CommandLogWater | handlers.py:141-147 | the context changes as `LogWaterCommandStep` says |
| Handlers.ProcessLogWater | handlers.py:150-175 | the context and ledger change as `LogWaterStep` says |
| Handlers.HandleMessage | handlers.py:35-151 | one message changes context and ledger exactly as `Dialogue.Step` says, with routing in registration order |

## Left out

- Transport and UI: `message.answer`, reply keyboards and the exact Russian reply texts. Only the kind of reply is modelled (`Dialogue.Reply`).
- The geocoding and weather HTTP calls (handlers.py:120-130) are network I/O. Each message carries the temperature they would return, or `None` when one of them raises (for example, `result[0]` on an empty geocoding result).
- config.py: environment variables and startup exceptions. This is process configuration.
- The process-wide `water_logger` singleton (handlers.py:32), concurrency, and async execution. One sequential conversation is modelled. The ledger is passed to every handler.
- Food logging, the calorie norm and exercise credit: they are not in this source.
- Numbers.ParseInt: accepts ASCII digits only. Python's `int` also accepts other Unicode decimal digits, and `_` between digits.
- DialogueFacts.CalculateStoresNormOnlyIfAllParse: the activity level is converted with the integer rule. The source uses `float()`, which also accepts decimals, exponents, `inf` and `nan`. The norm is therefore an integer here, and floating-point rounding is not modelled.
- Dialogue.AllNumeric: the same `float()` gap. An activity level such as "45.5" fails to convert here, while the source converts it.
- Dialogue.CalculateDailyWaterStep: the same `float()` gap. With a decimal activity level no norm is stored here, while the source stores a float norm.
- Handlers.CalculateDailyWater: the same `float()` gap, since it converts the activity level with `ParseInt`.
- WaterNorm.HeatBonusIsStrictStep: the temperature is a real number, so float NaN (which fails `> 25`) and rounding are not modelled.
- WaterNorm.DailyWaterNorm: the temperature is compared with 25 as the weather service reports it. The request (handlers.py:128) passes no `units` parameter, so the number is in the service's default unit, which for OpenWeatherMap is Kelvin rather than degrees Celsius. The model does not fix a unit.
- Commands.IsCommand: the mention form is not modelled. aiogram accepts `/name@botname` when the mention matches the bot's username, and `/name@`, whose empty mention counts as none. Such texts match no command here, because the bot's username is not part of the model. Messages without text, and commands in captions, are not modelled either.
- Exception reporting: aiogram's logging of an exception raised in a handler is not modelled. Such a handler yields `Failed`.
