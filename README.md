# Home energy management core, modelled in Dafny

This project models the decision-making core of a home energy management
system written in C++. The system collects hourly observations of outdoor
temperature, solar production and energy price. It trains an hour-of-day
forecaster on them and turns the 24-hour forecast into a day-ahead schedule
for electric-vehicle chargers, heaters, air conditioners and deferrable
loads. It switches deferrable loads off while energy is expensive and back on
afterwards, and it retrains the forecaster periodically. Around that core sit
the plumbing pieces that the model also covers: the configuration and its
JSON text, the Home Assistant MQTT bridge and REST client parsers, and the
request parsers and response builders of the two embedded web servers.

Each core component is one Dafny module in one file. `Appliances` covers the
appliance base class and its five kind classes together. `Text`, `CArith`,
`JsonText`, `Braces` and `HttpText` correspond to no single source file: they
hold the C++ library behaviour and the helpers several components share.

- `SampleStore` (sample_store.dfy): the historical data collector: retention cap, recent data, CSV save and load.
- `Forecaster` (forecaster.dfy): the predictor: per-hour means and the 24-hour forecast.
- `DayAhead` (day_ahead.dfy): the day-ahead schedule and its optimizer.
- `Deferrable` (deferrable.dfy): the deferrable-load controller and busy-hour analysis.
- `Training` (training.dfy): the retraining scheduler and one step of its loop.
- `LiveOptimizer` (live_optimizer.dfy): the rule-based live optimizer; its charger pass applies the charger rule as written, and the corrected rule of the finding below is kept beside it as a reference.
- `Appliances` (appliances.dfy): the appliance base and its five kinds.
- `Events` (event.dfy): events carrying named readings.
- `Configuration` (config.dfy): the configuration lists, defaults and JSON list reading.
- `JsonText` (json_text.dfy): JSON string escaping and unescaping.
- `HAIntegration` (ha_integration.dfy): the MQTT bridge: topics, payloads, state parsing, delivery.
- `HARest` (ha_rest.dfy): the REST client: value extraction, object splitting, requests.
- `Braces` (braces.dfy): the brace counting both Home Assistant parsers use.
- `ConfigWeb` (config_web.dfy): the configuration web server.
- `SystemWeb` (system_web.dfy): the monitoring web service.
- `HttpText` (http.dfy): the HTTP text both servers share.
- `Text` (text.dfy): the C++ string library behaviour the parsers rely on.
- `CArith` (c_arith.dfy): truncating division, remainder and double-to-int conversion, 32-bit `int`.

Objects the source updates in place are classes with `modifies` clauses:
the collector, the predictor, the schedule and the optimizers, the
controllers, the configuration, the servers and the bridges. Each
state-changing method states its new state in terms of pure
specification functions (the fields it leaves unspecified are named under
"Left out"), and the properties the system promises are
proved about those functions as lemmas. Prices, temperatures and powers
are `real`. Wall-clock time, the day of the week, file contents, HTTP
responses and the MQTT connection state are explicit parameters or fields.

## Model

| member | source | states |
|---|---|---|
| CArith.CDiv | src/MLTrainingScheduler.cpp:83 | a count of whole hours truncates toward zero: for non-negative operands it is the mathematical quotient, and otherwise it lies within one divisor of the dividend |
| CArith.CRem | src/MLPredictor.cpp:37 | the C++ remainder takes the sign of the dividend: for a non-negative dividend it is the ordinary remainder in 0..b-1, for a negative one it lies in -(b-1)..0 |
| CArith.TruncateReal | features-copilot-copilot-develop-home-automation-system/include/EnergyOptimizer.h:80 | converting a double to int truncates toward zero: the result is the integer within one unit of the value on the side of zero |
| Events.Event.constructor | src/Event.cpp:3-4 | a new event has the given type and source, timestamp 0 and no data |
| Events.Event.AddData | src/Event.cpp:6-8 | the key is bound to the value (a later add overwrites), reading it back gives the value, every other key keeps its presence and its value, type, source and timestamp are unchanged |
| Events.Event.GetData | src/Event.cpp:10-13 | the stored value for a present key, the caller's default for an absent one |
| Appliances.TurnedOn | src/EVCharger.cpp:8-13 | switching on: a disabled appliance is unchanged; an enabled one is on, a charger then charges at its maximum, a curtain is fully open (position 100); the settings are kept and a consistent state stays consistent |
| Appliances.TurnedOff | src/EVCharger.cpp:15-18 | switching off always turns an appliance off and a charger to charge power 0, except that a disabled curtain is left as it is (its turnOff is close, which is gated by enabled); an enabled curtain goes to position 0; consistency is kept |
| Appliances.TurnedOnTwice | src/Light.cpp:8-12 | switching on twice is switching on once |
| Appliances.TurnedOffTwice | src/Light.cpp:14-16 | switching off twice is switching off once |
| Appliances.WithChargePower | src/EVCharger.cpp:24-29 | a power in 0..max becomes both the charge power and the power consumption; any other value changes nothing; on/off and the maximum are kept, and so is consistency |
| Appliances.WithPosition | src/Curtain.cpp:36-41 | an enabled curtain given a position in 0..100 takes it and is open exactly when it is above 50; otherwise nothing changes; a consistent curtain stays consistent |
| Appliances.WithBrightness | src/Light.cpp:22-26 | a level in 0..100 becomes the brightness, any other level changes nothing, on/off is never affected, and a consistent state stays consistent (brightness within 0..100) |
| Appliances.Appliance.State | src/Appliance.cpp:6-24 | the snapshot reports the appliance's own kind, maximum charge power and on/off flag |
| Appliances.Appliance.EVCharger | src/EVCharger.cpp:3-6 | a new charger is enabled, not deferrable, off, charges at 0 and reports its maximum power as its consumption |
| Appliances.Appliance.Curtain | src/Curtain.cpp:3-6 | a new curtain is enabled, open at position 100, and draws 0.01 |
| Appliances.Appliance.Light | src/Light.cpp:3-6 | a new light is enabled, off, at brightness 100, with the given power |
| Appliances.Appliance.Heater | src/Heater.cpp:3-6 | a new heater is enabled, off, with target 22.0 and the given power |
| Appliances.Appliance.AirConditioner | src/AirConditioner.cpp:3-6 | a new air conditioner is enabled, off, with target 24.0 and the given power |
| Appliances.Appliance.SetEnabled | src/Appliance.cpp:18-20 | only the enabled flag changes, to the given value |
| Appliances.Appliance.SetDeferrable | src/Appliance.cpp:30-32 | only the deferrable flag changes, to the given value |
| Appliances.Appliance.TurnOn | src/Heater.cpp:8-12 | the new state is the switched-on state of the old one (gated by enabled; curtains open) |
| Appliances.Appliance.TurnOff | src/AirConditioner.cpp:14-16 | the new state is the switched-off state of the old one (ungated except for curtains, which close) |
| Appliances.Appliance.Open | src/Curtain.cpp:22-27 | opening is the curtain's switch-on: enabled curtains become open at position 100 |
| Appliances.Appliance.Close | src/Curtain.cpp:29-34 | closing is the curtain's switch-off: enabled curtains become closed at position 0 |
| Appliances.Appliance.SetChargePower | src/EVCharger.cpp:24-29 | the new state is the old one with the charge-power rule applied |
| Appliances.Appliance.SetPosition | src/Curtain.cpp:36-41 | the new state is the old one with the position rule applied |
| Appliances.Appliance.SetBrightness | src/Light.cpp:22-26 | the new state is the old one with the brightness rule applied |
| Appliances.Appliance.SetTargetTemperature | src/Heater.cpp:22-24 | only the target temperature changes, to the given value |
| Forecaster.SumBounds | src/MLPredictor.cpp:79-80 | a sum of n values each within [lo, hi] lies within [n*lo, n*hi] |
| Forecaster.MeanBounds | src/MLPredictor.cpp:77-82 | the mean of a non-empty sequence lies between any lower and upper bound of its values |
| Forecaster.Average | src/MLPredictor.cpp:77-82 | the average of an empty sequence is 0; otherwise it times the length is the sum, i.e. it is the arithmetic mean |
| Forecaster.Column | src/MLPredictor.cpp:13-19 | the collected values are at most as many as the points, and each is the field of some point observed at that hour |
| Forecaster.ColumnLength | src/MLPredictor.cpp:13-19 | the cost, solar and temperature columns of an hour have the same length, so one is empty exactly when the others are |
| Forecaster.CollectHour | src/MLPredictor.cpp:11-19 | the three lists pushed for an hour are that hour's costs, solar values and temperatures in data order |
| Forecaster.ObservedMeansPresent | src/MLPredictor.cpp:21 | an hour's cost list is non-empty exactly when some point was observed at that hour |
| Forecaster.RetrainHours | src/MLPredictor.cpp:10-26 | after the bucket loop up to n, each refreshed hour holds the means of its observations, and every other hour keeps its presence and its old statistics |
| Forecaster.RetrainKeepsUnobserved | src/MLPredictor.cpp:21-25 | training never clears a bucket: an hour absent from the new data keeps its previous means |
| Forecaster.ForecastHoursPermute | src/MLPredictor.cpp:36-37 | for a current hour in 0..23, the 24 forecast hours are pairwise distinct and every hour 0..23 is reached at some step, so they are a permutation of the day |
| Forecaster.MLPredictor.constructor | src/MLPredictor.cpp:3 | a new predictor is untrained, with no buckets and no stored data |
| Forecaster.MLPredictor.Train | src/MLPredictor.cpp:5-27 | training stores the data, marks the predictor trained (also on empty data) and updates exactly the buckets of the observed hours to their means, keeping all others |
| Forecaster.MLPredictor.IsTrained | src/MLPredictor.cpp:73-75 | exactly the trained flag, which the constructor clears and train sets |
| Forecaster.MLPredictor.GenerateDefaultForecasts | src/MLPredictor.cpp:84-114 | 24 forecasts, step i for hour (currentHour+i)%24, confidence 0.6, cost 0.15+0.03*(hour%4) between 8 and 20 and 0.08 otherwise, no solar outside 6..18, and the sine-shaped solar and temperature values |
| Forecaster.MLPredictor.PredictNext24Hours | src/MLPredictor.cpp:29-71 | 24 forecasts with rotated hours; untrained gives the default forecast; trained with a bucket gives the bucket means with cost scaled by 1.1 on weekdays 1..5 (0.9 otherwise) of the day, which moves to the next day past midnight, confidence 0.75; trained without a bucket gives 0.12, 3.0 solar in 6..18, 20.0 degrees, confidence 0.5 |
| SampleStore.Disk.constructor | src/HistoricalDataCollector.cpp:92-157 | the files and the unwritable names are the given ones (the file system as a parameter) |
| SampleStore.Retained | src/HistoricalDataCollector.cpp:70-79 | the cap keeps the last min(n, maxDaysToRetain*24) points in insertion order, and everything when the cap is negative (its size_t conversion is huge) |
| SampleStore.RetainedAppend | src/HistoricalDataCollector.cpp:18-24 | capping after each insertion gives the same buffer as capping once after all insertions: the survivors are the most recent points |
| SampleStore.RetainedDrop | src/HistoricalDataCollector.cpp:73-78 | dropping points from the front down to no fewer than the cap does not change what the cap keeps |
| SampleStore.RetainedTwice | src/HistoricalDataCollector.cpp:70-79 | applying the cap again changes nothing |
| SampleStore.InsertAllKeepsMostRecent | src/HistoricalDataCollector.cpp:18-24 | inserting points one by one into a capped buffer leaves exactly the most recent points of the whole history, in order |
| SampleStore.CsvFile | src/HistoricalDataCollector.cpp:101-111 | a saved file is the header line followed by one row per point, in order |
| SampleStore.Rows | src/HistoricalDataCollector.cpp:135-147 | the rows read are never more than the lines |
| SampleStore.CsvRoundTrip | src/HistoricalDataCollector.cpp:101-147 | loading the lines a save writes gives back exactly the saved points |
| SampleStore.RowsOfRows | src/HistoricalDataCollector.cpp:135-147 | lines that are all rows read back as their points |
| SampleStore.HistoricalDataCollector.constructor | src/HistoricalDataCollector.cpp:5-16 | with persistence on and the file present, the store starts with the file's points, capped; otherwise empty; the cap holds |
| SampleStore.HistoricalDataCollector.FileName | src/HistoricalDataCollector.cpp:93 | the file a save or load works on: the given name, or the configured persistence file when the name is empty |
| SampleStore.HistoricalDataCollector.AddDataPoint | src/HistoricalDataCollector.cpp:18-30 | the buffer becomes the capped old buffer plus the point; the configured file is rewritten exactly when persistence is on, the new size is a multiple of 24 and the file can be opened; the cap holds |
| SampleStore.HistoricalDataCollector.RecordCurrentState | src/HistoricalDataCollector.cpp:32-43 | one point is added whose hour and day are the supplied clock reading and whose other fields are the arguments, with the retention cap applied; the configured file is rewritten with the new buffer exactly when persistence is on, the new size is a multiple of 24 and the file can be written, and is otherwise untouched |
| SampleStore.HistoricalDataCollector.GetAllData | src/HistoricalDataCollector.cpp:50-52 | every stored point, oldest first, without change |
| SampleStore.HistoricalDataCollector.GetRecentData | src/HistoricalDataCollector.cpp:54-64 | the last min(numDays*24, size) points in order (empty when that is 0, everything when numDays*24 is negative), i.e. what a cap of numDays would keep |
| SampleStore.HistoricalDataCollector.GetDataPointCount | src/HistoricalDataCollector.cpp:66-68 | the number of stored points |
| SampleStore.HistoricalDataCollector.CleanupOldData | src/HistoricalDataCollector.cpp:70-79 | exactly size-cap points are removed from the front when over the cap, nothing otherwise |
| SampleStore.HistoricalDataCollector.RemoveOldDataPoints | src/HistoricalDataCollector.cpp:81-90 | the same effect as cleanupOldData, returning the number removed, which are the oldest points |
| SampleStore.HistoricalDataCollector.SaveToFile | src/HistoricalDataCollector.cpp:92-117 | the file (the configured one for an empty name) is replaced by header plus rows exactly when it can be opened, and the result says so; other files are untouched |
| SampleStore.HistoricalDataCollector.LoadFromFile | src/HistoricalDataCollector.cpp:119-157 | an absent file gives false and leaves the buffer alone; otherwise the buffer becomes the file's well-formed rows after the header, capped, and the result is true |
| SampleStore.SaveLoadRoundTrip | src/HistoricalDataCollector.cpp:92-157 | loading what was saved from a capped buffer restores that buffer |
| Deferrable.SwitchOffRuleIdempotent | src/DeferrableLoadController.cpp:137-144 | switching a load off a second time (a second high-price call, or a load registered twice) changes nothing more |
| Deferrable.ResumeRuleIdempotent | src/DeferrableLoadController.cpp:150-156 | resuming a second time with the same remembered flag changes nothing more; together with resume never changing a flag, two low-price calls in a row leave on/off as the first left it |
| Deferrable.HoursWhereSelects | src/DeferrableLoadController.cpp:51-67 | the hours the loop pushes lie in 0..n-1, ascend strictly and are exactly the hours meeting the condition |
| Deferrable.ClassifiedHours | src/DeferrableLoadController.cpp:51-67 | the busy (optimal) hours are in 0..n-1, ascending, and are exactly the observed hours whose mean price is above (not above) the busy threshold |
| Deferrable.ClassifiedStep | src/DeferrableLoadController.cpp:52-66 | one round of the hour loop appends the hour to the group it belongs to, or to neither when it has no observations |
| Deferrable.AnalysisPartitionsHours | src/DeferrableLoadController.cpp:51-67 | an hour 0..23 is classified exactly when it has observations, and never as both busy and optimal |
| Deferrable.HourRecommendations | src/DeferrableLoadController.cpp:108-122 | one recommendation per load in registration order, naming that load and the hour's price, all "switch off" in a busy hour and all "can operate" otherwise |
| Deferrable.BusyForecastHours | src/DeferrableLoadController.cpp:167-179 | an hour is busy exactly when some forecast for it is priced above the threshold |
| Deferrable.Recommendations | src/DeferrableLoadController.cpp:104-127 | with no loads the map is empty; every mapped hour holds one recommendation per load |
| Deferrable.RecommendationsShape | src/DeferrableLoadController.cpp:104-127 | with loads, exactly the forecast hours are mapped; each entry names the j-th load and is "switch off" exactly when the hour is busy |
| Deferrable.BusyRecommendationsFollowPrice | src/DeferrableLoadController.cpp:104-127 | a recommendation is "switch off" exactly when some forecast for its hour is priced above the busy threshold |
| Deferrable.RecommendationsStep | src/DeferrableLoadController.cpp:104-127 | one forecast round stores that hour's recommendations (overwriting an earlier forecast of the same hour) when there are any |
| Deferrable.DeferrableLoadController.constructor | src/DeferrableLoadController.cpp:5-9 | no loads, nothing remembered, price threshold 0.15 and busy-hour threshold 0.13 |
| Deferrable.DeferrableLoadController.SetPriceThreshold | src/DeferrableLoadController.cpp:11-13 | only the price threshold changes |
| Deferrable.DeferrableLoadController.SetBusyHourThreshold | src/DeferrableLoadController.cpp:15-17 | only the busy-hour threshold changes |
| Deferrable.DeferrableLoadController.AddDeferrableLoad | src/DeferrableLoadController.cpp:19-24 | a present, deferrable appliance is appended; anything else leaves the list unchanged; nothing else changes |
| Deferrable.DeferrableLoadController.GetDeferrableLoads | src/DeferrableLoadController.cpp:159-161 | the registered loads in registration order |
| Deferrable.DeferrableLoadController.IsHighPriceHour | src/DeferrableLoadController.cpp:163-165 | exactly `price > priceThreshold` (strict, so the threshold itself is not high) |
| Deferrable.DeferrableLoadController.SwitchOffAllDeferrableLoads | src/DeferrableLoadController.cpp:134-145 | every load follows the switch-off rule: a load that was on is turned off (a disabled curtain ignores this and stays open), a load that was off is untouched; the ids of the loads that were on are remembered as true, and no other flag changes |
| Deferrable.DeferrableLoadController.SwitchOffAt | src/DeferrableLoadController.cpp:137-144 | one round of the switch-off loop extends the account of visited loads and remembered flags by one load |
| Deferrable.DeferrableLoadController.SwitchOffOne | src/DeferrableLoadController.cpp:138-143 | a load that is on is remembered as true and turned off; a load that is off is left alone |
| Deferrable.DeferrableLoadController.ResumeDeferrableLoads | src/DeferrableLoadController.cpp:147-157 | exactly the loads remembered as true that are off are turned on (a load never switched off by the controller is never turned on), looking up a new id inserts a false flag, and no flag is ever reset |
| Deferrable.DeferrableLoadController.ResumeAt | src/DeferrableLoadController.cpp:150-156 | one round of the resume loop extends the account of visited loads and flags by one load |
| Deferrable.DeferrableLoadController.ResumeOne | src/DeferrableLoadController.cpp:152-155 | the lookup inserts false for an unknown id, and the load is turned on exactly when its flag is true and it is off |
| Deferrable.DeferrableLoadController.ControlLoadsByPrice | src/DeferrableLoadController.cpp:79-89 | above the price threshold every load follows the switch-off rule and exactly the ids of loads that were on gain a true flag; at or below it every load follows the resume rule, every load id is remembered and no flag changes value |
| Deferrable.DeferrableLoadController.ControlLoadsByPriceTwice | src/DeferrableLoadController.cpp:79-89 | two control calls in a row with the same price end exactly as one call: the second changes no load state, no flag and no remembered id, in both branches |
| Deferrable.DeferrableLoadController.IdentifyBusyHours | src/DeferrableLoadController.cpp:167-179 | the hours of the forecasts priced above the busy threshold, in forecast order |
| Deferrable.DeferrableLoadController.GetDayAheadRecommendations | src/DeferrableLoadController.cpp:91-132 | the recommendations built from the predictor's forecast, its busy hours and the load names |
| Deferrable.DeferrableLoadController.AnalyzeBusyHours | src/DeferrableLoadController.cpp:26-77 | no data gives empty lists; otherwise the busy and optimal hours are the classified hours and each average is the mean of its group's hourly means (0 for an empty group) |
| Deferrable.AnalyzeHour | src/DeferrableLoadController.cpp:51-65 | one round of the hour loop: an hour with observations joins the busy group when its mean price is above the threshold and the optimal group otherwise, and its mean is added to that group's total and count; an hour without observations joins neither |
| Deferrable.LoadNames | src/DeferrableLoadController.cpp:111-120 | the names of the loads in registration order |
| Deferrable.OnAmongStep | src/DeferrableLoadController.cpp:137-144 | a load id is among those switched off in the first i+1 rounds exactly when it was among the first i or is the i-th load and that load was on |
| Deferrable.HourMeansAppend | src/DeferrableLoadController.cpp:54-66 | the hourly means of a group extended by one hour are the old means plus that hour's mean |
| Deferrable.GroupTotalAppend | src/DeferrableLoadController.cpp:54-66 | a group extended by one hour has that hour's mean added to its running total |
| Deferrable.GroupPricesByHour | src/DeferrableLoadController.cpp:39-43 | each hour present in the grouping holds exactly that hour's prices in data order, and an absent hour has no prices |
| Training.HoursBetween | src/MLTrainingScheduler.cpp:83 | the whole hours elapsed, truncated toward zero: for a forward interval, h hours of seconds fit and h+1 do not; a backward interval gives at most 0 |
| Training.DueMeansIntervalElapsed | src/MLTrainingScheduler.cpp:83-85 | the loop's test "whole hours since the last training reach the interval" holds exactly when interval*3600 seconds have elapsed |
| Training.MLTrainingScheduler.constructor | src/MLTrainingScheduler.cpp:3-16 | a new scheduler is inactive, has no callback and has its last training stamped at construction time |
| Training.MLTrainingScheduler.StartAutoTraining | src/MLTrainingScheduler.cpp:22-37 | the loop becomes active only when automatic retraining is configured; starting an active loop is a no-op; nothing else changes |
| Training.MLTrainingScheduler.StopAutoTraining | src/MLTrainingScheduler.cpp:39-51 | afterwards the loop is inactive, so repeated stops are harmless; nothing else changes |
| Training.MLTrainingScheduler.SetTrainingCallback | src/MLTrainingScheduler.cpp:73-75 | a callback is installed and nothing else changes |
| Training.MLTrainingScheduler.HasSufficientData | src/MLTrainingScheduler.cpp:58-60 | true exactly when the store holds at least the configured minimum (a negative minimum converts to a huge unsigned value and is never met) |
| Training.MLTrainingScheduler.TimeUntilNextTraining | src/MLTrainingScheduler.cpp:62-67 | the seconds from now to one interval after the last training (negative once past) |
| Training.MLTrainingScheduler.PerformTraining | src/MLTrainingScheduler.cpp:101-143 | with too little data: false, the callback gets (false, count), and the forecaster and training time are unchanged; otherwise the forecaster is trained on exactly the stored points, the time is stamped, the callback gets (true, size) and the result is true |
| Training.MLTrainingScheduler.TriggerRetraining | src/MLTrainingScheduler.cpp:53-56 | the same outcome as performTraining in every case |
| Training.MLTrainingScheduler.Tick | src/MLTrainingScheduler.cpp:80-92 | one loop iteration retrains exactly when the loop is active and a whole interval has elapsed since the last training; when that training lacks data it only reports the count, leaving the predictor and the training time untouched; otherwise nothing changes |
| Training.NotDueBeforeInterval | src/MLTrainingScheduler.cpp:10 | since construction stamps the time, the loop is not due before a whole interval has passed: no immediate retrain |
| LiveOptimizer.EVRuleAsWritten | features-copilot-copilot-develop-home-automation-system/include/EnergyOptimizer.h:101-124 | the charger rule as written: it only ever switches chargers; an on charger is stopped exactly when cost is above the high threshold and solar is below its present charge power, and otherwise an off, enabled charger is started exactly when cost is at most the low threshold or solar is at least its present charge power |
| LiveOptimizer.EVRulesAgreeAtFullPower | features-copilot-copilot-develop-home-automation-system/include/EnergyOptimizer.h:106-120 | the rule as written and the corrected rule agree on a charger that is charging at its rated power |
| LiveOptimizer.EVRuleRepeated | features-copilot-copilot-develop-home-automation-system/include/EnergyOptimizer.h:102-123 | the rule as written applied once per registration changes only chargers, only their on/off flag and charge power, and keeps a consistent state consistent |
| LiveOptimizer.RegistrationsCount | features-copilot-copilot-develop-home-automation-system/include/EnergyOptimizer.h:32-34 | an appliance's registration count is at most the number of registrations and is positive exactly when it is registered |
| LiveOptimizer.EVRuleAsWrittenOscillates | features-copilot-copilot-develop-home-automation-system/include/EnergyOptimizer.h:106-120 | as written, a charger stopped for high cost and weak sun is restarted at full power by the very next pass under the same conditions, because its charge power is then 0 |
| LiveOptimizer.EVRuleAsWrittenExample | features-copilot-copilot-develop-home-automation-system/include/EnergyOptimizer.h:106-120 | a 7.2 kW charger at cost 0.20 with no sun is switched off by one pass and on again by the next |
| LiveOptimizer.EVRule | features-copilot-copilot-develop-home-automation-system/include/EnergyOptimizer.h:101-124 | the corrected charger rule (solar compared with the rated power): an on charger is stopped exactly when cost is above the high threshold and solar is below its power; otherwise an off, enabled charger is started exactly when cost is at most the low threshold or solar covers its power; other appliances are untouched |
| LiveOptimizer.EVRuleIdempotent | features-copilot-copilot-develop-home-automation-system/include/EnergyOptimizer.h:101-124 | with the corrected rule a second pass under the same conditions changes nothing |
| LiveOptimizer.HeaterRule | features-copilot-copilot-develop-home-automation-system/include/EnergyOptimizer.h:127-148 | a heater is turned on exactly when it is off, enabled and the room is more than 2 degrees below target; otherwise an on heater is turned off exactly when the gap is below 0.5, or below 1.5 at high cost |
| LiveOptimizer.AirConditionerRule | features-copilot-copilot-develop-home-automation-system/include/EnergyOptimizer.h:150-168 | symmetrically, an air conditioner is turned on exactly when off, enabled and the room is more than 2 degrees above target, and an on one is turned off exactly when the gap is above -0.5, or above -1.5 at high cost |
| LiveOptimizer.TemperatureRule | features-copilot-copilot-develop-home-automation-system/include/EnergyOptimizer.h:126-170 | a heater follows the heater rule and everything else the air-conditioner rule (which leaves non-AC appliances alone) |
| LiveOptimizer.NeverHeatAndCool | features-copilot-copilot-develop-home-automation-system/include/EnergyOptimizer.h:133-153 | one pass never switches on both a heater and an air conditioner |
| LiveOptimizer.TemperatureRuleIdempotent | features-copilot-copilot-develop-home-automation-system/include/EnergyOptimizer.h:126-170 | a second temperature pass under the same readings changes nothing |
| LiveOptimizer.LightRule | features-copilot-copilot-develop-home-automation-system/include/EnergyOptimizer.h:172-185 | on/off never changes and brightness never rises; a light changes exactly when it is on, cost is high, solar is below 1 and brightness is above 70, and then it is set to 70 |
| LiveOptimizer.LightRuleIdempotent | features-copilot-copilot-develop-home-automation-system/include/EnergyOptimizer.h:172-185 | a second lighting pass changes nothing |
| LiveOptimizer.CurtainRule | features-copilot-copilot-develop-home-automation-system/include/EnergyOptimizer.h:187-208 | an enabled curtain is set to 20 when it is hot outside (more than 5 above indoors), the room is above target and it is above 20; otherwise to 80 when it is colder outside, solar exceeds 0.5 and it is below 80; nothing else changes, and consistency is kept |
| LiveOptimizer.CurtainRuleIdempotent | features-copilot-copilot-develop-home-automation-system/include/EnergyOptimizer.h:187-208 | a second curtain pass changes nothing |
| LiveOptimizer.CycleKeepsConsistent | features-copilot-copilot-develop-home-automation-system/include/EnergyOptimizer.h:50-71 | a full optimisation cycle, however often an appliance is registered, keeps every appliance state consistent (brightness and position in range, curtain open iff above 50, charge power within the rating) |
| LiveOptimizer.CycleOfPasses | features-copilot-copilot-develop-home-automation-system/include/EnergyOptimizer.h:50-71 | the four passes in the order the cycle calls them (chargers, temperature, lighting, curtains) make up one cycle |
| LiveOptimizer.IndoorLocation | features-copilot-copilot-develop-home-automation-system/include/EnergyOptimizer.h:80-81 | a location reading names the indoor sensor exactly when it lies strictly between -1 and 1, since the cast truncates |
| LiveOptimizer.ApplyEVRule | features-copilot-copilot-develop-home-automation-system/include/EnergyOptimizer.h:103-122 | one appliance ends in the state the charger rule as written gives (solar compared with the present charge power) |
| LiveOptimizer.ApplyTemperatureRule | features-copilot-copilot-develop-home-automation-system/include/EnergyOptimizer.h:130-168 | one appliance ends in the state the temperature rule gives |
| LiveOptimizer.ApplyLightRule | features-copilot-copilot-develop-home-automation-system/include/EnergyOptimizer.h:175-183 | one appliance ends in the state the light rule gives |
| LiveOptimizer.ApplyCurtainRule | features-copilot-copilot-develop-home-automation-system/include/EnergyOptimizer.h:190-206 | one appliance ends in the state the curtain rule gives |
| LiveOptimizer.EnergyOptimizer.CurrentConditions | features-copilot-copilot-develop-home-automation-system/include/EnergyOptimizer.h:213-220 | the readings and settings the rules see are the optimizer's fields |
| LiveOptimizer.EnergyOptimizer.constructor | features-copilot-copilot-develop-home-automation-system/include/EnergyOptimizer.h:18-30 | no appliances; cost 0, indoor 20, outdoor 15, solar 0, consumption 0, target 22, high 0.15, low 0.10 |
| LiveOptimizer.EnergyOptimizer.AddAppliance | features-copilot-copilot-develop-home-automation-system/include/EnergyOptimizer.h:32-34 | the appliance is appended and no reading changes |
| LiveOptimizer.EnergyOptimizer.SetTargetTemperature | features-copilot-copilot-develop-home-automation-system/include/EnergyOptimizer.h:36-38 | only the target changes |
| LiveOptimizer.EnergyOptimizer.OptimizeEVCharging | features-copilot-copilot-develop-home-automation-system/include/EnergyOptimizer.h:101-124 | every registered appliance ends in the state of the charger rule as written applied to its old state once per registration |
| LiveOptimizer.EnergyOptimizer.ChargerPassAt | features-copilot-copilot-develop-home-automation-system/include/EnergyOptimizer.h:102-123 | one round of the charger loop applies the rule as written once more to the appliance visited and leaves every other appliance alone |
| LiveOptimizer.EnergyOptimizer.OptimizeTemperatureControl | features-copilot-copilot-develop-home-automation-system/include/EnergyOptimizer.h:126-170 | every registered appliance ends in the temperature rule's state of its old state |
| LiveOptimizer.EnergyOptimizer.OptimizeLighting | features-copilot-copilot-develop-home-automation-system/include/EnergyOptimizer.h:172-185 | every registered appliance ends in the light rule's state of its old state |
| LiveOptimizer.EnergyOptimizer.OptimizeCurtains | features-copilot-copilot-develop-home-automation-system/include/EnergyOptimizer.h:187-208 | every registered appliance ends in the curtain rule's state of its old state |
| LiveOptimizer.EnergyOptimizer.OptimizeEnergyUsage | features-copilot-copilot-develop-home-automation-system/include/EnergyOptimizer.h:50-71 | every appliance ends in the state of the four passes in order: the charger rule as written once per registration, then the temperature, lighting and curtain rules |
| LiveOptimizer.EnergyOptimizer.UpdateEnergyCost | features-copilot-copilot-develop-home-automation-system/include/EnergyOptimizer.h:40-48 | the cost becomes the reported price, no other reading changes, and a full cycle (charger rule as written) runs under the new cost |
| LiveOptimizer.EnergyOptimizer.OnTemperatureChange | features-copilot-copilot-develop-home-automation-system/include/EnergyOptimizer.h:77-87 | a location truncating to 0 updates only the indoor temperature, any other only the outdoor one (missing data reads as 0); then a full cycle (charger rule as written) runs |
| LiveOptimizer.EnergyOptimizer.OnSolarProductionUpdate | features-copilot-copilot-develop-home-automation-system/include/EnergyOptimizer.h:89-93 | only the solar production changes, then a full cycle (charger rule as written) runs |
| LiveOptimizer.EnergyOptimizer.OnEnergyConsumptionUpdate | features-copilot-copilot-develop-home-automation-system/include/EnergyOptimizer.h:95-98 | only the consumption changes; no cycle runs |
| DayAhead.ActionsAtSelects | src/DayAheadOptimizer.cpp:15-23 | the actions of an hour are at most all actions, and an action is among them exactly when it is scheduled and is for that hour |
| DayAhead.ActionsAtAppend | src/DayAheadOptimizer.cpp:15-23 | the hour filter distributes over concatenation, so it preserves schedule order |
| DayAhead.ActionsAtNone | src/DayAheadOptimizer.cpp:15-23 | a list with no action for the hour yields nothing |
| DayAhead.ActionsAtAll | src/DayAheadOptimizer.cpp:15-23 | a list whose actions are all for the hour yields itself |
| DayAhead.DayAheadSchedule.constructor | src/DayAheadOptimizer.cpp:55-57 | a new schedule has no actions and zero estimated cost and consumption |
| DayAhead.DayAheadSchedule.AddAction | src/DayAheadOptimizer.cpp:4-13 | exactly one action with the given fields is appended at the end; the estimates are untouched |
| DayAhead.DayAheadSchedule.GetActionsForHour | src/DayAheadOptimizer.cpp:15-23 | the order-preserving filter of the actions for that hour: an action is returned exactly when it is scheduled for the hour |
| DayAhead.Scores | src/DayAheadOptimizer.cpp:102-111 | one score per forecast, in forecast order, holding its hour and -cost + 0.1 * solar |
| DayAhead.Insert | src/DayAheadOptimizer.cpp:114-115 | inserting into a ranking adds exactly one entry |
| DayAhead.InsertPermutes | src/DayAheadOptimizer.cpp:114-115 | inserting adds exactly the new entry to the multiset of entries |
| DayAhead.InsertBounded | src/DayAheadOptimizer.cpp:114-115 | inserting an entry scored below a bound into a ranking bounded by it keeps the ranking bounded |
| DayAhead.InsertSorted | src/DayAheadOptimizer.cpp:114-115 | inserting into a best-first ranking keeps it best first |
| DayAhead.ConsSorted | src/DayAheadOptimizer.cpp:114-115 | an entry scoring at least every entry of a best-first ranking can lead it |
| DayAhead.SortDesc | src/DayAheadOptimizer.cpp:114-115 | sorting keeps the number of entries |
| DayAhead.SortDescPermutes | src/DayAheadOptimizer.cpp:114-115 | the ranking is a permutation of the scores |
| DayAhead.SortDescSorted | src/DayAheadOptimizer.cpp:114-115 | the ranking is best first (non-increasing scores) |
| DayAhead.SelectedCount | src/DayAheadOptimizer.cpp:119 | the number of hours taken is max(0, min(needed, available)) |
| DayAhead.HoursOf | src/DayAheadOptimizer.cpp:119-121 | the hours of the ranked entries, in ranking order |
| DayAhead.BestHoursAreBest | src/DayAheadOptimizer.cpp:95-124 | exactly max(0, min(N, forecasts)) hours are chosen, in ranking order, from a permutation of the scores, and every chosen entry scores at least as well as every entry left out |
| DayAhead.BestHoursAreForecastHours | src/DayAheadOptimizer.cpp:103-121 | every chosen hour is the hour of some forecast |
| DayAhead.DeferrableActionsPerLoad | src/DayAheadOptimizer.cpp:134-147 | one action per deferrable load, in registration order, for the hour with value 0: "off" exactly when cost is above the high threshold and "on" otherwise |
| DayAhead.Units | src/DayAheadOptimizer.cpp:150-196 | one unit per registered appliance with its id, kind, maximum charge power and power consumption |
| DayAhead.Chargers | src/DayAheadOptimizer.cpp:150-152 | the chargers are registered appliances of the charger kind |
| DayAhead.ChargerActionsPerCharger | src/DayAheadOptimizer.cpp:149-170 | one action per charger in registration order: "charge" at its maximum power in a selected hour, "defer" with value 0 otherwise |
| DayAhead.ThermalActionsByPrice | src/DayAheadOptimizer.cpp:172-197 | below the low threshold every thermal action is a preheat "on" at target + 1; above the high threshold (and not below the low one) every action is "minimize" with value 0; in between there are none |
| DayAhead.PreheatPerHeater | src/DayAheadOptimizer.cpp:174-183 | below the low threshold there is exactly one preheat action per heater, in registration order |
| DayAhead.HourActionsOrdered | src/DayAheadOptimizer.cpp:126-198 | all of an hour's actions carry that hour and come in the fixed order deferrable loads, then chargers, then thermal actions; there is at least one per deferrable load and charger |
| DayAhead.StagesConcat | src/DayAheadOptimizer.cpp:133-197 | concatenating deferrable, charger and thermal blocks keeps the stage order |
| DayAhead.DeferrableStage | src/DayAheadOptimizer.cpp:134-147 | deferrable-load actions belong to the first stage |
| DayAhead.ChargerStage | src/DayAheadOptimizer.cpp:149-170 | charger actions belong to the second stage |
| DayAhead.ThermalStage | src/DayAheadOptimizer.cpp:172-197 | thermal actions belong to the third stage |
| DayAhead.CostIsPriceTimesPower | src/DayAheadOptimizer.cpp:163-164 | the cost added for charging (and for preheating) is the hour's price times the power added to the consumption |
| DayAhead.HourCostIsPriceTimesEnergy | src/DayAheadOptimizer.cpp:163-181 | an hour's estimated cost is its price times its estimated consumption |
| DayAhead.HourStages | src/DayAheadOptimizer.cpp:126-198 | the deferrable, charger and thermal stages, one after the other, append exactly the hour's actions and add the hour's energy and cost |
| DayAhead.ChargingEnergyIsChargeValues | src/DayAheadOptimizer.cpp:161-167 | the consumption added for charging equals the sum of the "charge" actions' values in a selected hour, and nothing is added otherwise |
| DayAhead.EstimatesNonNegative | src/DayAheadOptimizer.cpp:56-57 | with non-negative powers and prices, both estimates start at 0 and stay non-negative |
| DayAhead.PowersNonNegative | src/DayAheadOptimizer.cpp:163-181 | with non-negative powers, the charging and heating powers are non-negative |
| DayAhead.ChargerStep | src/DayAheadOptimizer.cpp:150-170 | one round of the charger loop appends one action exactly for a charger and adds its power and cost |
| DayAhead.ThermalStep | src/DayAheadOptimizer.cpp:175-196 | one round of a thermal loop appends the appliance's thermal action and adds its heating power and cost |
| DayAhead.DeferrableStep | src/DayAheadOptimizer.cpp:136-146 | one round of the deferrable loop appends that load's "off" or "on" action |
| DayAhead.ScheduleActionsAtHour | src/DayAheadOptimizer.cpp:63-65 | for forecasts with distinct hours, the schedule's actions for a forecast hour are exactly the ones optimizeHour produced for it |
| DayAhead.ScheduleHoursBelow | src/DayAheadOptimizer.cpp:63-65 | the schedule has no action for an hour that no forecast covers |
| Deferrable.LoadIds | src/DayAheadOptimizer.cpp:135-138 | the ids of the deferrable loads in registration order |
| DayAhead.DayAheadOptimizer.constructor | src/DayAheadOptimizer.cpp:25-31 | no appliances, no controller, target 22.0, high 0.15, low 0.10, 4 charging hours |
| DayAhead.DayAheadOptimizer.AddAppliance | src/DayAheadOptimizer.cpp:33-35 | the appliance is appended and no setting changes |
| DayAhead.DayAheadOptimizer.SetTargetTemperature | src/DayAheadOptimizer.cpp:37-39 | only the target temperature changes |
| DayAhead.DayAheadOptimizer.SetEVChargingHoursNeeded | src/DayAheadOptimizer.cpp:41-43 | only the number of charging hours changes |
| DayAhead.DayAheadOptimizer.SetDeferrableLoadController | src/DayAheadOptimizer.cpp:45-47 | only the controller changes |
| DayAhead.DayAheadOptimizer.FindBestEVChargingHours | src/DayAheadOptimizer.cpp:95-124 | the chosen hours are the best-ranked ones, max(0, min(N, forecasts)) of them |
| DayAhead.DayAheadOptimizer.OptimizeHour | src/DayAheadOptimizer.cpp:126-198 | the hour's actions are appended in stage order, and the estimates grow by the hour's charging and preheating consumption and its price times that |
| DayAhead.DayAheadOptimizer.ScheduleDeferrableLoads | src/DayAheadOptimizer.cpp:134-147 | the deferrable-load actions of the hour are appended (none without a controller) and the estimates are untouched |
| DayAhead.DayAheadOptimizer.ScheduleChargers | src/DayAheadOptimizer.cpp:149-170 | the charger actions are appended and, in a selected hour only, the charging power and its cost are added |
| DayAhead.DayAheadOptimizer.ChargerAt | src/DayAheadOptimizer.cpp:151-169 | one round of the charger loop extends the actions and estimates over the first i appliances to the first i + 1 |
| DayAhead.DayAheadOptimizer.ScheduleCharger | src/DayAheadOptimizer.cpp:151-169 | a charger gets its one action (and, when selected, its power and cost); any other appliance adds nothing |
| DayAhead.DayAheadOptimizer.ScheduleThermal | src/DayAheadOptimizer.cpp:172-197 | the thermal actions are appended, and only below the low threshold the heating power and its cost are added |
| DayAhead.DayAheadOptimizer.SchedulePreheat | src/DayAheadOptimizer.cpp:174-183 | every heater gets a preheat action and its power and cost are added |
| DayAhead.DayAheadOptimizer.PreheatAt | src/DayAheadOptimizer.cpp:176-182 | one round of the preheating loop extends the actions and estimates over the first i appliances to the first i + 1 |
| DayAhead.DayAheadOptimizer.PreheatOne | src/DayAheadOptimizer.cpp:176-182 | a heater gets one preheat action and adds its power and cost; any other appliance adds nothing |
| DayAhead.DayAheadOptimizer.ScheduleMinimize | src/DayAheadOptimizer.cpp:184-196 | every heater and air conditioner gets "minimize" and the estimates are untouched |
| DayAhead.DayAheadOptimizer.GenerateSchedule | src/DayAheadOptimizer.cpp:49-72 | a new schedule holding the actions of every forecast hour in forecast order, with the estimates summed from 0 over all hours |
| DayAhead.DayAheadOptimizer.OptimizeHours | src/DayAheadOptimizer.cpp:63-65 | the loop appends every hour's actions in forecast order and adds every hour's estimates |
| DayAhead.GeneratedHourLookup | src/DayAheadOptimizer.cpp:49-72 | since the 24 forecast hours are distinct, looking up an hour in the generated schedule gives exactly the actions optimizeHour produced for it |
| Configuration.FirstNamed | src/Config.cpp:51-58 | the index of the first appliance with that name, and none exactly when no appliance has it |
| Configuration.WithoutName | src/Config.cpp:43-49 | the appliances kept are exactly those whose name differs, each as often as before, and a list without the name is kept whole |
| Configuration.WithoutNameAppend | src/Config.cpp:43-49 | removing from a concatenation removes from each part, so the kept appliances stay in their original order |
| Configuration.WithoutValue | src/Config.cpp:143-148 | the sensors kept are exactly those that differ from the removed one, each as often as before, and a list without it is kept whole |
| Configuration.WithoutValueAppend | src/Config.cpp:143-148 | removing from a concatenation removes from each part, so the kept sensors stay in their original order |
| Configuration.WithoutNameUnique | src/Config.cpp:43-49 | removing by name keeps a list with unique names unique |
| Configuration.WithoutNameIdempotent | src/Config.cpp:43-49 | removing the same name twice is the same as removing it once |
| Configuration.DeferrableNames | src/Config.cpp:83-91 | a name is listed exactly when some deferrable appliance carries it; there are at most as many names as appliances |
| Configuration.AllDeferrable | src/Config.cpp:76-81 | one deferrable entry per name, in order |
| Configuration.DeferrableNamesRoundTrip | src/Config.cpp:76-91 | reading back the deferrable names after setting them gives the same names |
| Configuration.ArrayContent | src/Config.cpp:313-316 | the array text found is shorter than the document |
| Configuration.ObjectEntry | src/Config.cpp:324-351 | an object contributes at most one appliance |
| Configuration.ObjectTextsStep | src/Config.cpp:320-324 | one round of the object scan yields the text between '{' and the next '}' and resumes after it |
| Configuration.EntriesSnoc | src/Config.cpp:320-354 | decoding one more object appends that object's entry after the earlier ones |
| Configuration.UnescapeAll | src/Config.cpp:371-393 | every quoted item is unescaped, in order |
| Configuration.ListsResetWithoutKeys | src/Config.cpp:310-393 | a document without "appliances", "deferrableLoads" and "sensors" keys empties both lists |
| Configuration.LegacyLoadsAreDeferrable | src/Config.cpp:358-378 | when the "appliances" key is absent, every appliance read is deferrable |
| Configuration.QuotedItemsCons | src/Config.cpp:367-372 | one round of the quoted-item scan yields the text between a pair of quotes and resumes after the closing one |
| Configuration.QuotedItemsStep | src/Config.cpp:367-372 | the same round with the item unescaped |
| Configuration.UnescapeAllCons | src/Config.cpp:371-393 | unescaping a list distributes over its first item |
| Configuration.QuotedItemsUnquoted | src/Config.cpp:367-372 | no item read between quotes contains a quote |
| Configuration.QuotedItemsNil | src/Config.cpp:367-375 | the scan yields nothing once no opening quote, or no closing quote for it, is left |
| Configuration.EntriesNamed | src/Config.cpp:327-351 | every appliance read from objects carries the unescaped, non-empty raw name of one of the objects |
| Configuration.Config.constructor | src/Config.cpp:7-13 | MQTT on at localhost:1883, web interface on at port 8080, both lists empty |
| Configuration.Config.SetApplianceCount | src/Config.cpp:16-19 | the list is resized to max(count, 0), keeping the leading entries and padding with blank ones; nothing else changes |
| Configuration.Config.GetApplianceCount | src/Config.cpp:21-23 | the number of appliances |
| Configuration.Config.SetAppliances | src/Config.cpp:25-27 | the list is replaced and nothing else changes |
| Configuration.Config.AddAppliance | src/Config.cpp:33-41 | a present name leaves the list as it was, an absent one is appended; unique names stay unique and the name is present afterwards |
| Configuration.Config.RemoveAppliance | src/Config.cpp:43-49 | every entry with the name is removed, the rest keep their order, and the name is gone |
| Configuration.Config.SetApplianceDeferrable | src/Config.cpp:51-58 | only the first entry with the name has its flag changed; without such an entry nothing changes |
| Configuration.Config.GetDeferrableLoadCount | src/Config.cpp:65-74 | the number of deferrable appliances, which is the number of deferrable names |
| Configuration.Config.GetDeferrableLoadNames | src/Config.cpp:83-91 | the names of the deferrable appliances, in list order |
| Configuration.Config.SetDeferrableLoadNames | src/Config.cpp:76-81 | the list becomes the names, all deferrable, and the deferrable names read back are exactly the names given |
| Configuration.Config.AddDeferrableLoad | src/Config.cpp:93-95 | as adding an appliance with the deferrable flag set |
| Configuration.Config.RemoveDeferrableLoad | src/Config.cpp:97-99 | as removing the appliance by name |
| Configuration.Config.AddSensorValue | src/Config.cpp:135-141 | a present sensor leaves the list as it was, an absent one is appended |
| Configuration.Config.RemoveSensorValue | src/Config.cpp:143-148 | every occurrence is removed and the rest keep their order |
| Configuration.Config.SetMqttEnabled | src/Config.cpp:102-104 | only the MQTT flag changes |
| Configuration.Config.SetMqttBrokerAddress | src/Config.cpp:110-112 | only the broker address changes |
| Configuration.Config.SetMqttPort | src/Config.cpp:118-120 | only the MQTT port changes |
| Configuration.Config.SetWebInterfaceEnabled | src/Config.cpp:151-153 | only the web-interface flag changes |
| Configuration.Config.SetWebInterfacePort | src/Config.cpp:159-161 | only the web-interface port changes |
| Configuration.Config.EscapeJsonString | src/Config.cpp:168-183 | the escaped text, which unescapes back to the input |
| Configuration.Config.UnescapeJsonString | src/Config.cpp:186-209 | the unescaped text, the inverse of escaping |
| Configuration.Config.ParseQuotedList | src/Config.cpp:365-376 | the unescaped texts between successive pairs of quotes |
| Configuration.Config.NextQuoted | src/Config.cpp:367-375 | one round of the quoted scan: the next item and a later position, or the end of the scan |
| Configuration.Config.ParseObject | src/Config.cpp:324-351 | the entry one object contributes: its unescaped name and flag, or none for an empty name |
| Configuration.Config.NextObject | src/Config.cpp:320-324 | one round of the object scan: the next object text and a later position, or the end of the scan |
| Configuration.Config.ScanObjects | src/Config.cpp:320-354 | the texts of all objects of the array, in order |
| Configuration.Config.DecodeObjects | src/Config.cpp:320-354 | the entries of the objects, in order |
| Configuration.Config.ParseApplianceObjects | src/Config.cpp:316-354 | the appliances the objects of the array describe |
| Configuration.Config.ReadAppliances | src/Config.cpp:310-378 | the appliance list the document configures, from "appliances" or else from the legacy "deferrableLoads" |
| Configuration.Config.ReadSensors | src/Config.cpp:381-400 | the sensor list the document configures |
| Configuration.Config.FromJson | src/Config.cpp:259-444 | both lists are replaced by what the document configures and the document is accepted |
| Configuration.AddDefaultLoads | src/Config.cpp:481-484 | the three default deferrable loads in order; only the appliance list changes |
| Configuration.AddDefaultSensors | src/Config.cpp:486-491 | the five default sensors in order; only the sensor list changes |
| Configuration.GetDefaultConfig | src/Config.cpp:478-503 | a new configuration with the default loads and sensors, MQTT on at localhost:1883 and the web interface on at port 8080 |
| JsonText.EscapeLetter | src/Config.cpp:171-178 | each special character is written as one of the letters " \ b f n r t after the backslash |
| JsonText.UnescapeLetter | src/Config.cpp:191-199 | a letter other than the seven escape letters stands for itself |
| JsonText.EscapeChar | src/Config.cpp:170-180 | a special character becomes a backslash and a letter that decodes back to it; any other character is copied |
| JsonText.EscapeAppend | src/Config.cpp:170-181 | escaping works character by character: it distributes over concatenation |
| JsonText.EscapeHasNoControl | src/Config.cpp:174-178 | escaped text contains no backspace, form feed, newline, carriage return or tab |
| JsonText.EscapeCharDecodes | src/Config.cpp:186-209 | unescaping reads the encoding of one character back as that character |
| JsonText.UnescapeEscapeFrom | src/Config.cpp:168-209 | unescaping any escaped text followed by more text gives the original text, then continues |
| JsonText.EscapeRoundTrip | src/Config.cpp:168-209 | unescaping an escaped string gives the string back |
| Text.IndexOf | src/Config.cpp:313-314 | std::string::find for a character: the first position at or after the start holding it, or none when no later position does |
| Text.Find | src/Config.cpp:265 | std::string::find for a text: the first position at or after the start where it occurs, or none |
| Text.IndexOfAt | src/Config.cpp:313-314 | a character found at a position with no earlier occurrence is what the search returns |
| Text.FindAt | src/Config.cpp:265 | a text found at a position with no earlier occurrence is what the search returns |
| Text.FindSingleIsIndexOf | src/Config.cpp:313 | searching for a one-character text is searching for the character |
| Text.Trim | src/ConfigWebServer.cpp:165-166 | erasing up to the first and after the last character outside the set leaves a text that neither starts nor ends with one of them |
| Text.TrimFront | src/ConfigWebServer.cpp:165 | a suffix of the text whose dropped prefix lies in the set and whose first character does not |
| Text.TrimBack | src/ConfigWebServer.cpp:166 | a prefix of the text whose dropped suffix lies in the set and whose last character does not |
| Text.TrimFrontKeeps | src/ConfigWebServer.cpp:165 | a text not starting with a set character is kept whole |
| Text.TrimFrontSkip | src/ConfigWebServer.cpp:165 | a leading set character is dropped |
| Text.TrimBackSkip | src/ConfigWebServer.cpp:166 | a trailing set character is dropped |
| Text.TrimBackKeeps | src/ConfigWebServer.cpp:166 | a text not ending with a set character is kept whole |
| Text.Lines | src/ConfigWebServer.cpp:143-173 | std::getline: the lines contain no newline and joining them with newlines gives back the input, up to a final newline |
| Text.LinesOfUnlines | src/ConfigWebServer.cpp:143-173 | splitting newline-joined lines gives the lines back |
| Text.Concat | src/ConfigWebServer.cpp:172-176 | the concatenation's length is the sum of the lines' lengths |
| Text.ConcatSnoc | src/ConfigWebServer.cpp:173-175 | appending a line to the stream appends its text |
| Text.WordsAreWords | src/ConfigWebServer.cpp:148-149 | reading with >> yields non-empty words without whitespace |
| Text.WordPrefix | src/ConfigWebServer.cpp:149 | one read with >> takes the longest whitespace-free prefix |
| Text.WordPrefixOf | src/ConfigWebServer.cpp:149 | a word followed by whitespace or the end is read whole |
| Text.WordsOfWord | src/ConfigWebServer.cpp:149 | a leading word is the first word read |
| Text.WordsAfterSpace | src/ConfigWebServer.cpp:149 | leading whitespace is skipped |
| Text.FirstTwoWords | src/ConfigWebServer.cpp:148-149 | in "method path ..." the method and the path are the first two words read |
| Text.DigitChar | src/ConfigWebServer.cpp:50 | a digit is rendered as a decimal digit character |
| Text.NatToDecimal | src/ConfigWebServer.cpp:50 | std::to_string of a non-negative number: digits only, no leading zero |
| Text.DecimalRoundTrip | src/ConfigWebServer.cpp:50 | the rendered digits read back as the number |
| HttpText.StatusText | src/ConfigWebServer.cpp:186-192 | "OK" exactly for 200, "Not Found" exactly for 404, "Internal Server Error" exactly for 500, "Unknown" for every other code |
| HttpText.Response | src/ConfigWebServer.cpp:181-203 | the response starts with the status line, ends with the body, and is the header block plus the body |
| HttpText.ContentLengthFramesBody | src/SystemWebService.cpp:246-252 | the Content-Length header carries the body's length in decimal, and the blank line that ends the header block is immediately followed by the body |
| HttpText.ContentLengthAt | src/ConfigWebServer.cpp:196 | the Content-Length line follows the status and Content-Type lines |
| HttpText.HeadEndsAt | src/ConfigWebServer.cpp:199-200 | the header block ends with an empty line just before the body |
| HttpText.LocalUrl | src/ConfigWebServer.cpp:49-51 | the URL starts with "http://localhost:" |
| HttpText.LocalUrlPort | src/ConfigWebServer.cpp:49-51 | for a non-negative port, the rest of the URL is decimal digits that read back as the port |
| HttpText.FirstBlank | src/ConfigWebServer.cpp:154-158 | the first line from the start that is empty or a lone carriage return, or none |
| HttpText.HeaderLines | src/ConfigWebServer.cpp:153-169 | the header section holds no blank line |
| HttpText.HeaderSection | src/ConfigWebServer.cpp:153-176 | the header lines run up to the first blank line, and the body is every line after it |
| HttpText.ReadBody | src/ConfigWebServer.cpp:172-176 | the body is the remaining lines concatenated, newlines dropped |
| HttpText.RequestParts | src/ConfigWebServer.cpp:140-179 | a request written as request line, header lines, blank line and body lines is read back into exactly those parts |
| HttpText.NoNewlines | src/ConfigWebServer.cpp:143-173 | the lines of such a request contain no newline |
| HttpText.SectionsOf | src/ConfigWebServer.cpp:147-176 | the request line, header section and body of such a list of lines are its three parts |
| HttpText.AssignLookup | src/ConfigWebServer.cpp:167 | a key assigned and not reassigned later keeps its value: a later header with the same name wins |
| HttpText.AssignUntouched | src/ConfigWebServer.cpp:167 | a key no pair assigns keeps its earlier value |
| HttpText.AssignAbsent | src/ConfigWebServer.cpp:167 | a key no pair assigns stays absent |
| HttpText.AssignSnoc | src/ConfigWebServer.cpp:167 | one more pair overwrites its key |
| ConfigWeb.HeaderFieldShape | src/ConfigWebServer.cpp:160-168 | a line yields a field exactly when it contains ':'; the name holds no ':' and the value is trimmed of blanks |
| ConfigWeb.HeaderFieldOf | src/ConfigWebServer.cpp:160-168 | the line "name: value\r" yields exactly that name and value |
| ConfigWeb.FirstColon | src/ConfigWebServer.cpp:160 | the first ':' ends the header name |
| ConfigWeb.TrimmedValue | src/ConfigWebServer.cpp:165-166 | the leading space and trailing carriage return around a clean value are trimmed away |
| ConfigWeb.HeaderTexts | src/ConfigWebServer.cpp:152-169 | one header line per field, in order |
| ConfigWeb.HeaderPairsRoundTrip | src/ConfigWebServer.cpp:152-169 | written header lines parse back to the same fields, and the header map is their assignment in order |
| ConfigWeb.RequestRoundTrip | src/ConfigWebServer.cpp:140-179 | a request written from a method, a path, clean headers and body lines parses back to that method, path, header map and concatenated body |
| ConfigWeb.HeaderLineShape | src/ConfigWebServer.cpp:155 | a written header line has no newline and does not end the header section |
| ConfigWeb.HeaderMapSnoc | src/ConfigWebServer.cpp:160-168 | a line without ':' leaves the map as it was; one with ':' sets its field |
| ConfigWeb.Route | src/ConfigWebServer.cpp:127-135 | "/" and "/index.html" serve the page whatever the method; "/api/config" is read by GET and written by POST; everything else is not found |
| ConfigWeb.Reply | src/ConfigWebServer.cpp:127-135 | a found route answers 200 ending with its document; any other answers 404 ending with "Not Found" |
| ConfigWeb.PostReply | src/ConfigWebServer.cpp:209-219 | the success message exactly when reading succeeded, the failure message exactly when it did not |
| ConfigWeb.ConfigWebServer.constructor | src/ConfigWebServer.cpp:10-14 | the configuration and port are kept and the server is not running |
| ConfigWeb.ConfigWebServer.Start | src/ConfigWebServer.cpp:20-33 | starting succeeds exactly when the server was not running, and it runs afterwards |
| ConfigWeb.ConfigWebServer.Stop | src/ConfigWebServer.cpp:35-43 | the server is not running afterwards; stopping a stopped server changes nothing |
| ConfigWeb.ConfigWebServer.GetServerUrl | src/ConfigWebServer.cpp:49-51 | "http://localhost:" followed by the port |
| ConfigWeb.ConfigWebServer.ParseRequest | src/ConfigWebServer.cpp:140-179 | method and path are the first two words of the first line; the header map is built from the lines up to the first blank one; the body is the remaining lines concatenated |
| ConfigWeb.ConfigWebServer.ReadHeaders | src/ConfigWebServer.cpp:152-169 | the header map of the header section, and the position where the body starts |
| ConfigWeb.ConfigWebServer.StoreHeader | src/ConfigWebServer.cpp:160-168 | one header line added to the map |
| ConfigWeb.ConfigWebServer.HandlePostConfig | src/ConfigWebServer.cpp:209-219 | the lists are replaced from the body and the success message is returned |
| ConfigWeb.ConfigWebServer.HandleRequest | src/ConfigWebServer.cpp:122-135 | each route's response; only a POST to "/api/config" changes the configuration |
| SystemWeb.QueryRound | src/SystemWebService.cpp:194-210 | a round that reads a parameter resumes strictly later, within the query |
| SystemWeb.PathOf | src/SystemWebService.cpp:187-214 | the path is the target up to its first '?', or the whole target when it has none |
| SystemWeb.TargetAt | src/SystemWebService.cpp:187-190 | a target with its first '?' at a position is split there into path and query |
| SystemWeb.RoundOfSegment | src/SystemWebService.cpp:195-207 | a "key=value" segment followed by '&' or the end is read as that parameter, resuming after the '&' |
| SystemWeb.QueryOfPairs | src/SystemWebService.cpp:193-211 | a query written from plain pairs is read back as those pairs assigned in order |
| SystemWeb.NextSegment | src/SystemWebService.cpp:195-207 | reading a plain segment assigns its key and moves past its '&' |
| SystemWeb.TargetRoundTrip | src/SystemWebService.cpp:187-214 | a target written as path '?' plain pairs splits back into that path and those pairs |
| SystemWeb.QueryAcrossAmpersand | src/SystemWebService.cpp:195-201 | a segment without '=' is not dropped: "a&k=v" reads as the key "a&k" and the key "k", both with value v |
| SystemWeb.FirstRoundAcross | src/SystemWebService.cpp:195-202 | in "a&k=v" the first round takes the key up to the '=', across the '&' |
| SystemWeb.Stoi | src/SystemWebService.cpp:353 | std::stoi: a value within the 32-bit int range, or none when the text has no number or it is out of range |
| SystemWeb.InIntRange | src/SystemWebService.cpp:353 | a signed magnitude is accepted exactly when it fits a 32-bit int, and then it is that value |
| SystemWeb.DigitRun | src/SystemWebService.cpp:353 | the leading digits are all digits |
| SystemWeb.DigitRunOfDigits | src/SystemWebService.cpp:353 | a text of digits is read whole |
| SystemWeb.StoiOfDigits | src/SystemWebService.cpp:353 | an optional minus and digits are read as that number when it fits |
| SystemWeb.MagnitudeOfDigits | src/SystemWebService.cpp:353 | digits are read as their decimal value |
| SystemWeb.InIntRangeFits | src/SystemWebService.cpp:353 | a value in range is accepted unchanged |
| SystemWeb.StoiUntrimmed | src/SystemWebService.cpp:353 | a text starting with a minus or a digit has no whitespace to skip |
| SystemWeb.SignedDigits | src/SystemWebService.cpp:353 | a minus or digit followed by digits is read as the signed magnitude |
| SystemWeb.StoiOfDecimal | src/SystemWebService.cpp:353 | reading back a rendered int gives it back |
| SystemWeb.HistoricalDays | src/SystemWebService.cpp:348-357 | 7 without a "days" parameter, and always an int value |
| SystemWeb.HistoricalDaysRequested | src/SystemWebService.cpp:348-357 | a "days" parameter holding a rendered int is used as is; one that stoi rejects falls back to 7 |
| SystemWeb.Route | src/SystemWebService.cpp:152-170 | "/" and "/dashboard" serve the dashboard, each API path its handler whatever the method, "/api/control" only for POST; everything else is not found |
| SystemWeb.Reply | src/SystemWebService.cpp:152-170 | a found route answers 200 ending with its document; any other answers 404 ending with "Not Found" |
| SystemWeb.SystemWebService.constructor | src/SystemWebService.cpp:12-32 | the collector and port are kept and the service is not running |
| SystemWeb.SystemWebService.Start | src/SystemWebService.cpp:38-47 | starting succeeds exactly when the service was not running, and it runs afterwards |
| SystemWeb.SystemWebService.Stop | src/SystemWebService.cpp:49-56 | the service is not running afterwards; stopping a stopped service changes nothing |
| SystemWeb.SystemWebService.ParseRequest | src/SystemWebService.cpp:175-233 | the method is the first word; the path and query parameters are the split of the second word; the body is the lines after the first blank line, concatenated |
| SystemWeb.SystemWebService.ParseRequestLine | src/SystemWebService.cpp:181-215 | the method, the path before the first '?', and the parameters after it |
| SystemWeb.SystemWebService.SplitTarget | src/SystemWebService.cpp:187-214 | the target split at its first '?' into path and parameters, or the whole target and no parameters |
| SystemWeb.SystemWebService.SplitAt | src/SystemWebService.cpp:188-211 | the split of a target at its first '?' |
| SystemWeb.SystemWebService.SkipHeaders | src/SystemWebService.cpp:218-224 | skips to the line after the first blank one, where the body starts |
| SystemWeb.SystemWebService.ParseQuery | src/SystemWebService.cpp:193-211 | the parameters the query loop reads |
| SystemWeb.SystemWebService.NextParam | src/SystemWebService.cpp:195-210 | one round of the query loop |
| SystemWeb.SystemWebService.EscapeJson | src/SystemWebService.cpp:714-729 | the same escaping as the configuration's: it unescapes back to the input and leaves no control character |
| SystemWeb.SystemWebService.HandleGetHistoricalData | src/SystemWebService.cpp:347-380 | the days used, the number of points retained for them, and at most 100 of those points in order |
| SystemWeb.SystemWebService.RenderEntries | src/SystemWebService.cpp:367-378 | the first min(n, 100) points in order, each followed by a comma exactly when it is not the last one rendered |
| HAIntegration.StateTopic | src/HAIntegration.cpp:204-209 | the state topic is the prefix, "/state/" and the entity id |
| HAIntegration.CommandTopic | src/HAIntegration.cpp:211-215 | the command topic is the prefix, "/command/" and the entity id |
| HAIntegration.DiscoveryTopic | src/HAIntegration.cpp:217-221 | the discovery topic is prefix/component/node/object/config |
| HAIntegration.ExtractDomain | src/HAIntegration.cpp:223-229 | the text before the first '.', which it does not contain, or empty when the id has no '.' |
| HAIntegration.CommandPayload | src/HAIntegration.cpp:193-202 | the bare command when there is no data; otherwise a brace-framed payload exactly 25 characters longer than command and data together |
| HAIntegration.CommandPayloadParts | src/HAIntegration.cpp:193-202 | without data the payload is the bare command; with data the command and the data can be found at fixed offsets of the JSON payload, which is framed by braces |
| HAIntegration.StatePayload | src/HAIntegration.cpp:118-127 | the bare state when there are no attributes; otherwise a brace-framed payload exactly 29 characters longer than state and attributes together |
| HAIntegration.StateMessage | src/HAIntegration.cpp:134-191 | an empty payload fails and leaves the outputs alone; a payload not starting with '{' is the state itself with no attributes; success always means a non-empty state |
| HAIntegration.StateMessageAttributes | src/HAIntegration.cpp:163-182 | the attributes of a JSON payload are either the caller's value or a balanced brace object cut from the payload |
| HAIntegration.PlainStateRoundTrip | src/HAIntegration.cpp:111-191 | a plain state published without attributes parses back to that state |
| HAIntegration.JsonStateRoundTrip | src/HAIntegration.cpp:111-191 | a state without quotes or braces published with a balanced attributes object parses back to that state and those attributes |
| HAIntegration.JsonStateOfPayload | src/HAIntegration.cpp:147-159 | in a published JSON payload the state field reads back as the state |
| HAIntegration.PayloadHasLayout | src/HAIntegration.cpp:123 | the published JSON payload has the layout the parser expects |
| HAIntegration.AttributesKeyBound | src/HAIntegration.cpp:163 | the "attributes" key of such a payload is found right after the state |
| HAIntegration.NoBraceBeforeAttributes | src/HAIntegration.cpp:165 | no '{' comes between the opening brace and the attributes object |
| HAIntegration.JsonAttributesOfPayload | src/HAIntegration.cpp:163-182 | in a published JSON payload the attributes field reads back as the balanced attributes object |
| HAIntegration.StateTopicEntity | src/HAIntegration.cpp:233-240 | an entity id exactly when the topic starts with the state prefix, and the state topic of that id is the topic |
| HAIntegration.StateTopicDecodes | src/HAIntegration.cpp:204-240 | a state topic decodes to its entity id; a command topic is not a state topic |
| HAIntegration.DiscoveryComponent | src/HAIntegration.cpp:263-286 | the component is the slash-free text after the prefix and separator, followed by a '/' |
| HAIntegration.DiscoveryTopicDecodes | src/HAIntegration.cpp:217-286 | a discovery topic decodes to its component |
| HAIntegration.Bridge.constructor | src/HAIntegration.cpp:5-7 | the prefix is kept; no callbacks, subscriptions, publications or deliveries |
| HAIntegration.Bridge.SubscribeToEntity | src/HAIntegration.cpp:9-23 | while connected, the entity's callback is registered and its state topic subscribed; otherwise nothing changes |
| HAIntegration.Bridge.SubscribeToDomain | src/HAIntegration.cpp:25-42 | while connected, the domain's callback is registered and prefix/state/domain.+ subscribed; otherwise nothing changes |
| HAIntegration.Bridge.SubscribeToDiscovery | src/HAIntegration.cpp:82-96 | while connected, the discovery callback is set and prefix/# subscribed; otherwise nothing changes |
| HAIntegration.Bridge.Publish | src/HAIntegration.cpp:44-132 | a message is published only while connected; nothing else changes |
| HAIntegration.Bridge.PublishCommand | src/HAIntegration.cpp:44-54 | while connected, the command goes to the entity's command topic |
| HAIntegration.Bridge.PublishCommandWithData | src/HAIntegration.cpp:56-67 | while connected, the command payload goes to the entity's command topic |
| HAIntegration.Bridge.RequestState | src/HAIntegration.cpp:69-80 | while connected, an empty message goes to the state topic with "/get" appended |
| HAIntegration.Bridge.PublishDiscovery | src/HAIntegration.cpp:98-109 | while connected, the configuration goes to the discovery topic |
| HAIntegration.Bridge.PublishState | src/HAIntegration.cpp:111-132 | while connected, the state payload goes to the entity's state topic |
| HAIntegration.Bridge.PublishedStateDelivered | src/HAIntegration.cpp:111-256 | a plain state published for an entity with a callback reaches that callback first, with the same state |
| HAIntegration.Bridge.ParseJsonState | src/HAIntegration.cpp:147-159 | the state field of a JSON payload, or failure where the source gives up |
| HAIntegration.Bridge.ParseJsonAttributes | src/HAIntegration.cpp:163-182 | the attributes field of a JSON payload, found by counting braces |
| HAIntegration.Bridge.ParseStateMessage | src/HAIntegration.cpp:134-191 | the outcome, state and attributes of parseStateMessage |
| HAIntegration.Bridge.HandleStateMessage | src/HAIntegration.cpp:231-261 | a parsed message on a state topic reaches the entity's callback and then its domain's callback, each only if registered; nothing else changes |
| HAIntegration.Bridge.HandleDiscoveryMessage | src/HAIntegration.cpp:263-286 | a topic with a component after the prefix reaches the discovery callback, if set, with that component and the payload |
| HARest.SkipFrom | src/HARestClient.cpp:517-521 | the first position from the start that is not a blank, all skipped characters being blanks |
| HARest.StopFrom | src/HARestClient.cpp:535-540 | the first position from the start holding a stop character, none being skipped |
| HARest.ValueAt | src/HARestClient.cpp:523-550 | a quoted value holds no quote; a bare value holds no ',', '}', ']' or newline and does not end in a space or tab |
| HARest.JsonValue | src/HARestClient.cpp:499-508 | a missing key gives the empty value |
| HARest.ValueAfterKey | src/HARestClient.cpp:503-521 | after a quoted key and its colon, the value is read from the first non-blank position |
| HARest.QuotedValueAt | src/HARestClient.cpp:528-532 | a quoted value is read without its quotes |
| HARest.SkipOneBlank | src/HARestClient.cpp:517-521 | a single space after the colon is skipped |
| HARest.QuotedValueAfterKey | src/HARestClient.cpp:503-532 | the quoted value after a key is read back |
| HARest.QuotedValueRoundTrip | src/HARestClient.cpp:499-551 | extracting a key from an object that gives it a quoted value without quotes returns that value |
| HARest.BareValueAt | src/HARestClient.cpp:533-547 | a bare value ended by a stop character is read whole |
| HARest.BareValueRoundTrip | src/HARestClient.cpp:499-551 | extracting a key whose bare value is its last member returns that value |
| HARest.AttributesSection | src/HARestClient.cpp:405-408 | the attributes section is a piece of the response with no '}' in it |
| HARest.ObjectsAreBalanced | src/HARestClient.cpp:429-453 | every object the scan cuts out is a balanced brace object taken from the response |
| HARest.SensorsIn | src/HARestClient.cpp:445-448 | at most one entry per object |
| HARest.HistoryIn | src/HARestClient.cpp:482-489 | at most one entry per object |
| HARest.SensorsInHaveIds | src/HARestClient.cpp:446-448 | every sensor kept has a non-empty entity id |
| HARest.HistoryInHaveIds | src/HARestClient.cpp:487-489 | every history entry kept has a non-empty entity id |
| HARest.DecodersAgree | src/HARestClient.cpp:401-402 | both decoders read the same entity id and state from an object |
| HARest.HistoryMatchesSensors | src/HARestClient.cpp:422-497 | the history parse and the sensor parse keep the same objects, with the same ids and states, in the same order |
| HARest.SensorEntities | src/HARestClient.cpp:44-50 | an entity is kept exactly when its id starts with "sensor.", in order |
| HARest.SensorEntitiesAppend | src/HARestClient.cpp:46-50 | the filter distributes over concatenation |
| HARest.SensorEntitiesIdempotent | src/HARestClient.cpp:46-50 | filtering twice is filtering once |
| HARest.ServicePayload | src/HARestClient.cpp:85-89 | the object names the entity id, followed by the extra data when there is any |
| HARest.ServicePayloadNamesEntity | src/HARestClient.cpp:85-89 | extracting "entity_id" from the payload gives back the entity id |
| HARest.ServiceSucceededMeaning | src/HARestClient.cpp:94 | a call succeeds exactly when the response is not empty and contains no "error" |
| HARest.SkipBlanks | src/HARestClient.cpp:517-521 | the first non-blank position from the start |
| HARest.BareValue | src/HARestClient.cpp:535-547 | the text up to the first stop character, trailing spaces and tabs removed |
| HARest.ReadValue | src/HARestClient.cpp:523-550 | the value at the position, quoted or bare |
| HARest.ExtractJsonValue | src/HARestClient.cpp:499-551 | the value of the first occurrence of the quoted key |
| HARest.ParseSensorData | src/HARestClient.cpp:396-420 | the entity id, state and attribute fields of one object, stamped with the given time |
| HARest.ScanObject | src/HARestClient.cpp:435-441 | the end of the balanced object starting at the brace, or none when it is not closed |
| HARest.NextObject | src/HARestClient.cpp:430-452 | one round of the object scan: the next object and a later position, or the end of the scan |
| HARest.SensorsSnoc | src/HARestClient.cpp:445-448 | one more object adds its sensor exactly when it has an entity id |
| HARest.HistorySnoc | src/HARestClient.cpp:482-489 | one more object adds its history entry exactly when it has an entity id |
| HARest.ParseMultipleSensors | src/HARestClient.cpp:422-456 | the sensors of all objects in the response that carry an entity id, in order |
| HARest.ParseHistoricalData | src/HARestClient.cpp:458-497 | the history entries of all objects in the response that carry an entity id, in order |
| HARest.RestClient.constructor | src/HARestClient.cpp:12-21 | the base URL without one trailing slash, the token kept, no requests made |
| HARest.RestClient.GetSensorState | src/HARestClient.cpp:29-36 | one GET of /api/states/<id>, and the sensor parsed from the response |
| HARest.RestClient.GetAllSensors | src/HARestClient.cpp:38-53 | one GET of /api/states, and the parsed entities whose id starts with "sensor." |
| HARest.RestClient.GetAllStates | src/HARestClient.cpp:55-60 | one GET of /api/states, and all parsed entities |
| HARest.RestClient.GetHistory | src/HARestClient.cpp:62-75 | one GET of the history period for the entity, and the parsed entries |
| HARest.RestClient.CallService | src/HARestClient.cpp:77-95 | one POST of the service payload to /api/services/<domain>/<service>; success exactly when the response is not empty and contains no "error" |
| HARest.RestClient.TestConnection | src/HARestClient.cpp:97-109 | one GET of /api/; success exactly when the response is not empty and mentions "API running" or "message" |
| Braces.DepthAppend | src/HAIntegration.cpp:167-177 | the brace count of a concatenation is the sum of the counts |
| Braces.DepthFront | src/HAIntegration.cpp:170-176 | the count of a span is its first character's effect plus the rest |
| Braces.CloseFrom | src/HAIntegration.cpp:168-180 | the end the brace count reaches lies within the text |
| Braces.MatchingBrace | src/HARestClient.cpp:435-443 | the end of a balanced object lies after its opening brace |
| Braces.CloseFromFirstZero | src/HAIntegration.cpp:168-180 | the scan stops exactly where the count first drops to zero, and finds nothing when it never does |
| Braces.MatchingBraceBalanced | src/HARestClient.cpp:435-443 | the span found is balanced and no shorter span is; none is found when the object never closes |
| Braces.MatchingBraceOfObject | src/HARestClient.cpp:435-443 | a balanced object at a position is matched exactly at its end |

## Left out

- Sockets, the server threads and the connection loops of both web servers are not modelled. `Start` and `Stop` model only the running flag, and a request arrives as a string.
- The HTML pages and the JSON documents of the status, sensors, appliances, schedule, predictions and control endpoints are not modelled; `HandleRequest` takes the page and the configuration document as parameters. The historical endpoint is modelled as the list of entries it renders, with the comma rule and the 100-point limit, not as text.
- Configuration.Config.FromJson: the substring heuristics for the MQTT flag, broker address and port and for the web-interface flag and port are not modelled, so the contract says nothing about those fields. `toJson` and the configuration file I/O are not modelled either, and `HandlePostConfig` does not model the save to file.
- The curl transport of the REST client (headers, timeouts, status-code logging) is not modelled. Each operation is given the response body, and the requests it sends are recorded. The `strftime` timestamp of `getHistory` and the clock reading that stamps records are parameters.
- The MQTT client is a parameter: each bridge operation is told whether the client is connected. Subscriptions and publications are recorded, and callbacks are recorded as the deliveries they receive.
- Training.MLTrainingScheduler.Tick: models one iteration of the training loop. The thread and the hour of sleep between iterations are not modelled.
- Training.MLTrainingScheduler.PerformTraining: the `catch` branch for a predictor that throws while training is not modelled, because training in the model cannot fail.
- The live optimizer's fetch of the current price over HTTP and its publication of a cost-update event are not modelled. `UpdateEnergyCost` takes the reported cost as a parameter.
- The console output is not modelled, including `printSchedule` and the status lines of every component.
- The reason texts of scheduled actions and the recommendation texts, built with `std::to_string`, are kept as structured values (`DayAhead.Reason`, `Deferrable.Recommendation`) holding their numeric arguments, not as strings.
- `sin` in the untrained forecast is an uninterpreted `real -> real` parameter of the predictor.
- Floating-point rounding is not modelled: prices, temperatures and powers are mathematical reals. The CSV rows are `Row` values rather than formatted decimal text, so the round trip through the file is exact.
- The 32-bit overflow of `maxDaysToRetain * 24` and `days * 24` is not modelled; those products are unbounded integers. A negative product keeps every point, as its conversion to a huge `size_t` does in the source.
- DayAhead.SortDesc: `std::sort` is not stable, so among equally scored hours the source may choose differently. The model ranks with a stable insertion sort. `BestHoursAreBest` states only what every sort guarantees: the count, a permutation of the scores, and chosen scores at least the scores left out.
- The query-string loop of the monitoring service is modelled as written: a segment without '=' is not skipped. The key runs up to the next '=', across the '&' (see `SystemWeb.QueryAcrossAmpersand`).
- Sensors, the event manager and the MQTT and HTTP client classes are outside the core and are not modelled.

## Findings

| source | as written | input that shows it | evidently intended | confidence | as-written member | corrected member |
|---|---|---|---|---|---|---|
| features-copilot-copilot-develop-home-automation-system/include/EnergyOptimizer.h:106-120 | the charger rule compares solar production with the charger's present charge power, which is 0 once the charger is off | a 7.2 kW charger that is charging, cost 0.20 against a high threshold of 0.15, no sun: one pass switches it off, and the next pass under the same conditions switches it on again at full power | compare solar production with the charger's rated (maximum) power, so that a second pass changes nothing | not executed | LiveOptimizer.EVRuleAsWritten, LiveOptimizer.EVRuleAsWrittenOscillates, LiveOptimizer.EVRuleAsWrittenExample | LiveOptimizer.EVRule, LiveOptimizer.EVRuleIdempotent |
