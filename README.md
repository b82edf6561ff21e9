# Home Assistant custom components: a verified model

This project is a Dafny model of the decision logic inside a set of Home Assistant custom components. It covers:

- **utility_meter_next_gen.** A utility meter that turns successive readings of a source sensor into a running total. Readings can be deltas, absolute values or a periodically resetting counter. Negative steps can be refused. A second "calculated" total follows a price sensor and a multiplier. The meter pauses and resumes with the active tariff, resets to calibration offsets on its cycle, and saves and restores its state. Also modelled: the predefined cycle tables and their cron templates, and the option normalisation of its config and options flows.
- **balena_cloud.** Device and fleet records and their derived predicates. Per-device health classification, fleet statistics and fleet health alerts. The coordinator's fleet and device caches and its action guards. The registry of coordinators behind the services. The environment-variable upsert of the API wrapper, and its retry decorator. The decorated methods catch every exception themselves, so as written the decorator never retries (see Findings). The device sensors and the public-URL switch.
- **eskom_loadshedding.** Turning the area schedule's "HH:MM-HH:MM" slots into calendar events, including slots that run past midnight. The values and attributes of the status, area and quota sensors.
- **home_maintenance.** The next due date of a task, n days, weeks or calendar months after it was last performed, and the binary sensor that reports whether it is due.
- **ms365_calendar and ms365_todo.** Building the permission scopes. The coordinator's sync window, cache-or-service choice and current-event priority. The exclusion filter and item map of the sync manager. Building, sorting and truncating events for the calendar entity. The edit permission checks and recurrence routing. Key cleaning and the load cache of the local store. The time-zone validators of the service schemas. The calendar walk of the options flow.
- **hikconnect.** The base-URL check and normalisation of the config flow, with its error mapping. The door-latch lock: how many locks a device gets, their names and ids, and the latch that re-locks itself after an unlock.

Each Dafny module models one source file or a coherent part of one, and is named after its component, for example `MeterSensor`, `BalenaFleet` or `Ms365Options`. The utility meter's sensor.py is split into `MeterText`, `MeterSensor`, `MeterStore`, `MeterSetup` and `MeterCalculated`; balena_cloud's sensor.py and switch.py share `BalenaEntities`; `Ms365Permissions` covers both permissions files. `Common` holds small shared helpers.

The model follows the source's form:

- Pure Python properties are functions with contracts.
- Loops are methods with loop invariants, proved equal to a specification function.
- Objects whose fields change are classes. Their methods state the new state as a function of the old one.

Calls into code outside the model become parameters of the operation:

- the host clock;
- the entity states;
- the service and SDK replies, where a reply may also be "raised";
- the date and number parsers;
- the regex search.

Decimal values are modelled as `real`. Times are whole seconds or day ordinals with explicit UTC offsets.

## Model

| member | source | states |
|---|---|---|
| MeterConst.ParseKey | custom_components/utility_meter_next_gen/const.py:20-49 | reading a cycle's key back gives that cycle: every cycle has its own key in the name table |
| MeterConst.KeyInjective | custom_components/utility_meter_next_gen/const.py:20-32 | two cycles with the same key are the same cycle |
| MeterConst.MeterTypesIsNoneThenMulti | custom_components/utility_meter_next_gen/const.py:54-84 | the meter-type list is "none" followed by the multi-meter types in the same order |
| MeterConst.MultiMeterTypesAreTheNamedCycles | custom_components/utility_meter_next_gen/const.py:35-49 | the multi-meter types have no duplicates (as cycles and as keys) and list every cycle of the name table |
| MeterConst.ConfMeterTypesAreMultiTypes | custom_components/utility_meter_next_gen/const.py:129-141 | every configurable meter type is one of the multi-meter types |
| MeterConst.TemplateIsFiveFields | custom_components/utility_meter_next_gen/const.py:181-195 | every cron template has five fields, each built only from text without spaces and the minute, hour and day placeholders |
| MeterConst.RenderFieldNoSpace | custom_components/utility_meter_next_gen/const.py:181-195 | filling one template field with space-free values gives a field with no space |
| MeterConst.RenderFieldsSpaces | custom_components/utility_meter_next_gen/const.py:181-195 | filling n well-formed fields with space-free values gives a text with exactly n-1 spaces |
| MeterConst.CronPattern | custom_components/utility_meter_next_gen/sensor.py:647-653 | the pattern `__init__` formats from a cycle and an offset always has five space-separated fields |
| MeterText.ReplaceNonAlnum | custom_components/utility_meter_next_gen/sensor.py:114 | every character outside `[a-zA-Z0-9]` becomes "_" and every other character is kept, position by position |
| MeterText.Collapse | custom_components/utility_meter_next_gen/sensor.py:116 | no "__" remains, the text gets no longer, it keeps its first character and adds no new characters; that each run becomes exactly one "_" is stated by `CollapseIsOnePass` and `CollapseMergesRun` |
| MeterText.CleanString | custom_components/utility_meter_next_gen/sensor.py:112-118 | the result contains only `[a-z0-9_]`, never two underscores in a row, and is no longer than the input; its exact value is stated by `CleanStringIsOnePass` and `CleanStringKeepsAlnums` |
| MeterText.StripReplace | custom_components/utility_meter_next_gen/sensor.py:114 | with the underscores removed, the replacement leaves exactly the letters and digits of the input, in order |
| MeterText.StripCollapse | custom_components/utility_meter_next_gen/sensor.py:116 | collapsing underscores loses no other character |
| MeterText.StripLower | custom_components/utility_meter_next_gen/sensor.py:118 | lowercasing commutes with removing underscores |
| MeterText.CleanStringKeepsAlnums | custom_components/utility_meter_next_gen/sensor.py:112-118 | the cleaned string keeps every letter and digit of the input, lowercased and in order: the slug loses nothing but punctuation |
| MeterText.CollapseIdentity | custom_components/utility_meter_next_gen/sensor.py:116 | a text without "__" is unchanged by collapsing |
| MeterText.CollapseFromFirst | custom_components/utility_meter_next_gen/sensor.py:116 | collapsing keeps the first character and scans the rest remembering whether it was an underscore |
| MeterText.CollapseIsOnePass | custom_components/utility_meter_next_gen/sensor.py:116 | collapsing equals a one-pass scan that writes an underscore only after a non-underscore, so each run of underscores becomes exactly one "_" and everything else is copied |
| MeterText.CollapseMergesRun | custom_components/utility_meter_next_gen/sensor.py:116 | doubling any underscore leaves the collapsed text unchanged; with `CollapseIdentity` this fixes the result of collapsing on every input |
| MeterText.CleanStringIsOnePass | custom_components/utility_meter_next_gen/sensor.py:112-118 | cleaning is the replacement, then the one-pass underscore scan, then lower-casing |
| MeterText.CleanStringIdempotent | custom_components/utility_meter_next_gen/sensor.py:112-118 | cleaning a cleaned string changes nothing |
| MeterSensor.ValidateState | custom_components/utility_meter_next_gen/sensor.py:693-702 | a state parses to a number exactly when it is present, not unavailable or unknown, and numeric; the number is the state's own reading |
| MeterSensor.NewConfig | custom_components/utility_meter_next_gen/sensor.py:606-668 | a missing or zero multiplier becomes 1 and any other is kept; a predefined cycle replaces the cron pattern by a five-field pattern, otherwise the given pattern is kept |
| MeterSensor.CalculateAdjustment | custom_components/utility_meter_next_gen/sensor.py:704-734 | no adjustment for an unusable new state; in delta mode the new value itself; otherwise new minus last valid state when not periodically resetting and one is known, else new minus a usable old state, else none |
| Common.RoundUnits | custom_components/utility_meter_next_gen/sensor.py:795-802 | the integer chosen is within half a unit of the value, and even when the value lies exactly halfway |
| Common.RoundUnitsBetween | custom_components/utility_meter_next_gen/sensor.py:795-802 | a value between two integers rounds to an integer between them |
| Common.RoundHalfEvenIsClose | custom_components/utility_meter_next_gen/sensor.py:795-802 | `round(x, PRECISION)` is a whole number of units in the last kept place, at most half a unit from x, and an even number of units at an exact tie |
| MeterSensor.Started | custom_components/utility_meter_next_gen/sensor.py:682-690 | `start` sets the value and the calculated value to their calibration offsets and changes nothing else |
| MeterSensor.SourceLossOnlyAffectsAvailability | custom_components/utility_meter_next_gen/sensor.py:738-744 | a missing or unavailable source changes only availability, which is lost unless the sensor is always available |
| MeterSensor.InvalidReadingChangesNothing | custom_components/utility_meter_next_gen/sensor.py:746-760 | a missing or non-numeric new state leaves every field unchanged |
| MeterSensor.ValidReadingIsRemembered | custom_components/utility_meter_next_gen/sensor.py:753-815 | a valid reading always ends with the last valid state equal to the new value and a value present |
| MeterSensor.NoNetConsumptionNeverDecreases | custom_components/utility_meter_next_gen/sensor.py:778-783 | with net consumption off the value never decreases, whatever the reading |
| MeterSensor.FirstReadingStartsAtCalibration | custom_components/utility_meter_next_gen/sensor.py:762-783 | the first valid reading starts the meter at its calibration value and then adds the accepted adjustment |
| MeterSensor.AbsoluteRunTotals | custom_components/utility_meter_next_gen/sensor.py:778-783 | with net consumption, a run of absolute readings adds the last reading minus the last valid state before the run, and the last reading becomes the last valid state (also lines 717-720 and 815) |
| MeterSensor.DeltaRunTotals | custom_components/utility_meter_next_gen/sensor.py:714-783 | with net consumption, a run of delta readings adds their sum |
| MeterSensor.AbsoluteRunTotalsWithoutNet | custom_components/utility_meter_next_gen/sensor.py:776-783 | without net consumption (the default), a run of absolute readings adds the sum of the upward steps from the last valid state through the readings, each step down being dropped; the last reading becomes the last valid state (also lines 717-720 and 815) |
| MeterSensor.DeltaRunTotalsWithoutNet | custom_components/utility_meter_next_gen/sensor.py:714-783 | without net consumption (the default), a run of delta readings adds the sum of the non-negative ones |
| MeterSensor.ChangeStatusStep | custom_components/utility_meter_next_gen/sensor.py:826-841 | after a tariff change the meter collects iff its tariff equals the new tariff, the last valid state is cleared, and nothing else changes |
| MeterSensor.TariffSwitchMeasuresFromOldState | custom_components/utility_meter_next_gen/sensor.py:717-727 | after a tariff change the next absolute reading is measured from the event's old state, not from a stale last valid state (also lines 836-841) |
| MeterSensor.ResetStep | custom_components/utility_meter_next_gen/sensor.py:874-896 | a reset aimed at another tariff entity or entity is a no-op; otherwise last period becomes the previous value (0 when there was none or it was 0), the value and calculated value return to calibration, calculated-last takes calculated-current only with a price sensor, and the reset time is now |
| MeterSensor.PeriodIsReportedAtReset | custom_components/utility_meter_next_gen/sensor.py:874-896 | a delta meter started at calibration reports as last period at the next reset calibration plus the period's readings (all of them with net consumption, the non-negative ones without), and starts again from calibration |
| MeterSensor.CalibrateStep | custom_components/utility_meter_next_gen/sensor.py:898-902 | calibration sets the value and changes nothing else |
| MeterSensor.TotalIncreasingIsHonest | custom_components/utility_meter_next_gen/sensor.py:1014-1021 | a meter announcing TOTAL_INCREASING never decreases on a reading |
| MeterSensor.UtilityMeter.constructor | custom_components/utility_meter_next_gen/sensor.py:606-668 | a new meter has no value, no last valid state, last period 0, calculated values 0 and its last reset at construction time |
| MeterSensor.UtilityMeter.Start | custom_components/utility_meter_next_gen/sensor.py:682-690 | the state becomes `Started` of the old state |
| MeterSensor.UtilityMeter.Reading | custom_components/utility_meter_next_gen/sensor.py:736-816 | this meter's state becomes `ReadingStep` of its old state; on a first valid reading every other meter of the entry is started, and otherwise they are untouched |
| MeterSensor.UtilityMeter.StartAll | custom_components/utility_meter_next_gen/sensor.py:762-770 | every meter of the entry is started from its calibration values, and nothing else changes |
| MeterSensor.UtilityMeter.Accept | custom_components/utility_meter_next_gen/sensor.py:778-815 | an allowed adjustment is added to the value and priced into the calculated value; the reading becomes the last valid one |
| MeterSensor.UtilityMeter.ChangeStatus | custom_components/utility_meter_next_gen/sensor.py:826-850 | the state becomes `ChangeStatusStep` of the old state |
| MeterSensor.UtilityMeter.ResetMeter | custom_components/utility_meter_next_gen/sensor.py:874-896 | the state becomes `ResetStep` of the old state |
| MeterSensor.UtilityMeter.Calibrate | custom_components/utility_meter_next_gen/sensor.py:898-902 | the state becomes `CalibrateStep` of the old state |
| MeterStore.ExtraRestoreStateData | custom_components/utility_meter_next_gen/sensor.py:1067-1079 | the stored record carries the meter's running total, its unit and input device class, last period, last reset, last valid state and calculated values, and "collecting" or "paused" as status |
| MeterStore.AsDict | custom_components/utility_meter_next_gen/sensor.py:525-539 | the base class's native value (a decimal as its tagged object) and unit are written, then last period, status, input device class (None as "None") and both calculated values as text; last reset only when it is a datetime; a zero or missing last valid state is written as null |
| MeterStore.FromDict | custom_components/utility_meter_next_gen/sensor.py:542-585 | a map without the base class's native value or unit is rejected, as is one missing last period, last reset or status; a restored record decodes the native value, keeps the unit and status as stored and reads the device class only when the host knows it |
| MeterStore.DecodeEncodeNative | custom_components/utility_meter_next_gen/sensor.py:527-547 | the base class decodes what it encoded, a decimal native value included, for every value that is not already a tagged object |
| MeterStore.RoundTrip | custom_components/utility_meter_next_gen/sensor.py:525-585 | writing then reading a record with a last reset, both calculated values and a known or absent device class gives it back, native value and unit included, except that a last valid state of 0 comes back as none |
| MeterStore.RestoreInto | custom_components/utility_meter_next_gen/sensor.py:920-945 | restoring takes over the total, last period, last reset and last valid state, sets collecting on a "collecting" status and otherwise keeps its flag, turns a missing calculated value into 0, and raises on a native value that is neither None nor a decimal |
| MeterStore.MeterStateRoundTrip | custom_components/utility_meter_next_gen/sensor.py:525-585 | a meter with a last reset, stored and restored into a meter not yet collecting, gets back its running total, last period, last reset, calculated values and collecting flag, and its last valid state unless that was 0 (also lines 920-945, 1067-1079) |
| MeterStore.MissingLastResetIsRejected | custom_components/utility_meter_next_gen/sensor.py:529-573 | a record written without a last reset is not restored: the key is missing on reading |
| MeterStore.NoneCalculatedValueIsRejected | custom_components/utility_meter_next_gen/sensor.py:536-573 | a calculated value of none is written as the text "None", which fails to parse on reading, so the record is rejected |
| MeterStore.MalformedIsNotRestored | custom_components/utility_meter_next_gen/sensor.py:548-573 | a map with no last period, an unparsable one, or no status is never restored |
| MeterCalculated.MeterAttributes | custom_components/utility_meter_next_gen/sensor.py:1024-1064 | the meter's attributes always carry its status, and carry the calculated current value exactly when a price sensor is configured |
| MeterCalculated.ListenStep | custom_components/utility_meter_next_gen/sensor.py:1206-1278 | a value is mirrored only from a state that carries the attribute; a missing, unavailable or unknown state leaves no value and marks the status unavailable only when updating |
| MeterCalculated.MirrorsMeter | custom_components/utility_meter_next_gen/sensor.py:1206-1278 | listening to a meter with a price sensor mirrors its rounded calculated value and its status (also lines 1050-1052) |
| MeterCalculated.NothingToMirrorWithoutPrice | custom_components/utility_meter_next_gen/sensor.py:1232-1243 | a meter without a price sensor has no calculated attribute, so the calculated sensor becomes unavailable (also lines 1048-1056) |
| MeterCalculated.CalculatedSensor.constructor | custom_components/utility_meter_next_gen/sensor.py:1109-1151 | a new calculated sensor has no value, no status and has not logged |
| MeterCalculated.CalculatedSensor.Listen | custom_components/utility_meter_next_gen/sensor.py:1206-1278 | the state becomes `ListenStep` of the old state |
| MeterSetup.TariffChoices | custom_components/utility_meter_next_gen/sensor.py:241-242 | no tariffs gives exactly one meter not gated by a tariff; otherwise one meter per tariff, in order (also lines 176, 305 and 356-357) |
| MeterSetup.MultiMeter | custom_components/utility_meter_next_gen/sensor.py:177-203 | a multi-cycle meter is named from the title, the cycle's name and the tariff, and its unique id from the entry id, the cycle's name and the tariff (also lines 243-268) |
| MeterSetup.MultiCalc | custom_components/utility_meter_next_gen/sensor.py:209-233 | a multi-cycle calculated sensor has the same text as name and unique id: title, cycle name, tariff and "Calculated" (also lines 273-297) |
| MeterSetup.SingleMeter | custom_components/utility_meter_next_gen/sensor.py:305-377 | a single meter is named from the title and tariff, its unique id is the entry id (plus "_" and the tariff), and it takes the calibration values unchanged |
| MeterSetup.SingleCalc | custom_components/utility_meter_next_gen/sensor.py:330-400 | a single calculated sensor has the same text as name and unique id, ending in "Calculated" |
| MeterSetup.SetupEntry | custom_components/utility_meter_next_gen/sensor.py:171-405 | the entities created are exactly the planned meters and calculated sensors, for every length of the cycle list |
| MeterSetup.SetupCycle | custom_components/utility_meter_next_gen/sensor.py:175-302 | the loop for one cycle creates that cycle's row of meters, and its calculated sensors only when requested |
| MeterSetup.SetupSingle | custom_components/utility_meter_next_gen/sensor.py:304-405 | the single-type branch creates one meter per tariff choice, and the calculated sensors only when requested |
| MeterSetup.MultiMetersCount | custom_components/utility_meter_next_gen/sensor.py:175-302 | a multi-cycle entry creates cycles × tariff choices meters, and as many calculated sensors |
| MeterSetup.MeterCount | custom_components/utility_meter_next_gen/sensor.py:171-405 | the number of meters is cycles × tariff choices (one cycle for a single type), and there is one calculated sensor per meter exactly when they are requested |
| MeterSetup.InRow | custom_components/utility_meter_next_gen/sensor.py:175-268 | a meter is in a cycle's row iff it has that cycle, one of the tariff choices, and the name and id built from them |
| MeterSetup.MultiMetersAreTheCombinations | custom_components/utility_meter_next_gen/sensor.py:175-268 | the meters of a multi-cycle entry are exactly the cycle × tariff combinations |
| MeterSetup.MultiMetersDistinct | custom_components/utility_meter_next_gen/sensor.py:175-268 | with distinct cycles and distinct tariffs, no meter is created twice |
| MeterSetup.RowDistinct | custom_components/utility_meter_next_gen/sensor.py:242-268 | with distinct tariffs, one cycle's row has no duplicate meters |
| MeterSetup.CalibrationOnlyForNamedCycle | custom_components/utility_meter_next_gen/sensor.py:178-251 | in a multi-cycle entry only the cycle named by the apply field receives the calibration values; every other cycle starts at 0 |
| MeterSetup.SetupAsWritten | custom_components/utility_meter_next_gen/sensor.py:174 | as written, a multi-cycle list of at most one cycle fails the `len(meter_type) > 1` guard and raises TypeError in the single branch, and only such a list does (also lines 304-326 and 649) |
| MeterSetup.OneCycleMultiEntryFails | custom_components/utility_meter_next_gen/sensor.py:174 | a multi-cycle entry with exactly one cycle makes the setup as written raise (also line 649) |
| MeterSetup.OneCycleMultiEntryBuildsItsCycle | custom_components/utility_meter_next_gen/sensor.py:175-302 | with the guard corrected, a one-cycle entry creates one meter per tariff choice, each with that cycle |
| MeterSetup.GuardAgreesOtherwise | custom_components/utility_meter_next_gen/sensor.py:171-405 | apart from the one-cycle case, the setup as written and the corrected setup create the same entities |
| MeterConfigFlow.SensorError | custom_components/utility_meter_next_gen/config_flow.py:82-98 | a sensor passes the check exactly when it is named, exists, and is neither unavailable nor unknown; a non-numeric state is not an error |
| MeterConfigFlow.UserInput | custom_components/utility_meter_next_gen/config_flow.py:93-103 | a submission without a price sensor gets `source_calc_sensor` = None and nothing else changes; one with a price sensor is kept as is |
| MeterConfigFlow.UserStepStoresMissingCalcSensorAsNone | custom_components/utility_meter_next_gen/config_flow.py:102-110 | a valid user step without a price sensor stores `source_calc_sensor` = None and an empty meter list, and keeps every other submitted key |
| MeterConfigFlow.NonNumericSourceIsAccepted | custom_components/utility_meter_next_gen/config_flow.py:285-294 | a source whose state is not a number raises no error, because the state check swallows the decimal error: the step proceeds (also lines 88-91) |
| MeterConfigFlow.WithDefaults | custom_components/utility_meter_next_gen/config_flow.py:137-212 | defaults are written before `update(user_input)`: every submitted key wins, every default not submitted is set, other stored keys are kept and no key appears from nowhere |
| MeterConfigFlow.NoneIfUnset | custom_components/utility_meter_next_gen/config_flow.py:235-246 | an apply field that is missing or "none" becomes None; any other value is kept and no other key changes |
| MeterConfigFlow.CronStepDefaults | custom_components/utility_meter_next_gen/config_flow.py:124-151 | a cron entry stores no cycle, no calibration target, no tariffs and the zero offset unless the user set them, and is created iff a name is known |
| MeterConfigFlow.PredefinedInputWins | custom_components/utility_meter_next_gen/config_flow.py:172-180 | every key the user submits in the predefined step is stored as submitted |
| MeterConfigFlow.MultiStep2NeverStoresNone | custom_components/utility_meter_next_gen/config_flow.py:235-247 | after the second multi-cycle step neither apply field holds the text "none" |
| MeterConfigFlow.ConfigFlow.constructor | custom_components/utility_meter_next_gen/config_flow.py:55-62 | a new flow has no data |
| MeterConfigFlow.ConfigFlow.User | custom_components/utility_meter_next_gen/config_flow.py:76-122 | the result and new data are those of the user step on the old data |
| MeterConfigFlow.ConfigFlow.Cron | custom_components/utility_meter_next_gen/config_flow.py:124-155 | the result and new data are those of the cron step |
| MeterConfigFlow.ConfigFlow.Predefined | custom_components/utility_meter_next_gen/config_flow.py:157-188 | the result and new data are those of the predefined step |
| MeterConfigFlow.ConfigFlow.Multi1 | custom_components/utility_meter_next_gen/config_flow.py:190-219 | the result and new data are those of the first multi-cycle step |
| MeterConfigFlow.ConfigFlow.Multi2 | custom_components/utility_meter_next_gen/config_flow.py:220-255 | the result and new data are those of the second multi-cycle step |
| MeterConfigFlow.PriceSensorChoice | custom_components/utility_meter_next_gen/config_flow.py:304-323 | the normalised options always name a price sensor, None when it was removed or left out |
| MeterConfigFlow.NormaliseOptions | custom_components/utility_meter_next_gen/config_flow.py:302-352 | the normalised options always name a price sensor, carry every field the stored config type pins with its pinned value, keep stored empty tariffs empty, and come with the price-sensor check's error |
| MeterConfigFlow.RemovedPriceSensorIsCleared | custom_components/utility_meter_next_gen/config_flow.py:304-323 | removing the price sensor, or leaving it out, stores None for it and turns the calculated sensor off, with no error |
| MeterConfigFlow.EmptyTariffsStayEmpty | custom_components/utility_meter_next_gen/config_flow.py:329-330 | an entry stored without tariffs keeps none, whatever is submitted |
| MeterConfigFlow.ConfigTypeFixesFields | custom_components/utility_meter_next_gen/config_flow.py:331-345 | cron pins no cycle, the zero offset and no apply fields; predefined pins no cron and no apply fields; multi pins no cron and the zero offset; each keeps its config type |
| MeterConfigFlow.OtherOptionsAreKept | custom_components/utility_meter_next_gen/config_flow.py:302-354 | any option the type does not pin and the normalisation does not touch is stored as submitted |
| MeterConfigFlow.OptionsInitAsWritten | custom_components/utility_meter_next_gen/config_flow.py:297-364 | as written, a submission always creates the entry from the normalised options under the entry's title, whatever error the price-sensor check found |
| MeterConfigFlow.MissingPriceSensorIsSaved | custom_components/utility_meter_next_gen/config_flow.py:313-354 | as written, a price sensor that does not exist sets an error, yet the entry is created with it |
| MeterConfigFlow.OptionsFlow.constructor | custom_components/utility_meter_next_gen/config_flow.py:265-269 | the flow starts from a copy of the entry's options |
| MeterConfigFlow.OptionsFlow.Init | custom_components/utility_meter_next_gen/config_flow.py:297-364 | with no input the form is shown; otherwise the form is shown again with the price-sensor error when there is one, and else the entry is created from the normalised options |
| BalenaModels.ParseDatetime | custom_components/balena_cloud/models.py:261-273 | empty or missing text gives no time; any other text is parsed by ISO 8601 after the "Z" rewrite, a parse failure giving none |
| BalenaModels.IsoText | custom_components/balena_cloud/models.py:268-271 | a trailing "Z" is replaced by "+00:00"; any other text is left unchanged |
| BalenaModels.ZuluIsUtc | custom_components/balena_cloud/models.py:268-271 | a time ending in "Z" parses exactly like the same time ending in "+00:00" |
| BalenaModels.FleetFromApi | custom_components/balena_cloud/models.py:23-35 | a fleet takes id, name, slug and device type from the data, defaulting to 0 and empty texts |
| BalenaModels.RoundTenths | custom_components/balena_cloud/models.py:70 | `round(x, 1)` gives a whole number of tenths at most half a tenth from x, an even number of tenths at an exact tie |
| BalenaModels.RoundTenthsBetween | custom_components/balena_cloud/models.py:70 | a value between two integers stays between them after rounding to tenths |
| BalenaModels.Percentage | custom_components/balena_cloud/models.py:74-93 | a memory or storage percentage exists exactly when usage and total are both present and total > 0; it is the share usage × 100 / total rounded to tenths, and lies in 0..100 when usage lies in 0..total |
| BalenaModels.ShareBetween | custom_components/balena_cloud/models.py:81 | the share times the total is usage × 100, and the share and its rounding lie in 0..100 when usage lies in 0..total |
| BalenaModels.CpuPercentage | custom_components/balena_cloud/models.py:66-71 | the CPU percentage exists iff the usage is reported, and is within half a tenth of it |
| BalenaModels.TemperatureRounded | custom_components/balena_cloud/models.py:95-100 | the shown temperature exists iff one is reported, and is within half a tenth of it |
| BalenaModels.MemoryShareIsRounded | custom_components/balena_cloud/models.py:81 | 9501 of 10000 bytes reads as 95.0%, not 95.01% |
| BalenaModels.DeviceFromApi | custom_components/balena_cloud/models.py:129-154 | uuid defaults to ""; a non-empty device name wins over `name`; fleet id defaults to 0; a non-empty fleet-name argument wins over the nested application name; online defaults to false and status to "offline"; there are no metrics yet |
| BalenaModels.EmptyDeviceDefaults | custom_components/balena_cloud/models.py:129-154 | a dictionary with none of the keys gives an offline device of fleet 0 with no uuid and no last-seen times |
| BalenaModels.DisplayName | custom_components/balena_cloud/models.py:161-166 | the display name is the device name when it is non-empty, otherwise the uuid |
| BalenaModels.LastSeen | custom_components/balena_cloud/models.py:178-185 | last seen is the last connectivity event when there is one, otherwise the last VPN event (or none) |
| BalenaModels.UpdateMetrics | custom_components/balena_cloud/models.py:187-196 | the whole metrics record is replaced by the six fields read from the data, and nothing else of the device changes |
| BalenaModels.UpdateMetricsForgetsMissingKeys | custom_components/balena_cloud/models.py:187-196 | a key missing from the new data clears the old value instead of keeping it |
| BalenaModels.ServiceStatusIgnoresCase | custom_components/balena_cloud/models.py:222-230 | running and failed ignore the case of the status, and a service is never both |
| BalenaFleet.CountOnline | custom_components/balena_cloud/fleet_overview.py:80 | the online count never exceeds the number of devices |
| BalenaFleet.CountUpdating | custom_components/balena_cloud/fleet_overview.py:82 | the updating count never exceeds the number of devices |
| BalenaFleet.CountIdle | custom_components/balena_cloud/fleet_overview.py:83 | the idle count never exceeds the number of devices |
| BalenaFleet.Bump | custom_components/balena_cloud/fleet_overview.py:89-95 | `counts[k] = counts.get(k, 0) + 1` adds at most one new key |
| BalenaFleet.BumpCounts | custom_components/balena_cloud/fleet_overview.py:89-95 | one increment adds one to the total and to the counted key's count only |
| BalenaFleet.BumpKeepsKeysDistinct | custom_components/balena_cloud/fleet_overview.py:89-95 | an increment keeps the keys distinct and introduces no key but the counted one |
| BalenaFleet.TallyIsExact | custom_components/balena_cloud/fleet_overview.py:86-95 | each key is counted exactly as often as it occurs, the keys are distinct, and the counts sum to the number of devices |
| BalenaFleet.RoundedMemoryIsOnlyAWarning | custom_components/balena_cloud/fleet_overview.py:245-259 | memory at 9501 of 10000 bytes rounds to 95.0%, which is a warning and not critical |
| BalenaFleet.AssessDeviceHealth | custom_components/balena_cloud/fleet_overview.py:232-273 | unknown iff there are no metrics; critical iff some metric is beyond its critical limit (cpu or memory > 95, storage > 98, temperature > 85); warning iff none is critical and some is in its warning band |
| BalenaFleet.QuietMetricsAreHealthy | custom_components/balena_cloud/fleet_overview.py:252-273 | a device with metrics and none above its warning floor is healthy |
| BalenaFleet.CountHealth | custom_components/balena_cloud/fleet_overview.py:186-198 | no bucket counts more devices than there are |
| BalenaFleet.HealthCountsPartition | custom_components/balena_cloud/fleet_overview.py:186-198 | critical + warning + healthy equals the number of devices: offline devices count as critical and unknown ones as healthy |
| BalenaFleet.OfflineAreCritical | custom_components/balena_cloud/fleet_overview.py:187-189 | every offline device is counted as critical |
| BalenaFleet.CalculateFleetHealth | custom_components/balena_cloud/fleet_overview.py:170-230 | the loop's counters, alerts and overall status are the fleet's health summary |
| BalenaFleet.FleetHealthIsConsistent | custom_components/balena_cloud/fleet_overview.py:186-222 | the buckets add up to the fleet; overall is healthy iff no critical or warning device, warning iff no critical but some warning, critical iff some critical; the critical alert appears iff there is a critical device |
| BalenaFleet.OfflineMakesFleetCritical | custom_components/balena_cloud/fleet_overview.py:187-222 | one offline device makes the whole fleet critical |
| BalenaFleet.AlertsFollowOfflineShare | custom_components/balena_cloud/fleet_overview.py:200-211 | the "High" offline alert appears iff more than 50% of the devices are offline, the "Elevated" one iff more than 25% and at most 50% |
| BalenaFleet.ShareAbove | custom_components/balena_cloud/fleet_overview.py:201-208 | comparing the offline percentage with 50 and 25 is the same as comparing offline × 2 and offline × 4 with the total |
| BalenaFleet.OfflineAlerts | custom_components/balena_cloud/fleet_overview.py:204-211 | the "High" alert is raised iff offline × 2 > total, and "Elevated" iff not and offline × 4 > total |
| BalenaFleet.EmptyFleetHasNoCounts | custom_components/balena_cloud/fleet_overview.py:65-76 | a fleet without devices has every count 0, empty distributions and no health summary |
| BalenaFleet.FleetStatisticsOf | custom_components/balena_cloud/fleet_overview.py:61-120 | the loops' counts and distributions are the fleet's statistics |
| BalenaFleet.StatisticsAddUp | custom_components/balena_cloud/fleet_overview.py:79-95 | online + offline = total = the number of devices; the device-type and status distributions each sum to the total and count each value as often as it occurs |
| BalenaFleet.StateText | custom_components/balena_cloud/fleet_overview.py:297-301 | the state starts with the online count, read back unchanged, and ends with " online" |
| BalenaCoordinator.FleetsAreKeyedById | custom_components/balena_cloud/coordinator.py:86-89 | after a fleet update an id is cached iff some fetched fleet has it, and the cached fleet carries that id |
| BalenaCoordinator.FailedFetchAborts | custom_components/balena_cloud/coordinator.py:105-160 | once the fetch for one selected fleet raises, the whole device update fails: only unparsable ids are skipped |
| BalenaCoordinator.UnrequestedIsSkipped | custom_components/balena_cloud/coordinator.py:106-113 | a selected id that does not parse as an int, or is not a known fleet, adds nothing and fetches nothing |
| BalenaCoordinator.OnlyKnownFleetsAreFetched | custom_components/balena_cloud/coordinator.py:107-110 | the gathered devices depend only on what the API returns for known fleets |
| BalenaCoordinator.FleetNameFor | custom_components/balena_cloud/coordinator.py:123-128 | a device's fleet name is its known fleet's name when its fleet id is non-zero and cached, otherwise "" |
| BalenaCoordinator.CachedDevicesAreWellFormed | custom_components/balena_cloud/coordinator.py:119-150 | every cached device is stored under its own uuid, is online unless offline devices are included, and comes from a fetched record that passed the filter |
| BalenaCoordinator.LastDeviceIsCached | custom_components/balena_cloud/coordinator.py:130-150 | the last fetched device that passes the filter is cached under its uuid: a later record wins over an earlier one with the same uuid |
| BalenaCoordinator.Coordinator.constructor | custom_components/balena_cloud/coordinator.py:23-44 | a new coordinator keeps its selected fleets and offline flag and caches no fleets and no devices |
| BalenaCoordinator.Coordinator.UpdateFleets | custom_components/balena_cloud/coordinator.py:80-95 | a successful fetch replaces the fleet cache by exactly the fetched fleets keyed by id; a failed fetch leaves it and reports failure; devices are untouched |
| BalenaCoordinator.Coordinator.GatherSelected | custom_components/balena_cloud/coordinator.py:103-113 | the loop over selected fleets gathers exactly the devices of the requested known fleets, in order, or fails as the first failing fetch does |
| BalenaCoordinator.Coordinator.UpdateDevices | custom_components/balena_cloud/coordinator.py:97-160 | with selected fleets the devices are gathered per fleet, otherwise all are fetched; on success the device cache is rebuilt from them, on failure it is left; fleets are untouched |
| BalenaCoordinator.Coordinator.RunAction | custom_components/balena_cloud/coordinator.py:162-234 | an action calls the API iff the device is cached, returns true only if it is and the API succeeded, and refreshes only after such a success when the action refreshes |
| BalenaCoordinator.Coordinator.GetDeviceUrl | custom_components/balena_cloud/coordinator.py:236-242 | the URL getter calls the API iff the device is cached, and returns None otherwise |
| BalenaCoordinator.Coordinator.DevicesByFleet | custom_components/balena_cloud/coordinator.py:252-256 | exactly the cached devices of that fleet id, unchanged |
| BalenaCoordinator.Coordinator.OnlineCount | custom_components/balena_cloud/coordinator.py:258-266 | the online count never exceeds the total count |
| BalenaCoordinator.SubsetCard | custom_components/balena_cloud/coordinator.py:258-266 | a subset of the cached uuids is no larger than the whole |
| BalenaCoordinator.OnlyOnlineDevicesCached | custom_components/balena_cloud/coordinator.py:258-266 | when offline devices are excluded and the cache holds only online ones, the online count equals the total (also lines 133-134) |
| BalenaServices.OwnerIn | custom_components/balena_cloud/services.py:75-82 | the owner found is a registered entry whose coordinator caches the device; none is found only when no registered coordinator caches it |
| BalenaServices.ServiceHandler.constructor | custom_components/balena_cloud/services.py:60-63 | a new handler has no coordinators |
| BalenaServices.ServiceHandler.Register | custom_components/balena_cloud/services.py:65-69 | the entry now maps to the coordinator, overwriting an earlier one, and a new entry goes last in iteration order |
| BalenaServices.ServiceHandler.Unregister | custom_components/balena_cloud/services.py:71-73 | the entry is removed and the others keep their order; an unknown entry changes nothing |
| BalenaServices.ServiceHandler.CoordinatorFor | custom_components/balena_cloud/services.py:75-82 | the loop returns the first registered coordinator caching the device, or None when there is none |
| BalenaServices.ServiceHandler.HandleAction | custom_components/balena_cloud/services.py:145-317 | a handler runs an action iff some coordinator owns the device; otherwise it returns without calling the API or refreshing |
| BalenaServices.IndexOf | custom_components/balena_cloud/services.py:73 | the index found holds the element looked for |
| BalenaServices.RemoveKeepsDistinct | custom_components/balena_cloud/services.py:73 | removing one element of a duplicate-free order keeps it duplicate-free and removes exactly that element |
| BalenaServices.SetupServices | custom_components/balena_cloud/services.py:84-124 | setup registers exactly the services not already registered, each once |
| BalenaServices.RemoveServices | custom_components/balena_cloud/services.py:126-143 | removal removes exactly the services that exist, each once |
| BalenaApi.Pow2 | custom_components/balena_cloud/api.py:48 | `2**attempt` is at least 1 |
| BalenaApi.Retry | custom_components/balena_cloud/api.py:32-70 | the loop ends as the retry outcome says, waits exactly the back-off sequence, makes at most max_retries + 1 attempts, and all of them when every attempt fails |
| BalenaApi.FirstSuccessWins | custom_components/balena_cloud/api.py:39-56 | the first successful attempt's value is returned at once, after one wait of delay × 2^k per earlier retryable failure |
| BalenaApi.AllAttemptsFail | custom_components/balena_cloud/api.py:47-68 | when every attempt fails retryably, the error is raised from the last one, after waits delay × 2^k for every attempt but the last |
| BalenaApi.FatalIsNotRetried | custom_components/balena_cloud/api.py:40-45 | an error other than a request or SDK error propagates from the first attempt without any wait |
| BalenaApi.DefaultBackOff | custom_components/balena_cloud/api.py:32-56 | with the default three retries and one-second delay, a call that always fails waits 1, 2 and 4 seconds and fails after its fourth attempt |
| BalenaApi.Handled | custom_components/balena_cloud/api.py:111-127 | as written, one attempt of a decorated method never raises a retryable error: a successful call is kept, and any raised error becomes a Home Assistant error or the handler's default |
| BalenaApi.HandledIsNeverRetried | custom_components/balena_cloud/api.py:37-45 | as written, the wrapper around a decorated method makes one attempt and no wait, returning its value or raising its Home Assistant error |
| BalenaApi.PassingSdkErrors | custom_components/balena_cloud/api.py:42-45 | a body that lets request and SDK errors through raises a retryable error exactly when its SDK call did |
| BalenaApi.PassedSdkErrorsAreRetried | custom_components/balena_cloud/api.py:32-68 | with request and SDK errors let through, an SDK call that always raises them is tried four times, waiting 1, 2 and 4 seconds, while as written it fails at once with the handler's error |
| BalenaApi.ExistingIds | custom_components/balena_cloud/api.py:365 | the name-to-id dictionary has exactly the names of the existing variables |
| BalenaApi.OpsFor | custom_components/balena_cloud/api.py:368-376 | one operation per submitted variable, in order, chosen by the name's presence |
| BalenaApi.UpsertEnvironment | custom_components/balena_cloud/api.py:356-387 | when listing the variables fails, nothing is done and the result is false; otherwise one operation per variable runs, and the result is true iff none of them failed |
| BalenaApi.UpsertCreatesOnlyNewNames | custom_components/balena_cloud/api.py:368-376 | a variable is created iff no existing variable has its name, and otherwise updated by the id of an existing variable with that name |
| BalenaApi.LastIdIsListed | custom_components/balena_cloud/api.py:365 | the id the dictionary keeps for a name belongs to an existing variable with that name |
| BalenaApi.DevicesQuery | custom_components/balena_cloud/api.py:165-173 | devices are queried by application iff a non-zero fleet id is given, and then by that id |
| BalenaEntities.KeysAreDistinct | custom_components/balena_cloud/sensor.py:73-152 | the seven sensor descriptions carry pairwise different keys |
| BalenaEntities.UniqueId | custom_components/balena_cloud/sensor.py:201 | a sensor's unique id is the device uuid, an underscore, then the description key |
| BalenaEntities.UniqueIdsAreDistinct | custom_components/balena_cloud/sensor.py:201 | two sensors of one device never share a unique id |
| BalenaEntities.SensorAvailable | custom_components/balena_cloud/sensor.py:207-237 | unavailable when the coordinator failed or the device is gone; otherwise device-side sensors follow the device's online flag while fleet name and MAC address stay available |
| BalenaEntities.DocumentedSensorAvailable | custom_components/balena_cloud/sensor.py:209-215 | as the docstring describes it: unavailable when the coordinator failed or the device is gone, and otherwise every sensor but the fleet name follows the online flag |
| BalenaEntities.OfflineMacStaysAvailable | custom_components/balena_cloud/sensor.py:225-234 | as written, the MAC sensor of an offline device is available, where the docstring's reading makes it unavailable |
| BalenaEntities.DocumentedDiffersOnlyForMac | custom_components/balena_cloud/sensor.py:207-237 | the code and the docstring disagree exactly on the MAC sensor of a cached, offline device under a working coordinator |
| BalenaEntities.SensorName | custom_components/balena_cloud/sensor.py:239-244 | the name is the device's display name and the description name, or "Unknown Device" and the description name when the device is gone |
| BalenaEntities.NativeValue | custom_components/balena_cloud/sensor.py:246-251 | no value for a missing device; otherwise the description's value of that device |
| BalenaEntities.NoMetricsNoReadings | custom_components/balena_cloud/sensor.py:78-124 | a device without metrics reports no CPU, memory, storage or temperature reading |
| BalenaEntities.ExtraAttributes | custom_components/balena_cloud/sensor.py:253-281 | empty for a missing device; otherwise the sensor-specific attributes override the device attributes and every None value is dropped |
| BalenaEntities.SpecificNoneHidesAttribute | custom_components/balena_cloud/sensor.py:88-97 | without metrics the memory sensor drops its memory attribute yet keeps the device uuid (also lines 276-281) |
| BalenaEntities.MissingDeviceIsNoop | custom_components/balena_cloud/switch.py:98-134 | turning the switch on or off for a device the coordinator lacks leaves the cached URL as it was |
| BalenaEntities.ToggleOutcomes | custom_components/balena_cloud/switch.py:104-157 | a refused or raising enable or disable keeps the cached URL; a successful disable clears it |
| BalenaEntities.EnabledWithoutUrlStaysOff | custom_components/balena_cloud/switch.py:92-116 | an enable that succeeds while no URL is available yet leaves the switch off |
| BalenaEntities.FailedUpdateKeepsUrl | custom_components/balena_cloud/switch.py:159-166 | a refresh whose fetch raises keeps the cached URL |
| BalenaEntities.SwitchAttributes | custom_components/balena_cloud/switch.py:168-179 | the public URL attribute is present exactly when a non-empty URL is cached, and the device uuid exactly when the device is known |
| BalenaEntities.PublicUrlSwitch.constructor | custom_components/balena_cloud/switch.py:61-72 | a new switch belongs to its uuid, has no cached URL and reads as off |
| BalenaEntities.PublicUrlSwitch.Name | custom_components/balena_cloud/switch.py:84-89 | the display name plus "Public URL", or "Unknown Device Public URL" for a missing device |
| BalenaEntities.PublicUrlSwitch.TurnOn | custom_components/balena_cloud/switch.py:98-128 | the cached URL becomes what the turn-on step gives from the old one and the coordinator's replies |
| BalenaEntities.PublicUrlSwitch.TurnOff | custom_components/balena_cloud/switch.py:130-157 | the cached URL becomes what the turn-off step gives |
| BalenaEntities.PublicUrlSwitch.Update | custom_components/balena_cloud/switch.py:159-166 | the cached URL becomes what the refresh step gives |
| EskomCalendar.ApiEventsFrom | custom_components/eskom_loadshedding/calendar.py:99-117 | the listing succeeds exactly when every start and end parses, and then holds one event per API event, in order, with its parsed times and its note |
| EskomCalendar.NextEvent | custom_components/eskom_loadshedding/calendar.py:74-82 | with no API events there is no next event |
| EskomCalendar.NextEventIsFirstOfCalendar | custom_components/eskom_loadshedding/calendar.py:74-117 | the next event is the first event the calendar would list |
| EskomCalendar.ClockTokens | custom_components/eskom_loadshedding/calendar.py:196 | every token found is a two-digit hour and a two-digit minute |
| EskomCalendar.MidnightSlotTokens | custom_components/eskom_loadshedding/calendar.py:196 | a slot that runs past midnight yields its start and its end clock, in that order |
| EskomCalendar.StageSummary | custom_components/eskom_loadshedding/calendar.py:213-215 | the summary of the n-th stage list (from zero) reads "Stage " and n + 1 |
| EskomCalendar.RangeEvent | custom_components/eskom_loadshedding/calendar.py:198-216 | a slot yields an event exactly when the date parses and two valid clocks are found; the event ends no earlier than it starts and less than a day later, and is named after its stage |
| EskomCalendar.ThenUnit | custom_components/eskom_loadshedding/calendar.py:190-218 | appending to an empty event list changes nothing, failures included |
| EskomCalendar.ThenAssoc | custom_components/eskom_loadshedding/calendar.py:190-218 | appending event lists in the loops is associative, failures included |
| EskomCalendar.RangeEvents | custom_components/eskom_loadshedding/calendar.py:193-216 | the loop over one stage's slots yields the events of those slots, in order, or the first failure |
| EskomCalendar.DayEvents | custom_components/eskom_loadshedding/calendar.py:192-216 | the loop over one day's stages yields the events of every stage, in order, or the first failure |
| EskomCalendar.ScheduleEvents | custom_components/eskom_loadshedding/calendar.py:183-219 | the loop over the schedule's days yields the events of every day, in order, or the first failure; no schedule yields none |
| EskomCalendar.RangesYield | custom_components/eskom_loadshedding/calendar.py:193-216 | a successful stage yields one well-formed event per slot, each named after that stage |
| EskomCalendar.StagesYield | custom_components/eskom_loadshedding/calendar.py:192-216 | a successful day yields as many well-formed events as its stages have slots |
| EskomCalendar.ScheduleYield | custom_components/eskom_loadshedding/calendar.py:190-218 | a successful schedule yields as many well-formed events as all its days have slots |
| EskomCalendar.OneSlotDay | custom_components/eskom_loadshedding/calendar.py:190-218 | a second-stage slot from 22:30 to 00:30 becomes one "Stage 2" event ending the next day |
| EskomSensor.UniqueId | custom_components/eskom_loadshedding/sensor.py:75-79 | a sensor's unique id is the entry id, a hyphen, then the sensor id |
| EskomSensor.UniqueIdsAreDistinct | custom_components/eskom_loadshedding/sensor.py:75-79 | two sensors of one entry with different ids never share a unique id |
| EskomSensor.StatusValue | custom_components/eskom_loadshedding/sensor.py:86-96 | a falsy stage gives no value; a number is the value; a text is converted and a text that is not an integer raises |
| EskomSensor.ZeroTextIsAStage | custom_components/eskom_loadshedding/sensor.py:94-96 | the text "0" is truthy and reads as stage 0, while the number 0 gives no value |
| EskomSensor.StatusAttributes | custom_components/eskom_loadshedding/sensor.py:103-125 | the attributes exist exactly when the update time is present and parses, and they carry the area name |
| EskomSensor.LeadingDigits | custom_components/eskom_loadshedding/sensor.py:155 | the longest run of digits the text starts with |
| EskomSensor.FirstNumber | custom_components/eskom_loadshedding/sensor.py:155-157 | there is a number exactly when the text holds a digit |
| EskomSensor.SkipText | custom_components/eskom_loadshedding/sensor.py:155-157 | text without digits before a number does not change which number is found |
| EskomSensor.AllLeadingDigits | custom_components/eskom_loadshedding/sensor.py:155 | a text of digits is its own leading run |
| EskomSensor.StageNoteReadsStage | custom_components/eskom_loadshedding/sensor.py:153-157 | a note "Stage n" gives n |
| EskomSensor.AreaStatus | custom_components/eskom_loadshedding/sensor.py:149-161 | 0 with no events; otherwise the first number in the first note, or that note itself when it holds no digit |
| EskomSensor.AreaAttributesOf | custom_components/eskom_loadshedding/sensor.py:168-188 | the area is loadshedding exactly when the current time lies within the first event; never with no events |
| EskomSensor.QuotaValue | custom_components/eskom_loadshedding/sensor.py:212-221 | a value exactly when an allowance is present, and then it is the limit minus the count |
| EskomSensor.QuotaAttributesOf | custom_components/eskom_loadshedding/sensor.py:228-240 | attributes exactly when an allowance is present, carrying its limit, count and type |
| EskomSensor.QuotaIsConsistent | custom_components/eskom_loadshedding/sensor.py:212-240 | the remaining attribute is the limit minus the count and equals the sensor's value |
| Maintenance.NextDayOrdinal | custom_components/home_maintenance/binary_sensor.py:82-84 | the day after a valid date is valid and one day later on the day count that timedelta uses |
| Maintenance.OrdinalIsInjective | custom_components/home_maintenance/binary_sensor.py:82-84 | two valid dates with the same day count are the same date |
| Maintenance.InRangeIffOrdinal | custom_components/home_maintenance/binary_sensor.py:82-84 | a calendar date is a Python date, in the years 1 to 9999, exactly when its day count lies between 1 and 3652059 |
| Maintenance.AddDaysOrdinal | custom_components/home_maintenance/binary_sensor.py:82-84 | adding n days moves the day count by exactly n, for any sign of n; the result is a Python date exactly when the new day count lies between 1 and 3652059 |
| Maintenance.AddTimedelta | custom_components/home_maintenance/binary_sensor.py:82-84 | adding a timedelta of n days succeeds exactly when the new day count stays in the Python range, and then lands exactly n days later; otherwise it raises OverflowError |
| Maintenance.AddMonths | custom_components/home_maintenance/binary_sensor.py:85-86 | adding n months gives a valid date n months on, keeping the day or clipping it to the last day of the target month, as relativedelta does |
| Maintenance.AddMonthsKeepsEarlyDays | custom_components/home_maintenance/binary_sensor.py:85-86 | a day up to the 28th survives any month step, and a zero step changes nothing |
| Maintenance.EndOfJanuaryPlusOneMonth | custom_components/home_maintenance/binary_sensor.py:85-86 | 31 January plus one month is the last day of February, leap years included |
| Maintenance.AddRelativeMonths | custom_components/home_maintenance/binary_sensor.py:85-86 | adding a relativedelta of n months raises exactly when the target year leaves 1 to 9999; otherwise it is the clamped month step |
| Maintenance.NextDue | custom_components/home_maintenance/binary_sensor.py:77-88 | the next due date is n days, 7n days or n months after the last date for those interval types, and the last date itself for any other type; the days, weeks and months steps raise exactly when the result would leave the years 1 to 9999 |
| Maintenance.ZeroIntervalIsDueAtOnce | custom_components/home_maintenance/binary_sensor.py:77-88 | a zero interval is due on the day it was last performed, whatever the type |
| Maintenance.LastDatePlusOneDayRaises | custom_components/home_maintenance/binary_sensor.py:82-84 | one day after 9999-12-31 cannot be represented, so the days step raises |
| Maintenance.LastMonthPlusOneMonthRaises | custom_components/home_maintenance/binary_sensor.py:85-86 | one month after any day of December 9999 cannot be represented, so the months step raises |
| Maintenance.AsUtc | custom_components/home_maintenance/binary_sensor.py:105-106 | reading a naive time in the host zone gives a valid UTC time for the same instant; it raises exactly when the UTC date would leave the Python range |
| Maintenance.NaiveTimeInUtcZone | custom_components/home_maintenance/binary_sensor.py:105-106 | in a UTC host zone a naive time only gains the UTC offset |
| Maintenance.BaseAttributes | custom_components/home_maintenance/binary_sensor.py:95-124 | the attributes always carry the last-performed text, the interval and the next due value, and carry the tag id exactly when it is non-empty |
| Maintenance.LastPerformed | custom_components/home_maintenance/binary_sensor.py:92 | the parsed last-performed time, or none exactly when the text does not parse to a valid time |
| Maintenance.LastInUtc | custom_components/home_maintenance/binary_sensor.py:105-106 | an aware last-performed time is kept as it is; a naive one is read in the host zone and moved to UTC |
| Maintenance.UpdateStep | custom_components/home_maintenance/binary_sensor.py:90-124 | an unparsable time makes the maintenance task due with next due "unknown"; otherwise the maintenance task is due exactly when today's midnight has reached the due date's midnight, naive times read in the host zone; when the UTC conversion or the date step raises there is no new state |
| Maintenance.DueTheDayItWasDone | custom_components/home_maintenance/binary_sensor.py:90-124 | a task with a zero interval is due on the day it was performed |
| Maintenance.UpdateRaisesPastTheLastDate | custom_components/home_maintenance/binary_sensor.py:90-124 | a task last performed on 9999-12-31 with a one-day interval cannot be updated: the step raises |
| Maintenance.DueExactlyFromTheDueDate | custom_components/home_maintenance/binary_sensor.py:108-116 | with an interval of n days the due date exists once today has reached it, and the maintenance task is due exactly from day n on |
| Maintenance.MaintenanceSensor.constructor | custom_components/home_maintenance/binary_sensor.py:45-59 | a new sensor holds its task and the state the update step computes for it |
| Maintenance.MaintenanceSensor.Create | custom_components/home_maintenance/binary_sensor.py:45-59 | no sensor is built exactly when its first update step raises; otherwise it holds the state that step computes |
| Maintenance.MaintenanceSensor.Update | custom_components/home_maintenance/binary_sensor.py:90-128 | the sensor's state becomes what the update step computes for its task and the current time; a step that raises leaves the state as it was and is reported |
| Ms365Permissions.SharedSuffix | custom_components/ms365_calendar/integration/permissions_integration.py:34 | the shared suffix is the shared permission exactly when a shared mailbox is configured, and empty otherwise |
| Ms365Permissions.CalendarScope | custom_components/ms365_calendar/integration/permissions_integration.py:47-60 | basic calendar access wins over update access; otherwise update access asks for read-write and its absence for read, each with the shared suffix |
| Ms365Permissions.GroupScopes | custom_components/ms365_calendar/integration/permissions_integration.py:62-67 | groups add one scope, read-write or read according to update access; no groups add none |
| Ms365Permissions.CalendarRequested | custom_components/ms365_calendar/integration/permissions_integration.py:37-45 | a non-empty list is returned as it is; an empty one becomes the base scopes, then the calendar scope, then the group scopes |
| Ms365Permissions.CalendarRequestedIsStable | custom_components/ms365_calendar/integration/permissions_integration.py:37-45 | asking for the calendar scopes a second time returns the same list |
| Ms365Permissions.OneCalendarScope | custom_components/ms365_calendar/integration/permissions_integration.py:47-67 | exactly one calendar scope is added, plus one for groups; with both basic and update access the basic scope is the one asked for |
| Ms365Permissions.CalendarPermissions.constructor | custom_components/ms365_calendar/integration/permissions_integration.py:30-35 | the shared suffix follows the shared mailbox, the flags default to false, and nothing has been requested yet |
| Ms365Permissions.CalendarPermissions.RequestedPermissions | custom_components/ms365_calendar/integration/permissions_integration.py:37-45 | the requested list becomes what the calendar request gives from the old list, and is returned |
| Ms365Permissions.TodoRequested | custom_components/ms365_todo/integration/permissions_integration.py:22-35 | a non-empty list is returned as it is; an empty one becomes the base scopes and then the to-do scope, read-write exactly when update access is on |
| Ms365Permissions.TodoRequestedIsStable | custom_components/ms365_todo/integration/permissions_integration.py:22-29 | the to-do request is never empty and asking a second time returns the same list |
| Ms365Permissions.TodoPermissions.constructor | custom_components/ms365_todo/integration/permissions_integration.py:16-20 | update access defaults to false and nothing has been requested yet |
| Ms365Permissions.TodoPermissions.RequestedPermissions | custom_components/ms365_todo/integration/permissions_integration.py:22-29 | the requested list becomes what the to-do request gives from the old list, and is returned |
| Ms365Events.ToUtcReadsBack | custom_components/ms365_calendar/integration/coordinator_integration.py:179-189 | a day becomes local midnight of that day; an aware time keeps its instant; a naive time is read in the host zone |
| Ms365Events.DayStartsItsTimes | custom_components/ms365_calendar/integration/coordinator_integration.py:179-189 | a time of a day lies at or after that day's start and before the next day's start |
| Ms365Store.FindDoubleFrom | custom_components/ms365_calendar/integration/store_integration.py:52 | the first double underscore at or after a position, or -1 when there is none |
| Ms365Store.FindDouble | custom_components/ms365_calendar/integration/store_integration.py:52 | the first double underscore in a key, or -1 when there is none |
| Ms365Store.BeautifyKey | custom_components/ms365_calendar/integration/store_integration.py:51-53 | a key with no double underscore, or one that starts with it, is kept; otherwise everything up to and including the first one is dropped |
| Ms365Store.MangledNameIsUnmangled | custom_components/ms365_calendar/integration/store_integration.py:51-53 | a name mangled as underscore, class name, double underscore, name turns back into the name |
| Ms365Store.PlainAndDunderNamesAreKept | custom_components/ms365_calendar/integration/store_integration.py:51-53 | names without a double underscore, or starting with one, are stored under their own name |
| Ms365Store.Encode | custom_components/ms365_calendar/integration/store_integration.py:40-45 | a datetime is stored as its text, a value-carrying object as its value, and anything else as it is |
| Ms365Store.EncodedKeys | custom_components/ms365_calendar/integration/store_integration.py:27-48 | the stored keys are exactly the cleaned attribute names that are not excluded and do not start with an underscore |
| Ms365Store.Default | custom_components/ms365_calendar/integration/store_integration.py:27-48 | an object without attributes encodes to nothing; otherwise to the encoded map its attribute loop builds |
| Ms365Store.LastAttributeWins | custom_components/ms365_calendar/integration/store_integration.py:32-46 | when two attribute names clean to the same key, the later attribute's value is stored |
| Ms365Store.EncodedStep | custom_components/ms365_calendar/integration/store_integration.py:32-46 | one more attribute sets its cleaned key to its encoded value, or changes nothing when that key is not stored |
| Ms365Store.Loaded | custom_components/ms365_calendar/integration/store_integration.py:70-75 | the cached data when there is some; otherwise the stored data, or an empty map when nothing is stored |
| Ms365Store.LoadIsCached | custom_components/ms365_calendar/integration/store_integration.py:70-75 | once loaded, later loads return the same data whatever the store holds |
| Ms365Store.LocalCalendarStore.constructor | custom_components/ms365_calendar/integration/store_integration.py:59-68 | a new store has no cached data and no pending write |
| Ms365Store.LocalCalendarStore.Load | custom_components/ms365_calendar/integration/store_integration.py:70-75 | the cache becomes the loaded data and is returned; the pending write is untouched |
| Ms365Store.LocalCalendarStore.Save | custom_components/ms365_calendar/integration/store_integration.py:77-86 | the saved data becomes both the cache and the pending delayed write |
| Ms365Sync.KeptEvents | custom_components/ms365_calendar/integration/sync/sync.py:51-58 | an event is kept exactly when no exclude pattern matches its subject; none is added |
| Ms365Sync.KeptIsSubsequence | custom_components/ms365_calendar/integration/sync/sync.py:51-58 | the kept events appear in the order of the listing |
| Ms365Sync.Filtered | custom_components/ms365_calendar/integration/sync/sync.py:47-60 | no events or no exclude patterns leave the listing as it is |
| Ms365Sync.FilterEvents | custom_components/ms365_calendar/integration/sync/sync.py:47-60 | the loop over events and patterns yields the filtered listing |
| Ms365Sync.ItemsOf | custom_components/ms365_calendar/integration/sync/sync.py:71 | the items are keyed exactly by the listed events' object ids, each mapped to a listed event with that id |
| Ms365Sync.SyncManager.constructor | custom_components/ms365_calendar/integration/sync/sync.py:16-29 | the manager keeps its calendar id and patterns, stores under the event-sync scope of that calendar, and has saved nothing |
| Ms365Sync.SyncManager.ListEvents | custom_components/ms365_calendar/integration/sync/sync.py:41-45 | a failing listing raises; otherwise the filtered listing is returned |
| Ms365Sync.SyncManager.Run | custom_components/ms365_calendar/integration/sync/sync.py:62-73 | a successful run saves exactly the filtered events keyed by id under items; a failing one saves nothing |
| Ms365Sync.SavedItemsAreListedAndKept | custom_components/ms365_calendar/integration/sync/sync.py:47-73 | every saved item is a listed event under its own id whose subject no pattern matches |
| Ms365Coordinator.WindowStartDays | custom_components/ms365_calendar/integration/coordinator_integration.py:68-70 | the window starts at the smaller of the hours backward in days and the days backward |
| Ms365Coordinator.WindowEndDays | custom_components/ms365_calendar/integration/coordinator_integration.py:71-73 | the window ends at the larger of the hours forward in days and the days forward |
| Ms365Coordinator.DefaultWindow | custom_components/ms365_calendar/integration/coordinator_integration.py:59-73 | with the default -8 and 8 days the window runs from 8 days back to 8 days ahead |
| Ms365Coordinator.SourceOf | custom_components/ms365_calendar/integration/coordinator_integration.py:96-119 | without a sync the request fails; a range reaching past the synced window is fetched from the service; one inside it comes from the cache |
| Ms365Coordinator.FirstOfIsFirst | custom_components/ms365_calendar/integration/coordinator_integration.py:139-153 | the first event of the given kind in listing order, or none exactly when no event has that kind |
| Ms365Coordinator.CurrentEventIsUnfinished | custom_components/ms365_calendar/integration/coordinator_integration.py:139-163 | the current event is a listed event that has not finished |
| Ms365Coordinator.CurrentEventPriority | custom_components/ms365_calendar/integration/coordinator_integration.py:155-163 | an event in progress wins over an unfinished all-day event, which wins over an upcoming one |
| Ms365Coordinator.SyncCoordinator.constructor | custom_components/ms365_calendar/integration/coordinator_integration.py:40-76 | the window bounds use the configured days or their defaults; there is no sync, data or event yet |
| Ms365Coordinator.SyncCoordinator.UpdateData | custom_components/ms365_calendar/integration/coordinator_integration.py:78-88 | the synced window becomes now plus the window bounds; the data becomes the new timeline, or stays when the sync failed |
| Ms365Coordinator.SyncCoordinator.GetEvents | custom_components/ms365_calendar/integration/coordinator_integration.py:92-119 | without data the request raises; otherwise a range past the synced window is fetched from the service and one inside it is read from the cache |
| Ms365Coordinator.SyncCoordinator.GetCurrentEvent | custom_components/ms365_calendar/integration/coordinator_integration.py:121-163 | without data no event and the stored event is cleared; otherwise the current event of the next day's overlapping events |
| Ms365Coordinator.ScanForCurrent | custom_components/ms365_calendar/integration/coordinator_integration.py:136-163 | the scan loop returns the current event by the in-progress, all-day, upcoming priority |
| Ms365Calendar.UpdateSupported | custom_components/ms365_calendar/integration/calendar_integration.py:81-98 | editing is supported exactly when update access is on, read-write is authorised and the calendar can be edited |
| Ms365Calendar.UniqueId | custom_components/ms365_calendar/integration/calendar_integration.py:100 | the unique id starts with the calendar id and an underscore and ends with an underscore and the device id |
| Ms365Calendar.CalendarEventOf | custom_components/ms365_calendar/integration/calendar_integration.py:237-248 | the calendar event keeps the object id, subject, start and end; it has a recurrence id exactly when the series master id is non-empty |
| Ms365Calendar.Built | custom_components/ms365_calendar/integration/calendar_integration.py:225-235 | the built list holds exactly the converted valid events; invalid ones are skipped |
| Ms365Calendar.BuiltKeepsOrder | custom_components/ms365_calendar/integration/calendar_integration.py:225-235 | building a joined listing is building each part and joining, so order is kept |
| Ms365Calendar.BuildCalendarEvents | custom_components/ms365_calendar/integration/calendar_integration.py:225-235 | the loop yields the built list of the valid events |
| Ms365Calendar.StartSort | custom_components/ms365_calendar/integration/calendar_integration.py:250-256 | a timed event sorts by its start instant; an event flagged all-day sorts by host-zone midnight of the date its start shows in its own zone, which for a start in the host zone is the midnight of the day holding it, and for a day start is that start itself |
| Ms365Calendar.AwareAllDayKeepsItsOwnDate | custom_components/ms365_calendar/integration/calendar_integration.py:253-256 | with a UTC host, an all-day event starting at 01:00+03:00 is keyed at midnight of its own date, and sorts after a timed event at noon UTC the day before, though its instant falls on that day |
| Ms365Calendar.Insert | custom_components/ms365_calendar/integration/calendar_integration.py:258 | inserting adds exactly one event and loses none |
| Ms365Calendar.SortEvents | custom_components/ms365_calendar/integration/calendar_integration.py:250-260 | sorting permutes the events |
| Ms365Calendar.InsertKeepsSorted | custom_components/ms365_calendar/integration/calendar_integration.py:258 | inserting into a list sorted by start keeps it sorted |
| Ms365Calendar.InsertKeepsBound | custom_components/ms365_calendar/integration/calendar_integration.py:258 | inserting keeps every start at or above a lower bound all inputs respect |
| Ms365Calendar.SortedIsSorted | custom_components/ms365_calendar/integration/calendar_integration.py:250-260 | the sorted events are ordered by start, all-day events by host midnight of their own date |
| Ms365Calendar.InsertIsStable | custom_components/ms365_calendar/integration/calendar_integration.py:258 | inserting puts the new event first among those with its start key and keeps the others' order |
| Ms365Calendar.SortIsStable | custom_components/ms365_calendar/integration/calendar_integration.py:258 | events with the same start key keep their listing order, as a stable sort does |
| Ms365Calendar.InRange | custom_components/ms365_calendar/integration/calendar_integration.py:296-300 | an event is in range exactly when it ends at or after the range start and starts at or before the range end |
| Ms365Calendar.Truncated | custom_components/ms365_calendar/integration/calendar_integration.py:304 | without a maximum the list is kept; with one it is cut to at most that many, keeping a prefix |
| Ms365Calendar.DataAttributeIsSortedRangeSlice | custom_components/ms365_calendar/integration/calendar_integration.py:294-304 | the data attribute holds at most the maximum number of events, each overlapping the range, sorted by start |
| Ms365Calendar.FiredEventName | custom_components/ms365_calendar/integration/calendar_integration.py:463-467 | the fired event's name is the domain, an underscore and the event type |
| Ms365Calendar.Validate | custom_components/ms365_calendar/integration/calendar_integration.py:449-461 | an edit passes exactly when the read-write permission is held and the entity supports updates; the permission is checked first |
| Ms365Calendar.CreateEvent | custom_components/ms365_calendar/integration/calendar_integration.py:358-368 | an event is created exactly when validation passes |
| Ms365Calendar.ModifyEvent | custom_components/ms365_calendar/integration/calendar_integration.py:370-406 | a patch happens exactly when validation passes on a non-group calendar; with a recurrence range it targets the series as a recurrences change, otherwise the event |
| Ms365Calendar.RemoveEvent | custom_components/ms365_calendar/integration/calendar_integration.py:408-434 | a delete happens exactly when validation passes on a non-group calendar; with a recurrence range it targets the series as a recurrences removal, otherwise the event |
| Ms365Calendar.RespondEvent | custom_components/ms365_calendar/integration/calendar_integration.py:436-447 | a response is sent exactly when validation passes on a non-group calendar |
| Ms365Calendar.ReadOnlyCalendarRejectsEdits | custom_components/ms365_calendar/integration/calendar_integration.py:449-461 | an entity without update support rejects every kind of edit |
| Ms365Calendar.CalendarEntity.constructor | custom_components/ms365_calendar/integration/calendar_integration.py:151-181 | a new entity keeps its update support and maximum, with an empty data attribute |
| Ms365Calendar.CalendarEntity.BuildExtraAttributes | custom_components/ms365_calendar/integration/calendar_integration.py:294-304 | without coordinator data the attribute is kept; otherwise it becomes the sorted, truncated in-range events |
| Ms365Schema.Zones | custom_components/ms365_calendar/integration/schema_integration.py:60-62 | the zones are collected, one per key, exactly when every key holds a datetime; otherwise the lookup fails |
| Ms365Schema.RunsAreAllSame | custom_components/ms365_calendar/integration/schema_integration.py:63-64 | a list is all one value exactly when each element equals its successor |
| Ms365Schema.RunCount | custom_components/ms365_calendar/integration/schema_integration.py:63-64 | the number of groups of equal neighbours is at least one for a non-empty list and at most its length |
| Ms365Schema.RunCountAboveOne | custom_components/ms365_calendar/integration/schema_integration.py:63-65 | there is more than one group exactly when the zones are not all the same |
| Ms365Schema.ConsistentTimezoneAsWritten | custom_components/ms365_calendar/integration/schema_integration.py:55-68 | the check crashes exactly when a key is missing; otherwise it passes the fields unchanged when all zones agree and rejects them when they differ |
| Ms365Schema.HasConsistentTimezone | custom_components/ms365_calendar/integration/schema_integration.py:58-66 | the validator's loop and grouping give the check as written |
| Ms365Schema.CollectZones | custom_components/ms365_calendar/integration/schema_integration.py:60-62 | the collecting loop gives the zones of the keys, or the failed lookup |
| Ms365Schema.CountGroups | custom_components/ms365_calendar/integration/schema_integration.py:63-64 | the grouping loop counts the groups of equal neighbours |
| Ms365Schema.ZonesOfLongerKeys | custom_components/ms365_calendar/integration/schema_integration.py:60-62 | once a key's lookup fails, the whole collection fails |
| Ms365Schema.ModifyWithoutStartCrashes | custom_components/ms365_calendar/integration/schema_integration.py:124-142 | a modify request with neither start nor end crashes the check as written |
| Ms365Schema.PresentZones | custom_components/ms365_calendar/integration/schema_integration.py:60-62 | the corrected collection skips the keys that are absent or hold no datetime; when every key holds one it is the collection as written |
| Ms365Schema.PresentZonesAreThePresentKeys | custom_components/ms365_calendar/integration/schema_integration.py:60-62 | every collected zone belongs to a listed key that holds a datetime, and every such key's zone is collected |
| Ms365Schema.PresentZonesAgree | custom_components/ms365_calendar/integration/schema_integration.py:63-65 | the collected zones form one group exactly when no two present keys carry different zones |
| Ms365Schema.ConsistentTimezone | custom_components/ms365_calendar/integration/schema_integration.py:55-68 | the corrected check never crashes; for any number of listed keys it rejects exactly when two keys that hold a datetime carry different zones, and otherwise passes the fields unchanged |
| Ms365Schema.CorrectionOnlyAffectsMissingTimes | custom_components/ms365_calendar/integration/schema_integration.py:55-68 | when every key holds a datetime the corrected check agrees with the check as written |
| Ms365Schema.AbsentKeyKeepsOthersChecked | custom_components/ms365_calendar/integration/schema_integration.py:55-68 | with three listed keys, an absent one does not stop the corrected check from rejecting a start and an end in different zones |
| Ms365Schema.ModifyWithoutStartPasses | custom_components/ms365_calendar/integration/schema_integration.py:124-142 | the corrected check lets a modify request without times through |
| Ms365Schema.AsLocal | custom_components/ms365_calendar/integration/schema_integration.py:77-78 | the converted time is in the local zone at the same instant; a naive time keeps its wall clock |
| Ms365Schema.LocalFields | custom_components/ms365_calendar/integration/schema_integration.py:71-81 | the same keys remain; the listed datetime values become local and everything else is unchanged |
| Ms365Schema.AsLocalTimezone | custom_components/ms365_calendar/integration/schema_integration.py:74-79 | the conversion loop gives the fields with the listed times made local |
| Ms365Schema.AsLocalIsIdempotent | custom_components/ms365_calendar/integration/schema_integration.py:71-81 | converting to local time twice is converting once |
| Ms365Schema.EventSchema | custom_components/ms365_calendar/integration/schema_integration.py:105-142 | built on the corrected `ConsistentTimezone` (see Findings): the create and modify schemas reject exactly when the start and end zones differ; a passing request has its start and end in the local zone |
| Ms365Schema.EntityHours | custom_components/ms365_calendar/integration/schema_integration.py:153-154 | hours forward default to 24 and hours backward to 0 when absent; given values are kept |
| Ms365Options.PyIndex | custom_components/ms365_calendar/integration/config_flow_integration.py:199-256 | list indexing with Python's negative indices counting from the end, and no element out of range |
| Ms365Options.Ids | custom_components/ms365_calendar/integration/config_flow_integration.py:119-121 | the device ids of the entities, one each, in order |
| Ms365Options.TrackedIds | custom_components/ms365_calendar/integration/config_flow_integration.py:119-123 | exactly the device ids of tracked entities |
| Ms365Options.IdsAppend | custom_components/ms365_calendar/integration/config_flow_integration.py:119-121 | listing the ids of two entity lists in turn is listing the ids of their concatenation |
| Ms365Options.TrackedIdsAppend | custom_components/ms365_calendar/integration/config_flow_integration.py:119-123 | the same holds for the tracked ids |
| Ms365Options.FlattenStep | custom_components/ms365_calendar/integration/config_flow_integration.py:119-123 | each calendar of the file appends its own ids and tracked ids |
| Ms365Options.TrackedAreListed | custom_components/ms365_calendar/integration/config_flow_integration.py:119-123 | every selected calendar is also in the calendar list |
| Ms365Options.LocateIn | custom_components/ms365_calendar/integration/config_flow_integration.py:252-258 | the first entity in a calendar with the device id, or none exactly when none has it |
| Ms365Options.Locate | custom_components/ms365_calendar/integration/config_flow_integration.py:250-258 | the position of the first entity with the device id in file order, or none exactly when no entity has it |
| Ms365Options.FirstMatchIsLocated | custom_components/ms365_calendar/integration/config_flow_integration.py:250-258 | the first matching position is the one found |
| Ms365Options.LocateEntity | custom_components/ms365_calendar/integration/config_flow_integration.py:252-258 | the nested search loop finds the located position |
| Ms365Options.Deleted | custom_components/ms365_calendar/integration/config_flow_integration.py:264-266 | a calendar is deleted exactly when it was selected before and is not selected now |
| Ms365Options.DeletedExtremes | custom_components/ms365_calendar/integration/config_flow_integration.py:264-266 | keeping the whole selection deletes nothing; clearing it deletes every originally selected calendar |
| Ms365Options.DeletedAllChosen | custom_components/ms365_calendar/integration/config_flow_integration.py:264-266 | when every original calendar is still chosen nothing is deleted |
| Ms365Options.DeletedNothingChosen | custom_components/ms365_calendar/integration/config_flow_integration.py:264-266 | choosing nothing deletes the original selection, in order |
| Ms365Options.DeletedCalendars | custom_components/ms365_calendar/integration/config_flow_integration.py:264-266 | the tidy-up loop deletes exactly those calendars |
| Ms365Options.Advance | custom_components/ms365_calendar/integration/config_flow_integration.py:214-269 | at the end of the choice the entry is created with the deletions; otherwise the counter advances and the next chosen calendar's form is shown, marked last for the last one |
| Ms365Options.WalkVisitsChoiceInOrder | custom_components/ms365_calendar/integration/config_flow_integration.py:192-269 | when every chosen calendar is in the file, the forms shown are the chosen calendars in the chosen order |
| Ms365Options.OptionsFlow.constructor | custom_components/ms365_calendar/integration/config_flow_integration.py:94-105 | tracking of new calendars defaults to on; the lists are empty, the counter is zero and nothing is written |
| Ms365Options.OptionsFlow.Init | custom_components/ms365_calendar/integration/config_flow_integration.py:107-126 | the file's calendars are read, their ids appended to the list and the tracked ones to the selection, the selection is remembered as the original, and the user form follows |
| Ms365Options.ListEntities | custom_components/ms365_calendar/integration/config_flow_integration.py:120-123 | one calendar's entities append their ids and tracked ids |
| Ms365Options.OptionsFlow.Retrack | custom_components/ms365_calendar/integration/config_flow_integration.py:137-141 | every entity keeps its place and becomes tracked exactly when its id is chosen |
| Ms365Options.OptionsFlow.User | custom_components/ms365_calendar/integration/config_flow_integration.py:128-190 | no input shows the form and changes nothing; input stores the choice, retracks every entity and goes on to the calendar walk; the calendars are written exactly when the walk ends in the tidy-up (an empty choice), otherwise the written file is unchanged (also lines 214-215) |
| Ms365Options.OptionsFlow.CalendarConfig | custom_components/ms365_calendar/integration/config_flow_integration.py:192-248 | input updates the entity of the current chosen calendar and the walk goes on; with no such entity the input is ignored; the updated calendars are written exactly when the walk ends in the tidy-up, otherwise the written file is unchanged (also lines 260-263) |
| Ms365Options.OptionsFlow.Walk | custom_components/ms365_calendar/integration/config_flow_integration.py:214-269 | the counter and the step follow the walk; creating the entry writes the calendars to the file |
| HikConfig.StripLeading | custom_components/hikconnect/config_flow.py:33 | the text after the leading C0 controls and spaces: a suffix of the input that does not start with one, everything dropped before it being one |
| HikConfig.RemoveUnsafe | custom_components/hikconnect/config_flow.py:33 | no tab, carriage return or line feed remains, and a text without them is unchanged |
| HikConfig.Sanitize | custom_components/hikconnect/config_flow.py:33 | the text that is split has no unsafe byte, and a text that starts with a visible character and has no unsafe byte is split as it is |
| HikConfig.SafeConcat | custom_components/hikconnect/config_flow.py:33 | two texts joined have no unsafe byte iff neither has |
| HikConfig.SafeSuffix | custom_components/hikconnect/config_flow.py:33 | a suffix of a text without unsafe bytes has none |
| HikConfig.ParseSeesSanitized | custom_components/hikconnect/config_flow.py:33 | two inputs that sanitise alike parse alike |
| HikConfig.SanitizeSpaced | custom_components/hikconnect/config_flow.py:33 | a normalised URL behind a space sanitises to the URL itself |
| HikConfig.LeadingSpaceIsStripped | custom_components/hikconnect/config_flow.py:33-38 | a normalised http or https URL with a leading space is accepted and normalised without the space |
| HikConfig.SplitScheme | custom_components/hikconnect/config_flow.py:33 | the scheme, when one is split off, holds no colon; otherwise the whole text is the rest; the rest is always a suffix of the text |
| HikConfig.SplitNetloc | custom_components/hikconnect/config_flow.py:33 | the network location runs up to the first slash, question mark or hash, and the two parts rebuild the text |
| HikConfig.UrlParse | custom_components/hikconnect/config_flow.py:33 | the text is sanitised first; a parsed network location holds no delimiter and no unsafe byte, and holds an opening bracket exactly when it holds a closing one |
| HikConfig.CheckBaseUrl | custom_components/hikconnect/config_flow.py:33-38 | a path, params, query or fragment, or a scheme other than http or https, is an invalid base URL; a parse with none of them and an http or https scheme is normalised to scheme and network location, and a parse error is reported as such |
| HikConfig.SplitWebScheme | custom_components/hikconnect/config_flow.py:33 | an http or https URL splits at its scheme |
| HikConfig.ParseNormalized | custom_components/hikconnect/config_flow.py:33-38 | a normalised URL parses back into its scheme and network location with nothing else |
| HikConfig.NormalizeIsIdempotent | custom_components/hikconnect/config_flow.py:33-38 | normalising a normalised base URL gives it back |
| HikConfig.ValidateInput | custom_components/hikconnect/config_flow.py:25-42 | an invalid URL raises InvalidBaseURL and a parse error an unexpected error; otherwise the login decides, and a validated input carries the normalised URL |
| HikConfig.ErrorsFor | custom_components/hikconnect/config_flow.py:61-69 | a login error shows login_failed, an invalid URL shows invalid_base_url on the URL field, anything else shows unknown |
| HikConfig.UserStepAsWritten | custom_components/hikconnect/config_flow.py:50-71 | the step never aborts: no input shows the form, a failed validation shows its error, and an entry is only created for a new account with the normalised data |
| HikConfig.UserStep | custom_components/hikconnect/config_flow.py:50-71 | no input shows the form, a failed validation shows its error, and a validated account aborts when it is in progress or configured and is created otherwise; a created entry always carries the validated data under the username |
| HikConfig.DuplicateAccountShowsUnknownError | custom_components/hikconnect/config_flow.py:58-69 | as written, adding a configured account shows the unknown error, where the intended step aborts as already configured |
| HikConfig.CorrectionOnlyAffectsDuplicates | custom_components/hikconnect/config_flow.py:50-71 | outside duplicate accounts the corrected step agrees with the step as written |
| HikConfig.ValidatedUrlIsNormalized | custom_components/hikconnect/config_flow.py:33-42 | the base URL `validate_input` writes back into the data checks as already normalised |
| HikConfig.CreatedEntryHasNormalizedUrl | custom_components/hikconnect/config_flow.py:33-60 | a created entry's base URL is already normalised |
| HikLock.CameraLocks | custom_components/hikconnect/lock.py:30-35 | one lock per index below the camera channel's lock count, zero when the channel has none |
| HikLock.DeviceLocksMembership | custom_components/hikconnect/lock.py:29-35 | a device's locks are exactly those of its cameras with an index below the channel's lock count |
| HikLock.AllLocksMembership | custom_components/hikconnect/lock.py:28-35 | the locks set up are exactly those of every device's cameras with an index below their lock count |
| HikLock.CameraOnlyDeviceHasNoLocks | custom_components/hikconnect/lock.py:30-32 | a device whose channels have no locks gives no lock |
| HikLock.SetupLocks | custom_components/hikconnect/lock.py:27-38 | the setup loops produce every lock in device, camera, index order |
| HikLock.AppendDeviceLocks | custom_components/hikconnect/lock.py:29-35 | one device's cameras add their locks in camera order after the entities already made |
| HikLock.AppendCameraLocks | custom_components/hikconnect/lock.py:30-35 | one camera adds one lock per lock of its channel, none when the channel has no locks |
| HikLock.LockName | custom_components/hikconnect/lock.py:107-112 | the name is the camera name and "lock", followed by the index plus one for every index but the first |
| HikLock.NamesAreDistinct | custom_components/hikconnect/lock.py:107-112 | two locks of one camera never share a name |
| HikLock.LockUniqueId | custom_components/hikconnect/lock.py:114-123 | the unique id joins the domain, device id, camera id and index with hyphens |
| HikLock.UniqueIdsAreDistinct | custom_components/hikconnect/lock.py:114-123 | two locks of one camera never share a unique id |
| HikLock.Relocked | custom_components/hikconnect/lock.py:92-93 | the earliest scheduled re-lock closes the latch and leaves one fewer pending |
| HikLock.UnlockIsUndone | custom_components/hikconnect/lock.py:81-98 | an unlock frees the latch and schedules a re-lock after the latch delay, which closes it again |
| HikLock.Lock.constructor | custom_components/hikconnect/lock.py:56-70 | a new lock keeps its device, camera and index, and starts locked with nothing scheduled |
| HikLock.Lock.AsyncLock | custom_components/hikconnect/lock.py:81-83 | the latch becomes closed |
| HikLock.Lock.AsyncUnlock | custom_components/hikconnect/lock.py:85-99 | when the API call succeeds the latch is freed and a re-lock scheduled; when it raises nothing changes |
| HikLock.Lock.AsyncOpen | custom_components/hikconnect/lock.py:101-105 | opening is unlocking |
| HikLock.Lock.LockLater | custom_components/hikconnect/lock.py:92-93 | the earliest scheduled re-lock runs |

## Left out

- Collapse: its own contract states only the shape of the result. That each run of underscores becomes exactly one "_" is proved separately, by `CollapseIsOnePass` and `CollapseMergesRun`.
- CleanString: its own contract states only the alphabet, the absence of "__" and the length. Its exact value is proved separately, by `CleanStringIsOnePass`.
- Cron scheduling of meter resets (utility_meter_next_gen/sensor.py `next_reset` and the CronSim calls). The next fire time comes from an external, time-zone dependent library. The five-field cron templates are modelled as data only.
- Decimal arithmetic is modelled as exact `real` arithmetic. Decimal context precision, NaN and infinities are not modelled. A meter sees an entity state already classified: unavailable, unknown, a decimal reading, or text that `Decimal(...)` rejects. The text-to-decimal conversion itself is not modelled.
- Host plumbing. This covers entity registration, `async_write_ha_state`, event-bus subscriptions and dispatcher signals, restore-state loading, `device_info`, icons and translation keys. The stored record is modelled through `as_dict`/`from_dict` and the field assignments of the restore (`RestoreInto`). The base class `SensorExtraStoredData` is host code: its encoding of a decimal native value is modelled as a tagged value, and its date and datetime encodings are not modelled.
- Network and SDK calls. These are the balena SDK, the Microsoft Graph service, the Eskom API and the Hik-Connect login. Each becomes a parameter giving its reply or "raised". The retry wrapper's sleeps are modelled as the sequence of their durations; the passing of time itself is not.
- RoundTenths: rounds the exact value, while Python rounds the nearest binary float, so a value such as 0.15 whose float lies just below the tie rounds down in Python and to even here.
- balena_cloud float formatting is not modelled. This covers the averages in the fleet statistics, `online_percentage`, and the alert message texts. Alerts are modelled as structured values. Offline shares are compared exactly.
- Text parsers are parameters: `datetime.strptime`, `datetime.fromisoformat`, `dt_util.parse_datetime` and `int()` on text. The regular-expression engine behind the ms365 exclude patterns is a `search` parameter too. The Eskom `\d\d:\d\d` and `\d+` extractions are written out over the ASCII digits '0' to '9' only; Python's `re` on text also matches the other Unicode decimal digits, which the model does not.
- Time zones are fixed UTC offsets in seconds. Daylight-saving transitions of the host zone are not modelled in `as_local`, `as_utc` or `start_of_local_day`.
- Python dictionary iteration order is modelled only where it is observable. Examples are the order of fleet tallies and the last write winning in the JSON encoder.
- `Ms365Calendar.SortEvents` is an insertion sort. It is proved to be a stable permutation ordered by start, which is what `list.sort` promises. It is not the same algorithm.
- The ms365 timeline `overlapping` query (sync/timeline.py) is a parameter of `GetCurrentEvent`. The cached branch of `GetEvents` takes its result as input.
- ms365 `ScopedCalendarStore` is reduced to the scope key of the sync manager. The base `_validate_permissions` is a boolean parameter. The YAML file read and write of the options flow is the `read` parameter and the `written` field.
- The entity-registry removal and config-entry reload of the ms365 options tidy-up are not modelled; the deletions are returned as a list. `add_attribute_to_item` is the `update` parameter of `CalendarConfig`.
- `deepcopy` calls in the ms365 permissions, options and calendar code are implicit: Dafny sequences are values.
- hikconnect `validate_input` changes its argument in place. The model returns the normalised data instead.
- hikconnect `urlparse` is modelled for the leading strip of C0 controls and spaces, the removal of tab, carriage return and line feed, and the split into scheme, network location, path, params, query and fragment. `_checknetloc` (NFKC normalisation checks) and the checks on a bracketed host are not modelled.
- hikconnect DOMAIN is a parameter; hikconnect/const.py is not part of this model.
- hikconnect `lock`, `unlock` and `open` only log or raise NotImplementedError, so they are left out. The scheduled re-lock is modelled as a queue of pending delays, not as a timer.
- home_maintenance `async_added_to_hass` labels and the panel and websocket modules are not modelled.
- The ms365 to-do entities, the Eskom calendar polling flags and the balena binary sensors and buttons are not modelled. Their only rules repeat the availability and None-stripping already covered.

## Findings

| source | as written | input that shows it | evidently intended | confidence | as-written member | corrected member |
|---|---|---|---|---|---|---|
| custom_components/utility_meter_next_gen/sensor.py:174 | the multi-cycle branch is taken only when `len(meter_type) > 1`, so a list of one cycle reaches the single-type branch, which looks the list up in the cron table and raises TypeError | a multi-cycle entry whose cycle list holds exactly one cycle | any list of cycles takes the multi-cycle branch and creates that cycle's meters | not executed | MeterSetup.SetupAsWritten, MeterSetup.OneCycleMultiEntryFails | MeterSetup.SetupEntry, MeterSetup.OneCycleMultiEntryBuildsItsCycle |
| custom_components/utility_meter_next_gen/config_flow.py:313-315, 354 | the options step records a `source_calc_sensor` error when the price sensor does not exist, then creates the entry anyway | options input naming a price sensor that has no state | an error shows the form again with the error, as the other steps do | not executed | MeterConfigFlow.OptionsInitAsWritten, MeterConfigFlow.MissingPriceSensorIsSaved | MeterConfigFlow.OptionsFlow.Init |
| custom_components/hikconnect/config_flow.py:58-69 | `_abort_if_unique_id_configured` raises an abort inside the `try`, and the broad `except Exception` turns it into the "unknown" error | adding an account whose username is already configured | the flow aborts as already configured | not executed | HikConfig.UserStepAsWritten, HikConfig.DuplicateAccountShowsUnknownError | HikConfig.UserStep, HikConfig.CorrectionOnlyAffectsDuplicates |
| custom_components/ms365_calendar/integration/schema_integration.py:62, 124-142 | the timezone check reads `obj.get(key).tzinfo` for start and end, which are optional in the modify schema, so a request without them raises AttributeError | a modify request with an event id and a subject but no start and no end | absent times are skipped and the zones of the times present, however many keys are listed, must agree | not executed | Ms365Schema.ConsistentTimezoneAsWritten, Ms365Schema.ModifyWithoutStartCrashes | Ms365Schema.ConsistentTimezone, Ms365Schema.ModifyWithoutStartPasses |
| custom_components/balena_cloud/api.py:42-45 | the wrapper retries only request and SDK errors, but every decorated method ends its body in `except Exception` and turns such errors into a Home Assistant error or a default value, so no call is ever retried | `async_get_fleets` whose SDK call raises a request error on every attempt: one attempt, no wait, and `BalenaCloudAPIError` at once | request and SDK errors reach the wrapper, which retries them three times with waits of 1, 2 and 4 seconds | medium, not executed | BalenaApi.Handled, BalenaApi.HandledIsNeverRetried | BalenaApi.PassingSdkErrors, BalenaApi.PassedSdkErrorsAreRetried |
| custom_components/balena_cloud/sensor.py:209-234 | the docstring of `available` lists MAC among the sensors that are unavailable while the device is offline, but the code's set of device-specific keys leaves out "mac_address", so the MAC sensor stays available | a cached device with is_online false, under a coordinator whose last update succeeded | the docstring's reading, MAC following the online flag; the entities keep the code's behaviour, and the docstring's is modelled beside it | low, not executed | BalenaEntities.SensorAvailable, BalenaEntities.OfflineMacStaysAvailable | BalenaEntities.DocumentedSensorAvailable, BalenaEntities.DocumentedDiffersOnlyForMac |
