# Hoymiles DTU sensor engine, modelled in Dafny

This project models the value-correction engine of the Hoymiles DTU
Home Assistant integration (`custom_components/hoymiles_dtu/sensor.py`).
The integration polls a DTU gateway for a plant snapshot. It turns that
snapshot into exposed sensor values, and it sends power-limit and on/off
writes to individual microinverters.

- `descriptors.dfy` (module `Descriptors`): the `SENSOR_TYPES` and `PV_TYPES`
  tables as enumerated metrics with constant functions for the divisor,
  the zero-total policy (0 = zero, 1 = keep, 2 = zero at midnight) and the record slot.
- `snapshots.dfy` (module `Snapshots`): the plant snapshot, the microinverter
  record indexable by slot 3..14, and the updater (`HoymilesDTUUpdater`). The
  updater stores a fetched snapshot, or `None` when the fetch fails.
- `correction.dfy` (module `Correction`): one sensor read as a function of the
  sensor's fields (`_state`, `_state_old`), the updater's data and the local
  hour. It covers scaling, the zero-total policy, the per-panel summation
  fallback and the monotonic/spike guard on `total_production`, with the
  properties of a single read as lemmas.
- `series.dfy` (module `Series`): many reads in a row. The series exposed by
  `total_production` never decreases, and a rejected spike stays rejected on
  every later read of the same snapshot.
- `sensors.dfy` (module `Sensors`): the sensor entities as classes whose
  `Read` methods update their fields step by step, proved equal to the
  functions above. The summation `while` loop is proved against `PanelSum`.
- `commands.dfy` (module `Commands`): register addressing
  (`index*6 + 0xC007` for the power limit, `index*6 + 0xC006` for on/off) and the
  number and switch entities. Each write is appended to a ghost log.

Behaviour of the code worth knowing, all of it modelled as written:

- After a failed fetch each sensor returns its previous `_state` (initially
  `None`), not unknown: neither branch of `state` runs when the data is `None`.
- A negative plant total likewise leaves every sensor unchanged.
- The spike test is a strict `>` (sensor.py:145), so an increase of exactly
  `panels*0.5` is accepted.
- Once `_state_old` is positive, a total beyond the spike bound is rejected
  on every later read, however far the counter keeps rising.
- `set_native_value` performs no range check of its own and does not update
  `_value`; the 2..100 range is only metadata for the host framework.

## Model

| member | source | states |
|---|---|---|
| `Descriptors.Divisor` | custom_components/hoymiles_dtu/sensor.py:32-37 | the SENSOR_TYPES divisor (1000 for power and energy, 1 for alarm_flag) is positive, so every scaled read is defined |
| `Descriptors.Slot` | custom_components/hoymiles_dtu/sensor.py:39-52 | every PV_TYPES slot lies in the record's numeric slots 3..14 |
| `Descriptors.PvDivisor` | custom_components/hoymiles_dtu/sensor.py:39-52 | every PV_TYPES divisor (1000 for the energy counters, 1 otherwise) is positive |
| `Descriptors.PanelCounterpart` | custom_components/hoymiles_dtu/sensor.py:124-141 | exactly total_production and today_production fall back to a per-panel sum, using the PV_TYPES row of the same key, whose divisor and policy equal the plant row's |
| `Descriptors.PolicyOf` | custom_components/hoymiles_dtu/sensor.py:32-37 | only today_production and total_production have a non-zero policy; only total_production keeps its value (policy 1) |
| `Descriptors.PvPolicy` | custom_components/hoymiles_dtu/sensor.py:39-52 | in PV_TYPES too only the two energy counters have a non-zero policy and only total_production keeps its value |
| `Descriptors.SlotInjective` | custom_components/hoymiles_dtu/sensor.py:39-52 | two PV metrics share a slot only if they are the same metric |
| `Snapshots.Updater.constructor` | custom_components/hoymiles_dtu/sensor.py:384-389 | the updater starts with no data |
| `Snapshots.Updater.Update` | custom_components/hoymiles_dtu/sensor.py:390-395 | a successful fetch stores the snapshot; any failure stores None |
| `Correction.ApplyPolicy` | custom_components/hoymiles_dtu/sensor.py:119-123 | the zero-total policy either zeroes the value or leaves it as it was |
| `Correction.PanelSum` | custom_components/hoymiles_dtu/sensor.py:125-132 | with non-negative panel counters the `licz_total` sum is non-negative and positive exactly when some panel 1..n reports a positive counter |
| `Correction.Resolve` | custom_components/hoymiles_dtu/sensor.py:116-141 | only a zero plant total on a summing sensor can raise; no data or a negative total keeps the previous value; a keep-policy sensor changes value only to a computed one |
| `Correction.Guard` | custom_components/hoymiles_dtu/sensor.py:142-148 | the guard never lowers `_state_old`; afterwards `_state` is None or equal to `_state_old`; it either accepts the new value or falls back to `_state_old` |
| `Correction.PlantRead` | custom_components/hoymiles_dtu/sensor.py:114-150 | a read returns the new `_state`; `_state_old` never decreases and moves only for total_production; a total_production read returns None or `_state_old`; the sensor invariant is preserved |
| `Correction.PvRead` | custom_components/hoymiles_dtu/sensor.py:196-206 | a PV read returns the new `_state`; a read that raises IndexError leaves `_state` unchanged |
| `Correction.NoUsableDataKeepsState` | custom_components/hoymiles_dtu/sensor.py:114-150 | with no data (failed fetch) or a negative plant total, a read returns the previous `_state` and leaves both fields unchanged |
| `Correction.PositiveTotalScales` | custom_components/hoymiles_dtu/sensor.py:116-118 | with a positive plant total the new value is the named plant field over its divisor; only total_production then passes it through the guard |
| `Correction.ZeroTotalResolve` | custom_components/hoymiles_dtu/sensor.py:119-141 | with a zero plant total the read raises exactly when a summing sensor has more panels than records; a positive panel sum replaces the value; otherwise policy 0, or 2 at hour 0, gives 0 and policy 1, or 2 at other hours, keeps the previous value |
| `Correction.DecreaseRejected` | custom_components/hoymiles_dtu/sensor.py:142-143 | a new total below `_state_old` returns `_state_old` and leaves `_state_old` unchanged |
| `Correction.SpikeRejected` | custom_components/hoymiles_dtu/sensor.py:144-146 | an increase to more than `_state_old + panels*0.5` from a positive `_state_old` is rejected |
| `Correction.IncreaseAccepted` | custom_components/hoymiles_dtu/sensor.py:144-148 | an increase within the bound, or from `_state_old` = 0, is returned and becomes the new `_state_old` |
| `Correction.SpikeBoundary` | custom_components/hoymiles_dtu/sensor.py:145-148 | with 4 panels and 10.0 accepted, 12.0 is accepted and 12.1 rejected (the bound is inclusive) |
| `Correction.PvPositiveTotalScales` | custom_components/hoymiles_dtu/sensor.py:198-200 | with a positive plant total a PV sensor returns record panel_number-1 at its slot over its divisor, or raises IndexError when that record is missing |
| `Correction.PvZeroTotalPolicy` | custom_components/hoymiles_dtu/sensor.py:201-205 | with a zero plant total a PV sensor applies its policy: 0, or 2 at hour 0, gives 0; otherwise it keeps the previous value |
| `Correction.PvNoUsableDataKeepsState` | custom_components/hoymiles_dtu/sensor.py:196-206 | with no data or a negative plant total a PV sensor returns its previous `_state` |
| `Series.SeriesNonDecreasing` | custom_components/hoymiles_dtu/sensor.py:142-150 | over any sequence of reads `_state_old` never decreases, every exposed total_production value is None or `_state_old`, and the exposed values are non-decreasing |
| `Series.SpikeStaysRejected` | custom_components/hoymiles_dtu/sensor.py:144-146 | from a positive `_state_old`, every later snapshot whose total lies beyond the bound, however far it keeps rising, is rejected: every read returns the same `_state_old` |
| `Sensors.SumPanels` | custom_components/hoymiles_dtu/sensor.py:124-141 | the summation loop yields the scaled slot sum over panels 1..panels, or fails (IndexError) exactly when there are more panels than records |
| `Sensors.PlantSensor.constructor` | custom_components/hoymiles_dtu/sensor.py:99-108 | a plant sensor starts with `_state` None and `_state_old` 0 |
| `Sensors.PlantSensor.Read` | custom_components/hoymiles_dtu/sensor.py:114-150 | the step-by-step `state` property leaves the fields and returns exactly what `PlantRead` gives, keeping the sensor invariant |
| `Sensors.PvSensor.constructor` | custom_components/hoymiles_dtu/sensor.py:178-188 | a PV sensor starts with `_state` None |
| `Sensors.PvSensor.Read` | custom_components/hoymiles_dtu/sensor.py:196-206 | the step-by-step `state` property leaves `_state` and returns exactly what `PvRead` gives |
| `Commands.PowerLimitAddress` | custom_components/hoymiles_dtu/sensor.py:294 | the power-limit register is 1 modulo 6, and microinverter `index` is recovered from it |
| `Commands.OnOffAddress` | custom_components/hoymiles_dtu/sensor.py:327-335 | the on/off register is 0 modulo 6, and microinverter `index` is recovered from it |
| `Commands.AddressesDistinct` | custom_components/hoymiles_dtu/sensor.py:294-335 | distinct indices get distinct registers of each kind, and no power-limit register is an on/off register |
| `Commands.InverterInput.constructor` | custom_components/hoymiles_dtu/sensor.py:235-247 | the power-limit entity starts at 100 with no writes |
| `Commands.InverterInput.SetNativeValue` | custom_components/hoymiles_dtu/sensor.py:287-294 | one write of the rounded value to the power-limit register of this microinverter; `native_value` stays 100 |
| `Commands.InverterInput.NativeValue` | custom_components/hoymiles_dtu/sensor.py:238 | `native_value` is always 100: no write updates `_value` |
| `Commands.InverterBoolean.constructor` | custom_components/hoymiles_dtu/sensor.py:299-306 | the switch starts on, with no writes |
| `Commands.InverterBoolean.IsOn` | custom_components/hoymiles_dtu/sensor.py:306-319 | `is_on` is always True, whatever has been written |
| `Commands.InverterBoolean.TurnOn` | custom_components/hoymiles_dtu/sensor.py:317-327 | one write of True to the on/off register; `is_on` stays True |
| `Commands.InverterBoolean.TurnOff` | custom_components/hoymiles_dtu/sensor.py:317-335 | one write of False to the on/off register; `is_on` stays True |

## Left out

- Correction.PvRead: panel numbers start at 1, as `setup_platform` creates them. Panel number 0 would make Python read the last record (index -1); that case is not modelled.
- Floating point: values are exact reals, so rounding of the `/1000` scaling and of the panel sum is not modelled.
- The network client `HoymilesModbusTCP`: a fetch is an input outcome (`Ok(snapshot)` or `Err`). A write is an entry in a ghost log of attempted writes. A write that fails in the client is not distinguished.
- `Throttle`: its timing lives in the host framework library. `Updater.Update` is the untimed `_update`, and the sensors' `update()` delegation is not modelled.
- `datetime.now()`: the local hour is a parameter in 0..23.
- Python `round()` in `set_native_value`: the method takes the already-rounded percentage.
- The host framework's range validation of the power limit (min 2, max 100, step 1): it is not in this code; the entity only declares those bounds.
- Names, unique ids, units, device and state classes, `last_reset`, the platform schema and `setup_platform`: metadata and wiring with no behaviour.
- Broken or dead code: `dev.append()` without an argument, the constructor arity mismatch in `setup_platform`, the self-recursive `value` and `mode` properties, `PERCENTAGE` used without import, and the commented-out `HoymilesInverterSensor`.
- `custom_components/hoymiles_dtu/number.py`: a separate power-limit entity writing the fixed register 0xC001. It is not part of this model.
