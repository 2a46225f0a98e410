# Fuel and maintenance bookkeeping of a car-tracking app, in Dafny

The app records fuel fill-ups and oil changes for a user's cars. This model covers
its pure bookkeeping:

- the fuel ledger of `fuelService`: litres per 100 km between two full-tank fills,
  the choice of the nearest full-tank predecessor by odometer, the price-per-litre
  default, and `addEntry`, `deleteEntry`, `updateEntry` and `getEntriesForCar` as
  pure transitions on an abstract store (`Records.Store`: the fuel entries in stored
  order and the cars by id);
- the oil-change status of `maintenanceService`: kilometres to the next service,
  days to the next service, the two overdue flags, and `recordOilChange` as a
  record update;
- the average consumption of the `useFuelEntries` hook: the mean of the first five
  consumption values, rounded half-up to one decimal;
- the form logic of the fuel, maintenance and car screens: validation, the price
  auto-derivation while typing, the progress bar and the distance card, and the
  car list's "next oil change" distance.

The app's remote database becomes explicit inputs. Whether an insert succeeded is a
`bool`. What a fetch returned is a `FetchResult`. The ids and creation times the
database assigns are parameters. `parseFloat`, `parseInt` and two-decimal formatting
are function parameters too (`Forms.Parsers` and `fixed2`), where `None` stands for
`NaN`. The next service date and the clock are integer millisecond timestamps
passed in.

Module `OdometerInvariant` connects the files. The screens accept a fuel entry or
an oil change only above the car's current reading, and the services then store
that reading. So every accepted submission strictly advances the car's odometer,
and no stored fuel entry lies above its car's reading. The services on their own
enforce neither.

Two facts about the code shape the model:

- `addEntry` sets the car's reading to the entry's reading unconditionally; only
  the screens prevent a decrease (`OdometerInvariant.AddEntryCanLowerOdometer`).
- The fuel screen's insert carries no full-tank key at all, so the stored flag is
  whatever the column's database default is. Either way the inserted row has a
  null consumption, because `addEntry` computes one only for a full-tank input
  (`FuelScreen.ScreenEntriesHaveNoConsumption`). The model passes `false` for the
  flag (see "Left out").

## Model

| member | source | states |
|---|---|---|
| FuelService.CalculateEfficiency | src/lib/services/fuelService.ts:28-43 | no value without a previous entry, or when either fill is not a full tank, or when the distance is not positive; otherwise the value times the distance equals litres × 100, and it is non-negative for non-negative litres |
| FuelService.Predecessor | src/lib/services/fuelService.ts:49-58 | the selected row is in the table, belongs to the car, is a full-tank fill below the new reading, and no other such row has a higher reading; nothing is selected exactly when no row qualifies |
| FuelService.StoredConsumption | src/lib/services/fuelService.ts:58-61 | a partial fill stores null; a stored value is the efficiency against an existing predecessor |
| FuelLedgerProperties.ConsumptionPresentIff | src/lib/services/fuelService.ts:35-61 | a consumption is stored exactly when the fill is full-tank and a full-tank predecessor exists (the distance guard never fires on the selected predecessor) |
| FuelLedgerProperties.ConsumptionValue | src/lib/services/fuelService.ts:38-42 | with a predecessor, the stored value times the distance from it equals litres × 100 |
| FuelLedgerProperties.WorkedExample | src/lib/services/fuelService.ts:32-42 | fills at 10 000 km and 10 500 km with 45 litres give 9.0; a partial second fill gives nothing |
| FuelLedgerProperties.PredecessorIgnoresOtherCars | src/lib/services/fuelService.ts:50-53 | selecting from the whole table equals selecting from the car's own entries |
| FuelService.DerivedPricePerLiter | src/lib/services/fuelService.ts:63-65 | a given non-zero price is kept; otherwise the price times the litres equals the total, and it is null when there is no total or the litres are zero |
| FuelService.NewEntry | src/lib/services/fuelService.ts:47-77 | the inserted row carries the input's car, date, station, reading, litres, total and full-tank flag, the assigned id and creation time, and the derived price; its consumption is the stored consumption when the predecessor query succeeded and null when it failed |
| FuelService.AddEntry | src/lib/services/fuelService.ts:47-88 | a failed insert changes nothing and returns no row; a successful one appends the row and sets the car's reading to the entry's, whatever it was, with no other car or field changed |
| FuelService.DeleteEntry | src/lib/services/fuelService.ts:102-106 | a failed delete changes nothing; a successful one removes exactly the entries with that id and keeps all others unchanged, with their stored consumption; no car changes |
| FuelLedgerProperties.DeleteIdempotent | src/lib/services/fuelService.ts:102-106 | deleting twice equals deleting once |
| FuelLedgerProperties.AddThenDelete | src/lib/services/fuelService.ts:102-106 | deleting a freshly inserted row restores the entries, but not the car's reading |
| FuelService.UpdateEntry | src/lib/services/fuelService.ts:109-118 | a failed update changes nothing and returns no row; a successful one applies the patch verbatim to the rows with the id (no consumption recomputed), keeps other rows and all cars, and returns the patched row exactly when a row has the id |
| FuelLedgerProperties.EmptyPatchChangesNothing | src/lib/services/fuelService.ts:109-118 | an update with a patch that carries no field leaves the store unchanged and returns a stored row |
| FuelService.EntriesForCar | src/lib/services/fuelService.ts:91-99 | the listing holds exactly the car's entries |
| FuelLedgerProperties.AddEntryListing | src/lib/services/fuelService.ts:91-96 | after an insert the car's listing is the old listing plus the new row; other cars' listings are unchanged |
| MaintenanceService.CeilDiv | src/lib/services/maintenanceService.ts:52-54 | the ceiling of a quotient: the least integer whose multiple of the divisor is not below the dividend |
| MaintenanceService.GetMaintenanceStatus | src/lib/services/maintenanceService.ts:43-66 | next service km = last + interval; km left + current = next; overdue by km iff current ≥ last + interval; overdue by time iff next date < now; days are the ceiling of the ms difference over 86 400 000; the last service km and date are echoed |
| MaintenanceService.DaysPositiveIffFuture | src/lib/services/maintenanceService.ts:52-60 | the day count is positive exactly when the next service is in the future, so overdue by time implies at most 0 days |
| MaintenanceService.RecordOilChange | src/lib/services/maintenanceService.ts:17-34 | the service date, service reading and current reading take the given values; every other field is unchanged; a lower reading is accepted |
| MaintenanceService.RecordOilChangeInStore | src/lib/services/maintenanceService.ts:17-34 | a failed update, or a car the table lacks, changes nothing; otherwise that car gets the oil change, no other car changes, and no fuel entry changes |
| MaintenanceService.FreshOilChangeNotOverdue | src/lib/services/maintenanceService.ts:50-59 | straight after an oil change the km left equal the interval, so a positive interval is not overdue |
| MaintenanceService.WorkedExamples | src/lib/services/maintenanceService.ts:50-59 | 16 500 km against 10 000 + 10 000 leaves 3 500 km; 21 000 km is 1 000 km overdue |
| FuelEntriesHook.Consumptions | src/hooks/useFuelEntries.ts:33-34 | there are at most as many values as entries, and none exactly when no entry carries a consumption |
| FuelEntriesHook.ConsumptionsMembers | src/hooks/useFuelEntries.ts:33-34 | a value is among the consumption values exactly when some entry carries it |
| FuelEntriesHook.ConsumptionsAppend | src/hooks/useFuelEntries.ts:33-34 | the values of two lists joined are the values of the first followed by those of the second |
| FuelEntriesHook.ConsumptionsOfOne | src/hooks/useFuelEntries.ts:33-34 | a single entry contributes its value when it has one and nothing otherwise |
| FuelEntriesHook.ConsumptionsSplit | src/hooks/useFuelEntries.ts:33-34 | the values keep list order: those of the entries before a fill, its own, then those after it |
| FuelEntriesHook.Selected | src/hooks/useFuelEntries.ts:33-35 | at most five values, a prefix of the consumption values in list order, and all of them when there are fewer than five |
| FuelEntriesHook.RoundTenth | src/hooks/useFuelEntries.ts:43 | the result is a multiple of 0.1 with result − 0.05 ≤ x < result + 0.05 (half rounds up) |
| FuelEntriesHook.AverageConsumption | src/hooks/useFuelEntries.ts:31-49 | null exactly when no entry carries a consumption; otherwise the mean of the selected values rounded half-up to a tenth, so within half a tenth of that mean |
| FuelEntriesHook.FetchEntries | src/hooks/useFuelEntries.ts:16-61 | an empty car id clears the entries and the average and keeps the earlier error flag; a failed fetch clears them and sets the flag; a successful fetch clears the flag, keeps the rows (none for a null body) and recomputes the average from them |
| FuelEntriesHook.MeanWithinBounds | src/hooks/useFuelEntries.ts:37-42 | the unrounded mean lies between any bounds of the selected values |
| FuelEntriesHook.ConsumptionsSkipNone | src/hooks/useFuelEntries.ts:34 | an entry without a value, wherever it sits, adds nothing to the consumption values |
| FuelEntriesHook.EntryWithoutConsumptionIgnored | src/hooks/useFuelEntries.ts:34 | inserting an entry without consumption anywhere leaves the average unchanged |
| FuelEntriesHook.OnlyFirstFiveCount | src/hooks/useFuelEntries.ts:33-35 | once five values are present, later entries do not change the average |
| FuelScreen.UpdateField | src/screens/main/FuelScreen.tsx:50-72 | a non-price edit changes only that field; in per-litre mode with non-zero litres and price the total becomes the formatted product; in total mode with non-zero litres and total the price becomes the formatted quotient; otherwise nothing else changes |
| FuelScreen.UpdateFieldIdempotent | src/screens/main/FuelScreen.tsx:50-72 | repeating the same edit gives the same form |
| FuelScreen.ValidateForm | src/screens/main/FuelScreen.tsx:215-244 | accepted iff station, litres and odometer are filled in, litres parse positive, the odometer parses non-negative and, when the car is known, above its current reading; each rejection reason holds exactly when its check is the first to fail, in the order empty fields, litres, odometer, current reading |
| FuelScreen.EntryInputFromForm | src/screens/main/FuelScreen.tsx:253-260 | the input carries the selected car, the typed date and station, the parsed litres, prices and odometer, and no full-tank flag |
| FuelScreen.HandleSubmit | src/screens/main/FuelScreen.tsx:246-260 | submitted iff the form is valid and a car is selected; an invalid form is rejected with the reason validation gives, a valid form without a car for the missing car; a submission adds the entry built from the form for the selected car |
| FuelScreen.ScreenEntriesHaveNoConsumption | src/screens/main/FuelScreen.tsx:253-260 | every entry added from the screen stores a null consumption |
| MaintenanceScreen.ValidateOilChange | src/screens/main/MaintenanceScreen.tsx:131-151 | accepted iff a car is selected and the odometer parses to a non-negative integer above the car's current reading |
| MaintenanceScreen.HandleSubmit | src/screens/main/MaintenanceScreen.tsx:153-168 | submitted exactly when the form is accepted, and otherwise rejected with the reason validation gives; the oil change is recorded iff the remote update succeeds for a known car, and then that car gets the typed date and parsed reading while nothing else changes; a failed update leaves the store as it was |
| MaintenanceScreen.ProgressBarColor | src/screens/main/MaintenanceScreen.tsx:171-175 | red iff overdue, amber iff not overdue and under 1000 km, green otherwise |
| MaintenanceScreen.ColorMatchesDistance | src/screens/main/MaintenanceScreen.tsx:235-238 | with the computed status: red iff km left ≤ 0, amber iff 0 < km left < 1000, green iff km left ≥ 1000 |
| MaintenanceScreen.ProgressFraction | src/screens/main/MaintenanceScreen.tsx:224-234 | the fraction lies in [0, 1] and equals driven / interval whenever that quotient lies in [0, 1], for either sign of the interval; beyond that it saturates at 0 or 1; with a zero interval it is 1 for a positive distance, 0 for a negative one and NaN for none |
| MaintenanceScreen.DistanceCardOf | src/screens/main/MaintenanceScreen.tsx:214-220 | the card shows the magnitude of the km left, captioned OVERDUE iff overdue by km |
| MaintenanceScreen.OverdueCardShowsExcess | src/screens/main/MaintenanceScreen.tsx:214-220 | for an overdue car the card shows how far the reading is past the service point |
| CarManagementScreen.ValidateCarForm | src/screens/main/CarManagementScreen.tsx:38-70 | accepted iff all eight fields are filled in, the year parses into [1900, current year] and the odometer parses non-negative; each rejection reason holds exactly when its check is the first to fail |
| CarManagementScreen.IntervalsUnchecked | src/screens/main/CarManagementScreen.tsx:38-70 | changing the intervals or the last-change km to other non-empty text never changes the verdict |
| CarManagementScreen.ResetFormDefaults | src/screens/main/CarManagementScreen.tsx:123-132 | a reset form holds 10000 km and 12 months, the other fields are empty, and it is rejected as incomplete |
| CarManagementScreen.NextOilChangeDisplayKm | src/screens/main/CarManagementScreen.tsx:170-174 | the shown distance is never negative and is the larger of 0 and last + interval − current |
| CarManagementScreen.DisplayMatchesStatus | src/screens/main/CarManagementScreen.tsx:170-174 | it equals the status's km left when not overdue by km, and 0 when overdue |
| OdometerInvariant.FuelSubmissionAdvancesOdometer | src/screens/main/FuelScreen.tsx:235-241 | an accepted and inserted fuel entry strictly raises the car's reading |
| OdometerInvariant.OilChangeAdvancesOdometer | src/screens/main/MaintenanceScreen.tsx:142-148 | an accepted oil change whose update succeeds is recorded and strictly raises the car's reading |
| OdometerInvariant.FuelSubmissionKeepsReadingsCovered | src/lib/services/fuelService.ts:79-85 | accepted fuel entries keep every stored entry at or below its car's reading, and the new entry lies above all earlier entries of its car |
| OdometerInvariant.OilChangeKeepsReadingsCovered | src/lib/services/maintenanceService.ts:24-28 | accepted oil changes, recorded or failed, keep every stored entry at or below its car's reading |
| OdometerInvariant.DeleteKeepsReadingsCovered | src/lib/services/fuelService.ts:102-106 | deleting entries, successfully or not, keeps every stored entry at or below its car's reading |
| OdometerInvariant.UpdateKeepsReadingsCovered | src/lib/services/fuelService.ts:109-118 | an update whose patch sets neither the reading nor the car keeps every stored entry at or below its car's reading |
| OdometerInvariant.UpdateCanUncoverReading | src/lib/services/fuelService.ts:109-118 | an update that sets an entry's reading above its car's breaks that coverage: nothing checks the patch |
| OdometerInvariant.AddEntryCanLowerOdometer | src/lib/services/fuelService.ts:79-85 | without the screen's check an entry below the current reading lowers it |
| OdometerInvariant.OilChangeCanLowerOdometer | src/lib/services/maintenanceService.ts:24-28 | an oil change below the current reading lowers it |

## Left out

- Remote persistence. Query building, the order by date, the client and the
  session store are replaced by the abstract `Store` with its list order taken as
  given. `carService` and the authentication flows are also out.
- The fuel screen's stored full-tank flag is assumed to be `false`. The insert
  omits the key, so the row takes the column's database default, which is not
  part of this model; the stored consumption is null either way.
- The car update inside `addEntry` is assumed to succeed. The source discards its
  result, so a failure of that update is not modelled.
- When the predecessor query finds several full-tank rows with the same highest
  reading, the database may return any of them. The model picks the first in store
  order.
- `updateEntry`'s `.single()` error when several rows share an id is not modelled.
  Ids are unique keys.
- The calendar arithmetic of `getNextServiceDate` (`addMonths` from an external
  date library) is not modelled. The next service date is an input. The source
  reads the clock twice; the model takes one `now`.
- The status is a pure function of the car, the next service date and `now`.
  Identical inputs giving identical output is therefore built into the model and
  needs no separate statement.
- Floating point. Litres and prices are exact reals, and `Math.round` is
  floor(x + ½). A non-finite price or total is a database null (`None`), which is
  what JSON serialisation makes of `NaN` and infinities. Litres passed to
  `addEntry` are assumed to be a number.
- Parsing and formatting. `parseFloat`, `parseInt` and `toFixed(2)` are function
  parameters. So the defaults "10000" and "12" are shown as text, not as parsed
  numbers.
- `MaintenanceScreen.ProgressFraction`: does not model the rounding to two decimals
  of `toFixed(2)` followed by `parseFloat`.
- The null-versus-undefined distinction in the average's filter is not modelled.
  Consumption is `Option<real>`, and an absent value never counts.
- React state, effects, focus refreshes, navigation, rendering, alert texts and
  the error boundary are out. A rejection records only which check failed.
- The hook's reset when the car changes (`useFuelEntries.ts:63-70`) is covered by
  `FetchEntries` with an empty car id, which gives the same cleared state.
