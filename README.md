# rent-and-payment, modelled in Dafny

The rent engine expands a lease into its due dates and records one payment
per date. A lease has an amount, a frequency (monthly, fortnightly or weekly),
a start date, an end date and an optional payment method. Method offsets:

- credit card: two days early;
- bank transfer: three days early;
- instant, or none at all: on the day.

A rent change gives every payment due on or after its effective date a new
amount. A method change moves every payment date by the new method's offset.

There are two versions of the engine:

- **Version 1** (`PaymentInfo`).
  - It validates the caller's hash (`RentUtils`) and expands the lease once
    into an ordered key list and a map from base date to entry.
  - It reprices entries in place and rebuilds them when the method changes.
  - It renders records whose fields depend on a sticky "adjusted" flag and
    on the current method.
- **Version 2** (`PaymentInfoServiceV2` and the `PaymentInfoV2` entity).
  - It builds an ordered hash from base date to details.
  - Every change makes a new hash, which the entity takes through its
    setter. That re-derives the list of records.

Modules, one per source file, plus a shared foundation:

| module | file | models |
|---|---|---|
| `Wrappers` | `wrappers.dfy` | `Option`, `Result` |
| `CivilDate` | `civil_date.dfy` | the part of Ruby's `Date` the engine uses, in the proleptic Gregorian calendar (see below) |
| `Schedule` | `schedule.dfy` | the shared vocabulary (see below) |
| `UtilConstants` | `util_constants.dfy` | version 1's constants |
| `RentUtils` | `rent_utils.dfy` | version 1's validation and parsing |
| `PaymentInfoV1` | `payment_info.dfy` | version 1's `PaymentInfo` class |
| `UtilConstantsV2` | `util_constants_v2.dfy` | version 2's constants |
| `PaymentInfoV2Entity` | `payment_info_v2.dfy` | version 2's entity class, with the ordered hash as a sequence of pairs and `h[k] = v` as `Put` |
| `PaymentInfoServiceV2` | `payment_info_service_v2.dfy` | version 2's service |
| `Agreement` | `agreement.dfy` | proofs that the two versions compute the same schedule from the same terms, and keep computing the same one after every rent change and method change |

`CivilDate` covers:

- ordinal day numbers;
- `+`, `-` and `>>` (month arithmetic with the day clamped to the end of the month);
- comparison;
- `to_s` as the ISO 8601:2004 extended calendar date `YYYY-MM-DD` (section 4.1.2.2).

`Schedule` holds what both versions share: frequencies, methods, parsed terms, entries, and the due-date rule. The rule computes candidate `i` as `(start >> i*months) + i*days` from the start date and keeps candidates while they lie before the end date. `Schedule` also holds the amount left in force by a list of rent changes.

The schedule state of both versions has an independent specification. Every state-changing method is proved against it:

- `EntriesUnder` and `RowsUnder` give the schedule that a key list yields under a method, an initial amount and a list of rent changes.
- `Repriced`, `RebuiltForMethod`, `AdjustedRows` and `MethodChangedRows` give each change.
- Lemmas connect each change to the specification.

## Model

| member | source | states |
|---|---|---|
| CivilDate.IsValid | util/rent_utils.rb:63-64 | definition: the triples that name a day of the proleptic Gregorian calendar; the `Date` subset type |
| CivilDate.Ordinal | payment_info.rb:60 | definition of the day number; properties in `CivilDate.LessIsOrdinalLess`, `CivilDate.OrdinalInjective` and `CivilDate.AddDays` |
| CivilDate.Less | payment_info.rb:60 | definition of `Date#<` as field-wise order; properties in `CivilDate.LessIsOrdinalLess` and `CivilDate.LessTransitive` |
| CivilDate.AtLeast | payment_info.rb:39 | definition of `Date#>=` as not `<` |
| CivilDate.DaysInMonth | payment_info.rb:60 | a month has 28 to 31 days, and 29 exactly in February of a leap year |
| CivilDate.LessIsOrdinalLess | payment_info.rb:60 | comparing dates field by field is the same as comparing their day numbers |
| CivilDate.OrdinalInjective | payment_info.rb:60 | two dates with one day number are the same date |
| CivilDate.LessTransitive | payment_info.rb:60 | `<` on dates is transitive |
| CivilDate.NextDay | payment_info.rb:60 | the next day's number is one more |
| CivilDate.PrevDay | payment_info.rb:71 | the previous day's number is one less |
| CivilDate.AddDays | payment_info.rb:60 | `d + n` has day number `Ordinal(d) + n` |
| CivilDate.StepDays | payment_info.rb:60 | moving forward `n` days one day at a time lands on day number `Ordinal(d) + n` |
| CivilDate.SubDays | payment_info.rb:71 | `d - n` has day number `Ordinal(d) - n` and is never after `d` for `n >= 0` |
| CivilDate.AddThenSubDays | payment_info.rb:71 | adding n days and then subtracting n gives the date back |
| CivilDate.AddDaysAdvances | payment_info.rb:60 | adding a positive number of days gives a strictly later date |
| CivilDate.AddMonths | payment_info.rb:60 | `d >> k` is `k` months later by month index; it keeps the day when the target month has it and clamps to the month's last day otherwise |
| CivilDate.AddMonthsZero | payment_info.rb:60 | `d >> 0` is `d` |
| CivilDate.AddMonthsMonotone | payment_info.rb:60 | more months give a strictly later date |
| CivilDate.DigitsValue | payment_info.rb:18 | the number a digit string denotes is below 10 to its length |
| CivilDate.DigitsValueOfDigits | payment_info.rb:18 | zero-padded decimal text has the given width, is all digits and denotes the number when it fits |
| CivilDate.DigitsOfValue | payment_info.rb:18 | digit text is the zero-padded writing of the number it denotes |
| CivilDate.Format | payment_info.rb:18 | definition of `Date#to_s`; properties in `CivilDate.FormatLayout`, `CivilDate.FormatOfLayout` and `RentUtils.StrptimeFormat` |
| CivilDate.FormatLayout | payment_info.rb:18 | `to_s` of a four-digit-year date is `YYYY-MM-DD`: ten characters, dashes at 4 and 7, digit runs that denote year, month and day |
| CivilDate.FormatOfLayout | payment_info.rb:18 | the converse: text laid out as 4, 2 and 2 digits between dashes is what the date it denotes prints as |
| CivilDate.NumDigitsAtMost | payment_info.rb:18 | a number below 10^w needs at most w digits |
| Schedule.MethodName | constant/util_constants.rb:15-20 | every method symbol prints as a non-empty name |
| Schedule.Candidate | payment_info.rb:60 | definition of `(start >> (i*months)) + (i*days)`; properties in `Schedule.CandidateAdvances` and `PaymentInfoV1.MonthlyCandidate` |
| Schedule.Candidates | payment_info.rb:60 | definition: the candidates as one series; properties in `Schedule.CandidatesIncreasing` and `Schedule.CandidatesAt` |
| Schedule.DueDatesFrom | payment_info.rb:60-64 | definition of the `while` loop's walk; properties in `Schedule.DueDatesFromAt`, `Schedule.DueDatesFromStops` and `Schedule.DueDatesFromStep` |
| Schedule.DueDates | payment_info.rb:56-64 | definition of a lease's base due dates; properties in `Schedule.DueDatesCharacterized` and `Schedule.DueDatesUnique` |
| Schedule.CandidateAdvances | payment_info.rb:60 | each candidate `(start >> i*months) + i*days` lies strictly after the previous one |
| Schedule.CandidatesIncreasing | payment_info.rb:60 | the candidate series is strictly increasing for every frequency step |
| Schedule.DueDatesFromAt | payment_info.rb:60-64 | the k-th date walked from candidate i is candidate i+k, and it lies before the end date |
| Schedule.DueDatesFromStops | payment_info.rb:60 | the first candidate not walked is on or after the end date |
| Schedule.DueDatesFromStep | payment_info.rb:60-64 | one turn of the loop: a candidate before the end is taken and the walk goes on; otherwise the walk ends |
| Schedule.CandidatesAt | payment_info.rb:60 | the series holds the candidates |
| Schedule.DueDatesCharacterized | payment_info.rb:54-67 | the due dates are exactly the leading candidates that lie before the end date; the next candidate does not |
| Schedule.NoDueDatesWithoutTerm | payment_info.rb:60 | there are no due dates exactly when the start is not before the end |
| Schedule.DueDatesUnique | payment_info.rb:54-67 | any list of leading candidates before the end, whose next candidate is not, is the due-date list |
| Schedule.ThreeTermsBefore | payment_info.rb:60-64 | a series whose third term lies before the end and whose fourth does not yields exactly its first three terms |
| Schedule.ThreeDueDates | payment_info.rb:54-67 | a lease whose third candidate lies before the end and whose fourth does not falls due exactly on its first three candidates |
| Schedule.SeriesIncreasing | payment_info.rb:60 | in an increasing series, a later index gives a later date |
| Schedule.DueDatesFromIncreasing | payment_info.rb:60-64 | the walked dates are strictly increasing |
| Schedule.WalkedBefore | payment_info.rb:60-64 | every date walked so far lies before the current candidate |
| Schedule.DueDatesIncreasing | payment_info.rb:54-67 | the due dates are strictly increasing |
| Schedule.DueDatesDistinct | payment_info.rb:54-67 | no due date occurs twice, so no key of the map is overwritten while it is built |
| Schedule.AmountAfter | payment_info.rb:38-40 | definition of the amount that repeated `adjust_rent` calls leave in force; properties in `Schedule.AmountAfterUnreached`, `Schedule.AmountAfterLatest` and `Schedule.LastWriteWins` |
| Schedule.AmountAfterUnreached | payment_info.rb:38-40 | when no rent change reaches a base date, the initial amount stays in force |
| Schedule.AmountAfterLatest | payment_info.rb:38-40 | the latest change that reaches a base date decides its amount |
| Schedule.LastWriteWins | payment_info.rb:38-40 | a new change decides every base date on or after its effective date; the others keep their amount |
| UtilConstants.RentFrequency | constant/util_constants.rb:9-13 | each frequency's step moves forward and lies in months only or in days only |
| UtilConstants.PaymentMethodOffset | constant/util_constants.rb:15-20 | offsets are non-negative and zero exactly for instant and none |
| UtilConstants.FrequencyNamed | constant/util_constants.rb:9-13 | a name found in the frequency table is that frequency's name |
| UtilConstants.MethodNamed | constant/util_constants.rb:15-20 | a name found in the method table is that method's name |
| UtilConstants.FrequencyNamedInverse | constant/util_constants.rb:9-13 | a lookup finds frequency f exactly for f's name |
| UtilConstants.MethodNamedInverse | constant/util_constants.rb:15-20 | a lookup finds method m exactly for m's name |
| UtilConstants.DateShape | constant/util_constants.rb:3 | definition of one shape the pattern admits: 4 digits, `-`, 1 or 2 digits, `-`, 1 or 2 digits |
| UtilConstants.MatchesDateRegexp | constant/util_constants.rb:3 | definition of a whole-string match of `DATE_REGEXP`; properties in `UtilConstants.MonthWidth` and `UtilConstants.FormatMatchesDateRegexp` |
| UtilConstants.MonthWidth | constant/util_constants.rb:3 | a string that matches `^\d{4}-\d{1,2}-\d{1,2}$` splits into its runs in exactly one way |
| UtilConstants.FormatMatchesDateRegexp | constant/util_constants.rb:3 | every four-digit-year date prints as text that matches the date pattern |
| UtilConstantsV2.RentFrequency | v2/constant/util_constants_v2.rb:3-7 | each frequency's step moves forward and lies in months only or in days only |
| UtilConstantsV2.PaymentMethodOffset | v2/constant/util_constants_v2.rb:9-14 | offsets are non-negative and zero exactly for instant and none |
| UtilConstantsV2.SameFrequencies | v2/constant/util_constants_v2.rb:3-7 | the second version's frequency table equals the first's |
| UtilConstantsV2.SameOffsets | v2/constant/util_constants_v2.rb:9-14 | the second version's method offsets equal the first's |
| RentUtils.Get | util/rent_utils.rb:22 | definition of `Hash#[]` (nil for a missing key); no contract of its own |
| RentUtils.ToSym | util/rent_utils.rb:18 | definition of `to_sym` (strings only, `NoMethodError` otherwise); no contract of its own |
| RentUtils.MatchDate | util/rent_utils.rb:26 | definition of `match` against `DATE_REGEXP` (strings only, `NoMethodError` otherwise); no contract of its own |
| RentUtils.Fields | util/rent_utils.rb:63-64 | the fields read from a matching string are in range: year up to 9999, month and day up to 99 |
| RentUtils.Strptime | util/rent_utils.rb:63-64 | definition of the strict `%Y-%m-%d` parse; properties in `RentUtils.StrptimeFormat`, `RentUtils.FormatStrptime` and `RentUtils.NoSuchDayText` |
| RentUtils.FieldsOfLayout | util/rent_utils.rb:63-64 | text laid out as year, month and day runs matches the pattern and reads back those fields |
| RentUtils.StrptimeFormat | util/rent_utils.rb:63-64 | parsing the text a date prints as gives the date back |
| RentUtils.FormatStrptime | util/rent_utils.rb:63-64 | the other direction: zero-padded text that names a day is what the parsed date prints as |
| RentUtils.HasRentFields | constant/util_constants.rb:5 | the fast key test agrees with `RENT_REQUIRED_FIELDS.all?` |
| RentUtils.HasAll | util/rent_utils.rb:10 | definition of `fields.all?` over `h.include?` |
| RentUtils.PassesFrequencyGuard | util/rent_utils.rb:10-20 | definition: the first three guards of `validate_rent` pass |
| RentUtils.PassesMethodGuard | util/rent_utils.rb:22 | definition: the method guard of `validate_rent` passes |
| RentUtils.PassesRentGuards | util/rent_utils.rb:10-28 | definition: all guards of `validate_rent` pass; properties in `RentUtils.ValidateRent` |
| RentUtils.DatesParse | util/rent_utils.rb:63-64 | definition: both date strings name a day |
| RentUtils.ParseRent | util/rent_utils.rb:59-68 | a bad day raises `Date::Error`; a present nil method raises `NoMethodError`; otherwise the terms are read from the hash, and a missing method is `:none` |
| RentUtils.ValidateRent | util/rent_utils.rb:9-31 | each outcome (every guard's message, `Date::Error`, `NoMethodError`, success) holds exactly for the inputs that produce it, in guard order |
| RentUtils.ValidateRentOf | util/rent_utils.rb:9-31 | a hash whose fields each describe a term of the lease validates to exactly those terms |
| RentUtils.ValidateRentHash | util/rent_utils.rb:9-31 | the hash a caller writes for any lease validates back to that lease |
| RentUtils.RentHashWithoutMethod | util/rent_utils.rb:65 | the hash without the optional `payment_method` key |
| RentUtils.ValidateRentWithoutMethod | util/rent_utils.rb:65 | without a `payment_method` key the parsed method is `:none` |
| RentUtils.LeaseDateError | util/rent_utils.rb:26-30 | dates with the pattern's shape, one of which names no day, raise `Date::Error` rather than a format message |
| RentUtils.LeaseFormatError | util/rent_utils.rb:26-28 | a start date that does not match the pattern gets the format message |
| RentUtils.NoSuchDayText | util/rent_utils.rb:63 | `2024-02-40` matches the pattern but names no day |
| RentUtils.NoSuchDay | test/payment_info_test.rb:401-414 | the test's sequence on any valid lease: `2024-02-40` as start date, then as both dates, raises `Date::Error`; `inv` as start date with the bad end date, then as both dates, gets the format message |
| RentUtils.ValidatePaymentMethod | util/rent_utils.rb:49-55 | accepts exactly the names of `PAYMENT_METHOD` keys and returns the named method; an unknown name gets the method message; a non-string raises `NoMethodError` |
| RentUtils.ValidatePaymentMethodName | util/rent_utils.rb:49-55 | every method is accepted under its own name |
| RentUtils.InputHash.constructor | util/rent_utils.rb:70-73 | the caller's hash object (class `InputHash`, whose entries `parse_rent_change` overwrites) holds the given entries |
| RentUtils.HasRentChangeFields | constant/util_constants.rb:7 | the fast key test agrees with `RENT_CHANGE_REQUIRED_FIELDS.all?` |
| RentUtils.PassesRentChangeGuards | util/rent_utils.rb:34-44 | definition: all guards of `validate_rent_change` pass; properties in `RentUtils.RentChangeOf` |
| RentUtils.RentChangeOf | util/rent_utils.rb:33-47 | each outcome of `validate_rent_change` holds exactly for the inputs that produce it: missing field, non-numeric amount, `NoMethodError`, format message, `Date::Error`, and success exactly when the guards pass and the date names a day, with the amount and parsed date |
| RentUtils.ParseRentChange | util/rent_utils.rb:70-73 | on success the parsed `Date` is written back into the caller's hash under `effective_date`; on failure the hash is left as it was |
| RentUtils.ValidateRentChange | util/rent_utils.rb:33-47 | the change validated as specified, and the caller's hash updated exactly on success |
| RentUtils.RentChangeNotReusable | util/rent_utils.rb:71 | a hash validated once holds a `Date` and raises `NoMethodError` when validated again |
| PaymentInfoV1.MethodEntry | payment_info.rb:69-75 | definition of `build_method_entry`; properties in `PaymentInfoV1.MethodEntryPaysAhead` |
| PaymentInfoV1.MethodEntryPaysAhead | payment_info.rb:69-75 | an entry carries its amount and method, and is paid the method's offset before the base date, never after it |
| PaymentInfoV1.Repriced | payment_info.rb:38-40 | definition of the map `adjust_rent` leaves; properties in `PaymentInfoV1.RepricedEntries` and `PaymentInfoV1.RepricedUnder` |
| PaymentInfoV1.RepricedEntries | payment_info.rb:38-40 | repricing keeps every key, payment date and method; entries due on or after the effective date take the new amount and the others keep theirs |
| PaymentInfoV1.RebuiltForMethod | payment_info.rb:48 | definition of the map `add_or_change_payment_method` rebuilds; properties in `PaymentInfoV1.RebuiltEntries` and `PaymentInfoV1.RebuiltUnder` |
| PaymentInfoV1.RebuiltEntries | payment_info.rb:48 | rebuilding keeps every key and amount, sets the new method, and moves each payment date to the base date minus the new offset |
| PaymentInfoV1.RepriceRebuildCommute | payment_info.rb:35-50 | a rent change and a method change commute |
| PaymentInfoV1.CreditCardEntry | test/payment_info_test.rb:293-308 | a credit-card payment due on 2024-01-01 is made on 2023-12-30 |
| PaymentInfoV1.MonthlyCandidate | payment_info.rb:57-60 | a monthly candidate is the start date moved by whole months and no days |
| PaymentInfoV1.MonthlyDueDatesClamped | payment_info.rb:60 | the k-th monthly due date is k months after the start, on the start's day clamped to the month's length |
| PaymentInfoV1.EndOfMonthDueDates | test/payment_info_test.rb:65-80 | the monthly lease from 2024-01-31 to 2024-04-30 falls due on exactly 01-31, 02-29 and 03-31 |
| PaymentInfoV1.RecordOf | payment_info.rb:17-27 | definition of one rendered record (datatype `Record`); properties in `PaymentInfoV1.RecordFields` |
| PaymentInfoV1.RecordFields | payment_info.rb:17-29 | a record always has the payment date; it has the amount exactly when adjusted or a method is set; it has the method name exactly when a method is set |
| PaymentInfoV1.Rendered | payment_info.rb:14-33 | definition of what `get_payment_dates` returns; properties in `PaymentInfoV1.RenderedAt` and `PaymentInfoV1.RenderedPrefix` |
| PaymentInfoV1.RenderedAt | payment_info.rb:14-33 | one record per key, in key order; each is the record of that key's entry |
| PaymentInfoV1.EntriesUnder | payment_info.rb:54-67 | definition of the map over a key list after a list of rent changes; properties in `PaymentInfoV1.EntriesUnderSnoc`, `PaymentInfoV1.RepricedUnder` and `PaymentInfoV1.RebuiltUnder` |
| PaymentInfoV1.EntriesUnderSnoc | payment_info.rb:61 | one more base date adds its entry to the map |
| PaymentInfoV1.RepricedUnder | payment_info.rb:38-40 | repricing a schedule is applying one more rent change to it |
| PaymentInfoV1.RebuiltUnder | payment_info.rb:48 | rebuilding a schedule for a method is building it under that method, with the same amounts in force |
| PaymentInfoV1.RepricedAt | payment_info.rb:38-40 | definition of the map after the `each` walk has visited a prefix of the keys; properties in `PaymentInfoV1.RepricedAtStep` and `PaymentInfoV1.RepricedAtAll` |
| PaymentInfoV1.RepricedAtStep | payment_info.rb:38-40 | walking one more key reprices that key and no other |
| PaymentInfoV1.RepricedAtAll | payment_info.rb:38-40 | once every key is walked, the map is repriced |
| PaymentInfoV1.RenderedPrefix | payment_info.rb:16-29 | rendering one more key appends that key's record |
| PaymentInfoV1.ExpandStep | payment_info.rb:60-63 | one loop turn takes the next due date and adds its entry |
| PaymentInfoV1.ExpandSchedule | payment_info.rb:54-67 | the loop's key list is the due dates of the candidate series, and its map holds each one's method entry |
| PaymentInfoV1.PaymentInfo.constructor | payment_info.rb:7-12 | on validated terms: the schedule invariant holds, the terms are stored, the flag is down and no change is recorded |
| PaymentInfoV1.PaymentInfo.BuildPaymentDateMap | payment_info.rb:54-67 | the lease's due dates are appended to the key list, and the map holds each one's entry at the lease amount |
| PaymentInfoV1.PaymentInfo.GetPaymentDates | payment_info.rb:14-33 | the loop returns the rendering of every key in order |
| PaymentInfoV1.PaymentInfo.AdjustRent | payment_info.rb:35-44 | an invalid change returns its error with no state changed; a valid one writes the parsed date into the caller's hash, reprices the map, raises the flag, keeps the invariant and returns the rendering |
| PaymentInfoV1.PaymentInfo.Reprice | payment_info.rb:38-42 | the map is repriced, the flag raised, and the change appended to those in force, keeping the invariant |
| PaymentInfoV1.PaymentInfo.RepriceEntries | payment_info.rb:38-40 | the in-place walk over the keys leaves the map repriced |
| PaymentInfoV1.PaymentInfo.AddOrChangePaymentMethod | payment_info.rb:46-50 | an invalid method returns its error with nothing changed; a valid one sets the method, rebuilds every entry for it, keeps the invariant and returns the rendering |
| PaymentInfoV1.PaymentInfo.Rebuild | payment_info.rb:47-48 | the method is replaced and the map rebuilt for it, keeping the invariant |
| PaymentInfoV1.NewPaymentInfo | payment_info.rb:7-12 | `PaymentInfo.new` fails with exactly `validate_rent`'s error; otherwise it returns a fresh object that holds the invariant, on the validated terms |
| PaymentInfoV2Entity.KeysOf | v2/entity/payment_info_v2.rb:20-27 | one key per pair |
| PaymentInfoV2Entity.DistinctKeys | v2/payment_info_service_v2.rb:59 | definition: no key occurs twice in an ordered hash |
| PaymentInfoV2Entity.Put | v2/payment_info_service_v2.rb:59 | definition of `h[k] = v` on an ordered hash; properties in `PaymentInfoV2Entity.PutFresh` and `PaymentInfoV2Entity.PutExisting` |
| PaymentInfoV2Entity.PutFresh | v2/payment_info_service_v2.rb:59 | storing under a new key appends the pair |
| PaymentInfoV2Entity.PutExisting | v2/payment_info_service_v2.rb:59 | storing under a present key replaces its value in place |
| PaymentInfoV2Entity.RecordOfRow | v2/entity/payment_info_v2.rb:23-27 | definition of one record of `build_payment_dates` |
| PaymentInfoV2Entity.PaymentDatesOf | v2/entity/payment_info_v2.rb:21-28 | definition of the records `build_payment_dates` derives; properties in `PaymentInfoV2Entity.PaymentDatesFields` |
| PaymentInfoV2Entity.PaymentDatesFields | v2/entity/payment_info_v2.rb:21-28 | one record per pair, in order, with the payment date's text and the amount; the method name is empty exactly for `:none` and the method's name otherwise |
| PaymentInfoV2Entity.PaymentInfoV2.constructor | v2/entity/payment_info_v2.rb:5-12 | the terms and hash are stored, and the records reflect the hash |
| PaymentInfoV2Entity.PaymentInfoV2.SetPaymentDateMap | v2/entity/payment_info_v2.rb:14-17 | the setter replaces the hash and re-derives the records; the terms are untouched |
| PaymentInfoV2Entity.PaymentInfoV2.BuildPaymentDates | v2/entity/payment_info_v2.rb:21-28 | the records become those of the current hash |
| PaymentInfoServiceV2.Details | v2/payment_info_service_v2.rb:59-63 | definition of the details stored for a base date; properties in `PaymentInfoServiceV2.DetailsPayAhead` |
| PaymentInfoServiceV2.DetailsPayAhead | v2/payment_info_service_v2.rb:59-63 | details carry their amount and method and are paid the method's offset before the base date |
| PaymentInfoServiceV2.RowsUnder | v2/payment_info_service_v2.rb:52-69 | definition of the ordered hash over a key list after a list of rent changes; properties in `PaymentInfoServiceV2.RowsUnderKeys`, `PaymentInfoServiceV2.AdjustedUnder` and `PaymentInfoServiceV2.MethodChangedUnder` |
| PaymentInfoServiceV2.RowsUnderKeys | v2/payment_info_service_v2.rb:52-69 | the hash's keys are the base dates it was built over, in order |
| PaymentInfoServiceV2.RowsUnderSnoc | v2/payment_info_service_v2.rb:59-63 | one more base date appends its pair |
| PaymentInfoServiceV2.StoreNext | v2/payment_info_service_v2.rb:59-63 | storing a date later than every stored key appends it |
| PaymentInfoServiceV2.GenerateStep | v2/payment_info_service_v2.rb:58-66 | one loop turn takes the next due date and appends its pair |
| PaymentInfoServiceV2.GenerateRows | v2/payment_info_service_v2.rb:52-69 | the loop's hash holds, in order, each due date of the series with its details at the lease amount |
| PaymentInfoServiceV2.BuildPaymentDatesFromRent | v2/payment_info_service_v2.rb:52-69 | the hash of the lease's due dates under the lease method and amount |
| PaymentInfoServiceV2.BuildPaymentInfo | v2/payment_info_service_v2.rb:10-17 | a fresh entity, with its records derived, holding the parsed terms and the lease's hash |
| PaymentInfoServiceV2.AdjustedRows | v2/payment_info_service_v2.rb:22-27 | definition of the new hash `adjust_rent` builds; properties in `PaymentInfoServiceV2.AdjustedRowsFields` and `PaymentInfoServiceV2.AdjustedUnder` |
| PaymentInfoServiceV2.AdjustedRowsFields | v2/payment_info_service_v2.rb:22-27 | the adjusted hash keeps keys, order, payment dates and methods; pairs on or after the effective date take the new amount and the others keep theirs |
| PaymentInfoServiceV2.MethodChangedRows | v2/payment_info_service_v2.rb:37-43 | definition of the new hash `add_or_change_payment_method` builds; properties in `PaymentInfoServiceV2.MethodChangedRowsFields` and `PaymentInfoServiceV2.MethodChangedUnder` |
| PaymentInfoServiceV2.MethodChangedRowsFields | v2/payment_info_service_v2.rb:37-43 | the changed hash keeps keys, order and amounts, sets the method, and pays each base date the new offset early |
| PaymentInfoServiceV2.AdjustedUnder | v2/payment_info_service_v2.rb:22-27 | adjusting a schedule is applying one more rent change to it |
| PaymentInfoServiceV2.MethodChangedUnder | v2/payment_info_service_v2.rb:37-43 | changing a schedule's method is building it under the new method |
| PaymentInfoServiceV2.ChangesCommute | v2/payment_info_service_v2.rb:19-48 | a rent change and a method change commute |
| PaymentInfoServiceV2.AdjustedTwice | v2/payment_info_service_v2.rb:22-27 | after two rent changes, the later decides every pair it reaches and the earlier decides the rest it reaches |
| PaymentInfoServiceV2.AdjustRent | v2/payment_info_service_v2.rb:19-32 | the entity takes the adjusted hash, its records follow, and they are returned |
| PaymentInfoServiceV2.AddOrChangePaymentMethod | v2/payment_info_service_v2.rb:34-48 | the entity takes the method-changed hash, its records follow, and they are returned |
| Agreement.RowsOf | payment_info.rb:16-17 | definition: version 1's key list and map read as one ordered hash; properties in `Agreement.ScheduleAgrees` and `Agreement.RepricingAgrees` |
| Agreement.EntriesAgree | v2/payment_info_service_v2.rb:60-62 | both versions build the same details for a base date |
| Agreement.ScheduleAgrees | v2/payment_info_service_v2.rb:52-69 | under any list of rent changes both versions hold the same schedule, read in key order |
| Agreement.GenerationAgrees | v2/payment_info_service_v2.rb:52-69 | both versions generate the same ordered schedule for every lease |
| Agreement.RepricingAgrees | v2/payment_info_service_v2.rb:22-27 | version 1's in-place repricing and version 2's adjusted copy agree on every state |
| Agreement.RebuildingAgrees | v2/payment_info_service_v2.rb:37-43 | version 1's rebuild and version 2's method-changed copy agree on every state |
| Agreement.RenderingAgrees | v2/entity/payment_info_v2.rb:21-28 | on one schedule, version 1's records are version 2's with fields left out: same dates in the same order, same amount and method name wherever version 1 shows one, and an empty name exactly where version 1 shows none |
| Agreement.Agree | v2/entity/payment_info_v2.rb:5-12 | definition: the two objects hold the same terms and the same ordered schedule |
| Agreement.BuildBoth | v2/payment_info_service_v2.rb:10-17 | both objects built from the same terms hold their invariants and agree |
| Agreement.AdjustBoth | v2/payment_info_service_v2.rb:19-32 | the same rent change keeps agreeing objects agreeing, and each returns the records of the shared schedule |
| Agreement.ChangeMethodBoth | v2/payment_info_service_v2.rb:34-48 | the same method change keeps agreeing objects agreeing, and each returns the records of the shared schedule |

## Left out

- Calendar range: dates are proleptic Gregorian with unbounded years. Ruby's switch to the Julian calendar before 1582 is not modelled. Formatting and parsing are proved only for years 0 to 9999, the range the date pattern admits.
- `Date.strptime` is modelled as a strict parse of the runs the pattern already matched. Ruby's wider leniency on other text cannot arise after the pattern guard and is not modelled. The text of the `Date::Error` message is not modelled either.
- `DATE_REGEXP` anchors `^`/`$` are taken to match the whole string. Ruby's line anchors would also accept a date on one line of a multi-line string; that input is not modelled.
- Amounts are integers. `is_a?(Numeric)` also admits floats and rationals, which are not modelled, since floating point is out of scope.
- Hash keys are symbol names as strings, and the frequency and method values are strings. Symbol inputs, which `to_sym` would pass through, are not modelled.
- Extra keys in the caller's rent hash and the order of keys inside a rendered record are not modelled. Records are datatypes with optional fields.
- Version 1's `@payment_date_map` iteration order is that of its key list: both are built together and `adjust_rent` only changes values.
- `PaymentInfoV1.RepriceEntries`: walks the key list rather than the map itself; the two orders coincide.
- `v2/util/rent_utils_v2.rb` is not part of this model: version 2's operations take terms, changes and methods that are already parsed.
  - This means version 2 has no validation.
  - Its failures on an unknown frequency or method are not modelled.
- Version 2's `details.dup` makes no difference under value semantics, so the aliasing it prevents is not modelled.
- `Agreement.AdjustBoth`: takes the parsed rent change, because the versions parse differently.
- `Agreement.ChangeMethodBoth`: takes the parsed method, for the same reason.
- A `payment_method` key that is present but nil passes the method guard and then fails in `nil.to_sym` during `parse_rent`. It is modelled as `NoMethodError`, not excluded by a precondition.
- `PaymentInfoV1.RecordOf`: the record keeps the payment `Date`. Its text is `PaymentDateText`, i.e. `Format` (`Date#to_s`), which `CivilDate.FormatLayout` describes.
- The unit tests (`test/`, `v2/test/`) are not modelled. Three of their cases appear as lemmas: `PaymentInfoV1.EndOfMonthDueDates` and `PaymentInfoV1.CreditCardEntry` on the tests' own dates, and `RentUtils.NoSuchDay` on the test's date strings for any valid amount, frequency and end date, since the test's base lease is built by a helper that is not part of this model.
