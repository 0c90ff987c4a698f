# Battery power-state model

A Dafny model of the managed layer of the `Gmcu.Managed.Io.Battery` library. The layer
asks a native provider for each battery's raw answers and decodes them into typed
values. It keeps one snapshot per battery and one system-wide power status. It finds the
batteries by probing slot indices 0, 1, 2, … until a slot reports that it does not exist.

The model has four parts:

- **Decoders** (`BatteryInfo`, `battery_info.dfy`). Each `Query*` function reads one raw
  answer from the provider. It returns `Ok(value)` or `Err(error)`; the error stands for
  the exception the C# code throws. Most errors carry the provider's code, with two
  exceptions: the system power query raises `UnsupportedFunction` when the provider
  returns 0, and an invalid manufacture date raises the `DateTime` range error, which
  carries no code.
  - The success test is taken per query, as written in the source: `< 0` fails for
    status, temperature and estimated time (except the sentinel -110 of the last);
    `!= Success` fails for the text, date and information queries; `== 0` fails for
    the system power status.
  - Lemmas about capability bits and the chemistry table are in
    `battery_info_lemmas.dfy`.
- **Battery** (`Batteries`, `battery.dfy`). A class with the nine refreshed attributes as
  mutable fields. It also has the constant slot index and the presence flag set by the
  constructor.
  - `Refresh` overwrites every attribute with its query's value, or with its default
    when the query failed.
  - `Refresh` returns false exactly when the status query failed with
    `BatteryDoesNotExist`.
  - Its modifies frame leaves out the presence flag, so no later refresh can change it.
- **System power status** (`SystemPower`, `system_power_status.dfy`). A class with six
  fields. `UpdateFrom` copies a decoded record. `Refresh` decodes the provider's answer
  and copies it; on failure it changes nothing.
- **Power state** (`Power`, `power_state.dfy`). The aggregate of one power status and a
  sequence of batteries.
  - A full refresh clears the list, then constructs batteries for indices 0..99. It
    appends each present one and stops at the first absent one.
  - A partial refresh refreshes each listed battery in place and ignores its result.
  - `ProbeFrom` and `EnumerationLength` give the reference definition of how many
    batteries a full refresh finds.

How the native side and exceptions are represented:

- The native provider is a value of type `Provider` (`battery_proxy.dfy`): one total
  function per entry point, from slot index to raw answer, plus the system-power answer.
  Every refresh takes the provider as a parameter.
- C# enums filled by a cast from a raw number keep that number:
  - `BatteryResult` is a newtype over `int` with named constants, so an unnamed code
    survives the cast `(BatteryResult)code`.
  - The technology type, the AC state and the flag bytes are kept as their raw values.
- A method that can throw returns an `Outcome` (`Pass` or `Fail(error)`). A constructor
  that can throw becomes a static factory returning a `Result`.

## Model

| member | source | states |
|---|---|---|
| BatteryInfo.QueryBatteryStatus | Gmcu.Managed.Io.Battery/BatteryInfo.cs:112-125 | fails exactly when the provider code is negative, raising that code; otherwise copies power state, capacity, voltage and rate unchanged |
| BatteryInfo.QueryTemperature | Gmcu.Managed.Io.Battery/BatteryInfo.cs:127-135 | fails exactly on a negative answer, raising it as the code; otherwise a non-negative value that is one tenth of the raw answer |
| BatteryInfo.QueryEstimatedTime | Gmcu.Managed.Io.Battery/BatteryInfo.cs:137-149 | the sentinel -110 gives zero; any other negative answer raises that code, and the query fails for no other answer; an answer n >= 0 gives n seconds; a success is never negative |
| BatteryInfo.QueryText | Gmcu.Managed.Io.Battery/BatteryInfo.cs:151-161 | the shared text-query shape: fails exactly when the code is not `Success`, raising that code; otherwise returns the provider's text |
| BatteryInfo.QueryDeviceName | Gmcu.Managed.Io.Battery/BatteryInfo.cs:151-161 | fails exactly when the device-name code is not `Success`, keeping the code; otherwise the provider's text |
| BatteryInfo.QueryManufactureName | Gmcu.Managed.Io.Battery/BatteryInfo.cs:163-173 | the same for the manufacturer name |
| BatteryInfo.QuerySerialNumber | Gmcu.Managed.Io.Battery/BatteryInfo.cs:175-185 | the same for the serial number |
| BatteryInfo.QueryUniqueId | Gmcu.Managed.Io.Battery/BatteryInfo.cs:187-197 | the same for the unique identifier |
| BatteryInfo.CodeError | Gmcu.Managed.Io.Battery/BatteryInfo.cs:107-110 | the raised exception is the battery exception carrying exactly the provider's code |
| BatteryInfo.QueryManufactureDate | Gmcu.Managed.Io.Battery/BatteryInfo.cs:199-209 | a non-`Success` code raises that code; the query succeeds exactly when the code is `Success` and the raw triple is a valid date, and then returns that date; the range error is raised exactly when the code is `Success` and the triple is not a valid date |
| BatteryTypes.DaysInMonth | Gmcu.Managed.Io.Battery/BatteryInfo.cs:205 | the month lengths of the date range check: 31 for months 1, 3, 5, 7, 8, 10, 12; 30 for 4, 6, 9, 11; February 29 exactly in a Gregorian leap year, 28 otherwise |
| BatteryTypes.DateBoundaries | Gmcu.Managed.Io.Battery/BatteryInfo.cs:205 | the range check accepts 2000-02-29, 2024-02-29 and the years 1 and 9999, and rejects 1900-02-29, 2023-02-29, April 31, years 0 and 10000, month 0 or 13 and day 0 |
| BatteryInfo.AsciiChar | Gmcu.Managed.Io.Battery/BatteryInfo.cs:234 | ASCII decoding of one byte always gives a 7-bit character; a byte below 0x80 decodes to itself and any other byte to '?' |
| BatteryInfo.ChemistryTag | Gmcu.Managed.Io.Battery/BatteryInfo.cs:233-234 | the decoded chemistry tag is always exactly four characters long |
| BatteryInfo.ChemistryOf | Gmcu.Managed.Io.Battery/BatteryInfo.cs:235-268 | the `switch` on the tag gives `RAM` exactly for the three-character text "RAM", and any other named chemistry only for a four-character tag |
| BatteryInfo.DecodeInformation | Gmcu.Managed.Io.Battery/BatteryInfo.cs:219-268 | each capability flag is true exactly when its own bit (30, 29, 31) is set; the technology is the raw byte and so never `Unknown` (-1); the chemistry is the table lookup of the ASCII tag; the six counters are copied verbatim |
| BatteryInfo.QueryBatteryInformation | Gmcu.Managed.Io.Battery/BatteryInfo.cs:212-274 | fails exactly when the code is not `Success`, keeping the code; on success the whole record is the decode of the raw record, and its chemistry is never `RAM` |
| BatteryInfo.Lifetime | Gmcu.Managed.Io.Battery/BatteryInfo.cs:289-291 | a lifetime is the raw seconds unless the raw value is the sentinel -1, which gives zero; zero results only from -1 or 0 |
| BatteryInfo.QueryPowerStatus | Gmcu.Managed.Io.Battery/BatteryInfo.cs:276-294 | a zero return raises `UnsupportedFunction`; otherwise the AC, flag, percent and saver bytes are copied; the percent lies in 0..255; each lifetime is zero for the sentinel -1 and the raw seconds otherwise |
| BatteryInfoLemmas.OnlyCapabilityBitsMatter | Gmcu.Managed.Io.Battery/BatteryInfo.cs:219-224 | two capability masks that agree on bits 29-31 decode to the same information; bits 0x1, 0x2 and all others are ignored |
| BatteryInfoLemmas.CapabilityFlagsIndependent | Gmcu.Managed.Io.Battery/BatteryInfo.cs:11-18 | toggling one capability bit toggles its own flag and leaves every other decoded field unchanged |
| BatteryInfoLemmas.SpellingIsPlainAscii | Gmcu.Managed.Io.Battery/BatteryInfo.cs:237-263 | every table entry is 7-bit ASCII without '?', so the '?' substitution never produces a match |
| BatteryInfoLemmas.TagMatchesSpelling | Gmcu.Managed.Io.Battery/BatteryInfo.cs:233-259 | the decoded tag equals a table entry's text exactly when the four raw bytes are that entry's spelling |
| BatteryInfoLemmas.ChemistryByBytes | Gmcu.Managed.Io.Battery/BatteryInfo.cs:233-268 | the lookup is total: a named chemistry is produced exactly when the bytes spell it; `RAM` is never produced; `Unknown` exactly when no entry matches |
| BatteryInfoLemmas.RamWithNulIsUnknown | Gmcu.Managed.Io.Battery/BatteryInfo.cs:261-266 | the bytes "RAM" followed by NUL decode to `Unknown` |
| Batteries.Refreshed | Gmcu.Managed.Io.Battery/Battery.cs:391-482 | what one refresh stores: the temperature and the estimated time are never negative, and the chemistry is never `RAM`, whichever queries fail |
| Batteries.RefreshedFields | Gmcu.Managed.Io.Battery/Battery.cs:395-482 | what a refresh stores, from the raw answers: zero status on any status failure; the copied status otherwise; temperature, time, texts, date and information or their defaults (0, zero, "", `MinValue` for a failed or invalid date, zeroed information) |
| Batteries.Present | Gmcu.Managed.Io.Battery/Battery.cs:393-406 | the refresh result is false exactly when the status code is `BatteryDoesNotExist` (-102) |
| Batteries.FieldIsolation | Gmcu.Managed.Io.Battery/Battery.cs:412-482 | each stored attribute, and the presence result, depends only on its own query's answer |
| Batteries.PresentDespiteOtherFailures | Gmcu.Managed.Io.Battery/Battery.cs:393-484 | a status failure other than -102 zeroes the status but leaves the battery present, for any answers of the other eight queries |
| Batteries.Battery.constructor | Gmcu.Managed.Io.Battery/Battery.cs:374-378 | the index is the one given; the attributes are those of one refresh; the presence flag is that refresh's result |
| Batteries.Battery.Refresh | Gmcu.Managed.Io.Battery/Battery.cs:391-485 | all nine attributes become the refreshed snapshot for the provider and the battery's own index, whatever they held before; the result is the presence test; the index and the presence flag are outside the frame |
| Batteries.RefreshTwice | Gmcu.Managed.Io.Battery/Battery.cs:391-485 | two refreshes against an unchanged provider return the same presence result and leave the same nine attributes, the refreshed snapshot for the battery's index; the presence flag stays as it was |
| SystemPower.SystemPowerStatus.constructor | Gmcu.Managed.Io.Battery/SystemPowerStatus.cs:107-141 | a new status holds the default of each of the six properties |
| SystemPower.SystemPowerStatus.UpdateFrom | Gmcu.Managed.Io.Battery/SystemPowerStatus.cs:147-155 | the six properties become exactly those of the source record |
| SystemPower.SystemPowerStatus.Refresh | Gmcu.Managed.Io.Battery/SystemPowerStatus.cs:160-163 | fails with `UnsupportedFunction` exactly on a zero return and then changes nothing; on success the properties equal the decoded record, with both lifetime sentinels mapped to zero; the percent stays in 0..255 |
| SystemPower.RefreshTwice | Gmcu.Managed.Io.Battery/SystemPowerStatus.cs:160-163 | two refreshes against an unchanged provider have the same outcome and leave the decoded record, or the old one on failure |
| Power.ProbeFrom | Gmcu.Managed.Io.Battery/PowerState.cs:56-64 | probing from index i stops at the first absent index at or after i, or at 100; every index passed over is present |
| Power.EnumerationLength | Gmcu.Managed.Io.Battery/PowerState.cs:56-62 | a full enumeration finds at most 100 batteries, and when it finds fewer, the next index reports `BatteryDoesNotExist` |
| Power.EnumerationLengthIsFirstAbsent | Gmcu.Managed.Io.Battery/PowerState.cs:53-65 | the enumeration length is n exactly when n <= 100, no index below n reports -102, and index n reports -102 when n < 100 |
| Power.EnumerationStopsAtAbsentSlot | Gmcu.Managed.Io.Battery/PowerState.cs:56-62 | slots 0..count-1 that answer, then an absent slot, give exactly count batteries |
| Power.PowerState.Empty | Gmcu.Managed.Io.Battery/PowerState.cs:8-9 | the field initializers: a new power status holding the default of all six properties, and an empty list |
| Power.PowerState.Create | Gmcu.Managed.Io.Battery/PowerState.cs:14-18 | construction fails with `UnsupportedFunction` exactly when either of its two power-status refreshes fails; otherwise the list is the full enumeration of fresh batteries, and the power status is a fresh object holding the second decode |
| Power.PowerState.Refresh | Gmcu.Managed.Io.Battery/PowerState.cs:34-48 | the power status is refreshed first; if that fails, the list, the batteries and the power status are unchanged; otherwise a full refresh gives the enumeration of fresh batteries and leaves the dropped battery objects untouched (they are outside its frame), and a partial one keeps the same list with every battery refreshed |
| Power.PowerState.RefreshEach | Gmcu.Managed.Io.Battery/PowerState.cs:43-46 | each listed battery is refreshed and stays listed even if it now reports absence; positions still match indices |
| Power.PowerState.EnumerateBatteries | Gmcu.Managed.Io.Battery/PowerState.cs:53-65 | the list is rebuilt from empty: its length is the enumeration length (at most 100), position k holds a fresh battery built for index k that is present and refreshed |

## Left out

- The native provider (`Gmcu.Proxy.Io.Battery`) and the `DllImport` calls are not part of this model. They are replaced by the `Provider` oracle.
- The provider maps the operating system's "unknown time" to -110 before the managed layer sees it. That is taken as given about the oracle.
- Each refresh sees one provider value: a provider whose answers change between two queries of the same refresh is not modelled.
- Struct marshalling and the 512-character `StringBuilder` buffers are not modelled; a text answer is taken as the final string.
- BatteryInfo.QueryTemperature: the value is the exact real raw/10, not the single-precision `float` the source computes, so float rounding is not modelled.
- `DateTime` is a (year, month, day) triple with the constructor's range check. `TimeSpan` is a whole number of seconds.
- The public interfaces (`IBattery`, `IBatteryStatus`, `ISystemPowerStatus`, …) and the members that only carry documentation are not modelled. They are read-only views of the same fields.
- `BatteryInfoException` is modelled by the result code it carries; its `Exception` base class is not modelled.
- Exceptions the source does not raise itself (out of memory and the like) are not modelled, nor is thread safety.
- Power.PowerState.Create: the C# constructor leaves no object when it throws; the factory returns `Err` instead, and its object is not visible to the caller.
- Power.PowerState.RefreshEach: the contract does not state that the batteries are refreshed in list order. With one fixed provider per refresh, the order does not change any stored value.
- The enum member spelled `BatterySaverOm` in the source appears here as `BatterySaverOn`; only its value, 1, matters.
