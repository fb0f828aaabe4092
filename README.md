# rrule-rust recurrence text model, in Dafny

This project models the iCalendar recurrence **text layer** of rrule-rust. That layer reads and writes the content lines of section 3.1 of RFC 5545:

- DTSTART (section 3.8.2.4);
- RRULE and EXRULE (section 3.8.5.3, with the RECUR value of section 3.3.10);
- EXDATE (section 3.8.5.1) and RDATE (section 3.8.5.2);
- the TZID and VALUE parameters (sections 3.2.19 and 3.2.20);
- the DATE and DATE-TIME literals (sections 3.3.4 and 3.3.5).

The model follows the repository's layers:

- **Tokenizer** (`PropertyText`, `PropertyList`, `Params`). It splits `NAME;K=V:VALUE` into a name, an insertion-ordered parameter map with upper-cased keys, and a value. The value is one token or a `K=V;K=V` map. The `Parameters` map is a class whose `insert` and `clear` change it in place.
- **Codecs**:
  - `DateTimes`: the fixed-width date and date-time text, and the `-1`-sentinel array;
  - `ValueTypes`, `Frequencies`, `Weekdays`, `Months`;
  - `NWeekdays` and `JsNWeekdays`: the ordinal weekdays;
  - `ToVec` and `ToStringArray`: the comma-separated lists;
  - `JsDateTimes`: the decimal packing of a date-time into an `i64`;
  - `TsDateTimes`: the packed number behind the TypeScript `DateTime` class.
- **Entities** of lib/rrule: `RRules`, `DtStarts`, `DateLists` (EXDATE and RDATE share one model, parametrised by the kind).
- **Aggregates**:
  - `Calendars` and `RRuleSets` for lib/rrule;
  - `SerialRRules`, `SerialCalendars` and `SerialRRuleSets` for lib/serialization, the newer text layer that the host bindings use.
- **Host-side pieces**:
  - the `all`/`between` occurrence windows (`JsRRuleSets`), over a sequence of millisecond timestamps;
  - the TypeScript value classes (`TsDtStarts`, `TsExDates`, `TsRDates`);
  - the memo `OperationCache` (`OperationCaches`).

Loops of the source are methods with loop invariants, proved equal to a specification function. The lemmas state the round trips, the error cases and the asymmetries of the code, proved about those functions.

## Model

| member | source | states |
|---|---|---|
| PropertyText.ParseParameterSpec | lib/serialization/property.rs:133-146 | a token parses iff it has at most one '='; it has a key iff it has exactly one; keys are upper-cased; key and value are trimmed and the value keeps its case |
| PropertyText.ParseParameters | lib/serialization/property.rs:113-131 | the loop over ';' tokens: key/value tokens are inserted; a bare token while the map is empty gives Single; a bare or empty token after a key is InvalidParameters; leading empty tokens are skipped |
| PropertyText.ToString | lib/serialization/property.rs:45-70 | the rendering built by pushes: the name, `;K=V` per parameter in insertion order, ':', then the Single text or the pairs joined by ';' |
| PropertyText.FromStringNeedsOneColon | lib/serialization/property.rs:80-85 | whatever parses has exactly one ':'; a line with none or several is InvalidProperty naming the line |
| PropertyText.FromStringNameNormalised | lib/serialization/property.rs:104-107 | a parsed name is trimmed and has no lower-case letter |
| PropertyText.ParseNameIgnoresLaterSegments | lib/serialization/property.rs:104-111 | only the first parameter segment after the name is read (`take(2)`); later ones change nothing |
| PropertyText.ParseTokensOfPairs | lib/serialization/property.rs:113-131 | the rendered pairs of a plain map read back as that map |
| PropertyText.ParametersOfValueText | lib/serialization/property.rs:45-70 | the rendered value of a well-formed property reads back as that value |
| PropertyText.ParseNameOfHead | lib/serialization/property.rs:104-111 | the name-and-parameter part of a well-formed property reads back as its name and parameters |
| PropertyText.FromStringOfRender | lib/serialization/property.rs:45-101 | parsing the rendering of a well-formed property gives the property back |
| PropertyText.RenderHasNoNewline | lib/serialization/property.rs:45-70 | the rendering of a well-formed property is one line |
| PropertyText.DailyRuleLineRoundTrip | lib/serialization/property.rs:189-203 | the test's RRULE line reads as the RRULE property with its two rule parts and re-renders to itself |
| PropertyList.FromStr | lib/serialization/properties.rs:8-17 | the loop tokenizes each '\n'-separated segment in order and pushes it; the first segment that fails aborts with its error unchanged |
| PropertyList.ParseLinesCount | lib/serialization/properties.rs:8-17 | on success there is one property per segment, one more than there are newlines |
| PropertyList.EmptyLineRejected | lib/serialization/property.rs:80-85 | an empty segment is InvalidProperty naming it |
| PropertyList.TrailingNewlineRejected | lib/serialization/properties.rs:10-13 | no blank line is skipped: text ending in '\n' does not parse |
| PropertyList.EmptyTextRejected | lib/serialization/properties.rs:8-17 | the empty text is one empty segment and does not parse |
| PropertyList.LinesRoundTrip | lib/serialization/properties.rs:8-27 | well-formed properties rendered one per line parse back as the same list in the same order |
| Params.LookupSpec | lib/serialization/parameters.rs:20-22 | a key is found iff it is stored, and what is found is stored under it |
| Params.PutKeys | lib/serialization/parameters.rs:16-18 | inserting keeps the keys in order and appends the key if it is new |
| Params.PutLookup | lib/serialization/parameters.rs:16-22 | after inserting, the key finds the new value and every other key finds what it found before |
| Params.BuiltIsPresent | lib/rrule/rrule.rs:162-238 | a chain of inserts with distinct upper-case keys leaves exactly the entries that were inserted, in order |
| Params.InsertThenGet | lib/serialization/parameters.rs:16-22 | after insert under any spelling of a key, every spelling of it finds the new value (case-insensitive lookup) |
| Params.InsertOverwrites | lib/serialization/parameters.rs:16-18 | re-inserting a key in any case overwrites its value in place and adds no entry |
| Params.GetAsCases | lib/serialization/parameters.rs:24-29 | `get_as`: an absent key gives Ok(None); a parsable value gives Ok(Some(v)); otherwise the error "Invalid {key} value: {value}" |
| Params.IndexIsCaseSensitive | lib/serialization/parameters.rs:63-69 | `Index` does not upper-case: the lower-case spelling of a stored key is not found |
| Params.Parameters.constructor | lib/serialization/parameters.rs:10-14 | a new map has no entries |
| Params.Parameters.Insert | lib/serialization/parameters.rs:16-18 | the entries become the old ones with the upper-cased key put |
| Params.Parameters.IsEmpty | lib/serialization/parameters.rs:46-52 | empty iff the length is 0 |
| Params.Parameters.Clear | lib/serialization/parameters.rs:58-60 | no entries remain |
| Params.Parameters.Index | lib/serialization/parameters.rs:63-69 | the raw key must be stored exactly as given; the result is its value |
| Params.Parameters.GetAsVec | lib/serialization/parameters.rs:31-44 | absent key gives Ok(None); otherwise one value per ','-separated item, in order, or an error naming an item that does not parse |
| ToVec.ToVec | lib/serialization/to_vec.rs:15-28 | the loop over the ',' pieces: on success one value per piece, in order; otherwise the error of the first piece that does not parse |
| ToVec.EmptyInputFails | lib/serialization/to_vec.rs:18 | the empty string is one empty piece, so a parser that rejects "" makes it fail |
| ToStringArray.ToStringArray | lib/serialization/to_string_array.rs:14-22 | the loop pushes the items' forms in order, joined by ','; no items give "", one gives its form alone |
| ToStringArray.ToVecInvertsToStringArray | lib/serialization/to_string_array.rs:14-22 | `to_vec` undoes `to_string_array` for a non-empty list whose items have no comma and parse back to themselves |
| ValueTypes.FromStrToText | lib/rrule/value_type.rs:9-27 | parsing "DATE" / "DATE-TIME" gives the value type back |
| ValueTypes.FromStrIgnoresCase | lib/rrule/value_type.rs:21-25 | parsing is case-insensitive |
| ValueTypes.ToTextFromStr | lib/rrule/value_type.rs:21-26 | what parses is one of the two words up to case; anything else is "Invalid value type: {s}" |
| Frequencies.FromStrToText | lib/rrule/frequency.rs:15-41 | every keyword is upper-case and parses back as its frequency |
| Frequencies.ToTextFromStr | lib/rrule/frequency.rs:27-40 | what parses is a keyword up to case; anything else is "Invalid frequency: {upper-cased input}" |
| Frequencies.FromStrIgnoresCase | lib/rrule/frequency.rs:27-40 | case does not matter, not even in the error |
| Frequencies.EngineRoundTrip | lib/rrule/frequency.rs:44-76 | the mapping to and from the crate's frequency keeps the variant both ways |
| Weekdays.DefaultIsMonday | lib/rrule/weekday.rs:14-24 | the default weekday is Monday, written "MO" |
| Weekdays.CodeShape | lib/rrule/weekday.rs:60-72 | each code is two upper-case letters |
| Weekdays.FromStrToText | lib/rrule/weekday.rs:60-88 | parsing a code gives its weekday back |
| Weekdays.ToTextFromStr | lib/rrule/weekday.rs:77-87 | what parses is a code up to case; anything else is "Invalid weekday: {input}" |
| Weekdays.FromStrIgnoresCase | lib/rrule/weekday.rs:77-87 | case does not matter for what parses |
| Weekdays.EngineRoundTrip | lib/rrule/weekday.rs:26-58 | the mapping to and from the crate's weekday keeps the day both ways |
| Months.ToTextIsNumber | lib/rrule/month.rs:66-85 | the text of a month is its calendar number 1 to 12 |
| Months.FromStrToText | lib/rrule/month.rs:19-85 | parsing the text of a month gives it back |
| Months.ToTextFromStr | lib/rrule/month.rs:22-37 | whatever parses is the text of its month; anything else is "Invalid month number: {s}" |
| Months.OutOfTableRejected | lib/rrule/month.rs:22-37 | "01", "0" and "13" are rejected |
| NWeekdays.NumberPrefixSpec | lib/rrule/n_weekday.rs:81-90 | the ordinal text is the longest prefix of digits and '-' |
| NWeekdays.FromStrOfNumberAndCode | lib/rrule/n_weekday.rs:53-90 | an ordinal followed by a weekday code reads back as both |
| NWeekdays.FromStrToText | lib/rrule/n_weekday.rs:40-66 | every value, with or without an ordinal (1 included), is written as text that reads back as it |
| NWeekdays.FromStrShape | lib/rrule/n_weekday.rs:56-79 | an ordinal is present iff the text is longer than two, and the weekday comes from the last two characters |
| NWeekdays.MissingNumberRejected | lib/rrule/n_weekday.rs:81-90 | a longer text that does not start with a digit or '-' fails with "Invalid number: " |
| NWeekdays.XMORejected | lib/rrule/n_weekday.rs:81-90 | "XMO" is rejected |
| NWeekdays.MiddleIgnored | lib/rrule/n_weekday.rs:56-90 | the characters between the ordinal and the code are not read: "2XMO" is the second Monday |
| NWeekdays.SecondMonday | lib/rrule/n_weekday.rs:40-66 | "2MO" reads as (2, Monday) and is written back unchanged |
| NWeekdays.LastFriday | lib/rrule/n_weekday.rs:40-66 | "-1FR" reads as (-1, Friday) and is written back unchanged |
| NWeekdays.EngineRoundTrip | lib/rrule/n_weekday.rs:10-38 | an ordinal maps to `Nth` and its absence to `Every`, and back |
| JsNWeekdays.ToTextAgrees | lib/js/n_weekday.rs:40-55 | the host text is the rule model's except that ordinals 0 and 1 are not written |
| JsNWeekdays.RoundTrip | lib/js/n_weekday.rs:40-95 | the round trip holds iff the ordinal is not 0 or 1; those come back as every such weekday |
| JsNWeekdays.FirstSundayLost | lib/js/n_weekday.rs:40-71 | "1SU" reads as the first Sunday but is written back as "SU" |
| DateTimes.DeriveValueType | lib/rrule/datetime.rs:64-69 | DATE iff there is no time |
| DateTimes.FromStrLength | lib/rrule/datetime.rs:72-74 | any length other than 8, 15 or 16 is rejected, naming the text |
| DateTimes.FromStrShape | lib/rrule/datetime.rs:116-137 | 8 characters give no time, 15 or 16 give a time |
| DateTimes.FromStrFieldErrors | lib/rrule/datetime.rs:75-114 | each of year, month, day, hour, minute and second that does not parse is reported as "Invalid {field}: {its text}", the earlier field first |
| DateTimes.FromStrIgnoresSeparator | lib/rrule/datetime.rs:76-114 | the character at index 8 is never checked |
| DateTimes.FromStrOfFieldTexts | lib/rrule/datetime.rs:71-138 | a text with a time whose fields parse reads as those fields, with offset zero iff the 16th character is 'Z' in any case |
| DateTimes.FromStrToText | lib/rrule/datetime.rs:281-301 | the text of a date whose fields fit their widths reads back as it, except that a non-zero offset is not written |
| DateTimes.TextRoundTripExact | lib/rrule/datetime.rs:71-138 | the text round trip is exact iff the offset is absent or zero |
| DateTimes.TextHasNoComma | lib/rrule/datetime.rs:281-301 | the text holds digits, 'T' and 'Z' only |
| DateTimes.OffsetIsLost | lib/rrule/datetime.rs:281-301 | a date one hour east of UTC reads back with no offset |
| DateTimes.ToArray | lib/rrule/datetime.rs:247-271 | seven integers with -1 for each absent part |
| DateTimes.TupleMatchesArray | lib/rrule/datetime.rs:141-193 | the tuple and the array decode alike |
| DateTimes.ArrayRoundTrip | lib/rrule/datetime.rs:141-193 | decoding the encoding gives the date back unless a present part collides with the -1 sentinel |
| DateTimes.ArrayOfFromArray | lib/rrule/datetime.rs:163-192 | encoding a decoding gives the array back iff nothing was dropped |
| JsDateTimes.FieldOf | lib/js/datetime.rs:55-73 | on non-negative numbers Rust's `/` and `%` agree with the Euclidean ones |
| JsDateTimes.Unpack | lib/js/datetime.rs:55-73 | unpacking a packing of in-range fields gives the fields |
| JsDateTimes.FromI64OfToI64 | lib/js/datetime.rs:54-116 | unpacking what was packed gives the date-time back when each field but the year is below 100 and the year fits |
| JsDateTimes.ToI64OfFromI64 | lib/js/datetime.rs:54-116 | packing what was unpacked gives the number back when it is non-negative and its last digit is 0 or 1 |
| JsDateTimes.Pack | lib/js/datetime.rs:98-116 | packing in-range fields gives Y·10^11 + M·10^9 + D·10^7 + h·10^5 + m·10^3 + s·10 + utc, with no wrap-around |
| JsDateTimes.UtcDigit | lib/js/datetime.rs:62 | utc iff the last digit is 1 |
| JsDateTimes.NegativeWraps | lib/js/datetime.rs:55-73 | a negative number unpacks into wrapped fields: -10 has the second 4294967295 |
| JsDateTimes.OfTextOfRule | lib/serialization/calendar.rs:154 | on the assumed host text form, reading a host date-time's rule date-time gives it back |
| JsDateTimes.DateReadsAsMidnight | lib/serialization/rrule.rs:185 | on the assumed host text form, a date alone reads as midnight, not UTC, and its text gains T000000 |
| JsDateTimes.FromI64Fits | lib/js/datetime.rs:55-73 | a non-negative number below 10^15 unpacks into fields of at most four and two digits |
| JsDateTimes.StampTextReadsBack | lib/serialization/rrule_set.rs:102-103 | on the assumed host text form, the text of a packed number's date-time reads back as that date-time and holds no ',' |
| RRules.SetInterval | lib/rrule/rrule.rs:51-53 | replaces the interval and nothing else (likewise the other setters below) |
| RRules.SetCount | lib/rrule/rrule.rs:55-57 | replaces the count only |
| RRules.SetUntil | lib/rrule/rrule.rs:59-61 | replaces UNTIL only |
| RRules.SetByHour | lib/rrule/rrule.rs:63-65 | replaces BYHOUR only |
| RRules.SetByMinute | lib/rrule/rrule.rs:67-69 | replaces BYMINUTE only |
| RRules.SetBySecond | lib/rrule/rrule.rs:71-73 | replaces BYSECOND only |
| RRules.SetByMonthday | lib/rrule/rrule.rs:75-80 | replaces BYMONTHDAY only |
| RRules.SetByYearday | lib/rrule/rrule.rs:82-84 | replaces BYYEARDAY only |
| RRules.SetBySetpos | lib/rrule/rrule.rs:86-88 | replaces BYSETPOS only |
| RRules.SetByMonth | lib/rrule/rrule.rs:90-92 | replaces BYMONTH only |
| RRules.SetByWeekno | lib/rrule/rrule.rs:94-96 | replaces BYWEEKNO only |
| RRules.SetByDay | lib/rrule/rrule.rs:98-100 | replaces BYDAY only |
| RRules.SetWeekstart | lib/rrule/rrule.rs:102-104 | replaces WKST only |
| RRules.ChainIsParts | lib/rrule/rrule.rs:162-238 | the inserts leave exactly the set parts, in the order FREQ, INTERVAL, COUNT, UNTIL, BYHOUR, BYMINUTE, BYSECOND, BYMONTHDAY, BYYEARDAY, BYSETPOS, BYMONTH, BYWEEKNO, BYDAY, WKST |
| RRules.ToProperty | lib/rrule/rrule.rs:162-238 | the map built insert by insert holds FREQ, then each set optional part and each non-empty list, comma-joined; the name is RRULE |
| RRules.PartsGet | lib/rrule/rrule.rs:162-238 | each key written finds the text of its own field |
| RRules.PartsRoundTrip | lib/rrule/rrule.rs:162-301 | the map written reads back through `from_property` as the same rule, except a non-zero UNTIL offset |
| RRules.ToPropertyWellFormed | lib/rrule/rrule.rs:162-238 | the property renders as a line the tokenizer reads back |
| RRules.ToString | lib/rrule/rrule.rs:240-242 | the rendering of `to_property` |
| RRules.LineSpec | lib/rrule/rrule.rs:244-254 | the line starts with `RRULE:` in some case; a text that already does is kept, so normalising twice changes nothing |
| RRules.FromStrAddsPrefix | lib/rrule/rrule.rs:244-254 | a text without the prefix reads as the same text with it |
| RRules.TextRoundTrip | lib/rrule/rrule.rs:162-301 | `from_str(to_string(r))` is r, except a non-zero UNTIL offset |
| RRules.PropertyRoundTrip | lib/rrule/rrule.rs:256-301 | read back as RRULE or EXRULE with any parameters, the map gives the rule back |
| RRules.RoundTripExact | lib/rrule/rrule.rs:162-301 | the round trip is exact iff UNTIL has no time or an offset absent or zero |
| RRules.FromPropertyErrors | lib/rrule/rrule.rs:256-269 | a name other than RRULE/EXRULE gives "Invalid property name: {name}"; a Single value gives "Invalid {name}: {value}"; a map value is read part by part |
| RRules.FreqRequired | lib/rrule/rrule.rs:266-269 | FREQ is read first: a missing FREQ gives "FREQ is required" and one that does not parse gives "Invalid FREQ value: {text}", before anything else is read |
| RRules.NewParts | lib/rrule/rrule.rs:32-49 | `new` gives a rule whose only written part is FREQ |
| DtStarts.New | lib/rrule/dtstart.rs:45-51 | a start that is not UTC without a zone is refused with "TZID is requred for non-UTC DTSTART" |
| DtStarts.ToProperty | lib/rrule/dtstart.rs:33-43 | name DTSTART, a TZID parameter iff a zone is named, the date's text as value |
| DtStarts.TimezoneOfProperty | lib/rrule/dtstart.rs:22-27 | the zone read from the line is the TZID, otherwise UTC |
| DtStarts.FromPropertyErrors | lib/rrule/dtstart.rs:53-72 | a map value is "Invalid DTSTART value"; a bad date and an unknown zone ("Invalid timezone: {value}") are refused |
| DtStarts.RoundTrip | lib/rrule/dtstart.rs:33-72 | the written property reads back with the zone kept and the date without a non-zero offset |
| DtStarts.FloatingStartAccepted | lib/rrule/dtstart.rs:45-72 | `from_property` accepts a floating start without TZID that `new` refuses |
| DtStarts.PropertyWellFormed | lib/rrule/dtstart.rs:33-43 | with a plain zone name the property renders as a line the tokenizer reads back |
| DateLists.ToProperty | lib/rrule/exdate.rs:25-43 | TZID iff a zone other than UTC is named; the dates' texts joined by ',' in order (rdate.rs:25-43 is the same with RDATE) |
| DateLists.FromPropertyDates | lib/rrule/exdate.rs:45-70 | the Single value split on ',' and parsed in order; one bad piece fails the property (rdate.rs:45-70 alike) |
| DateLists.FromPropertyErrors | lib/rrule/rdate.rs:45-68 | a map value is "Invalid RDATE value" / "Invalid EXDATE value"; a bad zone is "Invalid timezone: ..." |
| DateLists.RoundTrip | lib/rrule/exdate.rs:25-70 | a non-empty list reads back in order; a UTC zone comes back absent and non-zero offsets are lost |
| DateLists.RoundTripExact | lib/rrule/rdate.rs:25-70 | the round trip is exact iff the zone is not UTC and no date has a non-zero offset |
| DateLists.EmptyListRejected | lib/rrule/exdate.rs:35-53 | no dates write an empty value, which does not read back |
| DateLists.PropertyWellFormed | lib/rrule/exdate.rs:25-43 | with a plain zone name the property renders as a line the tokenizer reads back |
| Calendars.FromStr | lib/rrule/calendar.rs:45-84 | the loop pushes each property onto the list of its name; the result is the specification `Parse` |
| Calendars.ErrorSticks | lib/rrule/calendar.rs:45-84 | once a property fails, the whole text fails with that error |
| Calendars.StartsRouted | lib/rrule/calendar.rs:54-73 | the starts are the DTSTART properties read in order; other names are ignored (likewise the four lemmas below) |
| Calendars.RulesRouted | lib/rrule/calendar.rs:59-61 | the rules are the RRULE properties read, in order |
| Calendars.ExRulesRouted | lib/rrule/calendar.rs:62-64 | the excluding rules are the EXRULE properties read, in order |
| Calendars.ExDatesRouted | lib/rrule/calendar.rs:65-67 | the EXDATE properties read, in order |
| Calendars.RDatesRouted | lib/rrule/calendar.rs:68-70 | the RDATE properties read, in order |
| Calendars.RouteFails | lib/rrule/calendar.rs:45-84 | reading fails iff some property is refused by the reader of its name |
| Calendars.FirstErrorReported | lib/rrule/calendar.rs:45-84 | the error is that of the first refused property |
| Calendars.RouteOk | lib/rrule/calendar.rs:45-84 | reading succeeds iff every property is read; several DTSTARTs are all collected |
| RRuleSets.New | lib/rrule/rrule_set.rs:24-32 | the start and four empty collections |
| RRuleSets.SetRRules | lib/rrule/rrule_set.rs:54-56 | replaces the rules only |
| RRuleSets.SetExRules | lib/rrule/rrule_set.rs:58-60 | replaces the excluding rules only |
| RRuleSets.SetExDates | lib/rrule/rrule_set.rs:62-64 | replaces the excluded dates only |
| RRuleSets.SetRDates | lib/rrule/rrule_set.rs:66-68 | replaces the extra dates only |
| RRuleSets.PushAll | lib/rrule/rrule_set.rs:83-97 | a push loop leaves the old items followed by the new ones, in order |
| RRuleSets.SetFromString | lib/rrule/rrule_set.rs:70-100 | more than one DTSTART is an error; exactly one replaces the start, otherwise it is kept; the parsed lists are appended in order |
| RRuleSets.FromStr | lib/rrule/rrule_set.rs:134-179 | "Only one DTSTART is allowed", "DTSTART is required", otherwise the parsed lists in order |
| RRuleSets.ToProperties | lib/rrule/rrule_set.rs:106-128 | DTSTART, then rules, excluding rules, excluded dates and extra dates, each in order |
| RRuleSets.PushRules | lib/rrule/rrule_set.rs:111-117 | the loop pushes `to_property` of each rule in order |
| RRuleSets.PushDates | lib/rrule/rrule_set.rs:119-125 | the loop pushes the property of each date list in order |
| RRuleSets.ToString | lib/rrule/rrule_set.rs:102-104 | the properties joined by '\n' |
| RRuleSets.FromCalendarIsMerge | lib/rrule/rrule_set.rs:70-179 | `from_str` is `new` followed by `set_from_string` when the text has one start |
| RRuleSets.StartCount | lib/rrule/rrule_set.rs:134-154 | the outcome of `from_str` is decided by the number of DTSTART lines |
| RRuleSets.TextReadsAsProperties | lib/rrule/rrule_set.rs:102-128 | the text of a writable set tokenizes back into the very properties it was made of |
| RRuleSets.CalendarOfText | lib/rrule/rrule_set.rs:102-179 | the text reads as a calendar holding exactly the parts of `ReadBack` |
| RRuleSets.TextRoundTrip | lib/rrule/rrule_set.rs:102-179 | `from_str(to_string(s))` is `ReadBack(s)`: excluding rules come back as rules, offsets normalised |
| RRuleSets.RoundTripExact | lib/rrule/rrule_set.rs:115-117 | the round trip is exact only with no excluding rules |
| RRuleSets.ExRuleIncluded | lib/rrule/rrule.rs:232-236 | an excluding rule comes back after the including ones, as an including rule |
| SerialRRules.ChainIsParts | lib/serialization/rrule.rs:10-121 | the inserts leave exactly the set parts, in the order FREQ, COUNT, UNTIL, INTERVAL, WKST, BYSETPOS, BYMONTH, BYMONTHDAY, BYWEEKNO, BYHOUR, BYMINUTE, BYSECOND, BYYEARDAY, BYDAY |
| SerialRRules.ToProperty | lib/serialization/rrule.rs:10-121 | FREQ, then each part that is set and differs from its default: INTERVAL only when > 1, WKST only when not Monday, lists only when non-empty |
| SerialRRules.ToString | lib/serialization/rrule.rs:124-129 | the rendering with its first six characters dropped |
| SerialRRules.WrittenParts | lib/serialization/rrule.rs:13-113 | the keys appear in the fixed order above |
| SerialRRules.TextIsValue | lib/serialization/rrule.rs:124-129 | the string form is the value text after `RRULE:`, starting with `FREQ=` |
| SerialRRules.PartsRoundTrip | lib/serialization/rrule.rs:10-356 | the map written reads back as the rule, with a packed UNTIL kept exactly, except that interval 0 becomes 1 and BYDAY ordinals 0/1 are dropped |
| SerialRRules.DateOnlyUntilIsMidnight | lib/serialization/rrule.rs:185-193 | a date alone as UNTIL is read as local midnight of that day, and is written back with the time T000000 |
| SerialRRules.PropertyWellFormed | lib/serialization/rrule.rs:10-121 | the property renders as a line the tokenizer reads back |
| SerialRRules.LineOfText | lib/serialization/rrule.rs:362-375 | the string form lacks `RRULE:`, so `from_str` puts it back |
| SerialRRules.TextRoundTrip | lib/serialization/rrule.rs:124-375 | `from_str` of the string form is the rule, with a packed UNTIL kept exactly, except that interval 0 becomes 1 and ordinals 0/1 are dropped |
| SerialRRules.RoundTripExact | lib/serialization/rrule.rs:10-375 | the round trip is exact iff the interval is not 0 and no BYDAY ordinal is 0 or 1 |
| SerialRRules.FirstSundayWritten | lib/serialization/rrule.rs:101-113 | a first Sunday is written as `SU` |
| SerialRRules.FirstSundayLost | lib/serialization/rrule.rs:105-375 | and comes back as every Sunday |
| SerialRRules.FromPropertyErrors | lib/serialization/rrule.rs:136-151 | only RRULE/EXRULE are read; a Single value gives "Invalid {name}: {value}" |
| SerialRRules.FreqDefaultsToDaily | lib/serialization/rrule.rs:153-167 | a missing FREQ gives a daily rule; a bad FREQ or INTERVAL is "Invalid KEY value: raw" |
| SerialRRules.EmptyMapIsDaily | lib/serialization/rrule.rs:153-167 | an empty rule map reads as the default daily rule, which lib/rrule refuses |
| SerialRRules.BadItemRefused | lib/serialization/rrule.rs:155-353 | a list part with one bad item is refused, naming the raw text |
| SerialCalendars.ReadDates | lib/serialization/calendar.rs:71-131 | VALUE=DATE is "Unsupported ..."; any VALUE other than DATE-TIME is refused; an absent one is accepted; a map value is "Invalid EXDATE"/"Invalid RDATE"; otherwise `to_vec` and packing |
| SerialCalendars.PushStamps | lib/serialization/calendar.rs:98-100 | the loop appends each packed date in order |
| SerialCalendars.FromStr | lib/serialization/calendar.rs:45-146 | one pass adding each property to the list of its name; unknown names ignored; the first error aborts |
| SerialCalendars.ErrorSticks | lib/serialization/calendar.rs:55-137 | once a property fails, the whole text fails with that error |
| SerialCalendars.StartsRouted | lib/serialization/calendar.rs:57-62 | the starts are those of the DTSTART properties, in order |
| SerialCalendars.RulesRouted | lib/serialization/calendar.rs:63-66 | the RRULE properties read, in order |
| SerialCalendars.ExRulesRouted | lib/serialization/calendar.rs:67-70 | the EXRULE properties read, in order |
| SerialCalendars.ExDatesRouted | lib/serialization/calendar.rs:71-101 | the dates of every EXDATE line, concatenated in order |
| SerialCalendars.RDatesRouted | lib/serialization/calendar.rs:102-132 | the dates of every RDATE line, concatenated in order |
| SerialCalendars.RouteFails | lib/serialization/calendar.rs:55-137 | reading fails iff some property is refused |
| SerialCalendars.FirstErrorReported | lib/serialization/calendar.rs:55-137 | the error is that of the first refused property |
| SerialCalendars.RouteOk | lib/serialization/calendar.rs:55-137 | reading succeeds iff every property is read by the reader of its name |
| SerialCalendars.StartOfCases | lib/serialization/calendar.rs:149-169 | "Invalid DTSTART value" for a map; a TZID is used verbatim; otherwise "UTC" for a UTC time; otherwise "TZID is requred for non-UTC DTSTART" |
| SerialCalendars.DatesOfErrors | lib/serialization/calendar.rs:72-96 | each way a date line is refused, with the message of its kind |
| JsDateTimes.StampReadBack | lib/serialization/calendar.rs:96-100 | on the assumed host text form, the text of a packed date parses back and packs back into it |
| SerialCalendars.DatesOfStamps | lib/serialization/calendar.rs:71-131 | a line of packed dates joined by ',' with no VALUE other than DATE-TIME reads back as those dates |
| SerialCalendars.StartOfStamp | lib/serialization/calendar.rs:149-169 | a DTSTART line with a TZID reads back as its packed date and zone |
| SerialRRuleSets.FromStr | lib/serialization/rrule_set.rs:12-68 | "Only one DTSTART is allowed", "DTSTART is required", otherwise the lists copied in order |
| SerialRRuleSets.CollectStamps | lib/serialization/rrule_set.rs:96-108 | the dates' texts concatenated by `collect()`, with nothing between them |
| SerialRRuleSets.ToProperties | lib/serialization/rrule_set.rs:72-132 | DTSTART with TZID (UTC included), rules, excluding rules, then EXDATE and RDATE lines only when non-empty |
| SerialRRuleSets.PushRules | lib/serialization/rrule_set.rs:85-91 | one line per rule, then per excluding rule, in order |
| SerialRRuleSets.ToString | lib/serialization/rrule_set.rs:72-132 | the properties joined by '\n' |
| SerialRRuleSets.FromCalendarCases | lib/serialization/rrule_set.rs:23-41 | the three outcomes decided by the number of starts |
| SerialRRuleSets.StartCount | lib/serialization/rrule_set.rs:12-68 | the outcome of reading a text is decided by its number of DTSTART lines |
| SerialRRuleSets.StartReadBack | lib/serialization/rrule_set.rs:74-83 | the start's line reads back as the start and its zone |
| SerialRRuleSets.RulesReadBack | lib/serialization/rrule_set.rs:85-91 | the rules' lines read back as the rules, with UNTIL kept, interval 0 read as 1 and BYDAY ordinals 0/1 dropped |
| SerialRRuleSets.CalendarOfJoinedText | lib/serialization/rrule_set.rs:72-132 | the ','-joined text reads as a calendar with exactly the parts of `ReadBack` |
| SerialRRuleSets.JoinedRoundTrip | lib/serialization/rrule_set.rs:12-132 | the corrected text reads back as `ReadBack`: start, zone and dates unchanged, excluding rules as rules |
| SerialRRuleSets.JoinedRoundTripExact | lib/serialization/rrule_set.rs:85-91 | the corrected round trip is exact only without excluding rules and with normalised rules |
| SerialRRuleSets.AsWrittenAgrees | lib/serialization/rrule_set.rs:96-127 | with at most one date of each kind the written and the joined text are the same |
| SerialRRuleSets.TextRoundTrip | lib/serialization/rrule_set.rs:12-132 | the written text reads back when each kind has at most one date |
| SerialRRuleSets.CollectedDatesRefused | lib/serialization/rrule_set.rs:96-108 | two or more dates collected with nothing between them make a piece no date-time parse accepts |
| SerialRRuleSets.TextRefused | lib/serialization/rrule_set.rs:93-129 | a set with two or more excluded or extra dates does not read back |
| JsRRuleSets.BoundsMean | lib/js/rrule_set.rs:162-184 | inclusive: t ≥ after and t ≤ before; exclusive or no flag: strict |
| JsRRuleSets.KeptBounds | lib/js/rrule_set.rs:186-207 | `Some(0)` keeps none; no limit keeps all; a limit n keeps min(n, len) |
| JsRRuleSets.All | lib/js/rrule_set.rs:186-207 | the countdown loop returns the first min(limit, len) timestamps, or all of them without a limit |
| JsRRuleSets.Stop | lib/js/rrule_set.rs:219-231 | the first index not before the upper bound |
| JsRRuleSets.Between | lib/js/rrule_set.rs:209-232 | the loop returns, in order, the timestamps inside the window among those before the first one not before the upper bound |
| JsRRuleSets.InnerInside | lib/js/rrule_set.rs:219-231 | every kept timestamp is in the input and inside the window |
| JsRRuleSets.InnerComplete | lib/js/rrule_set.rs:219-231 | every input timestamp inside the window is kept |
| JsRRuleSets.BetweenComplete | lib/js/rrule_set.rs:209-232 | for ascending input the early stop loses nothing |
| JsRRuleSets.BetweenStopsEarly | lib/js/rrule_set.rs:219-231 | out of order it can: [10, 2] between 0 and 5 gives nothing |
| TsDateTimes.DateTime.FromNumeric | src/datetime.ts:394-398 | a date-time over the number, nothing read yet |
| TsDateTimes.DateTime.GetYear | src/datetime.ts:98-100 | the year is n / 10^11, remembered |
| TsDateTimes.DateTime.GetMonth | src/datetime.ts:103-107 | the month is floor((n / 10^9) % 100), remembered |
| TsDateTimes.DateTime.GetDay | src/datetime.ts:110-114 | the day is floor((n / 10^7) % 100), remembered |
| TsDateTimes.DateTime.GetTime | src/datetime.ts:120-140 | the remembered time, or none when the last digit is 2, otherwise hour, minute, second and utc iff the last digit is 1 |
| TsDateTimes.DateTime.ToString | src/datetime.ts:491-507 | the zero-padded text, with 'Z' iff utc; afterwards year, month, day and time are all remembered |
| TsDateTimes.DateTime.ToPlain | src/datetime.ts:425-467 | the plain object, with `utc` dropped on request; afterwards year, month, day and time are all remembered |
| TsDateTimes.DateTime.Create | src/datetime.ts:182-212 | the number of the fields, with +100000+1000+10+2 for a date alone |
| TsDateTimes.DateTime.Date | src/datetime.ts:229-235 | a date alone |
| TsDateTimes.DateTime.Local | src/datetime.ts:256-265 | a time with utc false |
| TsDateTimes.DateTime.Utc | src/datetime.ts:286-295 | a time with utc true |
| TsDateTimes.DateTime.FromPlain | src/datetime.ts:317-333 | the number of the plain object's fields |
| TsDateTimes.DateTime.FromString | src/datetime.ts:360-391 | the result of `fromString`, errors included |
| TsDateTimes.CreateReadsBack | src/datetime.ts:97-140 | the getters give back the fields passed to `create` with a time, and the number is canonical |
| TsDateTimes.DateReadsBack | src/datetime.ts:205-211 | `create` with a date alone: the getters give the date, no time, last digit 2 |
| TsDateTimes.ShorthandsFlag | src/datetime.ts:229-295 | `local` and `utc` differ only in the flag, and `date` has no time |
| TsDateTimes.TimeAbsentIffTwo | src/datetime.ts:120-140 | no time iff the last digit is 2 |
| TsDateTimes.PlainRoundTrip | src/datetime.ts:317-467 | `fromPlain(toPlain(x))` is x, with or without a time |
| TsDateTimes.StrippedReadsAsDate | src/datetime.ts:317-333 | a plain object whose `utc` was stripped comes back as a date alone |
| TsDateTimes.ParseIntOfDigits | src/datetime.ts:360-391 | `parseInt` of decimal digits is their value, leading zeros and all |
| TsDateTimes.TextRoundTrip | src/datetime.ts:360-507 | `fromString(toString(x))` is x for a canonical number with a year of at most four digits |
| TsDateTimes.CreateLastDigit | src/datetime.ts:191-212 | the last digit is 2 unless all four time arguments are given, then the UTC digit |
| TsDateTimes.ParseNumericShape | src/datetime.ts:360-391 | accepted texts have length 8, 15 or 16; last digit 2 for 8 characters, else 1 iff the text ends in 'Z'; errors are the three messages |
| TsDateTimes.PlainValuesRoundTrip | src/datetime.ts:317-467 | a list of canonical values survives `toPlain` then `fromPlain` |
| TsDtStarts.PlainRoundTrip | src/dtstart.ts:59-162 | `fromPlain(toPlain(d))` is d, and so is every start the setters build from it: `setTzid` keeps the value, `setValue` keeps the zone |
| TsExDates.PlainRoundTrip | src/exdate.ts:70-203 | `toPlain` keeps the count and the zone and `fromPlain` gives each value back; the same holds of what `setTzid`, `setValues` and the one-date constructor build, with the values, the zone and the one-element list they promise |
| TsRDates.PlainRoundTrip | src/rdate.ts:68-202 | `toPlain` keeps the count and the zone and `fromPlain` gives each value back; the same holds of what `setTzid`, `setValues` and the one-date constructor build, with the values, the zone and the one-element list they promise |
| OperationCaches.OperationCache.constructor | src/cache.ts:9-12 | the given flag and an empty store |
| OperationCaches.OperationCache.GetOrSet | src/cache.ts:18-29 | the value and new store of `Fetch`; the flag unchanged |
| OperationCaches.OperationCache.GetOrCompute | src/cache.ts:31-44 | the value and new store of `FetchComputed`; the flag unchanged |
| OperationCaches.OperationCache.Disable | src/cache.ts:46-48 | the flag is set and the store kept |
| OperationCaches.OperationCache.Enable | src/cache.ts:50-52 | the flag is cleared and the store kept |
| OperationCaches.OperationCache.Clear | src/cache.ts:54-56 | the store is emptied and the flag kept |
| OperationCaches.OperationCache.Clone | src/cache.ts:58-62 | a fresh cache with the same flag and an empty store |
| OperationCaches.DisabledPassesThrough | src/cache.ts:18-21 | disabled: the default (or the computed value) is returned and the store untouched |
| OperationCaches.StoredWins | src/cache.ts:23-25 | enabled and stored: the stored value wins over the default and the computation |
| OperationCaches.Memoised | src/cache.ts:27-28 | a second lookup returns the value the first one stored and changes nothing |
| OperationCaches.OnlyKeyStored | src/cache.ts:18-29 | a lookup stores only its own key, and only when enabled |
| OperationCaches.ComputedIsFetched | src/cache.ts:31-44 | `getOrCompute` is `getOrSet` with the computed value |

## Left out

- The time-zone database: whether a TZID names a known zone is a parameter `isZone` of the readers. Zones are modelled by their names, and UTC is the name "UTC".
- chrono and the rrule crate's expansion engine. This covers:
  - `DateTime::to_datetime` and the chrono `From` impls in lib/rrule/datetime.rs;
  - `ToRRule`, `ToRRuleSet` and the set iterator;
  - `to_datetimes` of exdate.rs and rdate.rs;
  - `to_rrule_datetime` of lib/js/datetime.rs.
  Only the crate's enum shapes are modelled (`RRuleCrate`).
- The occurrence stream of `all` and `between`: it is an input sequence of timestamps, as the engine would yield it.
- `Properties::new`, `push` and `to_string` are not part of this model. The line list is rendered by joining with '\n'.
- SerialRRules.FromEntries: lib/serialization/rrule.rs:253-262 reads BYMONTH through `to_vec` into `chrono::Month`, whose parser is not part of this model; the numeric month codec of lib/rrule/month.rs (`RRules.ParseMonth`) stands in for it. chrono's `Month` parser reads month names, while the writer puts each month's `to_string()` (lib/serialization/rrule.rs:50-55), taken here to be its number. As written, `FREQ=DAILY;BYMONTH=1` is then likely refused with "Invalid BYMONTH value: 1", and a rule with a BYMONTH part does not read back. So the BYMONTH part of SerialRRules.PartsRoundTrip, SerialRRules.TextRoundTrip, SerialRRules.RoundTripExact, SerialRRuleSets.RulesReadBack and SerialRRuleSets.JoinedRoundTrip holds only of the numeric stand-in; for a rule whose `byMonth` is empty they do not depend on it.
- SerialRRules.ParseUntil: lib/serialization/rrule.rs:192 hands the parsed UNTIL to `to_rrule_datetime` with the local zone, or UTC for a UTC time. That call refuses with "Invalid datetime: …" when `.single()` finds no unique time (lib/js/datetime.rs:25-44): a day that does not exist, such as `UNTIL=20240230T000000`, or a local time in a daylight-saving gap or a repeated hour. The model does not refuse there, so SerialRRules.FromEntries accepts such an UNTIL. SerialRRules.PartsRoundTrip, SerialRRules.TextRoundTrip, SerialRRules.RoundTripExact, SerialRRuleSets.RulesReadBack and SerialRRuleSets.JoinedRoundTrip hold of the source only for an UNTIL that names exactly one time in that zone.
- The host ordinal-weekday mapping of lib/js/n_weekday.rs:16-38 is the same code as lib/rrule/n_weekday.rs:10-38, so `NWeekdays.EngineRoundTrip` covers both. The host parse is `NWeekdays.FromStr`, likewise.
- Text is `seq<char>` with ASCII upper-casing and ASCII trimming. Rust byte lengths and JavaScript UTF-16 lengths equal the character count only for ASCII input.
- JavaScript numbers are modelled as exact integers. So the model does not capture:
  - rounding above 2^53;
  - the exponent form of `Number.prototype.toString`;
  - negative numbers in the getters of src/datetime.ts.
- TsDateTimes.DateTime.FromString: the thrown `TypeError` is modelled as an `Err` carrying its message.
- OperationCaches.OperationCache.GetOrCompute: the computation is a pure function value. "`compute` is not called" is therefore modelled only as "the result does not depend on it". The value type is fixed per cache, where the source types each call.
- The TypeScript entities hold their date-times by number. The values that `toPlain` caches inside a `DateTime` are not tracked there.
- The `toRust` memo of src/exdate.ts and src/rdate.ts.
- JsDateTimes.Parse, JsDateTimes.ToText and JsDateTimes.StampText: lib/serialization parses host date-times with `str::parse` (lib/serialization/calendar.rs:154, lib/serialization/rrule_set.rs:140, lib/serialization/rrule.rs:185) and writes them with `into::<String>` (lib/serialization/rrule_set.rs:77, 103, 122, lib/serialization/rrule.rs:26), but lib/js/datetime.rs defines neither conversion. The model assumes both are the text form of lib/rrule/datetime.rs, with UTC read and written as offset 0 and a date alone read as midnight. So JsDateTimes.OfTextOfRule, JsDateTimes.StampTextReadsBack, JsDateTimes.StampReadBack, JsDateTimes.DateReadsAsMidnight, SerialRRules.DateOnlyUntilIsMidnight, the UNTIL clauses of SerialRRules.PartsRoundTrip and SerialRRules.TextRoundTrip, SerialCalendars.DatesOfStamps, SerialCalendars.StartOfStamp, SerialRRuleSets.CollectedDatesRefused and SerialRRuleSets.JoinedRoundTrip hold of that assumed form.
- Other conversions lib/serialization and lib/rrule call but the source does not define are filled in as follows:
  - `DateTime::utc()` (lib/rrule/dtstart.rs:46) is read as `DateTimes.IsUtc`, a time whose offset is `Some(0)`;
  - the host `Frequency` and `Weekday` text conversions (lib/serialization/rrule.rs:14, 38, 157, 269) are taken to be those of lib/rrule/frequency.rs and lib/rrule/weekday.rs, through `RRules.ParseFrequency`, `RRules.ParseWeekday`, `Frequencies.ToText` and `Weekdays.ToText`; lib/js/frequency.rs and lib/js/weekday.rs define only the mapping to the engine's enums;
  - `RRule::from_rrule` (lib/serialization/rrule.rs:355) is taken to keep the engine rule's parts, so `SerialRRules.FromEntries` builds the `Rule` record directly;
  - the engine's `until` and its getter (lib/js/rrule.rs:344-353) are taken to keep the fields of a date-time that `to_rrule_datetime` accepts, so `SerialRRules.ParseUntil` packs the parsed host date-time; the times it refuses are the subject of the SerialRRules.ParseUntil line above.
- Params.Parameters.Index: `get(key).unwrap()` panics on a key that is not stored. The model makes a stored key a precondition rather than modelling the panic.
- DateTimes.FromArray: indexing `arr[0]` to `arr[6]` panics on an array shorter than seven. The model makes seven elements a precondition rather than modelling the panic.
- SerialCalendars.DATETIME_TYPE: `type_name::<DateTime>()` in the `to_vec` error of lib/serialization/to_vec.rs:22 is the full module path, in a form the compiler chooses. The model writes only "DateTime" there.
- The validation inside `RRuleSet::create` and the host-binding glue (napi marshalling, `Env` arrays, f64 timestamps).

## Findings

| source | as written | input that shows it | evidently intended | confidence | as-written member | corrected member |
|---|---|---|---|---|---|---|
| lib/serialization/rrule_set.rs:93-129 | the EXDATE and RDATE values are the dates' texts concatenated by `collect::<String>()`, with no separator | a set with two excluded dates: its EXDATE line holds one 30-character piece that no date-time parse accepts, so the set's own text does not read back | the dates joined by ',', which the reader of lib/serialization/calendar.rs:96 splits on | not executed | SerialRRuleSets.TextRefused | SerialRRuleSets.JoinedRoundTrip |
