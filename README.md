# City Pantry order matcher, modelled in Dafny

This project models the `Input` class of `src/Input.php`. The class takes an order from the command line: a catalogue file name, a delivery date `dd/mm/yy`, a time `hh:mm`, a UK postcode and a number of covers. Its constructor checks those five inputs in order. The first failing check throws. `getSuggestions` then reads the vendor catalogue in one forward pass. The catalogue is groups of lines separated by blank lines. Each group is a vendor header `name;postcode;capacity` followed by menu items `name;allergens;<n>h`. For every item of a vendor that delivers to the order's postcode area, can feed the covers, and needs less notice than the order gives, the pass appends `name;allergens` and a line terminator.

Modules:

- `Wrappers`: `Option` and `Result`.
- `Strings`: PHP's `explode`, the digit runs behind `strcspn` and numeric strings, decimal text of integers, and the round trips between them.
- `Patterns`: the three regular expressions of the constructor (src/Input.php:128, :133, :147). Each is written out as a predicate over characters, together with PCRE's `^…$` anchoring.
- `Calendar`: the Unix timestamp of a validated `dd/mm/yy hh:mm`. It stands in for `DateTime::getTimestamp`.
- `Matching`: `getAreaOfPostcode`, `withinAdvanceTime`, the lead-time reading, and `getSuggestions` as a pure specification. The specification comes in two forms:
  - `Scan`, a line-by-line state machine with the source's two flags;
  - `Selection`, a position-by-position statement of which lines contribute.
- `Orders`: the constructor's checks (`Validate`) and the class `Input`, with the following members:
  - `Create`, the constructor;
  - `SetCurrentTime`;
  - `CurrentTimestamp`;
  - `GetSuggestions`, the imperative loop proved equal to the specification.
- `Scenarios`: the cases of tests/InputTest.php, worked out against the catalogue the tests assume (cli/index.php:26-38).

## Model

| member | source | states |
|---|---|---|
| Orders.Validate | src/Input.php:39-46 | Construction succeeds exactly when there are five inputs, the catalogue file exists, and the date, time and postcode match their patterns, with integer covers of at least 1. Any other argument count fails with the usage line. Otherwise the first failing check decides the error: a missing file gives its name, a bad date gives `InvalidDate`, a bad time `InvalidTime`, a bad postcode `InvalidPostcode`, covers that are not an integer `CoversNotAnInteger`, and covers below 1 `InvalidCovers`. On success the order keeps the path, postcode and covers it was given, and its moment is `MomentOf` the matched date and time. |
| Orders.Input.Create | src/Input.php:39-46 | The imperative constructor fails with exactly the error `Validate` gives. On success it returns a fresh `Input` whose fields are the validated order and on which no debug time is set. |
| Orders.Input.FromOrder | src/Input.php:113-163 | Stores the validated path, moment, postcode and covers unchanged. |
| Orders.RightInputFormatText | src/Input.php:12 | The usage line the argument-count error reports is exactly `filename dd/mm/yy hh:mm postcode amount`. |
| Orders.RightNrOfArgumentsIsFive | src/Input.php:98-104 | The usage line `filename dd/mm/yy hh:mm postcode amount` has five space-separated words, so five inputs are expected. |
| Orders.MomentOf | src/Input.php:131-136 | The moment read from an accepted date and time holds the numbers written there. Writing its day, month and year with two digits each gives back the date. Writing its hour with one or two digits, as the time had it, and its minutes with two gives back the time. Its fields are in range: day 1–31, month 1–12, hour 0–23, minute 0–59. |
| Orders.MomentOfWritten | src/Input.php:128-136 | A date and time written from in-range fields are accepted, and they read back as exactly those fields. |
| Patterns.TwoDigits | src/Input.php:131-132 | The two-digit writing of a number up to 99 is two digits whose value is that number. |
| Patterns.TwoDigitsOfValue | src/Input.php:131-132 | Every pair of digits is the two-digit writing of its own value. |
| Orders.Input.SetCurrentTime | src/Input.php:88-91 | Afterwards the debug time is the given moment. |
| Orders.Input.CurrentTimestamp | src/Input.php:189-195 | Returns the debug time when one is set, and the wall clock otherwise. |
| Orders.Input.GetSuggestions | src/Input.php:51-81 | The loop's result equals `Suggestions` of the catalogue for this order. It also equals `Selection`: in catalogue order, the outputs of exactly the qualifying items of qualifying vendors. When every item line reads the same under the source's lead-time reading, the result also equals the source's own scan, `SuggestionsAsWritten`. |
| Patterns.DateShape | src/Input.php:128 | A date is accepted iff it has eight characters: two-digit day 01–31, `/`, two-digit month 01–12, `/`, and exactly two year digits. |
| Patterns.TimeShape | src/Input.php:133 | A time is accepted iff it is a one-digit hour, or a two-digit hour up to 23, then `:` and two-digit minutes up to 59. |
| Patterns.Matched | src/Input.php:128 | What `^…$` accepts is the pattern's own match, possibly followed by one final newline. |
| Patterns.PostcodeCharacters | src/Input.php:147 | Every character of an accepted postcode is an upper-case letter or a digit. The only exceptions are the space of `GIR 0AA` and the final newline `$` admits. |
| Patterns.PostcodeIsUpperCase | src/Input.php:147-150 | No accepted postcode contains a lower-case letter, so `nw43qb` is refused. |
| Patterns.PostcodeSpace | src/Input.php:147-150 | The only accepted postcode containing a space is `GIR 0AA`, so `NW4 3QB` is refused. |
| Calendar.FullYear | src/Input.php:136 | A two-digit year is read as a year from 1970 to 2069 that ends in those two digits. |
| Calendar.YearLength | src/Input.php:136 | The timestamp's day count gives a year 366 days exactly when it is a Gregorian leap year, and 365 otherwise. |
| Calendar.TimestampOrder | src/Input.php:136 | For two moments that exist on the calendar, one timestamp is smaller exactly when its moment is earlier, comparing full year, month, day, hour and minute in that order. Equal timestamps mean the same moment. |
| Matching.AreaOfPostcode | src/Input.php:171-174 | The area is a prefix of the postcode with no digit in it. It is the whole postcode, or it is followed by a digit. |
| Matching.AreaIsLongestDigitFreePrefix | src/Input.php:171-174 | Those three properties determine the area: any string that has them is the area. |
| Matching.WithinAdvanceTimeMonotone | src/Input.php:181-184 | An item that can be prepared with more hours of lead time can also be prepared with fewer. |
| Matching.LeadHoursRoundTrip | src/Input.php:70 | The corrected lead-time reading gets `n` back from `<n>h`, whether or not a line terminator follows. |
| Matching.LeadHoursAsWrittenTerminated | src/Input.php:70 | The source's `substr(field, 0, -2)` reads `<n>h` followed by a terminator as `n`. |
| Matching.LeadHoursAsWrittenUnterminated | src/Input.php:70 | Without a terminator the model's reading of line 70 takes `<n>h` as `n / 10`, which differs from `n` for every `n >= 1`. For `n >= 10` this is the source's value. For `n <= 9` the source has no value: the remainder is empty and the source throws (see `Matching.LeadHoursAsWritten` under "## Left out"). |
| Matching.OutputOmitsLeadTime | src/Input.php:72-74 | A suggestion is one terminated line that splits into exactly the item's name and allergens. The lead-time field never reaches the output. |
| Matching.GroupStart | src/Input.php:58-62 | The group of line `i` starts at the first line or just after a blank line, and no blank line lies between that start and `i`. |
| Matching.SuggestionsAreSelection | src/Input.php:51-81 | The line-by-line scan equals the positional selection. Line `i` contributes exactly when it is a non-blank, non-first line of its group, the group's first line qualifies (same area, capacity at least the covers), and the item is ready in time. |
| Matching.HeadersContributeNothing | src/Input.php:58-68 | The first line of the catalogue, every line after a blank line, and blank lines themselves never add output. |
| Matching.GroupsAreIndependent | src/Input.php:58-61 | A blank line cuts the catalogue into independent parts. The suggestions of `a`, a blank line, then `b` are those of `a` followed by those of `b`. |
| Matching.IneligibleGroupIsSilent | src/Input.php:62-69 | The items of a vendor that does not qualify produce nothing. |
| Matching.EligibleGroup | src/Input.php:62-75 | The items of a qualifying vendor contribute, in order, the output of each item that is ready in time. |
| Matching.NoNoticeNoSuggestions | src/Input.php:183 | The notice check is strict: when the target is not after now, nothing is suggested, whatever the catalogue. This holds for lead times as the model reads them, which are never negative. A signed lead time such as `-1h` breaks it in the source (see `Matching.LeadHours, Matching.LeadHoursAsWritten` under "## Left out"). |
| Matching.ItemLineFields | src/Input.php:63-74 | An item line `name;allergens;<n>h` splits into its name, its allergens and the lead time with its terminator. Its suggestion is `name;allergens` and a terminator. |
| Matching.TerminatedItemReadsAlike | src/Input.php:70 | On an item line that ends `<n>h` and a terminator, the source's reading and the intended reading of the lead time agree. |
| Matching.GroupReadsAlike | src/Input.php:58-75 | A vendor group whose items all read alike under both lead-time readings has only item lines that read alike. |
| Matching.ItemsReadAlikeJoin | src/Input.php:58-61 | Joining two catalogues at a blank line keeps every item line reading alike, because the blank line starts a new group. |
| Matching.AsWrittenAgrees | src/Input.php:51-81 | When every item line reads alike under both readings, the scan with the source's `substr(…, 0, -2)` reading suggests exactly what the model's scan does. |
| Matching.UnterminatedLastItem | src/Input.php:70 | Take a qualifying vendor whose last item `<n>h` has no terminator, with `n >= 10` and notice between `n / 10` and `n` hours. The source's scan suggests the item, though it cannot be prepared in time. The model's scan suggests nothing. For `n <= 9` the source throws instead (see `Matching.LeadHoursAsWritten` under "## Left out"). |
| Strings.Explode | src/Input.php:63 | Splitting gives at least one piece, and no piece contains the delimiter. |
| Strings.JoinExplode | src/Input.php:63 | Joining the pieces with the delimiter gives back the original line. |
| Strings.ExplodeJoin | src/Input.php:73-74 | Splitting a join of delimiter-free pieces gives back the pieces. |
| Strings.ExplodeThree | src/Input.php:63 | A line of three delimiter-free fields joined by the delimiter splits into exactly those three fields. |
| Strings.NonDigitRun | src/Input.php:173 | `strcspn(p, "0123456789")`: the length of the leading run of non-digits, followed by a digit or the end. |
| Strings.DigitRun | src/Input.php:67 | The length of the leading run of digits that PHP reads as the numeric value of a field. |
| Strings.LeadingNatOfDecimal | src/Input.php:67 | A number written in decimal and followed by a non-digit reads back as that number. |
| Strings.ParseIntText | src/Input.php:158 | An integer converted to text and back is unchanged. |
| Scenarios.NoMatchingArea | tests/InputTest.php:199-205 | An order for `W69AX` gets no suggestions, because no vendor delivers to area `W`. This holds under both the model's lead-time reading and the source's. |
| Scenarios.MatchingArea | tests/InputTest.php:206-212 | An order for `NW43QB` with four days and eleven hours of notice gets both Ghana Kitchen items. This holds under both the model's lead-time reading and the source's. |
| Scenarios.NotEnoughNotice | tests/InputTest.php:213-219 | An order for the current moment gets nothing. This holds under both the model's lead-time reading and the source's. |
| Scenarios.EnoughNoticeForSome | tests/InputTest.php:220-226 | Thirty-five hours of notice give the 12-hour item only. This holds under both the model's lead-time reading and the source's. |
| Scenarios.ExactCapacity | tests/InputTest.php:227-233 | Forty covers from a vendor that feeds 40 are accepted. This holds under both the model's lead-time reading and the source's. |
| Scenarios.CapacityExceeded | tests/InputTest.php:234-240 | Fifty covers get nothing. This holds under both the model's lead-time reading and the source's. |
| Scenarios.EnoughNoticeThroughInput | tests/InputTest.php:180-191 | Constructing the order, fixing the time and calling `GetSuggestions` yields `Breakfast;gluten,eggs` and a terminator. |
| Scenarios.VendorsReadAlike | cli/index.php:26-38 | Every item line of the tests' catalogue ends in `<n>h` and a terminator, so both lead-time readings agree on it. |
| Scenarios.SourceReading | cli/index.php:26-38 | On the tests' catalogue the source's scan suggests exactly what the model's scan does, for every order. |
| Scenarios.NorthWest | cli/index.php:26-38 | For any order in area `NW`, the catalogue yields Ghana Kitchen's items with enough notice, and nothing beyond 40 covers. |
| Scenarios.GhanaKitchenText | cli/index.php:32-34 | The catalogue lines built from their fields are the lines of the file. |
| Scenarios.ValidInputAccepted | tests/InputTest.php:16-32 | The tests' valid input is accepted as the order for 24 October 2015, 11:00, `NW43QB`, 20 covers. |
| Scenarios.TooFewArguments | tests/InputTest.php:37-40 | One input fails with the usage line. |
| Scenarios.TooManyArguments | tests/InputTest.php:45-49 | Six inputs fail with the usage line. |
| Scenarios.MissingFile | tests/InputTest.php:54-59 | An unknown catalogue file is reported by name. |
| Scenarios.FullYearFirstDate | tests/InputTest.php:82 | `2038-02-28` is not a date. |
| Scenarios.YearFirstDate | tests/InputTest.php:83 | `38-02-28` is not a date. |
| Scenarios.DashedDate | tests/InputTest.php:84 | `28-02-38` is not a date. |
| Scenarios.FourDigitYearDate | tests/InputTest.php:85 | `28/02/2038` is not a date. |
| Scenarios.NumberIsNoDate | tests/InputTest.php:86 | No integer, as text, has the date's shape. |
| Scenarios.TimestampDate | tests/InputTest.php:86 | The integer `1524955537` is not a date. |
| Scenarios.WordDate | tests/InputTest.php:87 | `foo` is not a date. |
| Scenarios.TimeWithSeconds | tests/InputTest.php:112 | `10:30:50` is not a time. |
| Scenarios.HourPastDay | tests/InputTest.php:113 | `24:00` is not a time. |
| Scenarios.MinutePastHour | tests/InputTest.php:114 | `12:60` is not a time. |
| Scenarios.WordTime | tests/InputTest.php:115 | `foo` is not a time. |
| Scenarios.LowerCasePostcode | tests/InputTest.php:140 | `nw43qb` is not a postcode. |
| Scenarios.SpacedPostcode | tests/InputTest.php:141 | `NW4 3QB` is not a postcode. |
| Scenarios.NegativeCovers | tests/InputTest.php:166 | Covers of -1 are refused. |
| Scenarios.ZeroCovers | tests/InputTest.php:167 | Covers of 0 are refused. |

## Left out

- Files are not modelled.
  - `file_exists`, `fopen`, `fgets` and `fclose` (src/Input.php:53-57, 79, 114) are not modelled.
  - The set of existing paths is a parameter of `Create`.
  - The catalogue is passed to `GetSuggestions` as the lines `fgets` would return, each with its terminator.
- `__DIR__` is a parameter, `dir`. The path is `dir/../data/filename` as text, with no path resolution.
- The clock and time zones are not modelled.
  - `time()` is the `clock` parameter of `GetSuggestions`.
  - `DateTime` and `strtotime` are replaced by `Calendar.Timestamp`, a UTC count of seconds.
  - `+N hours` is `3600 * N`, so time zones and daylight-saving shifts are not modelled.
- Calendar.Timestamp: rolls a day past the month's end into the next month, as `DateTime` does with `31/02/15`. It states no contract of its own. `YearLength`, `FullYear` and `TimestampOrder` carry its properties, and `TimestampOrder` covers only days that exist in their month.
- Orders.Validate: a date or time that `$` accepts with a final newline (`24/10/15\n`) is read from its matched part. What `DateTime` makes of `15\n-10-24` is not modelled.
- Orders.AsInt: PHP's coercion of text to an `int` parameter is narrowed to optional-minus-then-digits. Leading or trailing whitespace, fractional and exponent forms, and leading-numeric text such as `12abc` are not modelled. In the other direction the model is wider than the source. Covers text beyond `PHP_INT_MAX` is a `TypeError` at src/Input.php:158, but `ParseInt` accepts it, so `Validate` succeeds. Integers are unbounded here.
- Orders.AsString: an integer passed for a `string` parameter becomes its decimal text. Other PHP types are not modelled.
- Matching.VendorQualifies: the capacity is the number the third header field starts with, which stands for PHP's loose `"40\n" >= covers`. For a capacity field that is not numeric, the source's string comparison is not modelled.
- Strings.Field: a line with fewer fields than the code reads gives `""` for the missing field, and the scan goes on. The source does not go on in every case. A header line with fewer than two fields passes null to `getAreaOfPostcode(string $postcode)` at src/Input.php:66. That throws a `TypeError`, which ends `getSuggestions`. The model does not capture that failure. A missing field elsewhere only raises an undefined-offset notice in the source.
- Matching.LeadHoursAsWritten: when `substr(field, 0, -2)` leaves the empty string (a field of two or fewer characters, such as an unterminated `5h`), PHP refuses it as an `int` argument. The model reads it as 0.
- Matching.LeadHours, Matching.LeadHoursAsWritten: both read the lead time as its leading digits, with 0 when there are none. The source passes the text to `withinAdvanceTime(int $advance)` at src/Input.php:70 and :181. So non-numeric text such as `Salad;nuts;soonh` throws a `TypeError` there, which ends `getSuggestions`. The model reads 0 hours and suggests the item whenever the target is after now. Text PHP does accept as a number also differs: ` 12` and `+12` are 12 hours in the source and 0 in the model. A signed lead time differs most. For `-<n>h`, line 70 passes `-n` to `withinAdvanceTime`, and line 183 compares against `n` hours before now. So the source suggests such an item with no notice at all, even for a target up to `n` hours in the past. The model reads 0 hours, because `WithinAdvanceTime` takes a natural number. So `NoNoticeNoSuggestions` holds for the model but not for a source catalogue with negative lead times. A lead time beyond `PHP_INT_MAX` is a `TypeError` in the source and a number here.
- The end-of-line constant is not platform-dependent: `PHP_EOL` is fixed as `"\n"`.
- Orders.Input.GetSuggestions: the source's `continue` after a blank line is written as an `if`/`else` with the same effect.
- Orders.Input.GetSuggestions: the loop reads the lead time the intended way (`LeadHours`), not with the source's `substr(…, 0, -2)`. The two give the same suggestions whenever every item line reads alike (`AsWrittenAgrees`), for instance when every item line ends in `<n>h` and a terminator. They differ on an unterminated last item line, as `UnterminatedLastItem` shows and the Findings table records.
- `cli/index.php` is not part of this model: it only collects `argv` and echoes the result.
- The `preg_match` engine itself is not modelled: each pattern is a predicate written out by hand.

## Findings

| source | as written | input that shows it | evidently intended | confidence | as-written member | corrected member |
|---|---|---|---|---|---|---|
| src/Input.php:70 | The lead time is `substr(field, 0, -2)`: the last two characters, meant to be `h` and the line terminator, are cut off. | A catalogue whose last line is `Breakfast;gluten,eggs;12h` with no final newline: the item reads as needing 1 hour of notice, not 12. | The number in front of `h`, whether or not a terminator follows. | not executed | Matching.LeadHoursAsWrittenUnterminated | Matching.LeadHoursRoundTrip |
