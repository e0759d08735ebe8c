# Events collections: query-argument construction

A Dafny model of the collection layer of an events-and-bookings WordPress
plugin (`lib/class_eab_collection.php`). Each collection turns a small input
(a timestamp and caller arguments, a ranked list of event ids, a user id, or a
parent event) into the argument array of a posts query, runs that query once
when it is constructed, and can return the query or the found posts as event
models. The model covers:

- `PhpValues`: the PHP values that appear in query arguments, `isset()`,
  `array_merge()` on string keys, decimal rendering of integers and the
  `(int)` cast of a value (leading blanks, sign, digit prefix, saturation at
  the 64-bit bounds).
- `Calendar`: year/month pairs, the month after a month (with the December
  to January rollover), `sprintf("%02d")` of a month and the
  `"{year}-{MM}-01 00:00"` strings that bound the time windows.
- `QueryArgs`: the five `build_query_args` strategies (upcoming, old,
  popular, organizer, all recurring children) as functions, with lemmas for
  the window bounds, the forbidden statuses, which caller keys survive the
  merge, idempotence of the double build, the author coercion and the
  parent-status choice.
- `Collections`: a `Collection` class whose named constructors follow the
  source's constructor chain (the timed constructor stores the timestamp and
  builds, the root constructor builds again and runs the query), its
  `ToQuery`, `GetTimestamp` and `ToCollection` methods (the last a loop, as in
  the source), and the factory entry points.

The query engine, the date functions and the bookings aggregation are
parameters: `engine: Value -> seq<Post>` answers a query, `dateOf: int ->
YearMonth` stands for `date('Y')`/`date('m')` in PHP's default time zone (UTC
under WordPress), not the site's configured zone, `now` for `time()`, and
`ranked` for the id column of the bookings aggregation.

The upcoming window follows the code: an event is selected when it starts
before the first of the next month and ends on or after the first of the
reference month, i.e. when it overlaps the month (lines 113-124), not when it
lies inside it. The popular collection forces `posts_per_page` to -1 over a
caller's value (line 152); only the upcoming collection keeps a caller's value.

## Model

| member | source | states |
|---|---|---|
| PhpValues.ArrayMerge | lib/class_eab_collection.php:106-132 | `array_merge` on string keys: the result has the keys of both sides, the right side's value wins, the left side's other values survive |
| PhpValues.IsSet | lib/class_eab_collection.php:91 | `isset($args[k])`: true only for a present key, and false for a key whose value is null; `ForbiddenStatuses` and `WithDefaultPerPage` are stated in its terms (lines 91 and 104) |
| PhpValues.IntCast | lib/class_eab_collection.php:166 | `(int)` of null is 0, of a boolean 0/1, of an integer itself, of an array 0 exactly when empty, of a string the number at its head when in range; `IntCastOfDecimalPrefix` and `IntCastNonNumeric` carry the string cases |
| PhpValues.LeadingInteger | lib/class_eab_collection.php:166 | the number at the head of a string (after blanks) is 0 when the string starts with no number, and negative only after a '-' |
| PhpValues.LeadingIntegerOfDecimal | lib/class_eab_collection.php:166 | the decimal form of any integer followed by a non-digit reads back as that integer |
| PhpValues.Strs | lib/class_eab_collection.php:149 | a list of strings keeps the length and order of its input |
| PhpValues.IntToString | lib/class_eab_collection.php:115-121 | the interpolated year is canonical decimal: non-empty, starts with '-' exactly when negative, the digits (after the '-' when negative) read back as the absolute value, and no leading zero |
| PhpValues.IntCastOfDecimalPrefix | lib/class_eab_collection.php:166 | `(int)` of a string holding a decimal number followed by nothing or by a character that is not a digit, '.', 'e' or 'E' ("42abc") is that number, in every PHP version |
| PhpValues.IntCastNonNumeric | lib/class_eab_collection.php:166 | `(int)` of a string with no number at its head (after blanks: no digit, no '.', no sign followed by a digit or '.'; "abc", "  -x") is 0, in every PHP version |
| Calendar.NextMonth | lib/class_eab_collection.php:96-102 | the end month computed by the `< 12` test is the month with the next month index, so December rolls into January of the next year |
| Calendar.Pad2 | lib/class_eab_collection.php:95 | `sprintf("%02d")` of a month is two digits that read back as the month |
| Calendar.FirstOfMonth | lib/class_eab_collection.php:115-121 | the `"{$year}-{$month}-01 00:00"` string (also line 202) is exactly the interpolated year, a '-', the zero-padded month (`Pad2`), then "-01 00:00"; `YearOfFirstOfMonth` reads the year back |
| Calendar.YearOfFirstOfMonth | lib/class_eab_collection.php:115-121 | the year at the head of the bound string reads back as the year, and the two characters after its '-' are the zero-padded month |
| Calendar.FirstOfMonthInjective | lib/class_eab_collection.php:115-121 | two months share a `"{Y}-{MM}-01 00:00"` string only when they are the same month, so a window's two bounds differ |
| Calendar.DecemberExample | lib/class_eab_collection.php:99-121 | for December 2023 the bounds are "2023-12-01 00:00" and "2024-01-01 00:00" |
| Calendar.JanuaryFirst | lib/class_eab_collection.php:100-101 | the first of January of a year is written "{Y}-01-01 00:00" |
| QueryArgs.ForbiddenStatuses | lib/class_eab_collection.php:90-93 | closed is always forbidden; expired is forbidden exactly when no single event (`incsub_event`) is set; nothing else is |
| QueryArgs.WithDefaultPerPage | lib/class_eab_collection.php:104 | `posts_per_page` becomes -1 only when not set (absent or null); a set value and every other key are kept |
| QueryArgs.UpcomingArgs | lib/class_eab_collection.php:84-134 | the fixed keys override the caller's, `posts_per_page` defaults to -1, every other caller key survives unchanged, and no other key appears |
| QueryArgs.UpcomingWindow | lib/class_eab_collection.php:95-129 | the meta query is: start before the first of the following month, end at or after the first of the month (both DATETIME), status NOT IN the forbidden statuses |
| QueryArgs.UpcomingDecemberRollover | lib/class_eab_collection.php:99-101 | in December the upper bound is "{Y+1}-01-01 00:00" |
| QueryArgs.UpcomingIdempotent | lib/class_eab_collection.php:66-70 | building the upcoming arguments again from their own result gives the same arguments |
| QueryArgs.OldArgs | lib/class_eab_collection.php:184-210 | the fixed keys override the caller's, `posts_per_page` is forced to -1, other caller keys survive, and `post_status` is present only if the caller gave it |
| QueryArgs.OldCriteria | lib/class_eab_collection.php:195-206 | the meta query is status equal to open and end before the first of the month; no clause compares with anything but `<` |
| QueryArgs.OldIdempotent | lib/class_eab_collection.php:66-70 | building the old-events arguments again from their own result gives the same arguments |
| QueryArgs.PopularArgs | lib/class_eab_collection.php:143-156 | `post__in` is exactly the ranked id list in order (possibly empty); the fixed keys override the caller's and every other caller key survives |
| QueryArgs.OrganizerArgs | lib/class_eab_collection.php:165-174 | exactly the keys author, post_type, post_status, posts_per_page, with author the integer cast of the input |
| QueryArgs.OrganizerCoercion | lib/class_eab_collection.php:166-168 | input "42abc" (a decimal followed by anything but a digit, '.', 'e' or 'E') selects author 42; an input with no number at its head selects author 0 |
| QueryArgs.OrganizerOnlyUsesCast | lib/class_eab_collection.php:165-173 | inputs with the same cast give the same arguments; feeding the selected author back in changes nothing |
| QueryArgs.RecurringChildrenArgs | lib/class_eab_collection.php:216-229 | any argument that is not a dated venue item is returned unchanged; a dated venue item gives exactly four keys |
| QueryArgs.RecurringChildrenCriteria | lib/class_eab_collection.php:218-227 | the trash recurrence status exactly when the parent is trashed, the live one exactly when it is not; parent id and unbounded page size |
| Collections.StoredTimestamp | lib/class_eab_collection.php:67 | the given timestamp when it is truthy, the current time otherwise |
| Collections.Materialize | lib/class_eab_collection.php:43-50 | one event model per post, same length, same order |
| Collections.Collection.Upcoming | lib/class_eab_collection.php:66-70 | the stored query's arguments, after both builds, equal a single build for the month of the stored timestamp; its posts are the engine's answer |
| Collections.Collection.Old | lib/class_eab_collection.php:66-70 | as Upcoming, for the old-events arguments |
| Collections.Collection.Popular | lib/class_eab_collection.php:18-21 | the stored query is built once from the popular arguments and run |
| Collections.Collection.Organizer | lib/class_eab_collection.php:18-21 | the stored query is built once from the organizer arguments and run |
| Collections.Collection.AllRecurringChildren | lib/class_eab_collection.php:18-21 | the stored query is built once from the recurring-children arguments and run |
| Collections.Collection.ToQuery | lib/class_eab_collection.php:26-28 | returns the stored query |
| Collections.Collection.GetTimestamp | lib/class_eab_collection.php:72-74 | returns the stored timestamp |
| Collections.Collection.ToCollection | lib/class_eab_collection.php:43-50 | the loop returns one event model per found post, in result order, and an empty list when nothing was found |
| Collections.GetUpcoming | lib/class_eab_collection.php:245-248 | the query of the upcoming collection |
| Collections.GetUpcomingEvents | lib/class_eab_collection.php:254-257 | the events of the upcoming collection |
| Collections.GetOld | lib/class_eab_collection.php:263-266 | the query of the old-events collection |
| Collections.GetOldEvents | lib/class_eab_collection.php:272-275 | the events of the old-events collection |
| Collections.GetPopular | lib/class_eab_collection.php:281-284 | the query of the popular collection |
| Collections.GetPopularEvents | lib/class_eab_collection.php:290-293 | the events of the popular collection |
| Collections.GetAllRecurringChildrenEvents | lib/class_eab_collection.php:295-298 | the events of the recurring-children collection |
| Collections.GetUserOrganizedEvents | lib/class_eab_collection.php:300-303 | the events of the organizer collection |

## Left out

- Running `WP_Query` (line 20): the engine is the `engine` parameter; how WordPress reads `suppress_filters`, an empty `post__in` or the meta comparisons is not modelled.
- The bookings aggregation through `$wpdb->get_col` (lines 144-145): its id column is the `ranked` parameter; its order among equal counts is whatever the database returns.
- `date()`, `time()` and `strtotime()` (lines 67, 85-88, 185-187): `dateOf` and `now` are parameters. `date()` reads the month in PHP's default time zone (UTC under WordPress), not the site's configured zone, so near a month boundary the window is the UTC month; `dateOf` is meant as that UTC reading. The `strtotime` result at line 88 is never read, and the `date('m')` fallback at line 95 cannot be reached because the month string is never empty.
- Falsy timestamps: `false`, `null`, `"0"` and `0` all read as the integer 0 in `StoredTimestamp`.
- The event model and dated venue classes: an event model is an opaque wrapper of one post, a dated venue item is its id and trashed flag. The status values (`open`, `closed`, `expired`, `recurrent`, `recurrent_trash`) are defined in those classes, which are not part of this model; the lemmas only use that they differ.
- PHP array key order, and the renumbering of integer keys by `array_merge`: argument arrays are maps from string keys.
- Upcoming, old and popular callers that pass something other than an array: the model takes a map.
- PhpValues.IntCast: the modelled string cast is the integer-prefix reading of PHP 7.0 and earlier. From PHP 7.1 a string whose numeric head has a fraction or an exponent is read through a float, so "1e3" casts to 1000 (model: 1), ".5e1" to 5 (model: 0), and "9007199254740993.5" to 9007199254740994 (model: 9007199254740993). Floats and objects as values are not modelled. `IntCastOfDecimalPrefix`, `IntCastNonNumeric` and `OrganizerCoercion` exclude these heads, so they hold in every version.
- PhpValues.LeadingInteger: reads the digit prefix only, like the cast above; a '.' or exponent after the digits is not read.
- The factory's private constructor (line 239): the factory entry points are module-level methods.
