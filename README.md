# Scores page handler (hanabi-live server), modelled in Dafny

This project models the `scores` HTTP handler of the hanabi-live server
(Go package `httpmain`). The handler builds a player's scores page in this order:

1. It looks up the player's profile counters.
2. It picks the ordinal suffix of the join day ("st", "nd", "rd", "th") and builds the
   Go reference-time layout from it ("January 2st, 2006" and so on).
3. It formats the regular play time, but only when that total is non-zero.
4. It formats the speedrun play time, under the same rule.
5. It looks up the per-variant stats.
6. It fills in the template data. The two aggregation helpers supply their fields;
   the total number of possible max scores is five (player counts 2 to 6) times
   the number of known variants.

When any step fails, the request ends with an internal server error and no
template is served.

Everything is in `scores.dfy`, module `HttpMain`. The handler `Scores` is a pure
function of what its collaborators return:

- The two database lookups arrive as `Result` values.
- The duration formatter, the date formatter and the two aggregation helpers
  arrive as functions. Their bodies are not modelled.
- The variant registry arrives as the list of variant names.

The handler returns a `Response`. It holds the outcome (a 500 tagged with the
failed step, or the template data) and the ordered list of consultations of
the collaborators that can fail: the two database lookups (with the user id
they are made for) and the duration formatter (with the total it is given).
The date formatter and the two aggregation helpers cannot fail and are not
recorded in that list. The list gives a precise meaning to "before the
variant-stats lookup" and to "the formatter is not consulted".

`Page` assembles the template data once every step has succeeded
(scores.go:126-147); `Scores`' contract pins each of its fields.

`DaySuffixSpellsOrdinal` ties the suffix table to an independent reference: the
English ordinal word for each day of the month. For every day 1 to 31, the
suffix is the last two letters of that word, including the teens ("eleventh",
"twelfth", "thirteenth").

## Model

| member | source | states |
|---|---|---|
| `HttpMain.DaySuffix` | server/pkg/httpmain/scores.go:55-63 | the suffix is "st" exactly for days 1, 21, 31; "nd" exactly for 2, 22; "rd" exactly for 3, 23; "th" for every other day (11, 12 and 13 included); it is always one of those four |
| `HttpMain.DateLayout` | server/pkg/httpmain/scores.go:64 | the layout is 17 characters long: "January 2", then the day's suffix, then ", 2006" |
| `HttpMain.DaySuffixSpellsOrdinal` | server/pkg/httpmain/scores.go:55-63 | for every day of the month, the suffix equals the last two letters of its English ordinal word |
| `HttpMain.TimeText` | server/pkg/httpmain/scores.go:67-106 | a zero total gives "" and consults no formatter; a non-zero total consults the formatter exactly once, and its result (text or error) is the outcome |
| `HttpMain.Scores` | server/pkg/httpmain/scores.go:35-148 | the profile lookup is consulted first; both lookups are made for the user's id; the formatter is never asked to format zero; a profile failure gives a 500 and consults nothing else; a regular-time format failure gives a 500 before the speedrun time and the variant lookup; a speedrun-time failure gives a 500 before the variant lookup; a variant-lookup failure gives a 500 after everything else; the template is served if and only if no step failed; on success the template data has title "Scores", the user's name, the date formatted with `DateLayout` of the join day, the profile's game counts unchanged, each time "" for a zero total and otherwise the formatter's text, total max scores equal to 5 × the number of variant names, and the helpers' outputs unchanged |
| `HttpMain.ScoresFormatsEachNonZeroTotalOnce` | server/pkg/httpmain/scores.go:68-106 | the totals given to the formatter, in order, are: none after a profile failure; only the regular total when it fails to format; otherwise the regular total if non-zero, then the speedrun total if non-zero |
| `HttpMain.ScoresIgnoresZeroTotals` | server/pkg/httpmain/scores.go:68-69 | replacing the duration formatter by one that agrees with it on the non-zero totals leaves the whole response unchanged, so a zero total is never given to it |

## Left out

- Player-name parsing (`parsePlayerName`) and its early return: HTTP plumbing. The model starts from the resolved user.
- The gin context, `http.Error`, the log messages and `serveTemplate`: HTTP and I/O plumbing. A 500 is the `InternalServerError` outcome, tagged with the step whose log line the source writes. A served page is the `Template` outcome.
- `GetProfileStats` and `UserStats.GetAll`: database access. They are inputs of type `Result`.
- `util.SecondsToDurationString` and `time.Time.Format`: their bodies are not part of this model. They are function parameters. The formatter may fail; the date formatter cannot fail, as in Go.
- `getVariantStatsList` and `getPercentageMaxScores`: their bodies are not part of this model. They are function parameters whose results pass through unchanged. So nothing is stated about max-score counting, percentages, a zero-variant guard or data-integrity errors.
- The variant registry `hVariantsManager`: a global. Its list of variant names is an explicit parameter.
- `models.UserStatsRow` and `bestscore.BestScore`: opaque types. Pointers to records (`*models.UserStatsRow` in the stats map, `*bestscore.BestScore` in `UserVariantStats`) are modelled as values, so aliasing is not modelled.
- `time.Time` is reduced to year, month and day. The time of day, the location, and whether a day exists in its month are not modelled.
- `HttpMain.Scores`: the Go `int` product `len(VariantNames) * 5` could wrap around on 64 bits. The model uses unbounded integers, since a registry that large cannot exist.
- Template-data fields that this handler does not set are not modelled.
- The comments at scores.go:67 and scores.go:87 say a time is shown only when the player has played one or more games of that kind. The code tests the seconds total instead (`TimePlayed != 0` at scores.go:69, `TimePlayedSpeedrun != 0` at scores.go:89). The model follows the code.
