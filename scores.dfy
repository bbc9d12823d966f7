/** A model of the `scores` page handler of the hanabi-live server (Go package
    `httpmain`, file scores.go). The handler looks up a player's profile
    counters, formats the join date and the two play-time totals, looks up the
    per-variant stats, and hands everything to the "scores" template; any
    collaborator failure ends the request with an internal server error.

    Here the handler is a pure function of what its collaborators return. The
    database lookups arrive as `Result` values; the duration formatter, the
    date formatter and the two aggregation helpers arrive as functions whose
    bodies are not modelled. */
module HttpMain {

  /** The error a collaborator returns; its text only ever reaches the log. */
  datatype Error = Error(message: string)

  /** A Go `(value, error)` pair: either a value or an error. */
  datatype Result<T> = Ok(value: T) | Err(error: Error)

  /** A day of the month, as `time.Time.Day` returns it. */
  type Day = d: int | 1 <= d <= 31 witness 1

  /** A month of the year, as `time.Time.Month` returns it. */
  type Month = m: int | 1 <= m <= 12 witness 1

  /** The calendar part of a `time.Time`; the handler only asks it for its day. */
  datatype Instant = Instant(year: int, month: Month, day: Day)

  /** The player whose page is served (`models.User`). */
  datatype User = User(id: int, username: string)

  /** Whole-account counters from the profile-stats lookup (`models.Stats`).
      The two time totals are in seconds. */
  datatype Stats = Stats(
    dateJoined: Instant,
    numGames: int,
    timePlayed: int,
    numGamesSpeedrun: int,
    timePlayedSpeedrun: int)

  /** One stored per-variant stats row (`models.UserStatsRow`), left opaque. */
  type UserStatsRow

  /** One best-score entry (`bestscore.BestScore`), left opaque. */
  type BestScore(==)

  /** The per-variant line of the scores page. */
  datatype UserVariantStats = UserVariantStats(
    id: int,
    name: string,
    numGames: int,
    maxScore: int,
    bestScores: seq<BestScore>,
    averageScore: string,
    numStrikeouts: int,
    strikeoutRate: string)

  /** The fields of the template data that this handler fills in. */
  datatype TemplateData = TemplateData(
    title: string,
    name: string,
    dateJoined: string,
    numGames: int,
    timePlayed: string,
    numGamesSpeedrun: int,
    timePlayedSpeedrun: string,
    numMaxScores: int,
    totalMaxScores: int,
    percentageMaxScores: string,
    numMaxScoresPerType: seq<int>,
    percentageMaxScoresPerType: seq<string>,
    variantStats: seq<UserVariantStats>)

  /** The step of the handler that failed, one per error path. */
  datatype Stage = ProfileStatsLookup | TimePlayedFormat | SpeedrunTimeFormat | VariantStatsLookup

  /** What the handler writes: a 500 page, or the template with its data. */
  datatype Outcome = InternalServerError(failed: Stage) | Template(data: TemplateData)

  /** A consultation of a collaborator that can fail: the two database
      lookups, made for the user's id, and the duration formatter. The date
      formatter and the two aggregation helpers cannot fail and are not
      recorded. */
  datatype Call = GetProfileStats(userId: int) | SecondsToDurationString(seconds: int) | GetAllUserStats(userId: int)

  /** The outcome of one request together with the failing-capable
      collaborators it consulted, in order. */
  datatype Response = Response(outcome: Outcome, calls: seq<Call>)

  /** A step's result together with the failing-capable collaborators it consulted. */
  datatype Traced<T> = Traced(result: Result<T>, calls: seq<Call>)

  /** The functions the handler calls but whose bodies are not modelled:
      `util.SecondsToDurationString`, `time.Time.Format`,
      `getVariantStatsList` and `getPercentageMaxScores`. */
  datatype Collaborators = Collaborators(
    durationString: int -> Result<string>,
    formatDate: (Instant, string) -> string,
    variantStatsList: map<int, UserStatsRow> -> (int, seq<int>, seq<UserVariantStats>),
    percentageMaxScores: (int, seq<int>) -> (string, seq<string>))

  /** Number of player counts a variant can be played with (2 to 6). */
  const PlayerCounts := 5

  /** The ordinal suffix written after the join day: "th" unless the day is
      one of those the switch names. */
  function DaySuffix(day: Day): (suffix: string)
    ensures suffix == "st" <==> day in {1, 21, 31}
    ensures suffix == "nd" <==> day in {2, 22}
    ensures suffix == "rd" <==> day in {3, 23}
    ensures suffix == "th" <==> day !in {1, 2, 3, 21, 22, 23, 31}
    ensures suffix in {"st", "nd", "rd", "th"}
  {
    match day
    case 1 | 21 | 31 => "st"
    case 2 | 22 => "nd"
    case 3 | 23 => "rd"
    case _ => "th"
  }

  /** The Go reference-time layout used to print the join date: the month
      name, the day, the suffix for that day, a comma and the year. */
  function DateLayout(day: Day): (layout: string)
    ensures |layout| == 17
    ensures layout[..9] == "January 2" && layout[11..] == ", 2006"
    ensures layout[9..11] == DaySuffix(day)
  {
    "January 2" + DaySuffix(day) + ", 2006"
  }

  /** The text shown for a play-time total of `seconds`: empty for a zero
      total, without consulting the formatter; otherwise whatever the
      formatter returns, its error included. */
  function TimeText(seconds: int, durationString: int -> Result<string>): (r: Traced<string>)
    ensures seconds == 0 <==> r.calls == []
    ensures seconds == 0 ==> r.result == Ok("")
    ensures seconds != 0 ==> r.calls == [SecondsToDurationString(seconds)] && r.result == durationString(seconds)
  {
    if seconds == 0 then Traced(Ok(""), [])
    else Traced(durationString(seconds), [SecondsToDurationString(seconds)])
  }

  /** True when the text for a total of `seconds` can be produced. */
  predicate TimeTextOk(seconds: int, durationString: int -> Result<string>)
  {
    seconds == 0 || durationString(seconds).Ok?
  }

  /** The page the handler serves once every collaborator has succeeded. */
  function Page(user: User, s: Stats, timePlayed: string, timePlayedSpeedrun: string,
                rows: map<int, UserStatsRow>, variantNames: seq<string>, c: Collaborators): TemplateData
  {
    var summary := c.variantStatsList(rows);
    var percentages := c.percentageMaxScores(summary.0, summary.1);
    TemplateData(
      title := "Scores",
      name := user.username,
      dateJoined := c.formatDate(s.dateJoined, DateLayout(s.dateJoined.day)),
      numGames := s.numGames,
      timePlayed := timePlayed,
      numGamesSpeedrun := s.numGamesSpeedrun,
      timePlayedSpeedrun := timePlayedSpeedrun,
      numMaxScores := summary.0,
      totalMaxScores := |variantNames| * PlayerCounts,
      percentageMaxScores := percentages.0,
      numMaxScoresPerType := summary.1,
      percentageMaxScoresPerType := percentages.1,
      variantStats := summary.2)
  }

  /** The `scores` handler, from the resolved user onwards. `profileStats` and
      `userStats` are what the two database lookups return, `variantNames`
      the names in the variant registry. */
  function Scores(user: User, profileStats: Result<Stats>, userStats: Result<map<int, UserStatsRow>>,
                  variantNames: seq<string>, c: Collaborators): (r: Response)
    // The profile-stats lookup is always consulted first.
    ensures |r.calls| >= 1 && r.calls[0] == GetProfileStats(user.id)
    // Both lookups are made for the user being served.
    ensures forall k :: 0 <= k < |r.calls| && !r.calls[k].SecondsToDurationString? ==> r.calls[k].userId == user.id
    // The formatter is never asked to format a zero total.
    ensures forall k :: 0 <= k < |r.calls| && r.calls[k].SecondsToDurationString? ==> r.calls[k].seconds != 0
    // A profile-stats failure ends the request before anything else is consulted.
    ensures profileStats.Err? ==> r == Response(InternalServerError(ProfileStatsLookup), [GetProfileStats(user.id)])
    // A failure to format the regular time ends it before the speedrun time and the variant stats.
    ensures profileStats.Ok? && !TimeTextOk(profileStats.value.timePlayed, c.durationString) ==>
      r == Response(InternalServerError(TimePlayedFormat),
                    [GetProfileStats(user.id), SecondsToDurationString(profileStats.value.timePlayed)])
    // A failure to format the speedrun time ends it before the variant stats.
    ensures profileStats.Ok? && TimeTextOk(profileStats.value.timePlayed, c.durationString)
            && !TimeTextOk(profileStats.value.timePlayedSpeedrun, c.durationString) ==>
      r.outcome == InternalServerError(SpeedrunTimeFormat) && GetAllUserStats(user.id) !in r.calls
      && r.calls[|r.calls| - 1] == SecondsToDurationString(profileStats.value.timePlayedSpeedrun)
    // A variant-stats failure ends it after every other collaborator.
    ensures profileStats.Ok? && TimeTextOk(profileStats.value.timePlayed, c.durationString)
            && TimeTextOk(profileStats.value.timePlayedSpeedrun, c.durationString) && userStats.Err? ==>
      r.outcome == InternalServerError(VariantStatsLookup) && r.calls[|r.calls| - 1] == GetAllUserStats(user.id)
    // The template is served exactly when no step failed.
    ensures r.outcome.Template? <==>
      && profileStats.Ok?
      && TimeTextOk(profileStats.value.timePlayed, c.durationString)
      && TimeTextOk(profileStats.value.timePlayedSpeedrun, c.durationString)
      && userStats.Ok?
    // The variant stats are looked up only when the request gets that far, and last.
    ensures GetAllUserStats(user.id) in r.calls <==> r.outcome.Template? || r.outcome == InternalServerError(VariantStatsLookup)
    ensures GetAllUserStats(user.id) in r.calls ==> r.calls[|r.calls| - 1] == GetAllUserStats(user.id)
    // What the served page shows.
    ensures r.outcome.Template? ==>
      var s := profileStats.value;
      var d := r.outcome.data;
      var summary := c.variantStatsList(userStats.value);
      var percentages := c.percentageMaxScores(summary.0, summary.1);
      && d.title == "Scores"
      && d.name == user.username
      && d.dateJoined == c.formatDate(s.dateJoined, DateLayout(s.dateJoined.day))
      && d.numGames == s.numGames
      && d.numGamesSpeedrun == s.numGamesSpeedrun
      && (s.timePlayed == 0 ==> d.timePlayed == "")
      && (s.timePlayed != 0 ==> Ok(d.timePlayed) == c.durationString(s.timePlayed))
      && (s.timePlayedSpeedrun == 0 ==> d.timePlayedSpeedrun == "")
      && (s.timePlayedSpeedrun != 0 ==> Ok(d.timePlayedSpeedrun) == c.durationString(s.timePlayedSpeedrun))
      && d.totalMaxScores == 5 * |variantNames|
      && d.numMaxScores == summary.0
      && d.numMaxScoresPerType == summary.1
      && d.variantStats == summary.2
      && d.percentageMaxScores == percentages.0
      && d.percentageMaxScoresPerType == percentages.1
  {
    match profileStats
    case Err(_) => Response(InternalServerError(ProfileStatsLookup), [GetProfileStats(user.id)])
    case Ok(s) =>
      var regular := TimeText(s.timePlayed, c.durationString);
      match regular.result
      case Err(_) => Response(InternalServerError(TimePlayedFormat), [GetProfileStats(user.id)] + regular.calls)
      case Ok(timePlayed) =>
        var speedrun := TimeText(s.timePlayedSpeedrun, c.durationString);
        var formatted := [GetProfileStats(user.id)] + regular.calls + speedrun.calls;
        match speedrun.result
        case Err(_) => Response(InternalServerError(SpeedrunTimeFormat), formatted)
        case Ok(timePlayedSpeedrun) =>
          match userStats
          case Err(_) => Response(InternalServerError(VariantStatsLookup), formatted + [GetAllUserStats(user.id)])
          case Ok(rows) =>
            Response(Template(Page(user, s, timePlayed, timePlayedSpeedrun, rows, variantNames, c)),
                     formatted + [GetAllUserStats(user.id)])
  }

  /** The duration formatter matters only at the non-zero totals: a formatter
      that agrees with it there yields the same response, consulted calls included. */
  lemma ScoresIgnoresZeroTotals(user: User, profileStats: Result<Stats>, userStats: Result<map<int, UserStatsRow>>,
                                variantNames: seq<string>, c: Collaborators, durationString: int -> Result<string>)
    requires profileStats.Ok? && profileStats.value.timePlayed != 0 ==>
      durationString(profileStats.value.timePlayed) == c.durationString(profileStats.value.timePlayed)
    requires profileStats.Ok? && profileStats.value.timePlayedSpeedrun != 0 ==>
      durationString(profileStats.value.timePlayedSpeedrun) == c.durationString(profileStats.value.timePlayedSpeedrun)
    ensures Scores(user, profileStats, userStats, variantNames, c.(durationString := durationString))
         == Scores(user, profileStats, userStats, variantNames, c)
  {
  }

  /** The totals given to the duration formatter among `calls`, in order. */
  function FormattedSeconds(calls: seq<Call>): seq<int>
  {
    if calls == [] then []
    else (if calls[0].SecondsToDurationString? then [calls[0].seconds] else []) + FormattedSeconds(calls[1..])
  }

  lemma {:induction false} FormattedSecondsAppend(a: seq<Call>, b: seq<Call>)
    ensures FormattedSeconds(a + b) == FormattedSeconds(a) + FormattedSeconds(b)
  {
    if a == [] {
      assert a + b == b;
    } else {
      assert (a + b)[1..] == a[1..] + b;
      FormattedSecondsAppend(a[1..], b);
    }
  }

  /** The totals a total of `seconds` has formatted: none for zero. */
  function NonZero(seconds: int): seq<int>
  {
    if seconds == 0 then [] else [seconds]
  }

  /** The duration formatter is given each non-zero total the request reaches,
      once and in source order, and nothing else: nothing after a profile-stats
      failure, only the regular total when that fails to format, and otherwise
      the non-zero ones of the regular total and then the speedrun total. */
  lemma ScoresFormatsEachNonZeroTotalOnce(user: User, profileStats: Result<Stats>,
                                          userStats: Result<map<int, UserStatsRow>>,
                                          variantNames: seq<string>, c: Collaborators)
    ensures var r := Scores(user, profileStats, userStats, variantNames, c);
      && (profileStats.Err? ==> FormattedSeconds(r.calls) == [])
      && (profileStats.Ok? && r.outcome == InternalServerError(TimePlayedFormat) ==>
            FormattedSeconds(r.calls) == [profileStats.value.timePlayed])
      && (profileStats.Ok? && r.outcome != InternalServerError(TimePlayedFormat) ==>
            FormattedSeconds(r.calls)
            == NonZero(profileStats.value.timePlayed) + NonZero(profileStats.value.timePlayedSpeedrun))
  {
    match profileStats
    case Err(_) =>
    case Ok(s) =>
      var regular := TimeText(s.timePlayed, c.durationString);
      var speedrun := TimeText(s.timePlayedSpeedrun, c.durationString);
      FormattedSecondsAppend([GetProfileStats(user.id)], regular.calls);
      FormattedSecondsAppend([GetProfileStats(user.id)] + regular.calls, speedrun.calls);
      FormattedSecondsAppend([GetProfileStats(user.id)] + regular.calls + speedrun.calls, [GetAllUserStats(user.id)]);
  }

  /** The English ordinal words for 1 to 19, "first" to "nineteenth". */
  const UnitOrdinals: seq<string> := [
    "first", "second", "third", "fourth", "fifth", "sixth", "seventh", "eighth", "ninth", "tenth",
    "eleventh", "twelfth", "thirteenth", "fourteenth", "fifteenth", "sixteenth", "seventeenth",
    "eighteenth", "nineteenth"]

  /** How the ordinal of a day of the month is spelled in English. */
  function OrdinalWord(day: Day): string
  {
    if day < 20 then UnitOrdinals[day - 1]
    else if day == 20 then "twentieth"
    else if day < 30 then "twenty-" + UnitOrdinals[day - 21]
    else if day == 30 then "thirtieth"
    else "thirty-" + UnitOrdinals[day - 31]
  }

  /** The last two letters of a word. */
  function Ending(w: string): string
    requires |w| >= 2
  {
    w[|w| - 2..]
  }

  lemma UnitOrdinalEnding(u: int)
    requires 1 <= u <= 19
    ensures |UnitOrdinals[u - 1]| >= 2
    ensures Ending(UnitOrdinals[u - 1]) == if u == 1 then "st" else if u == 2 then "nd" else if u == 3 then "rd" else "th"
  {
  }

  lemma EndingOfConcat(a: string, b: string)
    requires |b| >= 2
    ensures Ending(a + b) == Ending(b)
  {
    assert (a + b)[|a + b| - 2..] == b[|b| - 2..];
  }

  /** The suffix written after the join day is the ending of that day's
      English ordinal word, for every day of the month, the teens included. */
  lemma DaySuffixSpellsOrdinal(day: Day)
    ensures |OrdinalWord(day)| >= 2 && DaySuffix(day) == Ending(OrdinalWord(day))
  {
    if day < 20 {
      UnitOrdinalEnding(day);
    } else if day == 20 || day == 30 {
    } else if day < 30 {
      UnitOrdinalEnding(day - 20);
      EndingOfConcat("twenty-", UnitOrdinals[day - 21]);
    } else {
      UnitOrdinalEnding(day - 30);
      EndingOfConcat("thirty-", UnitOrdinals[day - 31]);
    }
  }
}
