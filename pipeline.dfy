/** `main` and `scrape_tweets` (src/main.py): validating the run's
    arguments, filling in their defaults, choosing the sink, composing the
    search query, and the loop that scores every collected tweet and
    appends it to the sink. */
module Pipeline {
  import opened Wrappers
  import opened Text
  import opened Dates
  import Classify
  import opened Writer

  // ---------------------------------------------------------------------
  // Arguments

  /** The options as typed on the command line; `None` where one was not
      given. argparse guarantees at least one term (`nargs="+"`). */
  datatype CommandLine = CommandLine(
    start: Option<string>, end: Option<string>, limit: Option<int>, output: Option<string>,
    terms: seq<string>, databaseConfig: Option<string>, file: Option<string>)

  /** The namespace `parse_arguments` returns, defaults filled in. */
  datatype Args = Args(
    start: Option<string>, end: Option<string>, limit: int, output: Option<string>,
    terms: seq<string>, databaseConfig: Option<string>, file: Option<string>)

  /** The default of `--start` as written: a string `parse_date` rejects. */
  const StartDefault := "now"
  const LimitDefault := 5000
  /** The start date used when none is given: the day Twitter was created. */
  const TwitterLaunch := "2006-04-21"

  /** The argparse defaults as written: `--start` defaults to "now". */
  function ArgumentDefaults(cl: CommandLine): (a: Args)
    ensures a.start == Some(cl.start.GetOr(StartDefault)) && a.limit == cl.limit.GetOr(LimitDefault)
  {
    Args(Some(cl.start.GetOr(StartDefault)), cl.end, cl.limit.GetOr(LimitDefault), cl.output,
         cl.terms, cl.databaseConfig, cl.file)
  }

  /** The argparse defaults as intended: an absent `--start` stays absent,
      so that `main` replaces it by the launch date. */
  function ArgumentDefaultsIntended(cl: CommandLine): (a: Args)
    ensures a.start == cl.start && a.limit == cl.limit.GetOr(LimitDefault)
  {
    Args(cl.start, cl.end, cl.limit.GetOr(LimitDefault), cl.output,
         cl.terms, cl.databaseConfig, cl.file)
  }

  // ---------------------------------------------------------------------
  // Validation and defaults in `main`

  /** The bare `raise` statements of `main` (and argparse's refusal of an
      empty term list) as error values. */
  datatype RunError =
    | MissingTerms
    | LimitTooSmall(maxTweets: int)
    | BadDate(text: string)
    | EndInFuture
    | StartAfterEnd

  /** Where the rows go: a database configuration file, or a CSV file name
      and output directory, each possibly absent. */
  datatype Target = Psql(config: string) | Csv(file: Option<string>, outDirectory: Option<string>)

  /** The keyword arguments `main` passes to `scrape_tweets`. */
  datatype Plan = Plan(start: string, end: string, numTweets: int, terms: seq<string>, target: Target)

  /** A database configuration selects the database; otherwise the CSV
      file and output directory are used. */
  function SelectTarget(args: Args): (t: Target)
    ensures t.Psql? <==> Truthy(args.databaseConfig)
    ensures t.Psql? ==> t.config == args.databaseConfig.value
    ensures t.Csv? ==> t.file == args.file && t.outDirectory == args.output
  {
    if Truthy(args.databaseConfig) then Psql(args.databaseConfig.value) else Csv(args.file, args.output)
  }

  /** The start date string after defaulting. */
  function StartText(args: Args): string
  {
    if Truthy(args.start) then args.start.value else TwitterLaunch
  }

  /** The end date string after defaulting to today's date. */
  function EndText(args: Args, now: DateTime): string
    requires ValidDateTime(now)
  {
    if Truthy(args.end) then args.end.value else FormatDate(now.date)
  }

  /** What `main` does before calling `scrape_tweets`, in its order: the
      limit check, the date defaults, parsing both dates, rejecting an end
      in the future and a start after the end, then choosing the target. */
  function PlanRun(args: Args, now: DateTime): (r: Result<Plan, RunError>)
    requires ValidDateTime(now)
    ensures r.Success? ==>
      && r.value.terms == args.terms && args.terms != []
      && r.value.numTweets == args.limit - 1 >= 1
      && ParseDate(r.value.start).Some? && ParseDate(r.value.end).Some?
      && !Before(ParseDate(r.value.end).value, ParseDate(r.value.start).value)
      && !Before(now.date, ParseDate(r.value.end).value)
      && r.value.target == SelectTarget(args)
    ensures r.Success? ==> r.value.start == StartText(args) && r.value.end == EndText(args, now)
  {
    if args.terms == [] then Failure(MissingTerms)
    else
      var maxTweets := args.limit - 1;
      if maxTweets < 1 then Failure(LimitTooSmall(maxTweets))
      else
        var start := StartText(args);
        var end := EndText(args, now);
        match ParseDate(start)
        case None => Failure(BadDate(start))
        case Some(s) =>
          match ParseDate(end)
          case None => Failure(BadDate(end))
          case Some(e) =>
            if Later(Midnight(e), now) then Failure(EndInFuture)
            else if Before(e, s) then Failure(StartAfterEnd)
            else Success(Plan(start, end, maxTweets, args.terms, SelectTarget(args)))
  }

  /** A limit below 2 is rejected, and it is the first check after the
      terms. */
  lemma LimitBelowTwoRejected(args: Args, now: DateTime)
    requires ValidDateTime(now) && args.terms != []
    ensures PlanRun(args, now) == Failure(LimitTooSmall(args.limit - 1)) <==> args.limit < 2
  {
  }

  /** Once the limit is accepted and both dates parse, the run is refused
      exactly when the end date is after today or the start date is after
      the end date, and nothing else is refused. */
  lemma DateWindowChecked(args: Args, now: DateTime)
    requires ValidDateTime(now) && args.terms != [] && args.limit >= 2
    requires ParseDate(StartText(args)).Some? && ParseDate(EndText(args, now)).Some?
    ensures var s := ParseDate(StartText(args)).value;
      var e := ParseDate(EndText(args, now)).value;
      && (PlanRun(args, now) == Failure(EndInFuture) <==> Before(now.date, e))
      && (PlanRun(args, now) == Failure(StartAfterEnd) <==> !Before(now.date, e) && Before(e, s))
      && (PlanRun(args, now).Success? <==> !Before(now.date, e) && !Before(e, s))
  {
    MidnightLaterIff(ParseDate(EndText(args, now)).value, now);
  }

  /** Without an end date the run ends today, and that end is never in the
      future. */
  lemma DefaultEndIsToday(args: Args, now: DateTime)
    requires ValidDateTime(now) && !Truthy(args.end)
    ensures ParseDate(EndText(args, now)) == Some(now.date)
    ensures PlanRun(args, now) != Failure(EndInFuture)
  {
    ParseFormatDate(now.date);
  }

  /** Without a start date the run starts on 2006-04-21. */
  lemma DefaultStartIsLaunch(args: Args, now: DateTime)
    requires ValidDateTime(now) && !Truthy(args.start)
    ensures ParseDate(StartText(args)) == Some(Date(2006, 4, 21))
  {
    assert Numerals.Digits(2006, 4) == "2006";
    assert Numerals.Digits(4, 2) == "04";
    assert Numerals.Digits(21, 2) == "21";
    assert TwitterLaunch == FormatDate(Date(2006, 4, 21));
    ParseFormatDate(Date(2006, 4, 21));
  }

  // ---------------------------------------------------------------------
  // The query

  /** The two strings `TwitterSearchScraper` is given: the search terms
      and the filter with the language, the date window and the reply
      exclusion. */
  datatype Query = Query(search: string, filter: string)

  function ComposeQuery(terms: seq<string>, start: string, end: string): Query
  {
    Query(JoinSpaces(terms), " lang: en since:" + start + " until:" + end + " -filter:replies")
  }

  predicate OccursAt(s: string, part: string, i: int)
  {
    0 <= i <= |s| - |part| && s[i..i + |part|] == part
  }

  predicate Contains(s: string, part: string)
  {
    exists i :: 0 <= i <= |s| && OccursAt(s, part, i)
  }

  /** The search string holds exactly the terms, one space apart, and the
      filter holds the date window `since:<start> until:<end>`. */
  lemma QueryCarriesTermsAndWindow(terms: seq<string>, start: string, end: string)
    requires forall k :: 0 <= k < |terms| ==> IsWord(terms[k])
    ensures Split(ComposeQuery(terms, start, end).search) == terms
    ensures Contains(ComposeQuery(terms, start, end).filter, "since:" + start + " until:" + end)
  {
    SplitJoin(terms);
    var f := ComposeQuery(terms, start, end).filter;
    var w := "since:" + start + " until:" + end;
    assert f == " lang: en " + w + " -filter:replies";
    assert OccursAt(f, w, 10);
  }

  // ---------------------------------------------------------------------
  // `scrape_tweets`

  /** One collected tweet, its fields as the text the CSV writer stores. */
  datatype Tweet = Tweet(id: string, date: string, user: string, url: string, content: string)

  /** The field names of the `Row` named tuple: the CSV header. */
  const RowFields: seq<string> :=
    ["tweetId", "date", "user", "url", "contents", "weight", "pos", "neu", "neg"]

  /** `list(Row(...))`: the tweet's fields, its weight and its three scores,
      with `show` rendering a number as the CSV writer does. */
  function MakeRow(t: Tweet, weight: real, pos: real, neu: real, neg: real, show: real -> string): (r: Row)
    ensures |r| == |RowFields|
    ensures r[..5] == [t.id, t.date, t.user, t.url, t.content]
    ensures r[5] == show(weight) && r[6] == show(pos) && r[7] == show(neu) && r[8] == show(neg)
  {
    [t.id, t.date, t.user, t.url, t.content, show(weight), show(pos), show(neu), show(neg)]
  }

  /** The row `scrape_tweets` appends for one tweet. */
  function RowOf(t: Tweet, terms: seq<string>, analyser: string -> Classify.PolarityScores,
                 show: real -> string): Row
    requires terms != []
  {
    var scores := Classify.Vader(analyser, t.content);
    MakeRow(t, Classify.Weight(t.content, terms).value, scores[0], scores[1], scores[2], show)
  }

  /** The rows for a run of tweets, in order. */
  function ExpectedRows(items: seq<Tweet>, terms: seq<string>,
                        analyser: string -> Classify.PolarityScores, show: real -> string): seq<Row>
    requires terms != [] || items == []
  {
    seq(|items|, i requires 0 <= i < |items| => RowOf(items[i], terms, analyser, show))
  }

  lemma ExpectedRowsSnoc(items: seq<Tweet>, i: nat, terms: seq<string>,
                         analyser: string -> Classify.PolarityScores, show: real -> string)
    requires i < |items| && terms != []
    ensures ExpectedRows(items[..i + 1], terms, analyser, show)
            == ExpectedRows(items[..i], terms, analyser, show) + [RowOf(items[i], terms, analyser, show)]
  {
  }

  /** How many of `n` items the loop processes: it stops at the first index
      above `numTweets`. */
  function ProcessedCount(n: nat, numTweets: int): (k: nat)
    ensures k <= n && (numTweets >= 0 ==> k <= numTweets + 1)
    ensures numTweets < 0 ==> k == 0
    ensures numTweets >= 0 ==> k == n || k == numTweets + 1
  {
    if numTweets < 0 then 0 else if n <= numTweets + 1 then n else numTweets + 1
  }

  datatype ScrapeOutcome =
    | HandedToDatabase(config: string)
    | Completed(rows: nat)
    | Aborted(error: Classify.WeightError)

  /** `scrape_tweets`. The scraper's items are `items`, the sentiment
      analyser is `analyser`, `now` is `int(time.time())`. A database
      target is handed on and not modelled further. For a CSV target the
      writer is opened, each of the first `numTweets + 1` items is scored
      and appended as one row, in order, and the writer is stopped once. */
  method ScrapeTweets(fs: FileSystem, start: string, end: string, numTweets: int, terms: seq<string>,
                      target: Target, items: seq<Tweet>, analyser: string -> Classify.PolarityScores,
                      show: real -> string, now: int)
    returns (query: Query, sink: CSVWriter?, outcome: ScrapeOutcome)
    modifies fs
    ensures query == ComposeQuery(terms, start, end)
    ensures target.Psql? ==>
      sink == null && outcome == HandedToDatabase(target.config)
      && fs.files == old(fs.files) && fs.dirs == old(fs.dirs)
    ensures target.Csv? ==>
      && sink != null && fresh(sink) && sink.fs == fs
      && sink.sourceName == SinkPath(target.file, target.outDirectory, now)
      && fs.dirs == old(fs.dirs) + CreatedDirs(target.outDirectory)
    ensures target.Csv? && (terms != [] || ProcessedCount(|items|, numTweets) == 0) ==>
      && sink != null
      && outcome == Completed(ProcessedCount(|items|, numTweets))
      && !sink.isOpen && sink.stopCalls == 1
      && fs.files == old(fs.files)[sink.sourceName :=
           Existing(old(fs.files), sink.sourceName) + Header(target.file, RowFields)
           + ExpectedRows(items[..ProcessedCount(|items|, numTweets)], terms, analyser, show)]
    ensures target.Csv? && terms == [] && ProcessedCount(|items|, numTweets) > 0 ==>
      && sink != null
      && outcome == Aborted(Classify.DivisionByZero)
      && sink.isOpen && sink.stopCalls == 0
      && fs.files == old(fs.files)[sink.sourceName :=
           Existing(old(fs.files), sink.sourceName) + Header(target.file, RowFields)]
  {
    query := ComposeQuery(terms, start, end);
    if target.Psql? {
      sink := null;
      outcome := HandedToDatabase(target.config);
      return;
    }
    var w := new CSVWriter(fs, RowFields, target.file, target.outDirectory, now);
    sink := w;
    var count, failure := AppendTweets(w, items, numTweets, terms, analyser, show);
    if failure.Some? {
      outcome := Aborted(failure.value);
      return;
    }
    w.Stop();
    outcome := Completed(count);
  }

  /** The loop of `scrape_tweets`: for each item up to the first index above
      `numTweets`, compute the weight and the scores and append one row.
      An empty term list makes the first weight divide by zero, which ends
      the loop with nothing appended. */
  method AppendTweets(w: CSVWriter, items: seq<Tweet>, numTweets: int, terms: seq<string>,
                      analyser: string -> Classify.PolarityScores, show: real -> string)
    returns (count: nat, failure: Option<Classify.WeightError>)
    requires w.Valid() && w.isOpen
    modifies w.fs
    ensures w.Valid()
    ensures w.fs.dirs == old(w.fs.dirs)
    ensures failure.Some? <==> terms == [] && ProcessedCount(|items|, numTweets) > 0
    ensures failure.Some? ==> failure.value == Classify.DivisionByZero && w.fs.files == old(w.fs.files)
    ensures failure.None? ==>
      && count == ProcessedCount(|items|, numTweets)
      && w.fs.files == old(w.fs.files)[w.sourceName :=
           old(w.fs.files[w.sourceName]) + ExpectedRows(items[..count], terms, analyser, show)]
  {
    ghost var before := w.fs.files;
    ghost var base := before[w.sourceName];
    assert ExpectedRows(items[..0], terms, analyser, show) == [];
    assert base + [] == base;
    assert before == before[w.sourceName := base + ExpectedRows(items[..0], terms, analyser, show)];
    var i := 0;
    while i < |items|
      invariant 0 <= i <= ProcessedCount(|items|, numTweets)
      invariant terms == [] ==> i == 0
      invariant w.Valid() && w.isOpen
      invariant w.fs.dirs == old(w.fs.dirs)
      invariant w.fs.files == before[w.sourceName := base + ExpectedRows(items[..i], terms, analyser, show)]
      decreases |items| - i
    {
      if i > numTweets {
        break;
      }
      var weight := Classify.NaiveWeight(items[i].content, terms);
      if weight.Failure? {
        return 0, Some(weight.error);
      }
      var scores := Classify.Vader(analyser, items[i].content);
      var pos, neu, neg := scores[0], scores[1], scores[2];
      var row := MakeRow(items[i], weight.value, pos, neu, neg, show);
      assert row == RowOf(items[i], terms, analyser, show);
      ghost var rowsSoFar := ExpectedRows(items[..i], terms, analyser, show);
      ghost var prev := w.fs.files;
      ExpectedRowsSnoc(items, i, terms, analyser, show);
      assert base + ExpectedRows(items[..i + 1], terms, analyser, show) == (base + rowsSoFar) + [row];
      var ok := w.Append(row);
      assert w.fs.files == prev[w.sourceName := (base + rowsSoFar) + [row]];
      i := i + 1;
    }
    assert i == ProcessedCount(|items|, numTweets);
    assert w.fs.files == old(w.fs.files)[w.sourceName :=
           old(w.fs.files[w.sourceName]) + ExpectedRows(items[..i], terms, analyser, show)];
    assert !(terms == [] && ProcessedCount(|items|, numTweets) > 0);
    count, failure := i, None;
  }

  // ---------------------------------------------------------------------
  // `main`

  datatype RunOutcome = Rejected(error: RunError) | Ran(query: Query, outcome: ScrapeOutcome)

  /** `main`: fills in the defaults, validates, and scrapes. `now` is
      `datetime.now()` and `clock` is `int(time.time())`. Nothing is
      written when the arguments are refused; otherwise a CSV run appends
      one row for each of the first `limit` tweets and closes the file. */
  method Run(fs: FileSystem, cl: CommandLine, now: DateTime, clock: int, items: seq<Tweet>,
             analyser: string -> Classify.PolarityScores, show: real -> string)
    returns (result: RunOutcome, sink: CSVWriter?)
    requires ValidDateTime(now)
    modifies fs
    ensures var args := ArgumentDefaultsIntended(cl);
      PlanRun(args, now).Failure? ==>
        result == Rejected(PlanRun(args, now).error) && sink == null
        && fs.files == old(fs.files) && fs.dirs == old(fs.dirs)
    ensures var args := ArgumentDefaultsIntended(cl);
      PlanRun(args, now).Success? ==>
        result.Ran? && result.query == ComposeQuery(args.terms, StartText(args), EndText(args, now))
    ensures var args := ArgumentDefaultsIntended(cl);
      PlanRun(args, now).Success? && Truthy(args.databaseConfig) ==>
        result.Ran? && result.outcome == HandedToDatabase(args.databaseConfig.value)
        && fs.files == old(fs.files) && fs.dirs == old(fs.dirs)
    ensures var args := ArgumentDefaultsIntended(cl);
      var k := if |items| <= args.limit then |items| else args.limit;
      PlanRun(args, now).Success? && !Truthy(args.databaseConfig) ==>
        && result.Ran? && result.outcome == Completed(k)
        && sink != null && !sink.isOpen && sink.stopCalls == 1
        && sink.sourceName == SinkPath(args.file, args.output, clock)
        && fs.files == old(fs.files)[sink.sourceName :=
             Existing(old(fs.files), sink.sourceName) + Header(args.file, RowFields)
             + ExpectedRows(items[..k], args.terms, analyser, show)]
        && (args.file.None? && sink.sourceName !in old(fs.files) ==>
              |fs.files[sink.sourceName]| == k + 1 && fs.files[sink.sourceName][0] == RowFields)
  {
    var args := ArgumentDefaultsIntended(cl);
    var plan := PlanRun(args, now);
    if plan.Failure? {
      result, sink := Rejected(plan.error), null;
      return;
    }
    var p := plan.value;
    assert p.target == SelectTarget(args) && p.terms == args.terms != [];
    assert ProcessedCount(|items|, p.numTweets) == if |items| <= args.limit then |items| else args.limit;
    var query, outcome;
    query, sink, outcome := ScrapeTweets(fs, p.start, p.end, p.numTweets, p.terms, p.target,
                                         items, analyser, show, clock);
    result := Ran(query, outcome);
  }

  // ---------------------------------------------------------------------
  // The default start date

  /** As written, `--start` defaults to "now", which `parse_date` cannot
      read: every run without `--start` is refused. */
  lemma DefaultStartAsWrittenRefused(cl: CommandLine, now: DateTime)
    requires ValidDateTime(now)
    requires cl.start.None? && cl.terms != [] && cl.limit.GetOr(LimitDefault) >= 2
    ensures PlanRun(ArgumentDefaults(cl), now) == Failure(BadDate("now"))
  {
  }

  /** With `--start` left unset, a run without `--start` and `--end`
      collects from 2006-04-21 to today. */
  lemma DefaultStartIntendedAccepted(cl: CommandLine, now: DateTime)
    requires ValidDateTime(now) && !Before(now.date, Date(2006, 4, 21))
    requires cl.start.None? && cl.end.None? && cl.terms != [] && cl.limit.GetOr(LimitDefault) >= 2
    ensures var args := ArgumentDefaultsIntended(cl);
      PlanRun(args, now)
      == Success(Plan(TwitterLaunch, FormatDate(now.date), args.limit - 1, cl.terms, SelectTarget(args)))
  {
    var args := ArgumentDefaultsIntended(cl);
    DefaultStartIsLaunch(args, now);
    DefaultEndIsToday(args, now);
  }
}
