# bluebird: collect, score and write tweets, modelled in Dafny

bluebird collects tweets that match a list of search terms within a date
window, scores each tweet twice (a term weight and a sentiment triple) and
writes one row per tweet to a sink, either a CSV file or a PostgreSQL table.
This project models three parts of it and proves what each promises:

- **Term weighting** (`naive_weight`, `src/classify.py`): the text is split
  on whitespace, tokens and terms are upper-cased, each distinct term counts
  the tokens equal to it, and the weight is the sum of `count / (rank + 1)`
  over the distinct terms in first-occurrence order, divided by the number
  of distinct terms. It is modelled imperatively, as in the source: a
  dictionary (a `map` plus its key order) built in one loop, counted in
  another and summed in a third. The specification function `Weight` states
  the same value, and the lemmas about `Weight` state its properties.
  Weights are `real`s, not floats.
- **CSV sink** (`CSVWriter`, `src/writer.py`): a class over a modelled file
  system. The file system maps a path to the rows of fields stored there and
  keeps a set of existing directories. The constructor derives the file name
  (`bluebird_<seconds>.csv` when none is given), joins it onto the output
  directory, creates that directory, opens the file for appending, and
  writes the header only when it chose the name itself. `Append` adds one
  row and `Stop` closes the file.
- **Orchestrator** (`main` and `scrape_tweets`, `src/main.py`): `PlanRun`
  checks the arguments and fills in defaults in `main`'s order. It then
  picks the target. `ComposeQuery` builds the two query strings.
  `ScrapeTweets` opens the writer and appends one row for each of the first
  `num_tweets + 1` collected tweets, in order. It then stops the writer
  once. `Run` chains all of this and writes nothing when the arguments are
  refused.

The scraper's output is a finite sequence `items`. The sentiment analyser
is a function parameter. The current time is passed in twice: `now` is
`datetime.now()` and `clock` is `int(time.time())`. Rendering a number as
CSV text is a function parameter `show`.

### Reading of the source

The source cannot run as written. The model follows the evident intent at
each of these places:

- `src/classify.py:9` (`for t.upper() in terms`) is read as
  `{t.upper(): 0 for t in terms}`.
- `src/classify.py:16` is read as the sum of `term_counts[t] / (rank + 1)`
  over the keys in order, divided by `len(term_counts)`.
- `src/main.py:70` is read as `naive_weight(tweet.content, terms)`.
- `src/main.py:67` uses `MAX_TWEETS`, which is not in scope there; the
  model uses the `num_tweets` parameter.
- `src/main.py:114` is read as a call to `scrape_tweets`.
- `src/main.py:108-109` is read as `args.database_config`.
- The bare `raise` statements at `src/main.py:87`, `100` and `105` become
  `RunError` values.
- `src/writer.py:88` lacks a comma. That line belongs to `PSQLWriter`,
  which is not modelled.

Three behaviours of the code are easy to misread, and the model keeps them
as written:

- The header is written when the writer chose the file name, not when the
  file is new. The comment at `src/writer.py:47` ("A new file won't have
  any columns") equates the two. The help text at `src/main.py:32` says a
  named file "Will be created if doesn't already exist", and such a file
  gets no header. An auto-named file that already exists gets a second
  header.
- A limit of 1 is refused, because `limit - 1 < 1` (`src/main.py:82-85`).
- A failure while scoring leaves the file open. Nothing calls `stop` on
  that path (`src/main.py:66-77`).

## Model

| member | source | states |
|---|---|---|
| `Text.SplitYieldsWords` | src/classify.py:11 | every token of `split()` is non-empty and holds no whitespace |
| `Text.SplitKeepsEveryNonSpace` | src/classify.py:11 | gluing the tokens together gives the text with only its whitespace removed |
| `Text.SplitJoin` | src/main.py:50 | splitting `" ".join(words)` gives back the words, for words without whitespace |
| `Text.SplitSeparated` | src/classify.py:11 | words separated by any non-empty runs of whitespace, with optional leading and trailing runs, split back into exactly those words: the tokens are the maximal non-whitespace runs |
| `Text.SplitUpper` | src/classify.py:11-12 | splitting the upper-cased text gives the upper-cased tokens |
| `Classify.Dedup` | src/classify.py:9 | the dictionary's keys are exactly the inserted values, and there is one at least when one was inserted |
| `Classify.DedupInFirstOccurrenceOrder` | src/classify.py:9 | the tracked keys are distinct and ordered by the first occurrence of each in the terms |
| `Classify.Weight` | src/classify.py:15-16 | the weight fails (division by zero) exactly when the term list is empty |
| `Classify.NaiveWeight` | src/classify.py:5-16 | the three loops compute exactly the specified weight, including the failure on an empty term list |
| `Classify.TrackTerms` | src/classify.py:9 | the keys are the distinct upper-cased terms in first-occurrence order, and each starts at 0 |
| `Classify.CountTokens` | src/classify.py:11-13 | afterwards each tracked term maps to the number of tokens equal to it once upper-cased, and the keys are unchanged |
| `Classify.SumDecayed` | src/classify.py:15-16 | the total is the sum of each count divided by its term's rank plus one |
| `Classify.CaseVariantCollapses` | src/classify.py:9 | adding a case variant of a present term changes neither the tracked terms nor the weight |
| `Classify.WeightIgnoresCase` | src/classify.py:9-12 | upper-casing the text or the terms beforehand does not change the weight |
| `Classify.WeightZeroIffNoMatch` | src/classify.py:11-16 | for a non-empty term list the weight is non-negative, and it is 0 exactly when no token matches a term |
| `Classify.UnmatchedTokenKeepsWeight` | src/classify.py:11-13 | a further token that matches no term leaves the weight unchanged |
| `Classify.Vader` | src/classify.py:18-25 | three scores, in the order pos, neu, neg, taken from the analyser's result |
| `Numerals.IntToStringInjective` | src/writer.py:30-31 | different integers have different decimal numerals |
| `Dates.ParseFormatDate` | src/main.py:91-95 | parsing the date that `strftime` wrote for today gives today's date back |
| `Dates.FormatParseDate` | src/main.py:37-46 | a string that parses as a date is exactly that date's `YYYY-MM-DD` form |
| `Writer.AutoNameInjective` | src/writer.py:28-31 | two different start times give two different default file names |
| `Writer.SinkPathInDirectory` | src/writer.py:33-34 | with an output directory the path starts with the directory and ends with the name, with a `/` between when needed |
| `Writer.CSVWriter.constructor` | src/writer.py:23-49 | path from name, directory and time; directory exists afterwards; existing rows kept; header iff no name was given; open |
| `Writer.CSVWriter.Append` | src/writer.py:52-53 | an open writer adds exactly the given row after the file's rows and changes nothing else; a closed one writes nothing |
| `Writer.CSVWriter.Stop` | src/writer.py:55-56 | the file is closed, and the stop is counted once |
| `Pipeline.ArgumentDefaults` | src/main.py:12-14 | as written, a missing `--start` becomes "now" and a missing `--limit` becomes 5000 |
| `Pipeline.ArgumentDefaultsIntended` | src/main.py:89-90 | a missing `--start` stays missing, so that `main` can fill it in |
| `Pipeline.SelectTarget` | src/main.py:107-111 | a database configuration selects the database; otherwise the file and output directory are used |
| `Pipeline.PlanRun` | src/main.py:82-111 | an accepted run has terms, `num_tweets = limit - 1 >= 1`, both dates parse, start not after end, end not after today, the selected target, and the dates are `--start` and `--end` or their defaults |
| `Pipeline.LimitBelowTwoRejected` | src/main.py:82-87 | a limit below 2 is refused with `limit - 1`, and only then |
| `Pipeline.DateWindowChecked` | src/main.py:97-105 | once the dates parse, the run is refused for an end after today or a start after the end, and accepted otherwise |
| `Pipeline.DefaultEndIsToday` | src/main.py:91-92 | without an end date the end is today, and it is never refused as being in the future |
| `Pipeline.DefaultStartIsLaunch` | src/main.py:89-90 | without a start date the start is 2006-04-21 |
| `Pipeline.QueryCarriesTermsAndWindow` | src/main.py:49-51 | the search string splits back into the terms, and the filter contains `since:<start> until:<end>` |
| `Pipeline.MakeRow` | src/main.py:73-75 | a row has one field per column: the tweet's id, date, user, url and content, then the weight, pos, neu and neg, in the header's order |
| `Pipeline.ProcessedCount` | src/main.py:66-68 | the loop handles no more items than exist and no more than `num_tweets + 1`, and none for a negative `num_tweets` |
| `Pipeline.AppendTweets` | src/main.py:66-75 | one row per handled item, in order, with its weight and scores; an empty term list fails before any row is written |
| `Pipeline.ScrapeTweets` | src/main.py:48-77 | query composed; CSV file holds its old rows, the header if auto-named, then the rows; `stop` called exactly once |
| `Pipeline.Run` | src/main.py:79-119 | refused arguments change no file; otherwise the query carries the terms and the `--start`/`--end` window or its defaults, `min(items, limit)` rows are appended, and a fresh auto-named file holds the header plus those rows |
| `Pipeline.DefaultStartAsWrittenRefused` | src/main.py:89-95 | as written, every run without `--start` is refused because "now" is not a date |
| `Pipeline.DefaultStartIntendedAccepted` | src/main.py:89-92 | with `--start` left unset, a run without dates covers 2006-04-21 to today |

## Findings

| source | as written | input that shows it | evidently intended | confidence | as-written member | corrected member |
|---|---|---|---|---|---|---|
| src/main.py:12 | `--start` defaults to the string "now". `parse_date` at line 94 cannot read it, and the fallback at lines 89-90 never fires for it | any run without `--start`, e.g. `-t launch` | a missing `--start` falls back to 2006-04-21, the date Twitter was created | high; not executed | `Pipeline.DefaultStartAsWrittenRefused` | `Pipeline.DefaultStartIntendedAccepted` |

`Run` uses `ArgumentDefaultsIntended`, the corrected defaults.

## Left out

- `PSQLWriter` (src/writer.py:58-128) is not modelled. It only wraps a database connection, inserts and a commit. A database target makes `ScrapeTweets` return `HandedToDatabase` and change no file.
- `DataWriterInterface`: there is no separate interface type. Its two methods only raise `NotImplementedError`, and `CSVWriter` is the only sink modelled.
- The CSV module's quoting and escaping are not modelled. Rows are sequences of fields, not encoded text.
- Rendering a tweet's id, date and user as text is not modelled. Those fields arrive as text, and numbers are rendered by the parameter `show`.
- The VADER analyser's own algorithm is not modelled, nor its float scores. It is the function parameter `analyser`, which never fails.
- The scraper (`snscrape`) and its network iteration are not modelled. Its output is the finite sequence `items`.
- argparse itself is not modelled, apart from the `--start` and `--limit` defaults and its refusal of an empty term list (`MissingTerms`).
- `print` diagnostics, process exit, and the real clock and file I/O are not modelled.
- Text.Upper: upper-cases ASCII letters only. Python's `str.upper` also maps other letters, some to several characters.
- Dates.ParseDate: accepts only the zero-padded `YYYY-MM-DD` form. `strptime` also accepts one-digit months and days.
- Writer.CSVWriter.constructor: failures of `open` and `os.mkdir` are not modelled. These include a missing parent directory, a file where the directory should be, a path that names a directory, and missing permissions.
- Pipeline.AppendTweets: a failure of the analyser on one tweet is not modelled. Only the weight's division by zero ends the loop early.
- Writer.CSVWriter.Append: writing through a closed writer raises `ValueError` in Python. In the model it returns `false` and writes nothing. No path in `scrape_tweets` appends after `stop`.
