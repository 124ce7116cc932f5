# Welcome to Night Vale episode metadata: validator and splitter

This project models the two programs of the episode-metadata repository:

- `check_data.py` is the **validator**. It takes the decoded episode data file and checks the top level first, then each episode's fields, then each of its segments. It raises at the first problem it finds, with a `KeyError`, `TypeError` or `ValueError`, and prints "All OK!" when nothing is wrong.
- `split_episodes.py` is the **splitter**. For every episode it downloads the full MP3 into the raw directory, unless the file is already there and overwriting is off. It then calls `ffmpeg` once per segment with an argument list built from the segment's start time, the next segment's start time, ID3 tags and an output file name. Each success is logged, and so is the end of each episode.

## How the model is organised

- **`Optional`, `Text`, `Paths`** (`text.dfy`) hold the helpers:
  - an `Option` type;
  - decimal rendering of integers (`str(int)`);
  - zero padding (`format(..., '0>n')`);
  - `posixpath.basename` and `os.path.join`.
- **`Values`** (`values.dfy`) holds the decoded data, what the validator sees:
  - null, booleans, integers, floats, strings, lists and string-keyed mappings;
  - the Python built-ins the validator applies: `isinstance(..., Sequence)`, `isinstance(..., int)`, `isinstance(..., string_types)`, `len`, iteration and `float()`.
- **`CheckData`** (`check_data.dfy`) is the validator.
  - Each check is a function that returns `Pass` or `Fail(reason)`. Every reason maps to the Python exception kind the code raises.
  - Each condition is also stated on its own as a predicate (`SegmentViolates`, `EpisodeViolates`).
  - The lemmas prove that the checks accept exactly the data that violates no condition. When the checks reject, they report the earliest violated condition in the code's checking order.
- **`SegmentPlan`** (`segment_plan.dfy`) holds the pure part of `split_episode`:
  - the `zip_longest` pairing of each segment with its successor;
  - the start time and duration of each segment, in seconds;
  - the ID3 tags;
  - the episode-number regular expression `^(\d+)(.*)$`, with Python's meaning of `.` and `$`;
  - the output file name;
  - the ffmpeg argument list. It comes with a decoder and a round-trip proof.
- **`Episodes`** (`split_episodes.dfy`) holds the effects. A `World` records three things:
  - the set of files on disk;
  - a trace of observable events: a fetch of a URL into a file, an external call with its arguments and return code, and the three log messages;
  - the number of external calls made so far.

  Functions over `World` say what `download_file`, one loop turn of `split_episode`, `split_episode` and `split_all_episodes` do to a `World`. The class `Host` keeps these fields and runs the steps as methods. Each method is proved to produce exactly the state that its function describes.

  Lemmas then filter the trace by event kind and prove the following for the whole run:
  - ffmpeg is called once per segment of every episode, in list order, with that segment's planned arguments;
  - a "wrote segment" note follows exactly those calls that returned 0;
  - every episode ends with exactly one "done" note, in episode order;
  - without overwriting, no file is fetched twice and no existing file is fetched;
  - every episode whose file was missing, or every episode when overwriting is on, gets fetched.

### Values the model leaves open

Behaviour outside the program's own code is passed in as parameters. Nothing about these parameters is assumed:

- `render: real -> string` is `str()` of a float.
- `urlPath: string -> string` is `urlparse(url).path`.
- `parse: string -> Option<Float>` is `float()` of a string. `None` means `ValueError`.
- `status: nat -> int` is the return code of the n-th external call. It is a constant of `Host`, so `CallExternalProgram` returns `status(calls)`.

Times are `real`s, so the seconds arithmetic has no rounding.

## Model

| member | source | states |
|---|---|---|
| CheckData.CheckOverallDataType | check_data.py:38-46 | passes exactly when the data is a sequence that is not a string; otherwise fails with the "not a list" reason, a TypeError |
| CheckData.CheckSegmentReportsFirstViolation | check_data.py:49-82 | a segment passes iff it breaks none of the ten segment conditions (mapping, title present and a string, start present, a sequence, at least two long, minute and second castable to float and not negative); a failure names a broken condition and no broken condition comes earlier in the checking order |
| CheckData.CheckEpisodeFieldsReportsFirstViolation | check_data.py:85-120 | the field checks of an episode pass iff it breaks none of the ten episode conditions (mapping; number present, int or string; title and MP3 URL present and strings; segments present, a sequence, not empty); a failure names the earliest broken condition |
| CheckData.CheckEpisodeReportsFirstViolation | check_data.py:85-124 | an episode passes iff it breaks no episode condition and every segment passes; an episode-level failure is the earliest broken episode condition; otherwise the failure is that of the first failing segment, all earlier segments passing |
| CheckData.CheckAllReportsFirstFailure | check_data.py:127-138 | the run reaches "All OK!" iff the top level is a list and every episode passes; a non-list fails with the "not a list" reason; otherwise the reported failure is that of the first failing episode, all earlier ones passing |
| CheckData.FirstFailureIsFirst | check_data.py:122-123 | a `for` loop of raising checks passes iff every element passes, and otherwise raises the failure of the first failing element, with every earlier element passing |
| Values.ToFloat | check_data.py:70-82 | `float(v)` raises TypeError exactly for values that are not numbers, booleans or strings; a string converts to its parsed value when it parses and raises ValueError exactly when it does not; an integer converts to its exact value, a boolean to 1.0 or 0.0, a float to itself |
| Values.Elements | check_data.py:65-71 | a sequence yields as many elements as its length; a list yields exactly its items, a string its one-character strings |
| Text.NatToStringRoundTrip | split_episodes.py:174 | the decimal text of a natural number reads back as that number |
| Text.IntToStringDecimal | split_episodes.py:174 | `str(i)` is non-empty, starts with a digit iff `i >= 0`, and its digits (after a `-` for negatives) read back as `abs(i)` |
| Text.PadLeftShape | split_episodes.py:179-180 | `'0>n'` padding yields a string of length `max(n, len)` that ends with the original and has only zeros before it |
| Paths.BasenameIsLastComponent | split_episodes.py:88 | `basename(p)` has no `/`, is a suffix of `p`, and is preceded by a `/` whenever it is shorter than `p` |
| Paths.JoinShape | split_episodes.py:89 | `join(a, b)` is `b` when `b` is absolute; otherwise it starts with `a`, ends with `b`, inserts at most one character between them, and has a `/` right before `b` when `a` is non-empty |
| Paths.JoinBasename | split_episodes.py:88-89 | joining a directory with a name that has no `/` gives a path whose basename is that name |
| Episodes.LocalFileNameKeepsBasename | split_episodes.py:88-89 | the downloaded file is named after the last component of the URL's path |
| Episodes.DownloadTwice | split_episodes.py:91-99 | the first download fetches iff overwriting or the file is missing; afterwards the file exists; without overwriting a second call fetches nothing and changes nothing; with overwriting both calls fetch |
| Episodes.Host.constructor | split_episodes.py:220-225 | a fresh host has the given files on disk, an empty trace and no external calls made |
| Episodes.Host.CallExternalProgram | split_episodes.py:62-75 | returns the return code of this call, whether zero or not, records the call and its code in the trace, and counts it; files are unchanged |
| Episodes.Host.DownloadFile | split_episodes.py:78-99 | returns the local path `join(raw_dir, basename(urlparse(url).path))`; the flag and the new state are those of `Download`: an existing file without overwrite leaves everything unchanged and returns false, otherwise the URL is fetched into the file and true is returned |
| Episodes.Host.SplitSegment | split_episodes.py:127-190 | one loop turn calls ffmpeg with exactly the segment's planned argument list, and appends a "wrote" note only when the call returned 0 |
| Episodes.Host.SplitEpisode | split_episodes.py:102-190 | the new state is `Split`: one ffmpeg call per segment, in list order, with the planned arguments |
| Episodes.Host.SplitAllTurn | split_episodes.py:209-217 | one episode: download (with the "downloaded" note only when it fetched), split into the downloaded file's path, then the "done" note |
| Episodes.Host.SplitAllEpisodes | split_episodes.py:193-217 | the new state is `SplitAll` over the jobs of all episodes, in list order |
| Episodes.SplitUpToFrame | split_episodes.py:127-190 | the split loop leaves the files unchanged, appends the per-segment events to the trace, and counts one call per segment |
| Episodes.BlocksRuns | split_episodes.py:127-188 | the calls made by the first k turns are exactly the planned argument lists 0..k-1, prefixed with the ffmpeg path, in order, each with its own return code |
| Episodes.BlocksNotes | split_episodes.py:189-190 | the "wrote" notes of the first k turns are exactly those of the segments whose call returned 0, in order |
| Episodes.BlocksOther | split_episodes.py:127-190 | the split loop neither fetches nor logs downloads or finished episodes |
| Episodes.FetchFrame | split_episodes.py:210-213 | the download step adds the file to the disk and appends a fetch and a "downloaded" note exactly when it fetched |
| Episodes.EpisodeStepFrame | split_episodes.py:209-217 | one episode's turn is the download step, then the split, then the "done" note |
| Episodes.TurnEffect | split_episodes.py:209-217 | doing the download, the conditional note, the split and the "done" note one after the other gives exactly `AfterTurn` |
| Episodes.EpisodeFetches | split_episodes.py:210-213 | an episode's turn fetches its URL into its path, and notes the download, exactly once when it fetches, and otherwise not at all |
| Episodes.EpisodeRuns | split_episodes.py:215-216 | an episode's turn makes exactly the planned calls for its segments |
| Episodes.EpisodeNotes | split_episodes.py:189-190 | an episode's turn logs exactly the segments whose call returned 0 |
| Episodes.EpisodeDone | split_episodes.py:217 | an episode's turn logs "done" exactly once, for that episode |
| Episodes.EpisodeEventsEnds | split_episodes.py:209-217 | a turn starts with the fetch when it fetches, and always ends with the "done" note |
| Episodes.SplitAllNext | split_episodes.py:209 | the state after k+1 episodes is one more turn applied to the state after k |
| Episodes.RunDone | split_episodes.py:217 | after k episodes, the "done" notes are exactly one per episode, in order |
| Episodes.RunRuns | split_episodes.py:209-216 | after k episodes, the external calls are exactly every episode's planned calls, episode after episode |
| Episodes.RunsCount | split_episodes.py:127-188 | the number of ffmpeg calls after k episodes is the total number of their segments |
| Episodes.RunNotes | split_episodes.py:189-190 | after k episodes, the "wrote" notes are exactly the successful segments of each episode, in order |
| Episodes.RunFetches | split_episodes.py:209-211 | after k episodes, the fetches are exactly the per-episode fetches, in order |
| Episodes.FetchesTargets | split_episodes.py:91-92 | every fetch goes to the path of one of the episodes, and without overwriting never to a file that was on disk at the start |
| Episodes.FetchesDistinct | split_episodes.py:91-92 | without overwriting no path is fetched twice, even when several episodes share a file name |
| Episodes.FetchesCover | split_episodes.py:91-97 | every episode whose file was missing (every episode, when overwriting) has its path fetched |
| Episodes.BuildArguments | split_episodes.py:127-185 | the argument list built step by step equals the segment's planned argument list |
| Episodes.PlanLayout | split_episodes.py:134-185 | the flag, window, input, tags, `-write_xing 0` and output path, appended in the code's order, form the planned argument list of segment i |
| SegmentPlan.SuccessorPairs | split_episodes.py:124 | `zip_longest(segments, segments[1:])` pairs each segment with the next one, and the last one with nothing |
| SegmentPlan.WindowAt | split_episodes.py:137-149 | segment i starts at `minutes*60+seconds` of its own start; it lasts until the next segment's start, or has no `-t` when it is the last; its track number is i+1 of the segment count |
| SegmentPlan.PositiveDurationsIffIncreasing | split_episodes.py:145-149 | every `-t` duration is positive iff the start times strictly increase |
| SegmentPlan.DurationsSpanFirstToLastStart | split_episodes.py:145-149 | the durations add up to the distance from the first segment's start to the last one's |
| SegmentPlan.TwoSegmentExample | split_episodes.py:137-149 | starts `[0,0]` and `[5,30]` give windows 0 s for 330 s, then 330 s to the end |
| SegmentPlan.MatchNumberGroups | split_episodes.py:174-177 | a match of `^(\d+)(.*)$` splits the text into a non-empty digit run, which is not followed by a digit, and a suffix without newlines; the text is their concatenation, possibly plus one final newline |
| SegmentPlan.MatchNumberFails | split_episodes.py:174-177 | the pattern fails iff the text does not start with a digit, or a newline occurs after the digit run anywhere but at the very end |
| SegmentPlan.NumberedEpisodePart | split_episodes.py:174-181 | an integer episode number gives its decimal digits zero-padded to width 3, which read back as the number |
| SegmentPlan.PadLeftKeepsValue | split_episodes.py:179 | zero-padding digits keeps them digits and keeps their value |
| SegmentPlan.SegmentNumberDigits | split_episodes.py:179-180 | the segment number is written with at least two digits and reads back as the number |
| SegmentPlan.UnnumberedEpisodePart | split_episodes.py:176-179 | an episode number that does not start with a digit gives `000` and no suffix |
| SegmentPlan.FlagEpisodePart | split_episodes.py:174-185 | a boolean episode number, written `True` or `False`, does not match the number pattern, so its number part is `000` and the file name starts with `000-` |
| SegmentPlan.LetteredNumberPart | split_episodes.py:174-179 | a lettered number such as `5b` keeps its suffix after the padded digits: `005b` |
| SegmentPlan.LetteredFileNameExample | split_episodes.py:178-185 | episode `5b` "A", segment 1 "B" is saved as `005b-A-01-B.mp3` |
| SegmentPlan.ArgumentsLayout | split_episodes.py:134-185 | the argument list is the flag, `-ss` start, optional `-t` duration, `-i` input, four `-metadata` tags, `-write_xing 0`, and the output path, in that order |
| SegmentPlan.ArgumentsRoundTrip | split_episodes.py:134-185 | decoding an argument list gives back the invocation it was built from |
| SegmentPlan.ParsedArgumentsAreExact | split_episodes.py:134-185 | any list the decoder accepts is exactly the argument list of the invocation it returns |
| SegmentPlan.SegmentArgumentsLayout | split_episodes.py:127-185 | segment i's arguments: `-y` or `-n`, its start in seconds, `-t` with the gap to the next start unless it is last, the episode file, the title `"N - Episode (Segment)"`, the fixed artist, the album, the track `i+1/count`, `-write_xing 0`, and the output path in the output directory |
| SegmentPlan.PairInvocation | split_episodes.py:127-185 | built from its `zip_longest` pair, segment i's invocation takes its start from the current segment and its duration from the next one |
| SegmentPlan.PlanEntry | split_episodes.py:127-185 | the planned arguments of segment i are the argument list of the invocation built from its pair |

## Left out

- Logging goes into the trace only as the three splitter notes: downloaded, wrote segment, done. The validator's "OK" messages, the handler setup and the message text are not modelled.
- Argument parsing (`argparse`), YAML decoding and opening the data file are not modelled. The validator starts from a decoded `Value`. The splitter starts from typed `Episode`s: an episode number that is an integer, a string or a boolean, and segments whose `start` values are finite numbers. Validated data can fall outside that shape in two ways, listed next.
- The splitter's own crashes on data the validator would reject are not modelled. These are a missing key, a non-numeric start and a non-string title.
- Episodes.Host.SplitEpisode requires every segment's start to hold at least two values. On a shorter start the source stops with an `IndexError` partway through; the model does not include that crash.
- Episodes.Host.SplitAllEpisodes requires the same of every episode, for the same reason.
- Network and disk I/O become a `Fetched` event plus the file being added to the set of files. The following are not modelled:
  - the bytes copied;
  - failures of `urlopen`, `open` or the copy;
  - the directories themselves.
- Episodes.Host.CallExternalProgram models only the return code, which comes from the `status` oracle. The captured output is discarded by every caller and is not modelled. An exception from a missing executable is not modelled either.
- Episodes.Host.DownloadFile takes `urlparse(url).path` as the parameter `urlPath`. URL parsing itself is not part of this model.
- `str()` of a float is the parameter `render`, so the exact digits Python prints are not modelled. Start times are exact `real`s, so float rounding of `minutes * 60 + seconds` and of the differences is not modelled.
- Episodes.Host.SplitEpisode: a `start` whose third or later element does not convert to a float, such as `[0, 0, "x"]`, passes validation, which reads only the first two elements. The splitter converts the whole list and raises `ValueError` partway through the run. `Segment.start` holds only numbers, so that crash is not modelled.
- Episodes.Host.SplitEpisode: a start value that is NaN or an infinity passes validation (NaN is not negative), and the splitter then writes `nan` or `inf` after `-ss` or `-t`. `Segment.start` holds only finite `real`s, so these arguments are not modelled.
- Values.ToFloat: an integer too large for a float raises `OverflowError` in Python. The model instead converts every integer exactly.
- Values.ToFloat: string parsing is the parameter `parse`. Python's float-literal grammar (whitespace, `inf`, `nan`, underscores) is therefore not fixed.
- CheckData.CheckEpisodeFieldsReportsFirstViolation: under Python 2, an integer beyond machine width decodes to `long`, and `isinstance(n, int)` rejects it. The model treats every integer as `int`, as Python 3 does.
- Mapping keys are strings. Non-string YAML keys, and the `TypeError` that `format(**segment)` raises on them, are not modelled.
- The validator's error messages are not modelled, only the exception kinds and the condition that failed. The code's message for a non-sequence `segments` reads "Episode MP3 URL must be a list"; the model names the condition `SegmentsNotSequence`.
- The code never checks that a segment title is non-empty, so the model does not either. The model also follows the code on three other points:
  - the validator stops at the first invalid episode;
  - a boolean is accepted as an episode number, since `bool` is a subclass of `int`;
  - a string passes the "sequence" tests for `segments` and `start`.
- The splitter does not check that start times increase. Instead, `SegmentPlan.PositiveDurationsIffIncreasing` states when the `-t` durations are positive.
- The regular expression is matched with ASCII digits, as a Python 2 `str` pattern does. Unicode digits matched by Python 3's `\d` are not modelled.
