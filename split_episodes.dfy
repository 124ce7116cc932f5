/**
 * Running the split: downloading each episode's MP3 unless it is already on
 * disk, then one ffmpeg call per segment, in list order, whatever the calls
 * return. `World` is the observable state and the functions over it say what
 * each step does; the `Host` class performs the steps and is proved to match.
 */
module Episodes {
  import opened Optional
  import opened SegmentPlan
  import Paths

  /** What the run does that can be observed, in order. */
  datatype Event =
    | Fetched(url: string, path: string)   // `urlopen(url)` copied into the file `path`
    | Ran(argv: seq<string>, code: int)    // an external program call and its return code
    | DownloadedNote(title: string)        // debug log: the episode was downloaded
    | WroteNote(title: string)             // debug log: the segment was written
    | DoneNote(title: string)              // info log: the episode is done

  /** The kind of an event, which `Select` filters on. */
  datatype EventKind = FetchKind | RunKind | DownloadedKind | WroteKind | DoneKind

  function EventKindOf(e: Event): EventKind {
    match e
    case Fetched(_, _) => FetchKind
    case Ran(_, _) => RunKind
    case DownloadedNote(_) => DownloadedKind
    case WroteNote(_) => WroteKind
    case DoneNote(_) => DoneKind
  }

  /** The files on disk, the events so far, and how many external calls have been made. */
  datatype World = World(files: set<string>, trace: seq<Event>, calls: nat)

  /** `urlparse(url).path`; the model does not fix how URLs are parsed. */
  type UrlPath = string -> string

  /** The return code of the n-th external program call (counting from 0). */
  type Status = nat -> int

  /** The events of `t` of the given kind, in order. */
  function Select(t: seq<Event>, kind: EventKind): seq<Event> {
    SelectUpTo(t, |t|, kind)
  }

  /** `[e]` when `e` is of the given kind, nothing otherwise. */
  function Keep(e: Event, kind: EventKind): seq<Event> {
    if EventKindOf(e) == kind then [e] else []
  }

  /** The events of the given kind among the first `n` of `t`. */
  function SelectUpTo(t: seq<Event>, n: nat, kind: EventKind): seq<Event>
    requires n <= |t|
  {
    if n == 0 then [] else SelectUpTo(t, n - 1, kind) + Keep(t[n - 1], kind)
  }

  lemma {:induction false} SelectUpToLeft(a: seq<Event>, b: seq<Event>, n: nat, kind: EventKind)
    requires n <= |a|
    ensures SelectUpTo(a + b, n, kind) == SelectUpTo(a, n, kind)
  {
    if n > 0 {
      SelectUpToLeft(a, b, n - 1, kind);
      assert (a + b)[n - 1] == a[n - 1];
    }
  }

  lemma {:induction false} SelectUpToRight(a: seq<Event>, b: seq<Event>, m: nat, kind: EventKind)
    requires m <= |b|
    ensures SelectUpTo(a + b, |a| + m, kind) == SelectUpTo(a, |a|, kind) + SelectUpTo(b, m, kind)
  {
    if m == 0 {
      SelectUpToLeft(a, b, |a|, kind);
    } else {
      SelectUpToRight(a, b, m - 1, kind);
      assert (a + b)[|a| + m - 1] == b[m - 1];
      AppendAssoc(SelectUpTo(a, |a|, kind), SelectUpTo(b, m - 1, kind), Keep(b[m - 1], kind));
    }
  }

  /** Selecting from a trace made of two pieces selects from each piece in turn. */
  lemma {:induction false} SelectAppend(a: seq<Event>, b: seq<Event>, kind: EventKind)
    ensures Select(a + b, kind) == Select(a, kind) + Select(b, kind)
  {
    SelectUpToRight(a, b, |b|, kind);
  }

  /** Two pieces with no event of a kind put together have none either. */
  lemma {:induction false} SelectAppendEmpty(a: seq<Event>, b: seq<Event>, kind: EventKind)
    requires Select(a, kind) == [] && Select(b, kind) == []
    ensures Select(a + b, kind) == []
  {
    SelectAppend(a, b, kind);
    assert Select(a, kind) + Select(b, kind) == [];
  }

  /** Selecting from three pieces selects from each piece in turn. */
  lemma {:induction false} SelectThree(a: seq<Event>, b: seq<Event>, c: seq<Event>, kind: EventKind)
    ensures Select(a + b + c, kind) == Select(a, kind) + Select(b, kind) + Select(c, kind)
  {
    SelectAppend(a, b, kind);
    SelectAppend(a + b, c, kind);
  }

  /** Only the first of three pieces holds events of the kind. */
  lemma {:induction false} SelectFirstOnly(a: seq<Event>, b: seq<Event>, c: seq<Event>, kind: EventKind)
    requires Select(b, kind) == [] && Select(c, kind) == []
    ensures Select(a + b + c, kind) == Select(a, kind)
  {
    SelectThree(a, b, c, kind);
    assert Select(a, kind) + [] + [] == Select(a, kind);
  }

  /** Only the middle one of three pieces holds events of the kind. */
  lemma {:induction false} SelectMiddleOnly(a: seq<Event>, b: seq<Event>, c: seq<Event>, kind: EventKind)
    requires Select(a, kind) == [] && Select(c, kind) == []
    ensures Select(a + b + c, kind) == Select(b, kind)
  {
    SelectThree(a, b, c, kind);
    assert [] + Select(b, kind) + [] == Select(b, kind);
  }

  /** Only the last of three pieces holds events of the kind. */
  lemma {:induction false} SelectLastOnly(a: seq<Event>, b: seq<Event>, c: seq<Event>, kind: EventKind)
    requires Select(a, kind) == [] && Select(b, kind) == []
    ensures Select(a + b + c, kind) == Select(c, kind)
  {
    SelectThree(a, b, c, kind);
    assert [] + [] + Select(c, kind) == Select(c, kind);
  }

  /** The first `n` pieces of trace, one after the other. */
  function Chain(parts: seq<seq<Event>>, n: nat): seq<Event>
    requires n <= |parts|
  {
    if n == 0 then [] else Chain(parts, n - 1) + parts[n - 1]
  }

  /** Selecting from pieces put one after the other selects from each piece in turn. */
  lemma {:induction false} ChainSelect(parts: seq<seq<Event>>, sels: seq<seq<Event>>, n: nat, kind: EventKind)
    requires n <= |parts| && n <= |sels|
    requires forall j :: 0 <= j < n ==> Select(parts[j], kind) == sels[j]
    ensures Select(Chain(parts, n), kind) == Chain(sels, n)
  {
    if n > 0 {
      ChainSelect(parts, sels, n - 1, kind);
      SelectAppend(Chain(parts, n - 1), parts[n - 1], kind);
    }
  }

  /**
   * Regrouping a concatenation. Dafny knows this fact; it is stated as a lemma
   * only so that callers can ask for the one regrouping they need, which keeps
   * their verification cost down.
   */
  lemma {:induction false} AppendAssoc(a: seq<Event>, b: seq<Event>, c: seq<Event>)
    ensures (a + b) + c == a + (b + c)
  {
  }

  // ---------------------------------------------------------------------
  // download_file
  // ---------------------------------------------------------------------

  /** `os.path.join(raw_dir, posixpath.basename(urlparse(url).path))`. */
  function LocalFileName(url: string, rawDir: string, urlPath: UrlPath): string {
    Paths.Join(rawDir, Paths.Basename(urlPath(url)))
  }

  /** The local file keeps the last component of the URL's path as its name. */
  lemma {:induction false} LocalFileNameKeepsBasename(url: string, rawDir: string, urlPath: UrlPath)
    ensures Paths.Basename(LocalFileName(url, rawDir, urlPath)) == Paths.Basename(urlPath(url))
  {
    Paths.BasenameIsLastComponent(urlPath(url));
    Paths.JoinBasename(rawDir, Paths.Basename(urlPath(url)));
  }

  /**
   * `download_file` once the local path is known: an existing file is left
   * alone unless `overwrite` is set; otherwise the URL is fetched into it.
   * Returns whether it was fetched, and the new state.
   */
  function Download(w: World, url: string, path: string, overwrite: bool): (bool, World) {
    if path in w.files && !overwrite then (false, w)
    else (true, World(w.files + {path}, w.trace + [Fetched(url, path)], w.calls))
  }

  /**
   * Downloading the same URL twice without `overwrite` fetches at most once:
   * the first call fetches exactly when the file is missing, and the second
   * finds the file and changes nothing. With `overwrite` both calls fetch.
   * Either way the file is on disk afterwards.
   */
  lemma {:induction false} DownloadTwice(w: World, url: string, path: string, overwrite: bool)
    ensures var (f1, w1) := Download(w, url, path, overwrite);
      var (f2, w2) := Download(w1, url, path, overwrite);
      path in w1.files && path in w2.files
      && (f1 <==> overwrite || path !in w.files)
      && (!overwrite ==> !f2 && w2 == w1)
      && (overwrite ==> f1 && f2 && Select(w2.trace, FetchKind) == Select(w.trace, FetchKind) + [Fetched(url, path), Fetched(url, path)])
  {
    var (f1, w1) := Download(w, url, path, overwrite);
    var (f2, w2) := Download(w1, url, path, overwrite);
    var fetch := Fetched(url, path);
    if overwrite {
      assert w2.trace == w1.trace + [fetch] && w1.trace == w.trace + [fetch];
      SelectAppend(w.trace, [fetch], FetchKind);
      SelectAppend(w1.trace, [fetch], FetchKind);
      SelectSingle(fetch, FetchKind);
      assert Select(w2.trace, FetchKind) == Select(w.trace, FetchKind) + [fetch] + [fetch];
    } else {
      assert w2 == w1;
    }
  }

  // ---------------------------------------------------------------------
  // split_episode
  // ---------------------------------------------------------------------

  /** The events of one turn of `split_episode`'s loop, given the call's return code. */
  function StepEvents(segments: seq<Segment>, plan: seq<seq<string>>, i: nat, ffmpeg: string, code: int): seq<Event>
    requires |plan| == |segments| && i < |segments|
  {
    [Ran([ffmpeg] + plan[i], code)] + (if code == 0 then [WroteNote(segments[i].title)] else [])
  }

  /** The trace after a turn, appended one event at a time. */
  lemma {:induction false} StepTrace(t: seq<Event>, segments: seq<Segment>, plan: seq<seq<string>>, i: nat, ffmpeg: string, code: int)
    requires |plan| == |segments| && i < |segments|
    ensures code == 0 ==> t + [Ran([ffmpeg] + plan[i], code)] + [WroteNote(segments[i].title)]
                          == t + StepEvents(segments, plan, i, ffmpeg, code)
    ensures code != 0 ==> t + [Ran([ffmpeg] + plan[i], code)] == t + StepEvents(segments, plan, i, ffmpeg, code)
  {
    if code != 0 {
      assert [Ran([ffmpeg] + plan[i], code)] + [] == [Ran([ffmpeg] + plan[i], code)];
    }
  }

  /**
   * One turn of `split_episode`'s loop: ffmpeg is called with the segment's
   * argument list `plan[i]`, and the segment is logged as written only if the
   * call returned 0.
   */
  function SegmentStep(w: World, segments: seq<Segment>, plan: seq<seq<string>>, i: nat, ffmpeg: string, status: Status): World
    requires |plan| == |segments| && i < |segments|
  {
    World(w.files, w.trace + StepEvents(segments, plan, i, ffmpeg, status(w.calls)), w.calls + 1)
  }

  /** The first `k` turns of the loop. */
  function SplitUpTo(w: World, segments: seq<Segment>, plan: seq<seq<string>>, k: nat, ffmpeg: string, status: Status): World
    requires |plan| == |segments| && k <= |segments|
  {
    if k == 0 then w
    else SegmentStep(SplitUpTo(w, segments, plan, k - 1, ffmpeg, status), segments, plan, k - 1, ffmpeg, status)
  }

  /** `split_episode`: every turn of the loop, each with its segment's argument list from `Plan`. */
  function Split(w: World, episode: Episode, episodeFile: string, outputDir: string,
                 ffmpeg: string, overwrite: bool, render: Render, status: Status): World
    requires HasStartPairs(episode.segments)
  {
    SplitUpTo(w, episode.segments, Plan(episode, episodeFile, outputDir, overwrite, render),
              |episode.segments|, ffmpeg, status)
  }

  /** The events of the first `k` turns when the n-th of their calls returns `status(base + n)`. */
  function Blocks(segments: seq<Segment>, plan: seq<seq<string>>, k: nat, ffmpeg: string, status: Status, base: nat): seq<Event>
    requires |plan| == |segments| && k <= |segments|
  {
    if k == 0 then []
    else Blocks(segments, plan, k - 1, ffmpeg, status, base) + StepEvents(segments, plan, k - 1, ffmpeg, status(base + k - 1))
  }

  lemma {:induction false} BlocksSnoc(segments: seq<Segment>, plan: seq<seq<string>>, k: nat, ffmpeg: string, status: Status, base: nat)
    requires |plan| == |segments| && 0 < k <= |segments|
    ensures Blocks(segments, plan, k, ffmpeg, status, base)
         == Blocks(segments, plan, k - 1, ffmpeg, status, base) + StepEvents(segments, plan, k - 1, ffmpeg, status(base + k - 1))
  {
  }

  /** The loop appends its events to the trace, makes `k` calls and touches no file. */
  lemma {:induction false} SplitUpToFrame(w: World, segments: seq<Segment>, plan: seq<seq<string>>, k: nat,
                                          ffmpeg: string, status: Status)
    requires |plan| == |segments| && k <= |segments|
    ensures SplitUpTo(w, segments, plan, k, ffmpeg, status)
         == World(w.files, w.trace + Blocks(segments, plan, k, ffmpeg, status, w.calls), w.calls + k)
  {
    if k > 0 {
      SplitUpToFrame(w, segments, plan, k - 1, ffmpeg, status);
      BlocksSnoc(segments, plan, k, ffmpeg, status, w.calls);
      AppendAssoc(w.trace, Blocks(segments, plan, k - 1, ffmpeg, status, w.calls),
                  StepEvents(segments, plan, k - 1, ffmpeg, status(w.calls + k - 1)));
    }
  }

  /** The external calls the first `k` argument lists make, in order, the n-th with the `base + n`-th return code. */
  function PlannedRuns(plan: seq<seq<string>>, k: nat, ffmpeg: string, status: Status, base: nat): (r: seq<Event>)
    requires k <= |plan|
    ensures |r| == k
  {
    seq(k, i requires 0 <= i < k => Ran([ffmpeg] + plan[i], status(base + i)))
  }

  lemma {:induction false} PlannedRunsSnoc(plan: seq<seq<string>>, k: nat, ffmpeg: string, status: Status, base: nat)
    requires 0 < k <= |plan|
    ensures PlannedRuns(plan, k, ffmpeg, status, base)
         == PlannedRuns(plan, k - 1, ffmpeg, status, base) + [Ran([ffmpeg] + plan[k - 1], status(base + k - 1))]
  {
  }

  /** The notes for the segments among `0..k-1` whose call, the `base + i`-th, returns 0. */
  function SuccessNotes(segments: seq<Segment>, k: nat, status: Status, base: nat): (r: seq<Event>)
    requires k <= |segments|
  {
    if k == 0 then []
    else SuccessNotes(segments, k - 1, status, base)
         + (if status(base + k - 1) == 0 then [WroteNote(segments[k - 1].title)] else [])
  }

  /** A turn makes one call, and notes success exactly when the code is 0; it has no other event. */
  lemma {:induction false} StepEventsSelect(segments: seq<Segment>, plan: seq<seq<string>>, i: nat, ffmpeg: string, code: int, kind: EventKind)
    requires |plan| == |segments| && i < |segments|
    ensures Select(StepEvents(segments, plan, i, ffmpeg, code), kind)
         == if kind == RunKind then [Ran([ffmpeg] + plan[i], code)]
            else if kind == WroteKind && code == 0 then [WroteNote(segments[i].title)]
            else []
  {
    var run := Ran([ffmpeg] + plan[i], code);
    var notes := if code == 0 then [WroteNote(segments[i].title)] else [];
    SelectAppend([run], notes, kind);
    SelectSingle(run, kind);
    if code == 0 {
      SelectSingle(WroteNote(segments[i].title), kind);
    }
  }

  lemma {:induction false} SelectSingle(e: Event, kind: EventKind)
    ensures Select([e], kind) == if EventKindOf(e) == kind then [e] else []
  {
    assert SelectUpTo([e], 0, kind) == [];
  }

  /** One more turn adds its call to the calls made so far. */
  lemma {:induction false} BlocksRunsStep(segments: seq<Segment>, plan: seq<seq<string>>, k: nat, ffmpeg: string, status: Status, base: nat)
    requires |plan| == |segments| && 0 < k <= |segments|
    ensures Select(Blocks(segments, plan, k, ffmpeg, status, base), RunKind)
         == Select(Blocks(segments, plan, k - 1, ffmpeg, status, base), RunKind) + [Ran([ffmpeg] + plan[k - 1], status(base + k - 1))]
  {
    var step := StepEvents(segments, plan, k - 1, ffmpeg, status(base + k - 1));
    var before := Blocks(segments, plan, k - 1, ffmpeg, status, base);
    BlocksSnoc(segments, plan, k, ffmpeg, status, base);
    StepEventsSelect(segments, plan, k - 1, ffmpeg, status(base + k - 1), RunKind);
    SelectAppend(before, step, RunKind);
  }

  /**
   * `split_episode` calls ffmpeg exactly once per segment, in list order, with
   * that segment's argument list and whatever the previous calls returned.
   */
  lemma {:induction false} BlocksRuns(segments: seq<Segment>, plan: seq<seq<string>>, k: nat, ffmpeg: string, status: Status, base: nat)
    requires |plan| == |segments| && k <= |segments|
    ensures Select(Blocks(segments, plan, k, ffmpeg, status, base), RunKind) == PlannedRuns(plan, k, ffmpeg, status, base)
  {
    if k > 0 {
      BlocksRuns(segments, plan, k - 1, ffmpeg, status, base);
      BlocksRunsStep(segments, plan, k, ffmpeg, status, base);
      PlannedRunsSnoc(plan, k, ffmpeg, status, base);
    }
  }

  /** One more turn adds its note when its call returned 0. */
  lemma {:induction false} BlocksNotesStep(segments: seq<Segment>, plan: seq<seq<string>>, k: nat, ffmpeg: string, status: Status, base: nat)
    requires |plan| == |segments| && 0 < k <= |segments|
    ensures Select(Blocks(segments, plan, k, ffmpeg, status, base), WroteKind)
         == Select(Blocks(segments, plan, k - 1, ffmpeg, status, base), WroteKind)
            + (if status(base + k - 1) == 0 then [WroteNote(segments[k - 1].title)] else [])
  {
    var step := StepEvents(segments, plan, k - 1, ffmpeg, status(base + k - 1));
    var before := Blocks(segments, plan, k - 1, ffmpeg, status, base);
    BlocksSnoc(segments, plan, k, ffmpeg, status, base);
    StepEventsSelect(segments, plan, k - 1, ffmpeg, status(base + k - 1), WroteKind);
    SelectAppend(before, step, WroteKind);
  }

  /** A segment is logged as written exactly when its call returned 0, in segment order. */
  lemma {:induction false} BlocksNotes(segments: seq<Segment>, plan: seq<seq<string>>, k: nat, ffmpeg: string, status: Status, base: nat)
    requires |plan| == |segments| && k <= |segments|
    ensures Select(Blocks(segments, plan, k, ffmpeg, status, base), WroteKind) == SuccessNotes(segments, k, status, base)
  {
    if k > 0 {
      BlocksNotes(segments, plan, k - 1, ffmpeg, status, base);
      BlocksNotesStep(segments, plan, k, ffmpeg, status, base);
    }
  }

  /** One more turn adds no event other than a call and a note. */
  lemma {:induction false} BlocksOtherStep(segments: seq<Segment>, plan: seq<seq<string>>, k: nat, ffmpeg: string, status: Status, base: nat, kind: EventKind)
    requires |plan| == |segments| && 0 < k <= |segments|
    requires kind != RunKind && kind != WroteKind
    ensures Select(Blocks(segments, plan, k, ffmpeg, status, base), kind)
         == Select(Blocks(segments, plan, k - 1, ffmpeg, status, base), kind)
  {
    var step := StepEvents(segments, plan, k - 1, ffmpeg, status(base + k - 1));
    var before := Blocks(segments, plan, k - 1, ffmpeg, status, base);
    BlocksSnoc(segments, plan, k, ffmpeg, status, base);
    StepEventsSelect(segments, plan, k - 1, ffmpeg, status(base + k - 1), kind);
    SelectAppend(before, step, kind);
    assert Select(before, kind) + [] == Select(before, kind);
  }

  /** Splitting only calls ffmpeg and notes written segments: it downloads nothing and finishes no episode. */
  lemma {:induction false} BlocksOther(segments: seq<Segment>, plan: seq<seq<string>>, k: nat, ffmpeg: string, status: Status, base: nat, kind: EventKind)
    requires |plan| == |segments| && k <= |segments|
    requires kind != RunKind && kind != WroteKind
    ensures Select(Blocks(segments, plan, k, ffmpeg, status, base), kind) == []
  {
    if k == 0 {
      assert SelectUpTo([], 0, kind) == [];
    } else {
      BlocksOther(segments, plan, k - 1, ffmpeg, status, base, kind);
      BlocksOtherStep(segments, plan, k, ffmpeg, status, base, kind);
    }
  }

  // ---------------------------------------------------------------------
  // split_all_episodes
  // ---------------------------------------------------------------------

  /** An episode, the local file its MP3 goes to, and the argument list of each of its segments. */
  datatype Job = Job(episode: Episode, path: string, plan: seq<seq<string>>)

  predicate Fits(job: Job) {
    |job.plan| == |job.episode.segments|
  }

  predicate AllFit(jobs: seq<Job>) {
    forall j :: 0 <= j < |jobs| ==> Fits(jobs[j])
  }

  predicate AllHaveStartPairs(episodes: seq<Episode>) {
    forall i :: 0 <= i < |episodes| ==> HasStartPairs(episodes[i].segments)
  }

  /**
   * The jobs of the whole run: each episode's local file, and its segments'
   * argument lists with that file as input. Both depend only on the episode,
   * so they are known before anything runs.
   */
  function RunJobs(episodes: seq<Episode>, rawDir: string, outputDir: string, overwrite: bool,
                   render: Render, urlPath: UrlPath): (jobs: seq<Job>)
    requires AllHaveStartPairs(episodes)
    ensures |jobs| == |episodes| && AllFit(jobs)
  {
    seq(|episodes|, j requires 0 <= j < |episodes| =>
      var path := LocalFileName(episodes[j].mp3Url, rawDir, urlPath);
      Job(episodes[j], path, Plan(episodes[j], path, outputDir, overwrite, render)))
  }

  /** The download at the start of an episode's turn, and its debug note when the file was fetched. */
  function Fetch(w: World, job: Job, overwrite: bool): World {
    var d := Download(w, job.episode.mp3Url, job.path, overwrite);
    if d.0 then World(d.1.files, d.1.trace + [DownloadedNote(job.episode.title)], d.1.calls) else d.1
  }

  /**
   * One turn of `split_all_episodes`' loop: download, note the download if
   * there was one, split the episode, then log it as done.
   */
  function EpisodeStep(w: World, job: Job, ffmpeg: string, overwrite: bool, status: Status): World
    requires Fits(job)
  {
    var w3 := SplitUpTo(Fetch(w, job, overwrite), job.episode.segments, job.plan, |job.episode.segments|, ffmpeg, status);
    World(w3.files, w3.trace + [DoneNote(job.episode.title)], w3.calls)
  }

  /** The events of the download, `present` telling whether the file is on disk: the fetch and its note, if it is missing or `overwrite` is set. */
  function FetchEvents(present: bool, job: Job, overwrite: bool): seq<Event> {
    if overwrite || !present then [Fetched(job.episode.mp3Url, job.path), DownloadedNote(job.episode.title)] else []
  }

  /**
   * The events of one episode's turn, `present` telling whether its file is on disk and its calls
   * are numbered from `base`: the download's, the split's, then the
   * episode's done note.
   */
  function EpisodeEvents(present: bool, job: Job, ffmpeg: string, overwrite: bool, status: Status, base: nat): (ev: seq<Event>)
    requires Fits(job)
    ensures |ev| > 0
  {
    FetchEvents(present, job, overwrite)
    + Blocks(job.episode.segments, job.plan, |job.episode.segments|, ffmpeg, status, base)
    + [DoneNote(job.episode.title)]
  }

  /** The download leaves the MP3 on disk, appends its events and makes no external call. */
  lemma {:induction false} FetchFrame(w: World, job: Job, overwrite: bool)
    ensures Fetch(w, job, overwrite) == World(w.files + {job.path}, w.trace + FetchEvents(job.path in w.files, job, overwrite), w.calls)
  {
    var fetch, noted := Fetched(job.episode.mp3Url, job.path), DownloadedNote(job.episode.title);
    if overwrite || job.path !in w.files {
      AppendAssoc(w.trace, [fetch], [noted]);
    } else {
      assert w.files + {job.path} == w.files;
      assert w.trace + [] == w.trace;
    }
  }

  /** An episode's turn leaves its MP3 on disk, appends its events and makes one call per segment. */
  lemma {:induction false} EpisodeStepFrame(w: World, job: Job, ffmpeg: string, overwrite: bool, status: Status)
    requires Fits(job)
    ensures EpisodeStep(w, job, ffmpeg, overwrite, status) == AfterTurn(w, job, ffmpeg, overwrite, status)
  {
    var n := |job.episode.segments|;
    var head := FetchEvents(job.path in w.files, job, overwrite);
    var body := Blocks(job.episode.segments, job.plan, n, ffmpeg, status, w.calls);
    var w2 := Fetch(w, job, overwrite);
    FetchFrame(w, job, overwrite);
    SplitUpToFrame(w2, job.episode.segments, job.plan, n, ffmpeg, status);
    AppendAssoc(w.trace, head, body);
    AppendAssoc(w.trace, head + body, [DoneNote(job.episode.title)]);
  }

  /** The download fetches and notes exactly when the file is missing or `overwrite` is set. */
  lemma {:induction false} FetchEventsSelect(present: bool, job: Job, overwrite: bool, kind: EventKind)
    ensures var fetched := overwrite || !present;
      Select(FetchEvents(present, job, overwrite), kind)
      == if fetched && kind == FetchKind then [Fetched(job.episode.mp3Url, job.path)]
         else if fetched && kind == DownloadedKind then [DownloadedNote(job.episode.title)]
         else []
  {
    var fetch, noted := Fetched(job.episode.mp3Url, job.path), DownloadedNote(job.episode.title);
    if overwrite || !present {
      assert FetchEvents(present, job, overwrite) == [fetch] + [noted];
      SelectAppend([fetch], [noted], kind);
      SelectSingle(fetch, kind);
      SelectSingle(noted, kind);
    } else {
      assert SelectUpTo([], 0, kind) == [];
    }
  }

  /** Events other than calls, notes of written segments and done notes come from the download alone. */
  lemma {:induction false} EpisodeDownloadEvents(present: bool, job: Job, ffmpeg: string, overwrite: bool, status: Status, base: nat, kind: EventKind)
    requires Fits(job)
    requires kind != RunKind && kind != WroteKind && kind != DoneKind
    ensures Select(EpisodeEvents(present, job, ffmpeg, overwrite, status, base), kind) == Select(FetchEvents(present, job, overwrite), kind)
  {
    var n := |job.episode.segments|;
    BlocksOther(job.episode.segments, job.plan, n, ffmpeg, status, base, kind);
    SelectSingle(DoneNote(job.episode.title), kind);
    SelectFirstOnly(FetchEvents(present, job, overwrite), Blocks(job.episode.segments, job.plan, n, ffmpeg, status, base),
                    [DoneNote(job.episode.title)], kind);
  }

  /**
   * An episode's MP3 is fetched, and the download noted, once if it is
   * missing or `overwrite` is set, and not at all otherwise.
   */
  lemma {:induction false} EpisodeFetches(present: bool, job: Job, ffmpeg: string, overwrite: bool, status: Status, base: nat, kind: EventKind)
    requires Fits(job)
    requires kind == FetchKind || kind == DownloadedKind
    ensures var fetched := overwrite || !present;
      Select(EpisodeEvents(present, job, ffmpeg, overwrite, status, base), kind)
      == if !fetched then []
         else if kind == FetchKind then [Fetched(job.episode.mp3Url, job.path)]
         else [DownloadedNote(job.episode.title)]
  {
    EpisodeDownloadEvents(present, job, ffmpeg, overwrite, status, base, kind);
    FetchEventsSelect(present, job, overwrite, kind);
  }

  /** Every segment of an episode gets its call with its argument list, in order. */
  lemma {:induction false} EpisodeRuns(present: bool, job: Job, ffmpeg: string, overwrite: bool, status: Status, base: nat)
    requires Fits(job)
    ensures Select(EpisodeEvents(present, job, ffmpeg, overwrite, status, base), RunKind)
         == PlannedRuns(job.plan, |job.episode.segments|, ffmpeg, status, base)
  {
    var n := |job.episode.segments|;
    FetchEventsSelect(present, job, overwrite, RunKind);
    SelectSingle(DoneNote(job.episode.title), RunKind);
    BlocksRuns(job.episode.segments, job.plan, n, ffmpeg, status, base);
    SelectMiddleOnly(FetchEvents(present, job, overwrite), Blocks(job.episode.segments, job.plan, n, ffmpeg, status, base),
                     [DoneNote(job.episode.title)], RunKind);
  }

  /** A segment of an episode is noted as written exactly when its call returned 0. */
  lemma {:induction false} EpisodeNotes(present: bool, job: Job, ffmpeg: string, overwrite: bool, status: Status, base: nat)
    requires Fits(job)
    ensures Select(EpisodeEvents(present, job, ffmpeg, overwrite, status, base), WroteKind)
         == SuccessNotes(job.episode.segments, |job.episode.segments|, status, base)
  {
    var n := |job.episode.segments|;
    FetchEventsSelect(present, job, overwrite, WroteKind);
    SelectSingle(DoneNote(job.episode.title), WroteKind);
    BlocksNotes(job.episode.segments, job.plan, n, ffmpeg, status, base);
    SelectMiddleOnly(FetchEvents(present, job, overwrite), Blocks(job.episode.segments, job.plan, n, ffmpeg, status, base),
                     [DoneNote(job.episode.title)], WroteKind);
  }

  /** An episode is noted as done exactly once. */
  lemma {:induction false} EpisodeDone(present: bool, job: Job, ffmpeg: string, overwrite: bool, status: Status, base: nat)
    requires Fits(job)
    ensures Select(EpisodeEvents(present, job, ffmpeg, overwrite, status, base), DoneKind) == [DoneNote(job.episode.title)]
  {
    var n := |job.episode.segments|;
    FetchEventsSelect(present, job, overwrite, DoneKind);
    BlocksOther(job.episode.segments, job.plan, n, ffmpeg, status, base, DoneKind);
    SelectSingle(DoneNote(job.episode.title), DoneKind);
    SelectLastOnly(FetchEvents(present, job, overwrite), Blocks(job.episode.segments, job.plan, n, ffmpeg, status, base),
                   [DoneNote(job.episode.title)], DoneKind);
  }

  /** An episode's turn starts with the fetch when there is one, and ends with its done note. */
  lemma {:induction false} EpisodeEventsEnds(present: bool, job: Job, ffmpeg: string, overwrite: bool, status: Status, base: nat)
    requires Fits(job)
    ensures var ev := EpisodeEvents(present, job, ffmpeg, overwrite, status, base);
      (overwrite || !present ==> ev[0] == Fetched(job.episode.mp3Url, job.path))
      && ev[|ev| - 1] == DoneNote(job.episode.title)
  {
  }

  /**
   * The state after a job's turn, in terms of its effect: the MP3 is on disk,
   * the turn's events follow the earlier ones, and one call was made per segment.
   */
  function AfterTurn(w: World, job: Job, ffmpeg: string, overwrite: bool, status: Status): World
    requires Fits(job)
  {
    World(w.files + {job.path},
          w.trace + EpisodeEvents(job.path in w.files, job, ffmpeg, overwrite, status, w.calls),
          w.calls + |job.episode.segments|)
  }

  /** The number of segments of the first `k` jobs together. */
  function SegmentsBefore(jobs: seq<Job>, k: nat): nat
    requires k <= |jobs|
  {
    if k == 0 then 0 else SegmentsBefore(jobs, k - 1) + |jobs[k - 1].episode.segments|
  }

  /** The local files of the first `k` jobs. */
  function JobPaths(jobs: seq<Job>, k: nat): set<string>
    requires k <= |jobs|
  {
    if k == 0 then {} else JobPaths(jobs, k - 1) + {jobs[k - 1].path}
  }

  /** `JobPaths(jobs, k)` holds the local files of the first `k` jobs and nothing else. */
  lemma {:induction false} JobPathsExactly(jobs: seq<Job>, k: nat)
    requires k <= |jobs|
    ensures forall j :: 0 <= j < k ==> jobs[j].path in JobPaths(jobs, k)
    ensures forall p :: p in JobPaths(jobs, k) ==> exists j :: 0 <= j < k && jobs[j].path == p
  {
    if k > 0 {
      JobPathsExactly(jobs, k - 1);
    }
  }

  /** Whether the j-th job's file is on disk when its turn starts: it was there from the start or an earlier job fetched it. */
  predicate Present(files: set<string>, jobs: seq<Job>, j: nat)
    requires j < |jobs|
  {
    jobs[j].path in files || exists i :: 0 <= i < j && jobs[i].path == jobs[j].path
  }

  /** Regrouping a union; like `AppendAssoc`, stated only to keep the callers' verification cost down. */
  lemma {:induction false} UnionAssoc(a: set<string>, b: set<string>, c: set<string>)
    ensures (a + b) + c == a + (b + c)
  {
  }

  /**
   * The events of each turn of `split_all_episodes`' loop, when `files` were
   * on disk and `calls` calls had been made before it started.
   */
  function Turns(files: set<string>, calls: nat, jobs: seq<Job>, ffmpeg: string, overwrite: bool,
                 status: Status): (turns: seq<seq<Event>>)
    requires AllFit(jobs)
    ensures |turns| == |jobs|
  {
    seq(|jobs|, j requires 0 <= j < |jobs| => Turn(files, calls, jobs, j, ffmpeg, overwrite, status))
  }

  /** The events of the j-th turn of `split_all_episodes`' loop. */
  function Turn(files: set<string>, calls: nat, jobs: seq<Job>, j: nat, ffmpeg: string, overwrite: bool,
                status: Status): seq<Event>
    requires AllFit(jobs) && j < |jobs|
  {
    EpisodeEvents(Present(files, jobs, j), jobs[j], ffmpeg, overwrite, status, calls + SegmentsBefore(jobs, j))
  }

  /** The events of the first `k` turns of `split_all_episodes`' loop, in order. */
  function RunEvents(files: set<string>, calls: nat, jobs: seq<Job>, k: nat, ffmpeg: string, overwrite: bool,
                     status: Status): seq<Event>
    requires AllFit(jobs) && k <= |jobs|
  {
    Chain(Turns(files, calls, jobs, ffmpeg, overwrite, status), k)
  }

  /** The events of the first `k` turns are those of the first `k - 1` followed by the k-th turn's. */
  lemma {:induction false} RunEventsSnoc(files: set<string>, calls: nat, jobs: seq<Job>, k: nat, ffmpeg: string, overwrite: bool,
                                         status: Status)
    requires AllFit(jobs) && 0 < k <= |jobs|
    ensures RunEvents(files, calls, jobs, k, ffmpeg, overwrite, status)
         == RunEvents(files, calls, jobs, k - 1, ffmpeg, overwrite, status)
            + EpisodeEvents(Present(files, jobs, k - 1), jobs[k - 1], ffmpeg, overwrite, status, calls + SegmentsBefore(jobs, k - 1))
  {
    var turns := Turns(files, calls, jobs, ffmpeg, overwrite, status);
    assert turns[k - 1] == EpisodeEvents(Present(files, jobs, k - 1), jobs[k - 1], ffmpeg, overwrite, status, calls + SegmentsBefore(jobs, k - 1));
    assert RunEvents(files, calls, jobs, k, ffmpeg, overwrite, status) == Chain(turns, k - 1) + turns[k - 1];
  }

  /**
   * The first `k` turns of `split_all_episodes`' loop, one per job, in list
   * order: those jobs' MP3s are on disk, their turns' events follow the earlier
   * ones, and one call was made per segment of their episodes.
   */
  function SplitAll(w: World, jobs: seq<Job>, k: nat, ffmpeg: string, overwrite: bool, status: Status): World
    requires AllFit(jobs) && k <= |jobs|
  {
    World(w.files + JobPaths(jobs, k), w.trace + RunEvents(w.files, w.calls, jobs, k, ffmpeg, overwrite, status),
          w.calls + SegmentsBefore(jobs, k))
  }

  /** One more turn, from the state the first `k` turns leave, gives the state of the first `k + 1`. */
  lemma {:induction false} SplitAllNext(w: World, jobs: seq<Job>, k: nat, ffmpeg: string, overwrite: bool, status: Status)
    requires AllFit(jobs) && k < |jobs|
    ensures AfterTurn(SplitAll(w, jobs, k, ffmpeg, overwrite, status), jobs[k], ffmpeg, overwrite, status)
         == SplitAll(w, jobs, k + 1, ffmpeg, overwrite, status)
  {
    var before, after := SplitAll(w, jobs, k, ffmpeg, overwrite, status), SplitAll(w, jobs, k + 1, ffmpeg, overwrite, status);
    var turn := EpisodeEvents(Present(w.files, jobs, k), jobs[k], ffmpeg, overwrite, status, w.calls + SegmentsBefore(jobs, k));
    var events := RunEvents(w.files, w.calls, jobs, k, ffmpeg, overwrite, status);
    UnionAssoc(w.files, JobPaths(jobs, k), {jobs[k].path});
    assert after.files == before.files + {jobs[k].path};
    assert Turns(w.files, w.calls, jobs, ffmpeg, overwrite, status)[k] == turn;
    assert RunEvents(w.files, w.calls, jobs, k + 1, ffmpeg, overwrite, status) == events + turn;
    AppendAssoc(w.trace, events, turn);
    assert after.trace == before.trace + turn;
    assert after.calls == before.calls + |jobs[k].episode.segments|;
    JobPathsExactly(jobs, k);
    assert Present(w.files, jobs, k) == (jobs[k].path in before.files);
  }

  /**
   * One turn of `split_all_episodes`' loop, told as the states it passes
   * through: the download, its note, the split and the done note have the
   * turn's effect on the state the turn started from.
   */
  lemma {:induction false} TurnEffect(before: World, job: Job, ffmpeg: string, overwrite: bool, status: Status,
                                      downloaded: bool, fetched: World, split: World)
    requires Fits(job)
    requires (downloaded, fetched) == Download(before, job.episode.mp3Url, job.path, overwrite)
    requires var noted := if downloaded then World(fetched.files, fetched.trace + [DownloadedNote(job.episode.title)], fetched.calls)
                          else fetched;
      split == SplitUpTo(noted, job.episode.segments, job.plan, |job.episode.segments|, ffmpeg, status)
    ensures World(split.files, split.trace + [DoneNote(job.episode.title)], split.calls)
         == AfterTurn(before, job, ffmpeg, overwrite, status)
  {
    assert World(split.files, split.trace + [DoneNote(job.episode.title)], split.calls)
        == EpisodeStep(before, job, ffmpeg, overwrite, status);
    EpisodeStepFrame(before, job, ffmpeg, overwrite, status);
  }

  /** The done notes of the first `k` jobs, in order. */
  function Finished(jobs: seq<Job>, k: nat): (r: seq<Event>)
    requires k <= |jobs|
    ensures |r| == k
  {
    seq(k, j requires 0 <= j < k => DoneNote(jobs[j].episode.title))
  }

  lemma {:induction false} FinishedSnoc(jobs: seq<Job>, k: nat)
    requires 0 < k <= |jobs|
    ensures Finished(jobs, k) == Finished(jobs, k - 1) + [DoneNote(jobs[k - 1].episode.title)]
  {
    assert forall j :: 0 <= j < k - 1 ==> Finished(jobs, k)[j] == Finished(jobs, k - 1)[j];
  }

  /** Every episode is processed once, in list order: the done notes are the episodes' titles in order. */
  lemma {:induction false} RunDone(files: set<string>, calls: nat, jobs: seq<Job>, k: nat, ffmpeg: string, overwrite: bool, status: Status)
    requires AllFit(jobs) && k <= |jobs|
    ensures Select(RunEvents(files, calls, jobs, k, ffmpeg, overwrite, status), DoneKind) == Finished(jobs, k)
  {
    var turns, done := Turns(files, calls, jobs, ffmpeg, overwrite, status), DoneList(jobs);
    forall j | 0 <= j < k ensures Select(turns[j], DoneKind) == done[j] {
      EpisodeDone(Present(files, jobs, j), jobs[j], ffmpeg, overwrite, status, calls + SegmentsBefore(jobs, j));
    }
    ChainSelect(turns, done, k, DoneKind);
    FinishedFlat(jobs, k);
  }

  /** Each job's done note, on its own. */
  function DoneList(jobs: seq<Job>): (r: seq<seq<Event>>)
    ensures |r| == |jobs|
  {
    seq(|jobs|, j requires 0 <= j < |jobs| => [DoneNote(jobs[j].episode.title)])
  }

  lemma {:induction false} FinishedFlat(jobs: seq<Job>, k: nat)
    requires k <= |jobs|
    ensures Finished(jobs, k) == Chain(DoneList(jobs), k)
  {
    if k == 0 {
      assert Finished(jobs, 0) == [];
    } else {
      FinishedFlat(jobs, k - 1);
      FinishedSnoc(jobs, k);
    }
  }

  /** The j-th job's calls: its argument lists, its calls numbered after those of the jobs before it. */
  function JobRuns(base: nat, jobs: seq<Job>, j: nat, ffmpeg: string, status: Status): seq<Event>
    requires AllFit(jobs) && j < |jobs|
  {
    PlannedRuns(jobs[j].plan, |jobs[j].episode.segments|, ffmpeg, status, base + SegmentsBefore(jobs, j))
  }

  /** The calls of the first `k` jobs. */
  function RunsUpTo(base: nat, jobs: seq<Job>, k: nat, ffmpeg: string, status: Status): seq<Event>
    requires AllFit(jobs) && k <= |jobs|
  {
    if k == 0 then [] else RunsUpTo(base, jobs, k - 1, ffmpeg, status) + JobRuns(base, jobs, k - 1, ffmpeg, status)
  }

  /**
   * The run calls ffmpeg for every segment of every episode, episode after
   * episode, each call with its segment's argument list and the return code
   * of its position among all calls.
   */
  lemma {:induction false} RunRuns(files: set<string>, calls: nat, jobs: seq<Job>, k: nat, ffmpeg: string, overwrite: bool, status: Status)
    requires AllFit(jobs) && k <= |jobs|
    ensures Select(RunEvents(files, calls, jobs, k, ffmpeg, overwrite, status), RunKind) == RunsUpTo(calls, jobs, k, ffmpeg, status)
  {
    var turns, runs := Turns(files, calls, jobs, ffmpeg, overwrite, status), RunsList(calls, jobs, ffmpeg, status);
    forall j | 0 <= j < k ensures Select(turns[j], RunKind) == runs[j] {
      EpisodeRuns(Present(files, jobs, j), jobs[j], ffmpeg, overwrite, status, calls + SegmentsBefore(jobs, j));
    }
    ChainSelect(turns, runs, k, RunKind);
    RunsFlat(calls, jobs, k, ffmpeg, status);
  }

  /** Each job's calls, on their own. */
  function RunsList(base: nat, jobs: seq<Job>, ffmpeg: string, status: Status): (r: seq<seq<Event>>)
    requires AllFit(jobs)
    ensures |r| == |jobs|
  {
    seq(|jobs|, j requires 0 <= j < |jobs| => JobRuns(base, jobs, j, ffmpeg, status))
  }

  lemma {:induction false} RunsFlat(base: nat, jobs: seq<Job>, k: nat, ffmpeg: string, status: Status)
    requires AllFit(jobs) && k <= |jobs|
    ensures RunsUpTo(base, jobs, k, ffmpeg, status) == Chain(RunsList(base, jobs, ffmpeg, status), k)
  {
    if k > 0 {
      RunsFlat(base, jobs, k - 1, ffmpeg, status);
    }
  }

  /** The run makes as many calls as the episodes have segments together. */
  lemma {:induction false} RunsCount(base: nat, jobs: seq<Job>, k: nat, ffmpeg: string, status: Status)
    requires AllFit(jobs) && k <= |jobs|
    ensures |RunsUpTo(base, jobs, k, ffmpeg, status)| == SegmentsBefore(jobs, k)
  {
    if k > 0 {
      RunsCount(base, jobs, k - 1, ffmpeg, status);
    }
  }

  /** The j-th job's success notes, its calls numbered after those of the jobs before it. */
  function JobNotes(base: nat, jobs: seq<Job>, j: nat, status: Status): seq<Event>
    requires j < |jobs|
  {
    SuccessNotes(jobs[j].episode.segments, |jobs[j].episode.segments|, status, base + SegmentsBefore(jobs, j))
  }

  /** The success notes of the first `k` jobs. */
  function NotesUpTo(base: nat, jobs: seq<Job>, k: nat, status: Status): seq<Event>
    requires k <= |jobs|
  {
    if k == 0 then [] else NotesUpTo(base, jobs, k - 1, status) + JobNotes(base, jobs, k - 1, status)
  }

  /** Across the run, a segment is noted as written exactly when its call returned 0, episode after episode. */
  lemma {:induction false} RunNotes(files: set<string>, calls: nat, jobs: seq<Job>, k: nat, ffmpeg: string, overwrite: bool, status: Status)
    requires AllFit(jobs) && k <= |jobs|
    ensures Select(RunEvents(files, calls, jobs, k, ffmpeg, overwrite, status), WroteKind) == NotesUpTo(calls, jobs, k, status)
  {
    var turns, notes := Turns(files, calls, jobs, ffmpeg, overwrite, status), NotesList(calls, jobs, status);
    forall j | 0 <= j < k ensures Select(turns[j], WroteKind) == notes[j] {
      EpisodeNotes(Present(files, jobs, j), jobs[j], ffmpeg, overwrite, status, calls + SegmentsBefore(jobs, j));
    }
    ChainSelect(turns, notes, k, WroteKind);
    NotesFlat(calls, jobs, k, status);
  }

  /** Each job's success notes, on their own. */
  function NotesList(base: nat, jobs: seq<Job>, status: Status): (r: seq<seq<Event>>)
    ensures |r| == |jobs|
  {
    seq(|jobs|, j requires 0 <= j < |jobs| => JobNotes(base, jobs, j, status))
  }

  lemma {:induction false} NotesFlat(base: nat, jobs: seq<Job>, k: nat, status: Status)
    requires k <= |jobs|
    ensures NotesUpTo(base, jobs, k, status) == Chain(NotesList(base, jobs, status), k)
  {
    if k > 0 {
      NotesFlat(base, jobs, k - 1, status);
    }
  }

  /** The fetch at the start of the j-th job's turn: there is one when its file is not present, or when `overwrite` is set. */
  function FetchOf(files: set<string>, jobs: seq<Job>, j: nat, overwrite: bool): seq<Event>
    requires j < |jobs|
  {
    if overwrite || !Present(files, jobs, j) then [Fetched(jobs[j].episode.mp3Url, jobs[j].path)] else []
  }

  /** The fetches of the first `k` jobs' turns, in order. */
  function FetchesUpTo(files: set<string>, jobs: seq<Job>, k: nat, overwrite: bool): seq<Event>
    requires k <= |jobs|
  {
    if k == 0 then [] else FetchesUpTo(files, jobs, k - 1, overwrite) + FetchOf(files, jobs, k - 1, overwrite)
  }

  /** The run's downloads, job by job. */
  lemma {:induction false} RunFetches(files: set<string>, calls: nat, jobs: seq<Job>, k: nat, ffmpeg: string, overwrite: bool, status: Status)
    requires AllFit(jobs) && k <= |jobs|
    ensures Select(RunEvents(files, calls, jobs, k, ffmpeg, overwrite, status), FetchKind) == FetchesUpTo(files, jobs, k, overwrite)
  {
    var turns, fetches := Turns(files, calls, jobs, ffmpeg, overwrite, status), FetchList(files, jobs, overwrite);
    forall j | 0 <= j < k ensures Select(turns[j], FetchKind) == fetches[j] {
      EpisodeFetches(Present(files, jobs, j), jobs[j], ffmpeg, overwrite, status, calls + SegmentsBefore(jobs, j), FetchKind);
    }
    ChainSelect(turns, fetches, k, FetchKind);
    FetchesFlat(files, jobs, k, overwrite);
  }

  /** Each job's fetch, on its own. */
  function FetchList(files: set<string>, jobs: seq<Job>, overwrite: bool): (r: seq<seq<Event>>)
    ensures |r| == |jobs|
  {
    seq(|jobs|, j requires 0 <= j < |jobs| => FetchOf(files, jobs, j, overwrite))
  }

  lemma {:induction false} FetchesFlat(files: set<string>, jobs: seq<Job>, k: nat, overwrite: bool)
    requires k <= |jobs|
    ensures FetchesUpTo(files, jobs, k, overwrite) == Chain(FetchList(files, jobs, overwrite), k)
  {
    if k > 0 {
      FetchesFlat(files, jobs, k - 1, overwrite);
    }
  }

  /** The run fetches only the jobs' local files, and without `overwrite` none that was on disk before. */
  lemma {:induction false} FetchesTargets(files: set<string>, jobs: seq<Job>, k: nat, overwrite: bool)
    requires k <= |jobs|
    ensures forall e | e in FetchesUpTo(files, jobs, k, overwrite) ::
      e.Fetched? && e.path in JobPaths(jobs, k) && (!overwrite ==> e.path !in files)
  {
    if k > 0 {
      FetchesTargets(files, jobs, k - 1, overwrite);
    }
  }

  /** Fetches of pairwise different files. */
  predicate DistinctFetches(f: seq<Event>) {
    forall a, b :: 0 <= a < b < |f| ==> f[a].Fetched? && f[b].Fetched? && f[a].path != f[b].path
  }

  /** Without `overwrite` no file is fetched twice. */
  lemma {:induction false} FetchesDistinct(files: set<string>, jobs: seq<Job>, k: nat)
    requires k <= |jobs|
    ensures DistinctFetches(FetchesUpTo(files, jobs, k, false))
  {
    if k > 0 {
      var before := FetchesUpTo(files, jobs, k - 1, false);
      var f := FetchesUpTo(files, jobs, k, false);
      FetchesDistinct(files, jobs, k - 1);
      FetchesTargets(files, jobs, k - 1, false);
      forall a, b | 0 <= a < b < |f| ensures f[a].Fetched? && f[b].Fetched? && f[a].path != f[b].path {
        if b >= |before| {
          JobPathsExactly(jobs, k - 1);
          assert f[a] == before[a] && f[a] in before;
          assert f[b] == Fetched(jobs[k - 1].episode.mp3Url, jobs[k - 1].path);
        } else {
          assert f[a] == before[a] && f[b] == before[b];
        }
      }
    }
  }

  /** Every job's file that is not on disk at the start is fetched; with `overwrite` every job's file is. */
  lemma {:induction false} FetchesCover(files: set<string>, jobs: seq<Job>, k: nat, overwrite: bool)
    requires k <= |jobs|
    ensures forall j :: 0 <= j < k && (overwrite || jobs[j].path !in files) ==>
      exists e :: e in FetchesUpTo(files, jobs, k, overwrite) && e.Fetched? && e.path == jobs[j].path
  {
    if k > 0 {
      var before, f := FetchesUpTo(files, jobs, k - 1, overwrite), FetchesUpTo(files, jobs, k, overwrite);
      assert f == before + FetchOf(files, jobs, k - 1, overwrite);
      FetchesCover(files, jobs, k - 1, overwrite);
      forall j | 0 <= j < k && (overwrite || jobs[j].path !in files)
        ensures exists e :: e in f && e.Fetched? && e.path == jobs[j].path
      {
        if j < k - 1 {
          var e :| e in before && e.Fetched? && e.path == jobs[j].path;
          assert e in f;
        } else if !overwrite && Present(files, jobs, j) {
          var a :| 0 <= a < j && jobs[a].path == jobs[j].path;
          var e :| e in before && e.Fetched? && e.path == jobs[a].path;
          assert e in f;
        } else {
          assert f[|before|] == Fetched(jobs[j].episode.mp3Url, jobs[j].path);
        }
      }
    }
  }

  /**
   * The plan's entry for segment `i`, laid out the way `split_episode`'s loop
   * appends it: the flag and start, then `-t` when the pair has a successor,
   * then the rest.
   */
  lemma {:induction false} PlanLayout(head: seq<string>, episode: Episode, i: nat, pair: (Segment, Option<Segment>), episodeFile: string,
                   outputDir: string, overwrite: bool, render: Render)
    requires HasStartPairs(episode.segments) && i < |episode.segments|
    requires pair == SuccessorPairs(episode.segments)[i]
    requires |pair.0.start| >= 2 && (pair.1.Some? ==> |pair.1.value.start| >= 2)
    requires pair.1.Some? ==> head == [] + [if overwrite then "-y" else "-n"] + ["-ss", render(StartSeconds(pair.0))]
                                     + ["-t", render(StartSeconds(pair.1.value) - StartSeconds(pair.0))]
    requires pair.1.None? ==> head == [] + [if overwrite then "-y" else "-n"] + ["-ss", render(StartSeconds(pair.0))]
    ensures head + ["-i", episodeFile] + ["-metadata", TitleTag(episode.number, episode.title, pair.0.title)]
            + ["-metadata", ArtistTag] + ["-metadata", AlbumTag(episode.title)]
            + ["-metadata", TrackTag(i + 1, |episode.segments|)] + ["-write_xing", "0"]
            + [Paths.Join(outputDir, FileName(episode.number, episode.title, i + 1, pair.0.title))]
         == Plan(episode, episodeFile, outputDir, overwrite, render)[i]
  {
    PlanEntry(episode, i, pair, episodeFile, outputDir, overwrite, render);
    var start := render(StartSeconds(pair.0));
    var title, track := TitleTag(episode.number, episode.title, pair.0.title), TrackTag(i + 1, |episode.segments|);
    var output := Paths.Join(outputDir, FileName(episode.number, episode.title, i + 1, pair.0.title));
    if pair.1.Some? {
      Reassociate(head, overwrite, start, Some(render(StartSeconds(pair.1.value) - StartSeconds(pair.0))), episodeFile,
                  title, ArtistTag, AlbumTag(episode.title), track, output);
    } else {
      Reassociate(head, overwrite, start, None, episodeFile, title, ArtistTag, AlbumTag(episode.title), track, output);
    }
  }

  /** An argument list appended piece by piece is the invocation's layout. */
  lemma {:induction false} Reassociate(head: seq<string>, overwrite: bool, start: string, duration: Option<string>, input: string,
                                        title: string, artist: string, album: string, track: string, output: string)
    requires duration.Some? ==> head == [] + [if overwrite then "-y" else "-n"] + ["-ss", start] + ["-t", duration.value]
    requires duration.None? ==> head == [] + [if overwrite then "-y" else "-n"] + ["-ss", start]
    ensures head + ["-i", input] + ["-metadata", title] + ["-metadata", artist] + ["-metadata", album]
            + ["-metadata", track] + ["-write_xing", "0"] + [output]
         == Arguments(Invocation(overwrite, start, duration, input, title, artist, album, track, output))
  {
    ArgumentsLayout(Invocation(overwrite, start, duration, input, title, artist, album, track, output));
  }


  /**
   * The body of `split_episode`'s loop up to the call: the ffmpeg arguments
   * for segment `i`, built piece by piece from the segment and its successor.
   * They are the plan's entry for that segment.
   */
  method BuildArguments(episode: Episode, i: nat, pair: (Segment, Option<Segment>), episodeFile: string,
                        outputDir: string, overwrite: bool, render: Render) returns (args: seq<string>)
    requires HasStartPairs(episode.segments) && i < |episode.segments|
    requires pair == SuccessorPairs(episode.segments)[i]
    ensures args == Plan(episode, episodeFile, outputDir, overwrite, render)[i]
  {
    var segmentCount := |episode.segments|;
    var current, next := pair.0, pair.1;
    PairStarts(episode.segments, i, pair);
    args := [];
    var segmentNumber := i + 1;

    args := args + [if overwrite then "-y" else "-n"];

    var currentStartSeconds := StartSeconds(current);
    args := args + ["-ss", render(currentStartSeconds)];

    if next.Some? {
      var nextStartSeconds := StartSeconds(next.value);
      var segmentLength := nextStartSeconds - currentStartSeconds;
      args := args + ["-t", render(segmentLength)];
    }
    PlanLayout(args, episode, i, pair, episodeFile, outputDir, overwrite, render);

    args := args + ["-i", episodeFile];
    args := args + ["-metadata", TitleTag(episode.number, episode.title, current.title)];
    args := args + ["-metadata", ArtistTag];
    args := args + ["-metadata", AlbumTag(episode.title)];
    args := args + ["-metadata", TrackTag(segmentNumber, segmentCount)];
    args := args + ["-write_xing", "0"];
    args := args + [Paths.Join(outputDir, FileName(episode.number, episode.title, segmentNumber, current.title))];
  }

  // ---------------------------------------------------------------------
  // The machine the script runs on
  // ---------------------------------------------------------------------

  /**
   * The disk, the record of what has happened, and the external program whose
   * return codes `status` gives, call by call.
   */
  class Host {
    var files: set<string>
    var trace: seq<Event>
    var calls: nat
    const status: Status

    function State(): World
      reads this
    {
      World(files, trace, calls)
    }

    constructor (files: set<string>, status: Status)
      ensures State() == World(files, [], 0) && this.status == status
    {
      this.files := files;
      this.trace := [];
      this.calls := 0;
      this.status := status;
    }

    /** `call_external_program`: runs the program and returns its return code, whatever it is. */
    method CallExternalProgram(argv: seq<string>) returns (code: int)
      modifies this
      ensures code == status(old(calls))
      ensures State() == World(old(files), old(trace) + [Ran(argv, code)], old(calls) + 1)
    {
      code := status(calls);
      trace := trace + [Ran(argv, code)];
      calls := calls + 1;
    }

    /** `download_file`: the local path is the URL path's last component inside `rawDir`. */
    method DownloadFile(url: string, rawDir: string, overwrite: bool, urlPath: UrlPath) returns (path: string, downloaded: bool)
      modifies this
      ensures path == LocalFileName(url, rawDir, urlPath)
      ensures (downloaded, State()) == Download(old(State()), url, path, overwrite)
    {
      var filenameOnly := Paths.Basename(urlPath(url));
      path := Paths.Join(rawDir, filenameOnly);
      if path in files && !overwrite {
        return path, false;
      }
      files := files + {path};
      trace := trace + [Fetched(url, path)];
      downloaded := true;
    }

    /**
     * The body of `split_episode`'s loop for segment `i`, paired with its
     * successor: build the arguments, call ffmpeg, note the segment as written
     * if the call returned 0.
     */
    method SplitSegment(episode: Episode, i: nat, pair: (Segment, Option<Segment>), episodeFile: string,
                        outputDir: string, ffmpeg: string, overwrite: bool, render: Render)
      requires HasStartPairs(episode.segments) && i < |episode.segments|
      requires pair == SuccessorPairs(episode.segments)[i]
      modifies this
      ensures State() == SegmentStep(old(State()), episode.segments, Plan(episode, episodeFile, outputDir, overwrite, render),
                                     i, ffmpeg, status)
    {
      ghost var before := State();
      var args := BuildArguments(episode, i, pair, episodeFile, outputDir, overwrite, render);
      var returnCode := CallExternalProgram([ffmpeg] + args);
      if returnCode == 0 {
        trace := trace + [WroteNote(pair.0.title)];
      }
      StepTrace(before.trace, episode.segments, Plan(episode, episodeFile, outputDir, overwrite, render), i, ffmpeg, returnCode);
    }

    /** `split_episode`: calls ffmpeg once per segment, in list order, and notes each call that returned 0. */
    method SplitEpisode(episode: Episode, episodeFile: string, outputDir: string, ffmpeg: string,
                        overwrite: bool, render: Render)
      requires HasStartPairs(episode.segments)
      modifies this
      ensures State() == Split(old(State()), episode, episodeFile, outputDir, ffmpeg, overwrite, render, status)
    {
      var pairs := SuccessorPairs(episode.segments);
      ghost var plan := Plan(episode, episodeFile, outputDir, overwrite, render);
      for i := 0 to |pairs|
        invariant State() == SplitUpTo(old(State()), episode.segments, plan, i, ffmpeg, status)
      {
        SplitSegment(episode, i, pairs[i], episodeFile, outputDir, ffmpeg, overwrite, render);
      }
    }

    /**
     * The body of `split_all_episodes`' loop for one episode: download it,
     * note the download, split it, note it as done.
     */
    method SplitAllTurn(episode: Episode, rawDir: string, outputDir: string, ffmpeg: string,
                        overwrite: bool, render: Render, urlPath: UrlPath)
      requires HasStartPairs(episode.segments)
      modifies this
      ensures var path := LocalFileName(episode.mp3Url, rawDir, urlPath);
        State() == AfterTurn(old(State()), Job(episode, path, Plan(episode, path, outputDir, overwrite, render)),
                             ffmpeg, overwrite, status)
    {
      ghost var before := State();
      var episodeFilename, episodeDownloaded := DownloadFile(episode.mp3Url, rawDir, overwrite, urlPath);
      ghost var fetched := State();
      if episodeDownloaded {
        trace := trace + [DownloadedNote(episode.title)];
      }
      SplitEpisode(episode, episodeFilename, outputDir, ffmpeg, overwrite, render);
      ghost var split := State();
      trace := trace + [DoneNote(episode.title)];
      TurnEffect(before, Job(episode, episodeFilename, Plan(episode, episodeFilename, outputDir, overwrite, render)),
                 ffmpeg, overwrite, status, episodeDownloaded, fetched, split);
    }

    /** `split_all_episodes`: for each episode in order, download it, then split it. */
    method SplitAllEpisodes(episodes: seq<Episode>, rawDir: string, outputDir: string, ffmpeg: string,
                            overwrite: bool, render: Render, urlPath: UrlPath)
      requires AllHaveStartPairs(episodes)
      modifies this
      ensures State() == SplitAll(old(State()), RunJobs(episodes, rawDir, outputDir, overwrite, render, urlPath),
                                  |episodes|, ffmpeg, overwrite, status)
    {
      ghost var jobs := RunJobs(episodes, rawDir, outputDir, overwrite, render, urlPath);
      for k := 0 to |episodes|
        invariant State() == SplitAll(old(State()), jobs, k, ffmpeg, overwrite, status)
      {
        SplitAllTurn(episodes[k], rawDir, outputDir, ffmpeg, overwrite, render, urlPath);
        SplitAllNext(old(State()), jobs, k, ffmpeg, overwrite, status);
      }
    }
  }
}
