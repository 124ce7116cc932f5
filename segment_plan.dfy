/**
 * The pure part of splitting one episode: where each segment starts, how long
 * it lasts, what its output file is called, which ID3 tags it gets, and the
 * ffmpeg argument list that carries all of this.
 */
module SegmentPlan {
  import opened Optional
  import opened Text
  import Paths

  /**
   * `episode_number` is an integer or a string, as the data file has it, or a
   * boolean, which validation lets through because `bool` is a kind of `int`.
   */
  datatype EpisodeNumber = Number(n: int) | Label(s: string) | Flag(b: bool)

  /** A segment: its title and its `start` list, read as `(minutes, seconds, ...)`. */
  datatype Segment = Segment(title: string, start: seq<real>)

  datatype Episode = Episode(number: EpisodeNumber, title: string, mp3Url: string, segments: seq<Segment>)

  /** Python's `str()` of a float; the model does not fix its digits. */
  type Render = real -> string

  /** `str(episode_number)`, which is also what `'{episode_number}'.format(...)` writes. */
  function NumberText(n: EpisodeNumber): string {
    match n
    case Number(i) => IntToString(i)
    case Label(s) => s
    case Flag(b) => if b then "True" else "False"
  }

  /** Every `start` has a minutes and a seconds element (what validation guarantees). */
  predicate HasStartPairs(segments: seq<Segment>) {
    forall i :: 0 <= i < |segments| ==> |segments[i].start| >= 2
  }

  /** `start[0] * 60 + start[1]`: the segment's offset into the episode, in seconds. */
  function StartSeconds(s: Segment): real
    requires |s.start| >= 2
  {
    s.start[0] * 60.0 + s.start[1]
  }

  // ---------------------------------------------------------------------
  // Windows: start offset and duration of each segment
  // ---------------------------------------------------------------------

  /** `zip_longest(segments, segments[1:])`: each segment with its successor, the last with `None`. */
  function SuccessorPairs(segments: seq<Segment>): (pairs: seq<(Segment, Option<Segment>)>)
    ensures |pairs| == |segments|
    ensures forall i :: 0 <= i < |pairs| ==> pairs[i].0 == segments[i]
    ensures forall i :: 0 <= i < |pairs| ==>
      pairs[i].1 == if i + 1 < |segments| then Some(segments[i + 1]) else None
  {
    SuccessorPairsFrom(segments, 0)
  }

  /** The pairs of `zip_longest` from position `k` on. */
  function SuccessorPairsFrom(segments: seq<Segment>, k: nat): (pairs: seq<(Segment, Option<Segment>)>)
    requires k <= |segments|
    ensures |pairs| == |segments| - k
    ensures forall i :: 0 <= i < |pairs| ==> pairs[i].0 == segments[k + i]
    ensures forall i :: 0 <= i < |pairs| ==>
      pairs[i].1 == if k + i + 1 < |segments| then Some(segments[k + i + 1]) else None
    decreases |segments| - k
  {
    if k == |segments| then []
    else [(segments[k], if k + 1 < |segments| then Some(segments[k + 1]) else None)] + SuccessorPairsFrom(segments, k + 1)
  }

  /**
   * What ffmpeg is told about one segment: where it starts, how long it lasts
   * (`None`: to the end of the episode), its 1-based number and the segment count.
   */
  datatype Window = Window(startSeconds: real, duration: Option<real>, number: nat, total: nat)

  function WindowOf(pair: (Segment, Option<Segment>), number: nat, total: nat): Window
    requires |pair.0.start| >= 2
    requires pair.1.Some? ==> |pair.1.value.start| >= 2
  {
    var start := StartSeconds(pair.0);
    Window(start, if pair.1.Some? then Some(StartSeconds(pair.1.value) - start) else None, number, total)
  }

  /** The window of every segment: `enumerate(zip_longest(...))` turned into windows. */
  function Windows(segments: seq<Segment>): (ws: seq<Window>)
    requires HasStartPairs(segments)
    ensures |ws| == |segments|
  {
    var pairs := SuccessorPairs(segments);
    seq(|pairs|, i requires 0 <= i < |pairs| => WindowOf(pairs[i], i + 1, |segments|))
  }

  /**
   * Window `i` starts at segment `i`'s start, is numbered `i + 1` of the
   * segment count, and lasts until the next segment's start; the last one has
   * no duration. A duration is the difference whatever its sign: nothing
   * checks that starts increase.
   */
  lemma {:induction false} WindowAt(segments: seq<Segment>, i: nat)
    requires HasStartPairs(segments)
    requires i < |segments|
    ensures var w := Windows(segments)[i];
      w.startSeconds == StartSeconds(segments[i]) && w.number == i + 1 && w.total == |segments|
      && w.duration == if i + 1 < |segments|
                       then Some(StartSeconds(segments[i + 1]) - StartSeconds(segments[i]))
                       else None
  {
    var pairs := SuccessorPairs(segments);
    assert pairs[i].0 == segments[i];
  }

  predicate StrictlyIncreasing(segments: seq<Segment>)
    requires HasStartPairs(segments)
  {
    forall i :: 0 <= i < |segments| - 1 ==> StartSeconds(segments[i]) < StartSeconds(segments[i + 1])
  }

  /** The sum of the durations of the windows that have one. */
  function DurationSum(ws: seq<Window>): real {
    if ws == [] then 0.0
    else DurationSum(ws[..|ws| - 1]) + (if ws[|ws| - 1].duration.Some? then ws[|ws| - 1].duration.value else 0.0)
  }

  /** All durations are positive exactly when the starts strictly increase. */
  lemma {:induction false} PositiveDurationsIffIncreasing(segments: seq<Segment>)
    requires HasStartPairs(segments)
    ensures StrictlyIncreasing(segments) <==>
      forall i :: 0 <= i < |Windows(segments)| && Windows(segments)[i].duration.Some? ==>
        Windows(segments)[i].duration.value > 0.0
  {
    var ws := Windows(segments);
    if StrictlyIncreasing(segments) {
      forall i | 0 <= i < |ws| && ws[i].duration.Some? ensures ws[i].duration.value > 0.0 {
        WindowAt(segments, i);
      }
    } else {
      var i :| 0 <= i < |segments| - 1 && StartSeconds(segments[i]) >= StartSeconds(segments[i + 1]);
      WindowAt(segments, i);
      assert ws[i].duration.Some? && !(ws[i].duration.value > 0.0);
    }
  }

  lemma {:induction false} DurationPrefixSum(segments: seq<Segment>, k: nat)
    requires HasStartPairs(segments)
    requires k < |segments|
    ensures DurationSum(Windows(segments)[..k]) == StartSeconds(segments[k]) - StartSeconds(segments[0])
  {
    var ws := Windows(segments);
    if k > 0 {
      DurationPrefixSum(segments, k - 1);
      WindowAt(segments, k - 1);
      assert ws[..k][..k - 1] == ws[..k - 1];
    }
  }

  /**
   * The durations telescope: together they span from the first start to the
   * last one, whatever the order of the starts (the last segment runs on to
   * the end of the episode and adds nothing).
   */
  lemma {:induction false} DurationsSpanFirstToLastStart(segments: seq<Segment>)
    requires HasStartPairs(segments)
    requires |segments| > 0
    ensures DurationSum(Windows(segments)) ==
      StartSeconds(segments[|segments| - 1]) - StartSeconds(segments[0])
  {
    var ws := Windows(segments);
    var n := |segments|;
    DurationPrefixSum(segments, n - 1);
    WindowAt(segments, n - 1);
    assert ws[..n] == ws;
    assert ws[..n][..n - 1] == ws[..n - 1];
  }

  // ---------------------------------------------------------------------
  // Output file name
  // ---------------------------------------------------------------------

  /** Length of the run of ASCII digits that `s` starts with. */
  function LeadingDigitCount(s: string): (k: nat)
    ensures k <= |s|
  {
    if s == [] || !IsDigit(s[0]) then 0 else 1 + LeadingDigitCount(s[1..])
  }

  /** The run is all digits and stops at the end of `s` or at a non-digit. */
  lemma {:induction false} LeadingDigitRun(s: string)
    ensures var k := LeadingDigitCount(s);
      k <= |s| && AllDigits(s[..k]) && (k < |s| ==> !IsDigit(s[k]))
  {
    if s != [] && IsDigit(s[0]) {
      LeadingDigitRun(s[1..]);
      var k := LeadingDigitCount(s);
      assert s[..k] == [s[0]] + s[1..][..k - 1];
    }
  }

  /**
   * `re.match(r'^(\d+)(.*)$', s)`: `\d+` takes the leading digits, `.*` runs
   * up to the first newline, and `$` accepts only the end of the string or a
   * newline that ends it.
   */
  function MatchNumber(s: string): Option<(string, string)> {
    var k := LeadingDigitCount(s);
    var rest := s[k..];
    if k == 0 then None
    else if '\n' !in rest then Some((s[..k], rest))
    else if '\n' !in rest[..|rest| - 1] then Some((s[..k], rest[..|rest| - 1]))
    else None
  }

  /**
   * A match splits `s` into a non-empty run of digits that `s` cannot extend
   * and a suffix without a newline, with at most one newline closing `s`.
   */
  lemma {:induction false} MatchNumberGroups(s: string)
    requires MatchNumber(s).Some?
    ensures var (digits, suffix) := MatchNumber(s).value;
      |digits| > 0 && AllDigits(digits) && '\n' !in suffix
      && (s == digits + suffix || s == digits + suffix + "\n")
      && (|digits| < |s| ==> !IsDigit(s[|digits|]))
  {
    LeadingDigitRun(s);
    var k := LeadingDigitCount(s);
    var rest := s[k..];
    assert s == s[..k] + rest;
    if '\n' in rest {
      assert rest == rest[..|rest| - 1] + "\n";
    }
  }

  /**
   * There is no match exactly when `s` starts with no digit or holds a
   * newline after its digits other than a final one.
   */
  lemma {:induction false} MatchNumberFails(s: string)
    ensures MatchNumber(s).None? <==>
      LeadingDigitCount(s) == 0
      || exists j :: LeadingDigitCount(s) <= j < |s| - 1 && s[j] == '\n'
  {
    var k := LeadingDigitCount(s);
    var rest := s[k..];
    if k > 0 && |rest| > 0 {
      var body := rest[..|rest| - 1];
      if '\n' in body {
        var i :| 0 <= i < |body| && body[i] == '\n';
        assert s[k + i] == '\n';
      } else {
        forall j | k <= j < |s| - 1 ensures s[j] != '\n' {
          assert s[j] == body[j - k];
        }
      }
    }
  }

  /** The `(number, suffix)` groups of the match, or `('', '')` when it fails. */
  function SplitNumber(s: string): (string, string) {
    match MatchNumber(s)
    case Some(groups) => groups
    case None => ("", "")
  }

  /** `'{number:0>3}{suffix}'` with the groups taken from `str(episode_number)`. */
  function EpisodeNumberPart(number: EpisodeNumber): string {
    var groups := SplitNumber(NumberText(number));
    PadLeft(groups.0, 3) + groups.1
  }

  /** `'{segment_number:0>2}'`. */
  function SegmentNumberPart(k: nat): string {
    PadLeft(IntToString(k), 2)
  }

  /** `'{number:0>3}{suffix}-{episode_title}-{segment_number:0>2}-{segment_title}.mp3'`. */
  function FileName(number: EpisodeNumber, episodeTitle: string, segmentNumber: nat, segmentTitle: string): string {
    EpisodeNumberPart(number) + "-" + episodeTitle + "-" + SegmentNumberPart(segmentNumber)
    + "-" + segmentTitle + ".mp3"
  }

  lemma {:induction false} LeadingZerosDoNotCount(z: nat, s: string)
    requires AllDigits(s)
    ensures AllDigits(seq(z, _ => '0') + s)
    ensures DigitsValue(seq(z, _ => '0') + s) == DigitsValue(s)
  {
    var t := seq(z, _ => '0') + s;
    if s == [] {
      if z > 0 {
        assert t[..|t| - 1] == seq(z - 1, _ => '0') + s;
        LeadingZerosDoNotCount(z - 1, s);
      }
    } else {
      assert t[..|t| - 1] == seq(z, _ => '0') + s[..|s| - 1];
      LeadingZerosDoNotCount(z, s[..|s| - 1]);
    }
  }

  /** Zero-padding a digit string keeps the number it denotes and never shortens it. */
  lemma {:induction false} PadLeftKeepsValue(s: string, width: nat)
    requires AllDigits(s)
    ensures AllDigits(PadLeft(s, width)) && DigitsValue(PadLeft(s, width)) == DigitsValue(s)
    ensures |PadLeft(s, width)| >= |s| && |PadLeft(s, width)| >= width
  {
    if |s| < width {
      LeadingZerosDoNotCount(width - |s|, s);
    }
  }

  lemma {:induction false} DigitsAreOneRun(s: string)
    requires AllDigits(s)
    ensures LeadingDigitCount(s) == |s|
  {
    if s != [] {
      DigitsAreOneRun(s[1..]);
    }
  }

  /** A string of digits matches whole, with an empty suffix. */
  lemma {:induction false} SplitDigits(s: string)
    requires AllDigits(s) && s != []
    ensures SplitNumber(s) == (s, "")
  {
    DigitsAreOneRun(s);
    assert s[..|s|] == s;
    assert s[|s|..] == "";
  }

  /**
   * An episode numbered `n >= 0` gets `n` in decimal, zero-padded to at least
   * three digits and never cut, with no suffix.
   */
  lemma {:induction false} NumberedEpisodePart(n: nat)
    ensures var p := EpisodeNumberPart(Number(n));
      p == PadLeft(NatToString(n), 3) && |p| >= 3 && AllDigits(p) && DigitsValue(p) == n
  {
    var s := NatToString(n);
    assert NumberText(Number(n)) == s;
    SplitDigits(s);
    assert EpisodeNumberPart(Number(n)) == PadLeft(s, 3) + "";
    NatToStringRoundTrip(n);
    PadLeftKeepsValue(s, 3);
  }

  /** The segment number `k` is written in decimal, zero-padded to at least two digits. */
  lemma {:induction false} SegmentNumberDigits(k: nat)
    ensures var q := SegmentNumberPart(k);
      |q| >= 2 && AllDigits(q) && DigitsValue(q) == k
  {
    NatToStringRoundTrip(k);
    PadLeftKeepsValue(NatToString(k), 2);
  }

  /**
   * An episode number with no leading digit (a label such as "x1", or a
   * negative number) does not match: the number part is "000" and no suffix follows.
   */
  lemma {:induction false} UnnumberedEpisodePart(number: EpisodeNumber)
    requires LeadingDigitCount(NumberText(number)) == 0
    ensures EpisodeNumberPart(number) == "000"
  {
    assert SplitNumber(NumberText(number)) == ("", "") by {
      assert MatchNumber(NumberText(number)).None?;
    }
    assert PadLeft("", 3) == "000";
  }

  /**
   * A boolean episode number is written as "True" or "False" in the title tag;
   * that text has no leading digit, so the file name starts with "000-".
   */
  lemma {:induction false} FlagEpisodePart(b: bool, episodeTitle: string, k: nat, segmentTitle: string)
    ensures EpisodeNumberPart(Flag(b)) == "000"
    ensures FileName(Flag(b), episodeTitle, k, segmentTitle)[..4] == "000-"
  {
    var text := NumberText(Flag(b));
    assert !IsDigit(text[0]);
    assert LeadingDigitCount(text) == 0;
    UnnumberedEpisodePart(Flag(b));
  }

  lemma {:induction false} LetteredGroups()
    ensures SplitNumber("5b") == ("5", "b")
  {
    var s := "5b";
    assert IsDigit(s[0]) && !IsDigit(s[1..][0]);
    assert LeadingDigitCount(s[1..]) == 0;
    assert LeadingDigitCount(s) == 1;
    assert s[..1] == "5" && s[1..] == "b";
  }

  /** A lettered episode number keeps its letter behind the padded digits: "5b" gives "005b". */
  lemma {:induction false} LetteredNumberPart()
    ensures EpisodeNumberPart(Label("5b")) == "005b"
  {
    LetteredGroups();
    assert PadLeft("5", 3) == "005" by {
      assert seq(2, _ => '0') == "00";
    }
  }

  /** Segment 1, "B", of episode "5b", "A", is written to "005b-A-01-B.mp3". */
  lemma {:induction false} LetteredFileNameExample()
    ensures FileName(Label("5b"), "A", 1, "B") == "005b-A-01-B.mp3"
  {
    LetteredNumberPart();
    assert SegmentNumberPart(1) == "01" by {
      assert IntToString(1) == "1";
      assert seq(1, _ => '0') == "0";
    }
    var e, q := EpisodeNumberPart(Label("5b")), SegmentNumberPart(1);
    assert FileName(Label("5b"), "A", 1, "B") == e + "-" + "A" + "-" + q + "-" + "B" + ".mp3";
  }

  // ---------------------------------------------------------------------
  // Tags and the ffmpeg argument list
  // ---------------------------------------------------------------------

  const ArtistTag: string := "artist=\"Welcome to Night Vale\""

  function TitleTag(number: EpisodeNumber, episodeTitle: string, segmentTitle: string): string {
    "title=\"" + NumberText(number) + " - " + episodeTitle + " (" + segmentTitle + ")\""
  }

  function AlbumTag(episodeTitle: string): string {
    "album=\"" + episodeTitle + "\""
  }

  function TrackTag(number: nat, total: nat): string {
    "track=\"" + IntToString(number) + "/" + IntToString(total) + "\""
  }

  /** What one ffmpeg call is asked to do; `Arguments` lays it out as a command line. */
  datatype Invocation = Invocation(
    overwrite: bool,
    start: string,
    duration: Option<string>,
    input: string,
    title: string,
    artist: string,
    album: string,
    track: string,
    output: string)

  /**
   * The groups `split_episode` adds to `ffmpeg_args`, one per `append` or
   * `extend` call: the overwrite flag, `-ss`, `-t` only when there is a
   * duration, `-i`, four `-metadata` tags, `-write_xing 0`, the output path.
   */
  function ArgumentGroups(inv: Invocation): (groups: seq<seq<string>>)
    ensures |groups| == if inv.duration.Some? then 10 else 9
  {
    [[if inv.overwrite then "-y" else "-n"], ["-ss", inv.start]]
    + (if inv.duration.Some? then [["-t", inv.duration.value]] else [])
    + [["-i", inv.input], ["-metadata", inv.title], ["-metadata", inv.artist], ["-metadata", inv.album],
       ["-metadata", inv.track], ["-write_xing", "0"], [inv.output]]
  }

  /** The list that extending an empty list by each group in turn produces. */
  function Concat(groups: seq<seq<string>>): seq<string> {
    if groups == [] then [] else Concat(groups[..|groups| - 1]) + groups[|groups| - 1]
  }

  lemma {:induction false} ConcatPrefix(groups: seq<seq<string>>, k: nat)
    requires 0 < k <= |groups|
    ensures Concat(groups[..k]) == Concat(groups[..k - 1]) + groups[k - 1]
  {
    assert groups[..k][..k - 1] == groups[..k - 1];
  }

  /** The command line of an invocation. */
  function Arguments(inv: Invocation): seq<string> {
    Concat(ArgumentGroups(inv))
  }

  /** The command line written out flat: 18 arguments with a duration, 16 without. */
  lemma {:induction false} ArgumentsLayout(inv: Invocation)
    ensures Arguments(inv)
         == [if inv.overwrite then "-y" else "-n"] + ["-ss", inv.start]
            + (if inv.duration.Some? then ["-t", inv.duration.value] else [])
            + ["-i", inv.input] + ["-metadata", inv.title] + ["-metadata", inv.artist] + ["-metadata", inv.album]
            + ["-metadata", inv.track] + ["-write_xing", "0"] + [inv.output]
  {
    var g := ArgumentGroups(inv);
    if inv.duration.Some? {
      ConcatTen(g);
    } else {
      ConcatNine(g);
    }
  }

  lemma {:induction false} ConcatNine(g: seq<seq<string>>)
    requires |g| == 9
    ensures Concat(g) == g[0] + g[1] + g[2] + g[3] + g[4] + g[5] + g[6] + g[7] + g[8]
  {
    assert Concat(g[..0]) == [];
    ConcatPrefix(g, 1);
    assert Concat(g[..1]) == g[0];
    ConcatPrefix(g, 2);
    assert Concat(g[..2]) == g[0] + g[1];
    ConcatPrefix(g, 3);
    assert Concat(g[..3]) == g[0] + g[1] + g[2];
    ConcatPrefix(g, 4);
    assert Concat(g[..4]) == g[0] + g[1] + g[2] + g[3];
    ConcatPrefix(g, 5);
    assert Concat(g[..5]) == g[0] + g[1] + g[2] + g[3] + g[4];
    ConcatPrefix(g, 6);
    assert Concat(g[..6]) == g[0] + g[1] + g[2] + g[3] + g[4] + g[5];
    ConcatPrefix(g, 7);
    assert Concat(g[..7]) == g[0] + g[1] + g[2] + g[3] + g[4] + g[5] + g[6];
    ConcatPrefix(g, 8);
    assert Concat(g[..8]) == g[0] + g[1] + g[2] + g[3] + g[4] + g[5] + g[6] + g[7];
    ConcatPrefix(g, 9);
    assert g[..9] == g;
  }

  lemma {:induction false} ConcatTen(g: seq<seq<string>>)
    requires |g| == 10
    ensures Concat(g) == g[0] + g[1] + g[2] + g[3] + g[4] + g[5] + g[6] + g[7] + g[8] + g[9]
  {
    ConcatNine(g[..9]);
    ConcatPrefix(g, 10);
    assert g[..10] == g;
  }
  /** Reads an argument list of the shape `Arguments` produces back into the invocation. */
  function ParseArguments(args: seq<string>): Option<Invocation> {
    if |args| != 16 && |args| != 18 then None
    else
      var t := if |args| == 18 then 2 else 0;
      if (args[0] == "-y" || args[0] == "-n") && args[1] == "-ss" && (t == 2 ==> args[3] == "-t")
         && args[3 + t] == "-i" && args[5 + t] == "-metadata" && args[7 + t] == "-metadata"
         && args[9 + t] == "-metadata" && args[11 + t] == "-metadata"
         && args[13 + t] == "-write_xing" && args[14 + t] == "0"
      then
        Some(Invocation(args[0] == "-y", args[2], if t == 2 then Some(args[4]) else None,
                        args[3 + t + 1], args[6 + t], args[8 + t], args[10 + t], args[12 + t], args[15 + t]))
      else None
  }

  /** The command line determines the invocation: whether `-t` is present says whether there is a duration. */
  lemma {:induction false} ArgumentsRoundTrip(inv: Invocation)
    ensures ParseArguments(Arguments(inv)) == Some(inv)
  {
    ArgumentsLayout(inv);
  }

  /** Every argument list the parser accepts is the layout of what it returns. */
  lemma {:induction false} ParsedArgumentsAreExact(args: seq<string>)
    ensures ParseArguments(args).Some? ==> Arguments(ParseArguments(args).value) == args
  {
    if ParseArguments(args).Some? {
      ArgumentsLayout(ParseArguments(args).value);
    }
  }

  /** The invocation for segment `i` of an episode. */
  function SegmentInvocation(episode: Episode, i: nat, episodeFile: string, outputDir: string, overwrite: bool, render: Render): Invocation
    requires HasStartPairs(episode.segments)
    requires i < |episode.segments|
  {
    var w := Windows(episode.segments)[i];
    var segment := episode.segments[i];
    Invocation(
      overwrite,
      render(w.startSeconds),
      if w.duration.Some? then Some(render(w.duration.value)) else None,
      episodeFile,
      TitleTag(episode.number, episode.title, segment.title),
      ArtistTag,
      AlbumTag(episode.title),
      TrackTag(w.number, w.total),
      Paths.Join(outputDir, FileName(episode.number, episode.title, w.number, segment.title)))
  }

  function SegmentArguments(episode: Episode, i: nat, episodeFile: string, outputDir: string, overwrite: bool, render: Render): seq<string>
    requires HasStartPairs(episode.segments)
    requires i < |episode.segments|
  {
    Arguments(SegmentInvocation(episode, i, episodeFile, outputDir, overwrite, render))
  }

  /**
   * The command line for segment `i`, in the episode's own terms: the
   * overwrite flag, its start in seconds after `-ss`, `-t` with the gap to the
   * next start except for the last segment, the input, the four tags with
   * "{i+1}/{segment count}" as the track, and the output path.
   */
  lemma {:induction false} SegmentArgumentsLayout(episode: Episode, i: nat, episodeFile: string, outputDir: string, overwrite: bool, render: Render)
    requires HasStartPairs(episode.segments)
    requires i < |episode.segments|
    ensures var segments := episode.segments;
      SegmentArguments(episode, i, episodeFile, outputDir, overwrite, render)
      == [if overwrite then "-y" else "-n"] + ["-ss", render(StartSeconds(segments[i]))]
         + (if i == |segments| - 1 then []
            else ["-t", render(StartSeconds(segments[i + 1]) - StartSeconds(segments[i]))])
         + ["-i", episodeFile]
         + ["-metadata", TitleTag(episode.number, episode.title, segments[i].title)]
         + ["-metadata", ArtistTag]
         + ["-metadata", AlbumTag(episode.title)]
         + ["-metadata", TrackTag(i + 1, |segments|)]
         + ["-write_xing", "0"]
         + [Paths.Join(outputDir, FileName(episode.number, episode.title, i + 1, segments[i].title))]
  {
    WindowAt(episode.segments, i);
    ArgumentsLayout(SegmentInvocation(episode, i, episodeFile, outputDir, overwrite, render));
  }

  /**
   * The invocation for segment `i` in the terms of `split_episode`'s loop,
   * which walks the segments paired with their successors: the start of the
   * pair's first segment, the gap to its successor's start when there is one,
   * and the pair's first title.
   */
  lemma {:induction false} PairInvocation(episode: Episode, i: nat, pair: (Segment, Option<Segment>), episodeFile: string,
                       outputDir: string, overwrite: bool, render: Render)
    requires HasStartPairs(episode.segments)
    requires i < |episode.segments|
    requires pair == SuccessorPairs(episode.segments)[i]
    ensures |pair.0.start| >= 2 && (pair.1.Some? ==> |pair.1.value.start| >= 2)
    ensures var (current, next) := pair;
      SegmentInvocation(episode, i, episodeFile, outputDir, overwrite, render)
      == Invocation(
           overwrite,
           render(StartSeconds(current)),
           if next.Some? then Some(render(StartSeconds(next.value) - StartSeconds(current))) else None,
           episodeFile,
           TitleTag(episode.number, episode.title, current.title),
           ArtistTag,
           AlbumTag(episode.title),
           TrackTag(i + 1, |episode.segments|),
           Paths.Join(outputDir, FileName(episode.number, episode.title, i + 1, current.title)))
  {
    var segments := episode.segments;
    var w := Windows(segments)[i];
    WindowAt(segments, i);
    assert pair.0 == segments[i];
    assert pair.1 == if i + 1 < |segments| then Some(segments[i + 1]) else None;
    assert w.number == i + 1 && w.total == |segments|;
    assert w.duration == if pair.1.Some? then Some(StartSeconds(pair.1.value) - StartSeconds(pair.0)) else None;
  }

  /** The argument lists of all segments, in list order. */
  function Plan(episode: Episode, episodeFile: string, outputDir: string, overwrite: bool, render: Render): (plan: seq<seq<string>>)
    requires HasStartPairs(episode.segments)
    ensures |plan| == |episode.segments|
  {
    seq(|episode.segments|, i =>
      if 0 <= i < |episode.segments| then SegmentArguments(episode, i, episodeFile, outputDir, overwrite, render) else [])
  }

  /** Entry `i` of the plan is segment `i`'s argument list. */
  lemma {:induction false} PlanAt(episode: Episode, i: nat, episodeFile: string, outputDir: string, overwrite: bool, render: Render)
    requires HasStartPairs(episode.segments) && i < |episode.segments|
    ensures Plan(episode, episodeFile, outputDir, overwrite, render)[i]
         == SegmentArguments(episode, i, episodeFile, outputDir, overwrite, render)
  {
  }

  /**
   * Both segments of a successor pair carry a minute and a second. `PairInvocation`
   * and `PlanEntry` repeat this as their first `ensures` because their second one
   * needs it to be well-formed; this lemma gives the fact on its own, before any
   * argument list exists.
   */
  lemma {:induction false} PairStarts(segments: seq<Segment>, i: nat, pair: (Segment, Option<Segment>))
    requires HasStartPairs(segments) && i < |segments|
    requires pair == SuccessorPairs(segments)[i]
    ensures |pair.0.start| >= 2 && (pair.1.Some? ==> |pair.1.value.start| >= 2)
  {
    assert pair.0 == segments[i];
    if pair.1.Some? {
      assert pair.1.value == segments[i + 1];
    }
  }

  /**
   * The plan's entry for segment `i` in the terms of `split_episode`'s loop:
   * the command line of the invocation `PairInvocation` describes.
   */
  lemma {:induction false} PlanEntry(episode: Episode, i: nat, pair: (Segment, Option<Segment>), episodeFile: string,
                  outputDir: string, overwrite: bool, render: Render)
    requires HasStartPairs(episode.segments)
    requires i < |episode.segments|
    requires pair == SuccessorPairs(episode.segments)[i]
    ensures |pair.0.start| >= 2 && (pair.1.Some? ==> |pair.1.value.start| >= 2)
    ensures Plan(episode, episodeFile, outputDir, overwrite, render)[i]
      == Arguments(Invocation(
           overwrite,
           render(StartSeconds(pair.0)),
           if pair.1.Some? then Some(render(StartSeconds(pair.1.value) - StartSeconds(pair.0))) else None,
           episodeFile,
           TitleTag(episode.number, episode.title, pair.0.title),
           ArtistTag,
           AlbumTag(episode.title),
           TrackTag(i + 1, |episode.segments|),
           Paths.Join(outputDir, FileName(episode.number, episode.title, i + 1, pair.0.title))))
  {
    PairInvocation(episode, i, pair, episodeFile, outputDir, overwrite, render);
    PlanAt(episode, i, episodeFile, outputDir, overwrite, render);
  }

  /** The example of two segments starting at 0:00 and 5:30: the first lasts 330 seconds, the second runs to the end. */
  lemma {:induction false} TwoSegmentExample(a: string, b: string)
    ensures var segments := [Segment(a, [0.0, 0.0]), Segment(b, [5.0, 30.0])];
      Windows(segments) == [Window(0.0, Some(330.0), 1, 2), Window(330.0, None, 2, 2)]
  {
    var segments := [Segment(a, [0.0, 0.0]), Segment(b, [5.0, 30.0])];
    WindowAt(segments, 0);
    WindowAt(segments, 1);
  }
}
