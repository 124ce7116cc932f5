/**
 * The data-file validator: checks that decoded episode data has the shape the
 * splitter relies on, field by field in a fixed order, and reports the first
 * violation as a Python exception kind.
 */
module CheckData {
  import opened Optional
  import opened Values

  /** The Python exception classes the validator raises. */
  datatype Kind = KeyError | TypeError | ValueError

  /** The conditions checked on one episode mapping, in the order they are checked. */
  datatype EpisodeCheck =
    | EpisodeNotMapping      // `episode[...]` on a non-mapping raises TypeError before any KeyError
    | NumberMissing
    | NumberNotIntOrString
    | TitleMissing
    | TitleNotString
    | Mp3UrlMissing
    | Mp3UrlNotString
    | SegmentsMissing
    | SegmentsNotSequence
    | SegmentsEmpty

  /** The conditions checked on one segment mapping, in the order they are checked. */
  datatype SegmentCheck =
    | SegmentNotMapping      // `segment[...]` on a non-mapping raises TypeError before any KeyError
    | SegmentTitleMissing
    | SegmentTitleNotString
    | StartMissing
    | StartNotSequence
    | StartTooShort
    | MinuteNotCastable
    | MinuteNegative
    | SecondNotCastable
    | SecondNegative

  /** Why validation failed. */
  datatype Reason = NotAList | InEpisode(e: EpisodeCheck) | InSegment(s: SegmentCheck)

  /** The exception kind raised for each reason. */
  function KindOf(r: Reason): Kind {
    match r
    case NotAList => TypeError
    case InEpisode(c) =>
      (match c
       case NumberMissing | TitleMissing | Mp3UrlMissing | SegmentsMissing => KeyError
       case SegmentsEmpty => ValueError
       case _ => TypeError)
    case InSegment(c) =>
      (match c
       case SegmentTitleMissing | StartMissing => KeyError
       case MinuteNegative | SecondNegative => ValueError
       case _ => TypeError)
  }

  /** A check either returns normally or raises. */
  datatype Outcome = Pass | Fail(reason: Reason)

  /** Position of each episode condition in the checking order. */
  function EpisodeRank(c: EpisodeCheck): nat {
    match c
    case EpisodeNotMapping => 0
    case NumberMissing => 1
    case NumberNotIntOrString => 2
    case TitleMissing => 3
    case TitleNotString => 4
    case Mp3UrlMissing => 5
    case Mp3UrlNotString => 6
    case SegmentsMissing => 7
    case SegmentsNotSequence => 8
    case SegmentsEmpty => 9
  }

  /** Position of each segment condition in the checking order. */
  function SegmentRank(c: SegmentCheck): nat {
    match c
    case SegmentNotMapping => 0
    case SegmentTitleMissing => 1
    case SegmentTitleNotString => 2
    case StartMissing => 3
    case StartNotSequence => 4
    case StartTooShort => 5
    case MinuteNotCastable => 6
    case MinuteNegative => 7
    case SecondNotCastable => 8
    case SecondNegative => 9
  }

  // ---------------------------------------------------------------------
  // The checks as the code performs them
  // ---------------------------------------------------------------------

  /** `check_overall_data_type`: the top level must be a sequence and not a string. */
  function CheckOverallDataType(data: Value): (r: Outcome)
    ensures r == Pass <==> IsSequence(data) && !IsString(data)
    ensures r != Pass ==> r == Fail(NotAList) && KindOf(r.reason) == TypeError
  {
    if IsSequence(data) && !IsString(data) then Pass else Fail(NotAList)
  }

  /** The value of `float(x)` as far as the sign test is concerned, or the failure it causes. */
  function CheckStartValue(x: Value, notCastable: SegmentCheck, negative: SegmentCheck, parse: FloatParser): Outcome {
    match ToFloat(x, parse)
    case Converted(f) => if IsNegative(f) then Fail(InSegment(negative)) else Pass
    case _ => Fail(InSegment(notCastable))
  }

  /**
   * `check_required_segment_data`. Looking a key up in a value that is not a
   * mapping raises TypeError from Python itself; a failed `float()` raises
   * ValueError (caught and turned into TypeError) or TypeError (passed on).
   */
  function CheckSegment(segment: Value, parse: FloatParser): Outcome {
    if !segment.Dict? then Fail(InSegment(SegmentNotMapping))
    else if "title" !in segment.fields then Fail(InSegment(SegmentTitleMissing))
    else if !IsString(segment.fields["title"]) then Fail(InSegment(SegmentTitleNotString))
    else if "start" !in segment.fields then Fail(InSegment(StartMissing))
    else
      var start := segment.fields["start"];
      if !IsSequence(start) then Fail(InSegment(StartNotSequence))
      else if Length(start) < 2 then Fail(InSegment(StartTooShort))
      else
        var minutes := CheckStartValue(Elements(start)[0], MinuteNotCastable, MinuteNegative, parse);
        if minutes.Fail? then minutes
        else CheckStartValue(Elements(start)[1], SecondNotCastable, SecondNegative, parse)
  }

  /** A `for` loop of checks: the first check that raises ends it. */
  function FirstFailure<T>(xs: seq<T>, check: T -> Outcome): Outcome {
    if xs == [] then Pass
    else if check(xs[0]).Fail? then check(xs[0])
    else FirstFailure(xs[1..], check)
  }

  /** The field checks of `check_required_episode_data`, before its loop over the segments. */
  function CheckEpisodeFields(episode: Value): Outcome {
    if !episode.Dict? then Fail(InEpisode(EpisodeNotMapping))
    else
      var m := episode.fields;
      if "episode_number" !in m then Fail(InEpisode(NumberMissing))
      else if !(IsInt(m["episode_number"]) || IsString(m["episode_number"])) then Fail(InEpisode(NumberNotIntOrString))
      else if "title" !in m then Fail(InEpisode(TitleMissing))
      else if !IsString(m["title"]) then Fail(InEpisode(TitleNotString))
      else if "mp3_url" !in m then Fail(InEpisode(Mp3UrlMissing))
      else if !IsString(m["mp3_url"]) then Fail(InEpisode(Mp3UrlNotString))
      else if "segments" !in m then Fail(InEpisode(SegmentsMissing))
      else if !IsSequence(m["segments"]) then Fail(InEpisode(SegmentsNotSequence))
      else if Length(m["segments"]) == 0 then Fail(InEpisode(SegmentsEmpty))
      else Pass
  }

  /** `check_required_episode_data`: the field checks, then every segment in list order. */
  function CheckEpisode(episode: Value, parse: FloatParser): Outcome {
    if CheckEpisodeFields(episode).Fail? then CheckEpisodeFields(episode)
    else FirstFailure(EpisodeSegments(episode), s => CheckSegment(s, parse))
  }

  /**
   * `main` after decoding: the top-level check, then every episode in list
   * order. `Pass` is the run that reaches "All OK!".
   */
  function CheckAll(data: Value, parse: FloatParser): Outcome {
    if CheckOverallDataType(data).Fail? then CheckOverallDataType(data)
    else FirstFailure(data.items, e => CheckEpisode(e, parse))
  }

  // ---------------------------------------------------------------------
  // The conditions stated one by one, independently of the checking order
  // ---------------------------------------------------------------------

  /** Element `i` of a segment's `start`, when the segment has a `start` sequence that long. */
  function StartElement(segment: Value, i: nat): Option<Value> {
    if segment.Dict? && "start" in segment.fields && IsSequence(segment.fields["start"])
       && i < Length(segment.fields["start"])
    then Some(Elements(segment.fields["start"])[i])
    else None
  }

  predicate NotCastableAt(segment: Value, i: nat, parse: FloatParser) {
    StartElement(segment, i).Some? && !ToFloat(StartElement(segment, i).value, parse).Converted?
  }

  predicate NegativeAt(segment: Value, i: nat, parse: FloatParser) {
    StartElement(segment, i).Some? && ToFloat(StartElement(segment, i).value, parse).Converted?
    && IsNegative(ToFloat(StartElement(segment, i).value, parse).f)
  }

  /**
   * `SegmentViolates(segment, c)`: the condition `c` names is broken, judged on
   * its own — every other field may be anything.
   */
  predicate SegmentViolates(segment: Value, c: SegmentCheck, parse: FloatParser) {
    match c
    case SegmentNotMapping => !segment.Dict?
    case SegmentTitleMissing => segment.Dict? && "title" !in segment.fields
    case SegmentTitleNotString => segment.Dict? && "title" in segment.fields && !IsString(segment.fields["title"])
    case StartMissing => segment.Dict? && "start" !in segment.fields
    case StartNotSequence => segment.Dict? && "start" in segment.fields && !IsSequence(segment.fields["start"])
    case StartTooShort =>
      segment.Dict? && "start" in segment.fields && IsSequence(segment.fields["start"])
      && Length(segment.fields["start"]) < 2
    case MinuteNotCastable => NotCastableAt(segment, 0, parse)
    case MinuteNegative => NegativeAt(segment, 0, parse)
    case SecondNotCastable => NotCastableAt(segment, 1, parse)
    case SecondNegative => NegativeAt(segment, 1, parse)
  }

  /** The segments an episode lists, when it has a `segments` sequence. */
  function EpisodeSegments(episode: Value): seq<Value> {
    if episode.Dict? && "segments" in episode.fields && IsSequence(episode.fields["segments"])
    then Elements(episode.fields["segments"])
    else []
  }

  predicate FieldMissing(episode: Value, key: string) {
    episode.Dict? && key !in episode.fields
  }

  predicate FieldNotString(episode: Value, key: string) {
    episode.Dict? && key in episode.fields && !IsString(episode.fields[key])
  }

  /** `EpisodeViolates(episode, c)`: the episode-level condition `c` is broken, judged on its own. */
  predicate EpisodeViolates(episode: Value, c: EpisodeCheck) {
    match c
    case EpisodeNotMapping => !episode.Dict?
    case NumberMissing => FieldMissing(episode, "episode_number")
    case NumberNotIntOrString =>
      episode.Dict? && "episode_number" in episode.fields
      && !(IsInt(episode.fields["episode_number"]) || IsString(episode.fields["episode_number"]))
    case TitleMissing => FieldMissing(episode, "title")
    case TitleNotString => FieldNotString(episode, "title")
    case Mp3UrlMissing => FieldMissing(episode, "mp3_url")
    case Mp3UrlNotString => FieldNotString(episode, "mp3_url")
    case SegmentsMissing => FieldMissing(episode, "segments")
    case SegmentsNotSequence =>
      episode.Dict? && "segments" in episode.fields && !IsSequence(episode.fields["segments"])
    case SegmentsEmpty =>
      episode.Dict? && "segments" in episode.fields && IsSequence(episode.fields["segments"])
      && Length(episode.fields["segments"]) == 0
  }

  // ---------------------------------------------------------------------
  // What the checks report
  // ---------------------------------------------------------------------

  /** A loop of checks passes iff every element passes, and otherwise reports the first failing element's failure. */
  lemma {:induction false} FirstFailureIsFirst<T>(xs: seq<T>, check: T -> Outcome)
    ensures FirstFailure(xs, check) == Pass <==> forall k :: 0 <= k < |xs| ==> check(xs[k]) == Pass
    ensures FirstFailure(xs, check).Fail? ==>
      exists k :: 0 <= k < |xs| && check(xs[k]) == FirstFailure(xs, check)
                  && forall j :: 0 <= j < k ==> check(xs[j]) == Pass
  {
    if xs != [] {
      FirstFailureIsFirst(xs[1..], check);
      if check(xs[0]).Fail? {
        assert check(xs[0]) == FirstFailure(xs, check);
      } else {
        assert forall k :: 1 <= k < |xs| ==> xs[k] == xs[1..][k - 1];
        if FirstFailure(xs, check).Fail? {
          var k :| 0 <= k < |xs[1..]| && check(xs[1..][k]) == FirstFailure(xs[1..], check)
                   && forall j :: 0 <= j < k ==> check(xs[1..][j]) == Pass;
          assert check(xs[k + 1]) == FirstFailure(xs, check);
          assert forall j :: 0 <= j < k + 1 ==> check(xs[j]) == Pass by {
            forall j | 0 <= j < k + 1 ensures check(xs[j]) == Pass {
              if j > 0 { assert xs[j] == xs[1..][j - 1]; }
            }
          }
        }
      }
    }
  }

  /**
   * A segment passes iff it violates no condition; otherwise the reported
   * reason is a violated condition and no violated condition comes earlier in
   * the checking order.
   */
  lemma {:induction false} CheckSegmentReportsFirstViolation(segment: Value, parse: FloatParser)
    ensures CheckSegment(segment, parse) == Pass <==> forall c :: !SegmentViolates(segment, c, parse)
    ensures CheckSegment(segment, parse).Fail? ==>
      CheckSegment(segment, parse).reason.InSegment? &&
      var c := CheckSegment(segment, parse).reason.s;
      SegmentViolates(segment, c, parse) &&
      forall c' :: SegmentViolates(segment, c', parse) ==> SegmentRank(c) <= SegmentRank(c')
  {
    if CheckSegment(segment, parse) == Pass {
      forall c ensures !SegmentViolates(segment, c, parse) {
        match c
        case SegmentNotMapping =>
        case SegmentTitleMissing =>
        case SegmentTitleNotString =>
        case StartMissing =>
        case StartNotSequence =>
        case StartTooShort =>
        case MinuteNotCastable =>
        case MinuteNegative =>
        case SecondNotCastable =>
        case SecondNegative =>
      }
    } else {
      assert SegmentViolates(segment, CheckSegment(segment, parse).reason.s, parse);
    }
  }

  /**
   * The field checks pass iff the episode violates no episode condition;
   * otherwise they report a violated condition and no violated condition
   * comes earlier in the checking order.
   */
  lemma {:induction false} CheckEpisodeFieldsReportsFirstViolation(episode: Value)
    ensures CheckEpisodeFields(episode) == Pass <==> forall c :: !EpisodeViolates(episode, c)
    ensures CheckEpisodeFields(episode).Fail? ==>
      CheckEpisodeFields(episode).reason.InEpisode? &&
      var c := CheckEpisodeFields(episode).reason.e;
      EpisodeViolates(episode, c) && forall c' :: EpisodeViolates(episode, c') ==> EpisodeRank(c) <= EpisodeRank(c')
  {
    if CheckEpisodeFields(episode) == Pass {
      forall c ensures !EpisodeViolates(episode, c) {
        match c
        case EpisodeNotMapping =>
        case NumberMissing =>
        case NumberNotIntOrString =>
        case TitleMissing =>
        case TitleNotString =>
        case Mp3UrlMissing =>
        case Mp3UrlNotString =>
        case SegmentsMissing =>
        case SegmentsNotSequence =>
        case SegmentsEmpty =>
      }
    } else {
      assert EpisodeViolates(episode, CheckEpisodeFields(episode).reason.e);
    }
  }

  /**
   * An episode passes iff it violates no episode condition and every segment
   * passes. Otherwise the reason is either the earliest violated episode
   * condition, or, when there is none, the failure of the first failing segment.
   */
  lemma {:induction false} CheckEpisodeReportsFirstViolation(episode: Value, parse: FloatParser)
    ensures CheckEpisode(episode, parse) == Pass <==>
      (forall c :: !EpisodeViolates(episode, c)) &&
      forall k :: 0 <= k < |EpisodeSegments(episode)| ==> CheckSegment(EpisodeSegments(episode)[k], parse) == Pass
    ensures CheckEpisode(episode, parse).Fail? && CheckEpisode(episode, parse).reason.InEpisode? ==>
      var c := CheckEpisode(episode, parse).reason.e;
      EpisodeViolates(episode, c) && forall c' :: EpisodeViolates(episode, c') ==> EpisodeRank(c) <= EpisodeRank(c')
    ensures CheckEpisode(episode, parse).Fail? && !CheckEpisode(episode, parse).reason.InEpisode? ==>
      (forall c :: !EpisodeViolates(episode, c)) &&
      exists k :: 0 <= k < |EpisodeSegments(episode)|
        && CheckSegment(EpisodeSegments(episode)[k], parse) == CheckEpisode(episode, parse)
        && forall j :: 0 <= j < k ==> CheckSegment(EpisodeSegments(episode)[j], parse) == Pass
  {
    CheckEpisodeFieldsReportsFirstViolation(episode);
    if CheckEpisodeFields(episode) == Pass {
      var segments := EpisodeSegments(episode);
      var check := s => CheckSegment(s, parse);
      FirstFailureIsFirst(segments, check);
      if CheckEpisode(episode, parse).Fail? {
        var k :| 0 <= k < |segments| && check(segments[k]) == FirstFailure(segments, check)
                 && forall j :: 0 <= j < k ==> check(segments[j]) == Pass;
        assert CheckSegment(segments[k], parse).reason.InSegment?;
      }
    }
  }

  /**
   * The whole file passes ("All OK!") iff the top level is a non-string
   * sequence and every episode passes; otherwise the run stops at the first
   * failing episode and reports its failure.
   */
  lemma {:induction false} CheckAllReportsFirstFailure(data: Value, parse: FloatParser)
    ensures CheckAll(data, parse) == Pass <==>
      data.List? && forall k :: 0 <= k < |data.items| ==> CheckEpisode(data.items[k], parse) == Pass
    ensures !data.List? ==> CheckAll(data, parse) == Fail(NotAList)
    ensures data.List? && CheckAll(data, parse).Fail? ==>
      exists k :: 0 <= k < |data.items| && CheckEpisode(data.items[k], parse) == CheckAll(data, parse)
        && forall j :: 0 <= j < k ==> CheckEpisode(data.items[j], parse) == Pass
  {
    if data.List? {
      FirstFailureIsFirst(data.items, e => CheckEpisode(e, parse));
    }
  }
}
