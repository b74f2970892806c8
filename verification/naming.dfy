/** Naming of a recording session: the recording id built in `startRecording`
    (a formatted timestamp, a dot, and ten characters of a random string) and the
    path of the audio file derived from it, in `startRecording` and again in
    `stopRecording`. */
module Naming {

  import opened Wrappers

  /* ---------- JavaScript's String.prototype.substring ---------- */

  /** Clamps an index into 0..n, as `substring` does with each bound. */
  function Clamp(i: int, n: nat): (c: nat)
    ensures c <= n
    ensures 0 <= i <= n ==> c == i
  {
    if i < 0 then 0 else if i > n then n else i
  }

  /** `s.substring(start, end)`: both bounds are clamped into the string, and
      swapped when the first exceeds the second. */
  function JsSubstring(s: string, start: int, end: int): string
  {
    var a, b := Clamp(start, |s|), Clamp(end, |s|);
    if a <= b then s[a..b] else s[b..a]
  }

  /* ---------- the recording id ---------- */

  /** The pattern handed to `date.format`; every token is fixed-width, so a
      formatted timestamp is exactly as long as the pattern. */
  const TimestampPattern: string := "YYYY-MM-DD.HH-mm-ss-SSS"

  const TimestampLength: nat := |TimestampPattern|

  /** First and last positions of the random string kept in the id. */
  const SuffixStart: nat := 2
  const SuffixEnd: nat := 12

  predicate IsDigit(c: char) {
    '0' <= c <= '9'
  }

  /** The letters of the pattern that `date.format` replaces by digits. */
  predicate IsPatternToken(c: char) {
    c == 'Y' || c == 'M' || c == 'D' || c == 'H' || c == 'm' || c == 's' || c == 'S'
  }

  /** `t` is a possible output of `date.format(d, TimestampPattern)`: a digit
      where the pattern has a token letter, the pattern's own separator elsewhere. */
  predicate IsTimestamp(t: string) {
    && |t| == TimestampLength
    && forall k :: 0 <= k < |t| ==>
         if IsPatternToken(TimestampPattern[k]) then IsDigit(t[k]) else t[k] == TimestampPattern[k]
  }

  /** The part of `Math.random().toString(32)` kept in the id: `substring(2, 12)`,
      which skips the leading "0." of the base-32 rendering. */
  function RandomSuffix(random: string): (suffix: string)
    ensures |suffix| <= SuffixEnd - SuffixStart
    ensures |suffix| == if |random| <= SuffixStart then 0
                        else if |random| < SuffixEnd then |random| - SuffixStart
                        else SuffixEnd - SuffixStart
    ensures forall k :: 0 <= k < |suffix| ==> suffix[k] == random[SuffixStart + k]
  {
    JsSubstring(random, SuffixStart, SuffixEnd)
  }

  /** `recordingId` as `startRecording` assigns it: timestamp, ".", random suffix. */
  function RecordingId(timestamp: string, random: string): (id: string)
    ensures |id| == |timestamp| + 1 + |RandomSuffix(random)|
    ensures id[..|timestamp|] == timestamp
    ensures id[|timestamp|] == '.'
    ensures id[|timestamp| + 1..] == RandomSuffix(random)
  {
    timestamp + "." + RandomSuffix(random)
  }

  /** Reads a recording id back into its timestamp and its random suffix. */
  function SplitRecordingId(id: string): Option<(string, string)>
  {
    if |id| > TimestampLength && id[TimestampLength] == '.' && IsTimestamp(id[..TimestampLength])
    then Some((id[..TimestampLength], id[TimestampLength + 1..]))
    else None
  }

  /** Every id built from a formatted timestamp splits back into its two parts. */
  lemma RecordingIdSplits(timestamp: string, random: string)
    requires IsTimestamp(timestamp)
    ensures SplitRecordingId(RecordingId(timestamp, random)) == Some((timestamp, RandomSuffix(random)))
  {
  }

  /** Everything that splits is an id `startRecording` can produce: its suffix,
      if at most ten characters, is the suffix of the random string "0." + suffix. */
  lemma SplitRecordingIdSound(id: string, timestamp: string, suffix: string)
    requires SplitRecordingId(id) == Some((timestamp, suffix))
    requires |suffix| <= SuffixEnd - SuffixStart
    ensures IsTimestamp(timestamp)
    ensures RandomSuffix("0." + suffix) == suffix
    ensures id == RecordingId(timestamp, "0." + suffix)
  {
  }

  /** Two ids with formatted timestamps coincide exactly when their timestamps
      and their random suffixes do. */
  lemma RecordingIdInjective(t1: string, r1: string, t2: string, r2: string)
    requires IsTimestamp(t1) && IsTimestamp(t2)
    ensures RecordingId(t1, r1) == RecordingId(t2, r2) <==> t1 == t2 && RandomSuffix(r1) == RandomSuffix(r2)
  {
    RecordingIdSplits(t1, r1);
    RecordingIdSplits(t2, r2);
  }

  /* ---------- the audio file path ---------- */

  /** The relative folder both sites pass to `path.join`. */
  const RecordingsFolder: string := "recordings"

  /** The separator `path.join` inserts on a POSIX host. */
  const Separator: char := '/'

  /** `id + "." + format`. */
  function AudioFileName(id: string, format: string): (name: string)
    ensures |name| == |id| + 1 + |format|
    ensures name[..|id|] == id
    ensures name[|id|] == '.'
    ensures name[|id| + 1..] == format
  {
    id + "." + format
  }

  /** A path segment `path.join` leaves as it is: non-empty, no separator,
      and not one of the dot segments it would resolve. */
  predicate PlainSegment(name: string) {
    name != "" && name != "." && name != ".." && Separator !in name
  }

  /** `path.join(dir, name)` for two plain segments: one separator between them. */
  function JoinPath(dir: string, name: string): string
  {
    dir + [Separator] + name
  }

  /** The file a recording is written to, and the one `stopRecording` hands to
      `generate`: `path.join("recordings", id + "." + format)`. */
  function AudioPath(id: string, format: string): (path: string)
    ensures |path| == |RecordingsFolder| + 1 + |id| + 1 + |format|
    ensures path[..|RecordingsFolder| + 1] == RecordingsFolder + [Separator]
    ensures path[|path| - |format| - 1..] == "." + format
  {
    JoinPath(RecordingsFolder, AudioFileName(id, format))
  }

  /** The file name is a plain segment whenever the random string and the format
      hold no separator, so the two-segment join above is what `path.join` does. */
  lemma AudioFileNameIsPlain(timestamp: string, random: string, format: string)
    requires IsTimestamp(timestamp)
    requires Separator !in random && Separator !in format
    ensures PlainSegment(AudioFileName(RecordingId(timestamp, random), format))
  {
  }

  /** Reads the recording id back out of an audio path for a given format. */
  function AudioPathId(path: string, format: string): Option<string>
  {
    var head, tail := |RecordingsFolder| + 1, 1 + |format|;
    if |path| >= head + tail && path[..head] == RecordingsFolder + [Separator]
       && path[|path| - tail..] == "." + format
    then Some(path[head..|path| - tail])
    else None
  }

  lemma AudioPathRoundTrip(id: string, format: string)
    ensures AudioPathId(AudioPath(id, format), format) == Some(id)
  {
    var path := AudioPath(id, format);
    assert path[|RecordingsFolder| + 1..|path| - 1 - |format|] == id;
  }

  lemma AudioPathIdSound(path: string, format: string, id: string)
    requires AudioPathId(path, format) == Some(id)
    ensures AudioPath(id, format) == path
  {
  }

  /** For a fixed format, different ids give different audio paths: a path names
      exactly one recording. */
  lemma AudioPathInjective(id1: string, id2: string, format: string)
    ensures AudioPath(id1, format) == AudioPath(id2, format) <==> id1 == id2
  {
  }

}
