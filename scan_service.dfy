/** The mock detection service: a confidence score drawn per content type, the
    verdict and the markers derived from that score, and the in-memory store of
    results with its history query, which seeds ten synthetic scans the first
    time it finds the store empty.

    Every `Math.random()` draw is a parameter in [0, 1) and every `Date.now()`
    an integer parameter (milliseconds since the epoch). */
module ScanService {
  import opened Results
  import Text

  datatype Severity = Low | Medium | High

  /** A bounding box on a picture or video frame, in percent. */
  datatype Location = Location(x: int, y: int, width: int, height: int)

  /** One entry of a content type's marker vocabulary. */
  datatype MarkerKind = MarkerKind(kind: string, description: string)

  datatype Marker = Marker(kind: string, description: string, severity: Severity, location: Option<Location>)

  datatype ScanResult = ScanResult(
    id: string,
    userId: string,
    contentType: string,
    originalContent: string,
    scanDate: int,             // milliseconds since the epoch
    isDeepfake: bool,
    confidenceScore: real,
    detectedMarkers: seq<Marker>,
    processingTime: int)       // milliseconds

  /** The four location draws of one marker. */
  datatype LocationDraw = LocationDraw(x: real, y: real, width: real, height: real)

  /** The draws one scan consumes: the base score, the processing time, the
      order the shuffle leaves the five vocabulary entries in, and location draws. */
  datatype ScanDraws = ScanDraws(score: real, timing: real, shuffle: seq<nat>, locations: seq<LocationDraw>)

  /** The draws one seeded scan consumes on top of its ScanDraws. */
  datatype SeedDraw = SeedDraw(contentType: real, photo: real, daysAgo: real, scan: ScanDraws)

  const DayMs: int := 86_400_000

  const ContentTypes: seq<string> := ["image", "video", "audio", "text"]

  predicate IsDraw(r: real) { 0.0 <= r < 1.0 }

  predicate IsLocationDraw(d: LocationDraw)
  {
    IsDraw(d.x) && IsDraw(d.y) && IsDraw(d.width) && IsDraw(d.height)
  }

  /** `order` lists 0 .. n-1, each once: what a shuffle of an n-element list leaves. */
  predicate IsShuffle(order: seq<nat>, n: nat)
  {
    && |order| == n
    && (forall i :: 0 <= i < n ==> order[i] < n)
    && (forall i, j :: 0 <= i < j < n ==> order[i] != order[j])
  }

  predicate ValidDraws(d: ScanDraws)
  {
    && IsDraw(d.score)
    && IsDraw(d.timing)
    && IsShuffle(d.shuffle, 5)
    && |d.locations| >= 5
    && (forall i :: 0 <= i < |d.locations| ==> IsLocationDraw(d.locations[i]))
  }

  predicate ValidSeed(d: SeedDraw)
  {
    IsDraw(d.contentType) && IsDraw(d.photo) && IsDraw(d.daysAgo) && ValidDraws(d.scan)
  }

  // ---------------------------------------------------------------------------
  // score, verdict, markers

  /** The per-type scaling of the base score; any other string keeps the base score. */
  function TypeFactor(contentType: string): real
  {
    if contentType == "image" then 0.8
    else if contentType == "video" then 0.9
    else if contentType == "audio" then 0.7
    else if contentType == "text" then 0.6
    else 1.0
  }

  /** generateRandomScore: a base score uniform in [0, 100) scaled by the type's factor. */
  function GenerateRandomScore(contentType: string, draw: real): (score: real)
    requires IsDraw(draw)
    ensures 0.0 <= score < 100.0 * TypeFactor(contentType) <= 100.0
    ensures score <= draw * 100.0
  {
    var baseScore := draw * 100.0;
    baseScore * TypeFactor(contentType)
  }

  /** For one base draw the types score in the order text, audio, image, video, and
      then any string that is not one of the four types. */
  lemma ScoreOrderByType(draw: real, other: string)
    requires IsDraw(draw)
    ensures GenerateRandomScore("text", draw) <= GenerateRandomScore("audio", draw)
    ensures GenerateRandomScore("audio", draw) <= GenerateRandomScore("image", draw)
    ensures GenerateRandomScore("image", draw) <= GenerateRandomScore("video", draw)
    ensures other !in ContentTypes ==> GenerateRandomScore("video", draw) <= GenerateRandomScore(other, draw)
  {
    var b := draw * 100.0;
    assert b * 0.6 <= b * 0.7 <= b * 0.8 <= b * 0.9 <= b * 1.0;
  }

  /** The verdict rule: a scan is flagged exactly when its score exceeds 50. */
  predicate IsDeepfakeScore(score: real) { score > 50.0 }

  function SeverityOf(score: real): Severity
  {
    if score > 70.0 then High else if score > 40.0 then Medium else Low
  }

  function Rank(s: Severity): nat
  {
    match s
    case Low => 0
    case Medium => 1
    case High => 2
  }

  /** A higher score never gives a lower severity. */
  lemma SeverityMonotone(a: real, b: real)
    requires a <= b
    ensures Rank(SeverityOf(a)) <= Rank(SeverityOf(b))
  {
  }

  /** Audio scores stay below 70 and text scores below 60, so neither is ever 'high'. */
  lemma AudioAndTextNeverHigh(contentType: string, draw: real)
    requires contentType == "audio" || contentType == "text"
    requires IsDraw(draw)
    ensures SeverityOf(GenerateRandomScore(contentType, draw)) != High
  {
    assert TypeFactor(contentType) <= 0.7;
  }

  /** `Math.max(1, Math.floor(score / 20))`. */
  function MarkerCount(score: real): (count: int)
    ensures count >= 1
    ensures count == 1 || 20.0 * count as real <= score
    ensures score < 20.0 * (count + 1) as real
  {
    var quotient := (score / 20.0).Floor;
    if quotient < 1 then 1 else quotient
  }

  /** A score in [0, 100) asks for between one and four markers. */
  lemma MarkerCountRange(score: real)
    requires 0.0 <= score < 100.0
    ensures 1 <= MarkerCount(score) <= 4
  {
  }

  const ImageMarkers: seq<MarkerKind> :=
    [ MarkerKind("inconsistent_lighting", "Inconsistent lighting or shadows"),
      MarkerKind("unnatural_skin", "Unnatural skin texture or coloring"),
      MarkerKind("irregular_background", "Irregular background patterns"),
      MarkerKind("blurry_areas", "Unusual blurry areas"),
      MarkerKind("face_artifacts", "Artifacts around facial features") ]

  const VideoMarkers: seq<MarkerKind> :=
    [ MarkerKind("inconsistent_motion", "Inconsistent motion between frames"),
      MarkerKind("unnatural_blinking", "Unnatural eye blinking patterns"),
      MarkerKind("audio_mismatch", "Audio-visual synchronization issues"),
      MarkerKind("irregular_background", "Background inconsistencies"),
      MarkerKind("face_artifacts", "Facial boundary artifacts") ]

  const AudioMarkers: seq<MarkerKind> :=
    [ MarkerKind("unnatural_pauses", "Unnatural pauses or transitions"),
      MarkerKind("voice_artifacts", "Digital artifacts in voice"),
      MarkerKind("background_noise", "Inconsistent background noise"),
      MarkerKind("breathing_patterns", "Abnormal breathing patterns"),
      MarkerKind("accent_inconsistencies", "Accent or speech pattern inconsistencies") ]

  const TextMarkers: seq<MarkerKind> :=
    [ MarkerKind("repetitive_patterns", "Repetitive phrases or structures"),
      MarkerKind("inconsistent_style", "Inconsistent writing style"),
      MarkerKind("factual_errors", "Factual inconsistencies or errors"),
      MarkerKind("unusual_phrasing", "Unusual or awkward phrasing"),
      MarkerKind("context_issues", "Contextual inconsistencies") ]

  predicate KindsDistinct(v: seq<MarkerKind>)
  {
    forall a, b :: 0 <= a < b < |v| ==> v[a].kind != v[b].kind
  }

  /** The marker vocabulary of each type; any other string falls back to the image list.
      Each has five entries and no marker type twice. */
  function Vocabulary(contentType: string): (v: seq<MarkerKind>)
    ensures |v| == 5 && KindsDistinct(v)
    ensures contentType !in ContentTypes ==> v == ImageMarkers
  {
    if contentType == "image" then ImageMarkers
    else if contentType == "video" then VideoMarkers
    else if contentType == "audio" then AudioMarkers
    else if contentType == "text" then TextMarkers
    else ImageMarkers
  }

  predicate IsVisual(contentType: string) { contentType == "image" || contentType == "video" }

  predicate InFrame(loc: Location)
  {
    0 <= loc.x < 80 && 0 <= loc.y < 80 && 10 <= loc.width < 30 && 10 <= loc.height < 30
  }

  function LocationFrom(d: LocationDraw): (loc: Location)
    requires IsLocationDraw(d)
    ensures InFrame(loc)
  {
    Location((d.x * 80.0).Floor, (d.y * 80.0).Floor, (d.width * 20.0).Floor + 10, (d.height * 20.0).Floor + 10)
  }

  /** What every marker list of a scan of `contentType` scored `score` satisfies: one
      shared severity taken from the score, a location exactly for visual types and
      inside the frame, entries of the type's vocabulary, no marker type twice. */
  predicate MarkersFit(contentType: string, score: real, markers: seq<Marker>)
  {
    && (forall i :: 0 <= i < |markers| ==> markers[i].severity == SeverityOf(score))
    && (forall i :: 0 <= i < |markers| ==> (markers[i].location.Some? <==> IsVisual(contentType)))
    && (forall i :: 0 <= i < |markers| && markers[i].location.Some? ==> InFrame(markers[i].location.value))
    && (forall i :: 0 <= i < |markers| ==> MarkerKind(markers[i].kind, markers[i].description) in Vocabulary(contentType))
    && (forall i, j :: 0 <= i < j < |markers| ==> markers[i].kind != markers[j].kind)
  }

  /** generateRandomMarkers: the first `count` entries of the shuffled vocabulary
      (`slice` stops at the list's five entries), each given the severity of the
      score and, for image and video, a location. */
  function GenerateRandomMarkers(contentType: string, score: real, order: seq<nat>, locations: seq<LocationDraw>)
    : (markers: seq<Marker>)
    requires IsShuffle(order, 5)
    requires |locations| >= 5 && forall i :: 0 <= i < |locations| ==> IsLocationDraw(locations[i])
    ensures |markers| == if MarkerCount(score) < 5 then MarkerCount(score) else 5
    ensures MarkersFit(contentType, score, markers)
  {
    var vocabulary := Vocabulary(contentType);
    var count := MarkerCount(score);
    var n := if count < 5 then count else 5;
    var severity := SeverityOf(score);
    var markers := seq(n, i requires 0 <= i < n =>
      Marker(vocabulary[order[i]].kind, vocabulary[order[i]].description, severity,
             if IsVisual(contentType) then Some(LocationFrom(locations[i])) else None));
    ShuffledPicks(vocabulary, order, markers);
    markers
  }

  /** Entries picked from a vocabulary along a shuffle are vocabulary entries, and
      no marker type comes up twice. */
  lemma ShuffledPicks(v: seq<MarkerKind>, order: seq<nat>, markers: seq<Marker>)
    requires KindsDistinct(v) && IsShuffle(order, |v|) && |markers| <= |v|
    requires forall i :: 0 <= i < |markers| ==> markers[i].kind == v[order[i]].kind
    requires forall i :: 0 <= i < |markers| ==> markers[i].description == v[order[i]].description
    ensures forall i :: 0 <= i < |markers| ==> MarkerKind(markers[i].kind, markers[i].description) in v
    ensures forall i, j :: 0 <= i < j < |markers| ==> markers[i].kind != markers[j].kind
  {
    forall i | 0 <= i < |markers| ensures MarkerKind(markers[i].kind, markers[i].description) in v {
      assert MarkerKind(markers[i].kind, markers[i].description) == v[order[i]];
    }
    forall i, j | 0 <= i < j < |markers| ensures markers[i].kind != markers[j].kind {
      assert order[i] != order[j];
      if order[i] < order[j] { } else { }
    }
  }

  /** `Math.floor(Math.random() * 2000) + 1000`. */
  function ProcessingTime(draw: real): (ms: int)
    requires IsDraw(draw)
    ensures 1000 <= ms < 3000
  {
    (draw * 2000.0).Floor + 1000
  }

  // ---------------------------------------------------------------------------
  // scan results

  /** What the service promises of every scan it builds. */
  predicate Consistent(s: ScanResult)
  {
    && s.isDeepfake == IsDeepfakeScore(s.confidenceScore)
    && 0.0 <= s.confidenceScore < 100.0 * TypeFactor(s.contentType)
    && 1000 <= s.processingTime < 3000
    && |s.detectedMarkers| == MarkerCount(s.confidenceScore)
    && MarkersFit(s.contentType, s.confidenceScore, s.detectedMarkers)
  }

  /** The record scanContent and the seeding loop both build from their draws. */
  function NewScan(id: string, userId: string, contentType: string, content: string, date: int, d: ScanDraws)
    : (s: ScanResult)
    requires ValidDraws(d)
    ensures Consistent(s)
    ensures s.id == id && s.userId == userId && s.contentType == contentType
    ensures s.originalContent == content && s.scanDate == date
  {
    var confidenceScore := GenerateRandomScore(contentType, d.score);
    MarkerCountRange(confidenceScore);
    ScanResult(id, userId, contentType, content, date,
               IsDeepfakeScore(confidenceScore), confidenceScore,
               GenerateRandomMarkers(contentType, confidenceScore, d.shuffle, d.locations),
               ProcessingTime(d.timing))
  }

  /** `scan_${Date.now()}`. */
  function ScanId(now: int): string
  {
    "scan_" + Text.IntToString(now)
  }

  /** Distinct clock readings give distinct scan ids. */
  lemma ScanIdsDiffer(a: int, b: int)
    requires a != b
    ensures ScanId(a) != ScanId(b)
  {
    if ScanId(a) == ScanId(b) {
      assert ScanId(a)[5..] == Text.IntToString(a);
      assert ScanId(b)[5..] == Text.IntToString(b);
      Text.IntToStringInjective(a, b);
    }
  }

  /** The ids of the first `n` seeded scans: `scan_${Date.now() - i * 10000}`. */
  function SeedIds(now: int, n: nat): (ids: seq<string>)
    ensures |ids| == n
    ensures forall j :: 0 <= j < n ==> ids[j] == ScanId(now - j * 10000)
  {
    if n == 0 then [] else SeedIds(now, n - 1) + [ScanId(now - (n - 1) * 10000)]
  }

  /** The i-th seeded id differs from the ids seeded before it. */
  lemma SeedIdFresh(now: int, i: nat)
    ensures ScanId(now - i * 10000) !in SeedIds(now, i)
  {
    var ids := SeedIds(now, i);
    forall j | 0 <= j < i ensures ids[j] != ScanId(now - i * 10000) {
      ScanIdsDiffer(now - j * 10000, now - i * 10000);
    }
    NotAmong(ids, ScanId(now - i * 10000));
  }

  lemma NotAmong(ids: seq<string>, id: string)
    requires forall j :: 0 <= j < |ids| ==> ids[j] != id
    ensures id !in ids
  {
  }

  predicate InLastMonth(date: int, now: int)
  {
    now - 29 * DayMs <= date <= now
  }

  /** `scanDate.setDate(scanDate.getDate() - Math.floor(Math.random() * 30))`: whole
      days of 24 hours back from now. */
  function DaysBack(now: int, draw: real): (date: int)
    requires IsDraw(draw)
    ensures InLastMonth(date, now)
    ensures (now - date) % DayMs == 0
  {
    var days := (draw * 30.0).Floor;
    assert 0 <= days <= 29;
    assert 0 <= days * DayMs <= 29 * DayMs;
    now - days * DayMs
  }

  const Https: string := "https://"
  const SampleVideo: string := Https + "example.com/sample-video.mp4"
  const SampleAudio: string := Https + "example.com/sample-audio.mp3"

  /** The seeded image: a picsum photo with one of the ids 0 to 99. */
  function PhotoUrl(photoId: int): string
  {
    Https + "picsum.photos/id/" + Text.IntToString(photoId) + "/500/300"
  }

  /** Seeded content for each content type: a random picsum photo for an image, a fixed
      https URL for video and audio, and a fixed sentence longer than the 30 characters
      the history table shows of a text. */
  function SampleContent(contentType: string, photoDraw: real): (content: string)
    requires IsDraw(photoDraw)
    ensures contentType == "image" ==> exists photoId :: 0 <= photoId < 100 && content == PhotoUrl(photoId)
    ensures contentType in ContentTypes && contentType != "text" ==> |Https| <= |content| && content[..|Https|] == Https
    ensures contentType == "text" ==> |content| > 30
  {
    if contentType == "image" then
      var photoId := (photoDraw * 100.0).Floor;
      assert PhotoUrl(photoId)[..|Https|] == Https;
      PhotoUrl(photoId)
    else if contentType == "video" then
      assert SampleVideo[..|Https|] == Https;
      SampleVideo
    else if contentType == "audio" then
      assert SampleAudio[..|Https|] == Https;
      SampleAudio
    else "Lorem ipsum dolor sit amet, consectetur adipiscing elit. Nullam auctor felis et lorem."
  }

  /** The i-th seeded scan: a random type, its sample content, a date 0 to 29 days back. */
  function SeedScan(userId: string, now: int, i: int, d: SeedDraw): (s: ScanResult)
    requires ValidSeed(d)
    ensures Consistent(s) && s.id == ScanId(now - i * 10000) && s.userId == userId
    ensures s.contentType in ContentTypes && InLastMonth(s.scanDate, now)
  {
    var pick := (d.contentType * 4.0).Floor;
    assert 0 <= pick < 4;
    var contentType := ContentTypes[pick];
    NewScan(ScanId(now - i * 10000), userId, contentType, SampleContent(contentType, d.photo),
            DaysBack(now, d.daysAgo), d.scan)
  }

  // ---------------------------------------------------------------------------
  // history: filter by owner, then sort newest first

  /** `scans.filter(scan => scan.userId === userId)`. */
  function OwnedBy(scans: seq<ScanResult>, userId: string): (r: seq<ScanResult>)
    ensures forall x :: multiset(r)[x] == if x.userId == userId then multiset(scans)[x] else 0
  {
    if scans == [] then []
    else
      var rest := OwnedBy(scans[1..], userId);
      assert scans == [scans[0]] + scans[1..];
      if scans[0].userId == userId then [scans[0]] + rest else rest
  }

  predicate IsNewestFirst(s: seq<ScanResult>)
  {
    forall i, j :: 0 <= i < j < |s| ==> s[i].scanDate >= s[j].scanDate
  }

  /** Places `x` before the first scan that is not newer than it. */
  function InsertByDate(x: ScanResult, sorted: seq<ScanResult>): (r: seq<ScanResult>)
    requires IsNewestFirst(sorted)
    ensures multiset(r) == multiset(sorted) + multiset{x}
    ensures IsNewestFirst(r)
  {
    if sorted == [] || sorted[0].scanDate <= x.scanDate then
      PrependNewest(x, sorted);
      [x] + sorted
    else
      var rest := InsertByDate(x, sorted[1..]);
      assert sorted == [sorted[0]] + sorted[1..];
      NoneNewerThan(sorted[0].scanDate, x, sorted[1..], rest);
      PrependNewest(sorted[0], rest);
      [sorted[0]] + rest
  }

  /** A scan at least as new as every scan of a newest-first list can go in front. */
  lemma PrependNewest(h: ScanResult, t: seq<ScanResult>)
    requires IsNewestFirst(t)
    requires forall k :: 0 <= k < |t| ==> t[k].scanDate <= h.scanDate
    ensures IsNewestFirst([h] + t)
  {
    var s := [h] + t;
    forall i, j | 0 <= i < j < |s| ensures s[i].scanDate >= s[j].scanDate {
      assert s[j] == t[j - 1];
      if i > 0 {
        assert s[i] == t[i - 1];
      }
    }
  }

  /** Adding `x` to the elements of `tail` brings in nothing newer than `date` when
      `x` is not newer than `date` and neither is any element of `tail`. */
  lemma NoneNewerThan(date: int, x: ScanResult, tail: seq<ScanResult>, rest: seq<ScanResult>)
    requires forall k :: 0 <= k < |tail| ==> tail[k].scanDate <= date
    requires x.scanDate <= date
    requires multiset(rest) == multiset(tail) + multiset{x}
    ensures forall k :: 0 <= k < |rest| ==> rest[k].scanDate <= date
  {
    forall k | 0 <= k < |rest| ensures rest[k].scanDate <= date {
      assert rest[k] in multiset(rest);
      if rest[k] != x {
        assert rest[k] in multiset(tail);
        assert rest[k] in tail;
      }
    }
  }

  /** `sort((a, b) => b.scanDate - a.scanDate)`: a stable sort, newest first. */
  function NewestFirst(s: seq<ScanResult>): (r: seq<ScanResult>)
    ensures multiset(r) == multiset(s)
    ensures IsNewestFirst(r)
  {
    if s == [] then []
    else
      assert s == [s[0]] + s[1..];
      InsertByDate(s[0], NewestFirst(s[1..]))
  }

  /** A sequence in which every element occurs at most once has no repeated positions. */
  lemma SingleOccurrences(s: seq<ScanResult>)
    requires forall x :: multiset(s)[x] <= 1
    ensures forall i, j :: 0 <= i < j < |s| ==> s[i] != s[j]
  {
    forall i, j | 0 <= i < j < |s| ensures s[i] != s[j] {
      var x := s[j];
      assert s == s[..j] + [x] + s[j + 1..];
      assert multiset(s)[x] == multiset(s[..j])[x] + 1 + multiset(s[j + 1..])[x];
      assert s[i] in s[..j];
    }
  }

  /** ... and the converse. */
  lemma {:induction false} DistinctOccursOnce(s: seq<ScanResult>)
    requires forall i, j :: 0 <= i < j < |s| ==> s[i] != s[j]
    ensures forall x :: multiset(s)[x] <= 1
  {
    if s != [] {
      DistinctOccursOnce(s[1..]);
      assert s == [s[0]] + s[1..];
      assert s[0] !in s[1..];
    }
  }

  /** The history query over the values of the store, in store order: exactly the
      caller's scans, each once, newest first. */
  lemma HistoryExact(values: seq<ScanResult>, userId: string)
    requires forall x :: multiset(values)[x] <= 1
    ensures var history := NewestFirst(OwnedBy(values, userId));
      && (forall x :: x in history <==> x in values && x.userId == userId)
      && (forall i, j :: 0 <= i < j < |history| ==> history[i] != history[j])
  {
    var history := NewestFirst(OwnedBy(values, userId));
    assert forall x: ScanResult :: multiset(history)[x] <= multiset(values)[x];
    SingleOccurrences(history);
  }

  lemma {:induction false} DistinctCardinality(keys: seq<string>)
    requires forall i, j :: 0 <= i < j < |keys| ==> keys[i] != keys[j]
    ensures |set k | k in keys| == |keys|
  {
    if keys != [] {
      var last := keys[|keys| - 1];
      var front := keys[..|keys| - 1];
      DistinctCardinality(front);
      assert (set k | k in keys) == (set k | k in front) + {last};
      assert last !in front;
    }
  }

  /** The shape of SCANS_DB: every key once in insertion order, every scan stored
      under its own id, every scan consistent. */
  ghost predicate WellKeyed(keys: seq<string>, scans: map<string, ScanResult>)
  {
    && (forall i, j :: 0 <= i < j < |keys| ==> keys[i] != keys[j])
    && (forall i :: 0 <= i < |keys| ==> keys[i] in scans)
    && (forall k :: k in scans ==> k in keys)
    && (forall k :: k in scans ==> scans[k].id == k && Consistent(scans[k]))
  }

  /** Storing a consistent scan under a new id keeps the shape. */
  lemma AddFreshKeepsShape(keys: seq<string>, scans: map<string, ScanResult>, scan: ScanResult)
    requires WellKeyed(keys, scans) && scan.id !in keys && Consistent(scan)
    ensures WellKeyed(keys + [scan.id], scans[scan.id := scan])
  {
  }

  /** `SCANS_DB[scan.id] = scan` keeps the shape: a new id goes to the end of the key
      order, a known one keeps its place. */
  lemma StoreKeepsShape(keys: seq<string>, scans: map<string, ScanResult>, scan: ScanResult)
    requires WellKeyed(keys, scans) && Consistent(scan)
    ensures WellKeyed(if scan.id in scans then keys else keys + [scan.id], scans[scan.id := scan])
  {
    if scan.id in scans {
      ReplaceKeepsShape(keys, scans, scan);
    } else {
      AddFreshKeepsShape(keys, scans, scan);
    }
  }

  /** Every stored scan belongs to `userId` and is dated within the month before `now`. */
  predicate AllSeededFor(scans: map<string, ScanResult>, userId: string, now: int)
  {
    forall k :: k in scans ==> scans[k].userId == userId && InLastMonth(scans[k].scanDate, now)
  }

  lemma SeededForExtends(scans: map<string, ScanResult>, userId: string, now: int, scan: ScanResult)
    requires AllSeededFor(scans, userId, now)
    requires scan.userId == userId && InLastMonth(scan.scanDate, now)
    ensures AllSeededFor(scans[scan.id := scan], userId, now)
  {
  }

  /** Storing a consistent scan under an id already in use keeps the shape and the key order. */
  lemma ReplaceKeepsShape(keys: seq<string>, scans: map<string, ScanResult>, scan: ScanResult)
    requires WellKeyed(keys, scans) && scan.id in scans && Consistent(scan)
    ensures WellKeyed(keys, scans[scan.id := scan])
  {
  }

  // ---------------------------------------------------------------------------
  // the store

  /** SCANS_DB: a dictionary from scan id to result, which iterates its keys in
      insertion order. */
  class ScanStore {
    /** The keys of SCANS_DB in insertion order. */
    var keys: seq<string>
    var scans: map<string, ScanResult>

    ghost predicate Valid()
      reads this
    {
      WellKeyed(keys, scans)
    }

    /** The module starts with an empty SCANS_DB. */
    constructor ()
      ensures Valid() && scans == map[] && keys == []
    {
      keys := [];
      scans := map[];
    }

    /** `Object.values(SCANS_DB)`. */
    function StoredValues(): (values: seq<ScanResult>)
      reads this
      requires Valid()
      ensures |values| == |keys|
      ensures forall i :: 0 <= i < |keys| ==> values[i] == scans[keys[i]]
    {
      seq(|keys|, i requires 0 <= i < |keys| && Valid() reads this => scans[keys[i]])
    }

    lemma StoredValuesExact()
      requires Valid()
      ensures forall x :: x in StoredValues() <==> x in scans.Values
      ensures forall x :: multiset(StoredValues())[x] <= 1
    {
      var values := StoredValues();
      forall x | x in scans.Values ensures x in values {
        var k :| k in scans && scans[k] == x;
        var i :| 0 <= i < |keys| && keys[i] == k;
        assert values[i] == x;
      }
      forall i, j | 0 <= i < j < |values| ensures values[i] != values[j] {
        assert values[i].id == keys[i] && values[j].id == keys[j];
      }
      DistinctOccursOnce(values);
    }

    /** scanContent: builds one result from the draws and stores it under its id. */
    method ScanContent(userId: string, contentType: string, content: string, now: int, draws: ScanDraws)
      returns (result: ScanResult)
      requires Valid() && ValidDraws(draws)
      modifies this
      ensures Valid()
      ensures result.id == ScanId(now) && result.userId == userId && result.contentType == contentType
      ensures result.originalContent == content && result.scanDate == now && Consistent(result)
      ensures scans == old(scans)[result.id := result]
      ensures keys == if result.id in old(scans) then old(keys) else old(keys) + [result.id]
    {
      result := NewScan(ScanId(now), userId, contentType, content, now, draws);
      StoreKeepsShape(keys, scans, result);
      keys := if result.id in scans then keys else keys + [result.id];
      scans := scans[result.id := result];
    }

    /** getScanResult: the stored result under `scanId`, or null. */
    method GetScanResult(scanId: string) returns (r: Option<ScanResult>)
      requires Valid()
      ensures r.Some? <==> scanId in scans
      ensures r.Some? ==> r.value == scans[scanId] && r.value.id == scanId && Consistent(r.value)
    {
      r := if scanId in scans then Some(scans[scanId]) else None;
    }

    /** The seeding loop of getScanHistory: ten scans for `userId`, under ten distinct ids. */
    method SeedSamples(userId: string, now: int, seeds: seq<SeedDraw>)
      requires Valid() && scans == map[]
      requires |seeds| == 10 && forall i :: 0 <= i < 10 ==> ValidSeed(seeds[i])
      modifies this
      ensures Valid() && keys == SeedIds(now, 10) && |scans| == 10
      ensures forall k :: k in scans ==> scans[k].userId == userId && InLastMonth(scans[k].scanDate, now)
    {
      keys := [];
      var i := 0;
      while i < 10
        invariant 0 <= i <= 10
        invariant Valid()
        invariant keys == SeedIds(now, i)
        invariant AllSeededFor(scans, userId, now)
      {
        var scan := SeedScan(userId, now, i, seeds[i]);
        SeedIdFresh(now, i);
        AddFreshKeepsShape(keys, scans, scan);
        SeededForExtends(scans, userId, now, scan);
        scans := scans[scan.id := scan];
        keys := keys + [scan.id];
        assert Valid() && keys == SeedIds(now, i + 1) && AllSeededFor(scans, userId, now);
        i := i + 1;
      }
      DistinctCardinality(keys);
      assert scans.Keys == set k | k in keys;
    }

    /** getScanHistory: seeds ten scans for the caller when the store is empty, then
        returns the caller's scans, newest first. */
    method GetScanHistory(userId: string, now: int, seeds: seq<SeedDraw>) returns (history: seq<ScanResult>)
      requires Valid()
      requires |seeds| == 10 && forall i :: 0 <= i < 10 ==> ValidSeed(seeds[i])
      modifies this
      ensures Valid()
      ensures old(scans) != map[] ==> scans == old(scans) && keys == old(keys)
      ensures old(scans) == map[] ==> keys == SeedIds(now, 10) && |scans| == 10
      ensures old(scans) == map[] ==>
        forall k :: k in scans ==> scans[k].userId == userId && InLastMonth(scans[k].scanDate, now)
      ensures history == NewestFirst(OwnedBy(StoredValues(), userId))
      ensures forall x :: x in history <==> x in scans.Values && x.userId == userId
      ensures forall i, j :: 0 <= i < j < |history| ==> history[i] != history[j]
      ensures IsNewestFirst(history)
    {
      if |scans| == 0 {
        SeedSamples(userId, now, seeds);
      }
      history := NewestFirst(OwnedBy(StoredValues(), userId));
      StoredValuesExact();
      HistoryExact(StoredValues(), userId);
    }
  }
}
