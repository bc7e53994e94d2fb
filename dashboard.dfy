/** What the dashboard derives from the signed-in user's scan history: the chart's
    authentic and deepfake counts per content type, the totals and detection rate,
    the date of the last scan, and the labels of table rows and markers. */
module Dashboard {
  import opened Results
  import opened ScanService
  import Text

  // ---------------------------------------------------------------------------
  // counts

  /** `history.filter(s => s.contentType === t && s.isDeepfake === deepfake).length`. */
  function VerdictCount(history: seq<ScanResult>, contentType: string, deepfake: bool): (n: nat)
    ensures n <= |history|
  {
    if history == [] then 0
    else
      VerdictCount(history[1..], contentType, deepfake)
        + (if history[0].contentType == contentType && history[0].isDeepfake == deepfake then 1 else 0)
  }

  /** The number of scans of one content type, whatever their verdict. */
  function TypeCount(history: seq<ScanResult>, contentType: string): (n: nat)
    ensures n <= |history|
  {
    if history == [] then 0
    else TypeCount(history[1..], contentType) + (if history[0].contentType == contentType then 1 else 0)
  }

  /** `history.filter(scan => scan.isDeepfake).length`. */
  function DeepfakesDetected(history: seq<ScanResult>): (n: nat)
    ensures n <= |history|
  {
    if history == [] then 0
    else DeepfakesDetected(history[1..]) + (if history[0].isDeepfake then 1 else 0)
  }

  /** The two data rows of the chart, in the label order Image, Video, Audio, Text. */
  datatype Chart = Chart(authentic: seq<nat>, deepfake: seq<nat>)

  function ChartData(history: seq<ScanResult>): (c: Chart)
    ensures |c.authentic| == |c.deepfake| == |ContentTypes|
    ensures forall i :: 0 <= i < |ContentTypes| ==>
      c.authentic[i] + c.deepfake[i] == TypeCount(history, ContentTypes[i])
  {
    VerdictsAddUp(history, "image");
    VerdictsAddUp(history, "video");
    VerdictsAddUp(history, "audio");
    VerdictsAddUp(history, "text");
    Chart([VerdictCount(history, "image", false), VerdictCount(history, "video", false),
           VerdictCount(history, "audio", false), VerdictCount(history, "text", false)],
          [VerdictCount(history, "image", true), VerdictCount(history, "video", true),
           VerdictCount(history, "audio", true), VerdictCount(history, "text", true)])
  }

  /** For each type, the authentic and the deepfake bar add up to the scans of that type. */
  lemma {:induction false} VerdictsAddUp(history: seq<ScanResult>, contentType: string)
    ensures VerdictCount(history, contentType, false) + VerdictCount(history, contentType, true)
         == TypeCount(history, contentType)
  {
    if history != [] {
      VerdictsAddUp(history[1..], contentType);
    }
  }

  /** When every scan has one of the four types, the four type counts add up to the total. */
  lemma {:induction false} TypesAddUp(history: seq<ScanResult>)
    requires forall i :: 0 <= i < |history| ==> history[i].contentType in ContentTypes
    ensures TypeCount(history, "image") + TypeCount(history, "video")
          + TypeCount(history, "audio") + TypeCount(history, "text") == |history|
  {
    if history != [] {
      TypesAddUp(history[1..]);
    }
  }

  /** ... and so do the deepfake bars add up to the deepfakes detected. */
  lemma {:induction false} DeepfakeBarsAddUp(history: seq<ScanResult>)
    requires forall i :: 0 <= i < |history| ==> history[i].contentType in ContentTypes
    ensures VerdictCount(history, "image", true) + VerdictCount(history, "video", true)
          + VerdictCount(history, "audio", true) + VerdictCount(history, "text", true)
         == DeepfakesDetected(history)
  {
    if history != [] {
      DeepfakeBarsAddUp(history[1..]);
    }
  }

  /** All eight bars of the chart together count every scan once. */
  lemma ChartCoversHistory(history: seq<ScanResult>)
    requires forall i :: 0 <= i < |history| ==> history[i].contentType in ContentTypes
    ensures var c := ChartData(history);
      c.authentic[0] + c.authentic[1] + c.authentic[2] + c.authentic[3]
      + c.deepfake[0] + c.deepfake[1] + c.deepfake[2] + c.deepfake[3] == |history|
  {
    TypesAddUp(history);
  }

  /** `totalScans > 0 ? (deepfakesDetected / totalScans) * 100 : 0`. */
  function DetectionRate(history: seq<ScanResult>): (rate: real)
    ensures 0.0 <= rate <= 100.0
    ensures history == [] ==> rate == 0.0
    ensures history != [] ==> rate * |history| as real == 100.0 * DeepfakesDetected(history) as real
  {
    var total := |history|;
    var deepfakes := DeepfakesDetected(history);
    if total > 0 then
      Percentage(deepfakes as real, total as real);
      (deepfakes as real / total as real) * 100.0
    else 0.0
  }

  /** The arithmetic behind the rate: a part of a positive whole, as a percentage. */
  lemma Percentage(part: real, whole: real)
    requires 0.0 <= part <= whole && whole > 0.0
    ensures var p := (part / whole) * 100.0;
      && 0.0 <= p <= 100.0 && p * whole == 100.0 * part
      && (p == 100.0 <==> part == whole) && (p == 0.0 <==> part == 0.0)
  {
    FractionBounds(part, whole);
    var q := part / whole;
    if q == 1.0 {
      assert part == whole;
    }
    if part == whole {
      assert q == 1.0;
    }
  }

  lemma FractionBounds(part: real, whole: real)
    requires 0.0 <= part <= whole && whole > 0.0
    ensures 0.0 <= part / whole <= 1.0 && part / whole * whole == part
  {
    var q := part / whole;
    assert q * whole == part;
    assert (q - 1.0) * whole <= 0.0;
  }

  /** The rate is 100 exactly when every scan is a deepfake, and 0 exactly when none is
      (or there are none). */
  lemma {:induction false} DetectionRateExtremes(history: seq<ScanResult>)
    ensures DetectionRate(history) == 100.0 <==> history != [] && forall s :: s in history ==> s.isDeepfake
    ensures DetectionRate(history) == 0.0 <==> forall s :: s in history ==> !s.isDeepfake
  {
    AllDeepfakes(history);
    NoDeepfakes(history);
    if history != [] {
      Percentage(DeepfakesDetected(history) as real, |history| as real);
    }
  }

  lemma {:induction false} AllDeepfakes(history: seq<ScanResult>)
    ensures DeepfakesDetected(history) == |history| <==> forall s :: s in history ==> s.isDeepfake
  {
    if history != [] {
      AllDeepfakes(history[1..]);
      assert history == [history[0]] + history[1..];
    }
  }

  lemma {:induction false} NoDeepfakes(history: seq<ScanResult>)
    ensures DeepfakesDetected(history) == 0 <==> forall s :: s in history ==> !s.isDeepfake
  {
    if history != [] {
      NoDeepfakes(history[1..]);
      assert history == [history[0]] + history[1..];
    }
  }

  // ---------------------------------------------------------------------------
  // the last scan

  /** The "Last Scan" card: the date of element 0, or none ("No scans yet"). */
  function LastScanDate(history: seq<ScanResult>): (date: Option<int>)
    ensures date.None? <==> history == []
    ensures date.Some? ==> exists s :: s in history && s.scanDate == date.value
    ensures date.Some? && IsNewestFirst(history) ==> forall s :: s in history ==> s.scanDate <= date.value
  {
    if |history| > 0 then Some(history[0].scanDate) else None
  }

  // ---------------------------------------------------------------------------
  // labels

  const Placeholder: string := "https://via.placeholder.com/150"

  predicate StartsWith(s: string, prefix: string)
  {
    |prefix| <= |s| && s[..|prefix|] == prefix
  }

  /** The image cell: the content itself when it starts with "http", else the placeholder. */
  function Thumbnail(content: string): (src: string)
    ensures StartsWith(src, "http")
    ensures StartsWith(content, "http") ==> src == content
    ensures !StartsWith(content, "http") ==> src == Placeholder
  {
    if StartsWith(content, "http") then content else Placeholder
  }

  /** The content cell: the first 30 characters of a text and "...", or the last
      `/`-separated segment of a file name or URL. */
  function ContentLabel(contentType: string, content: string): (caption: string)
    ensures contentType == "text" ==>
      && |caption| == (if |content| < 30 then |content| else 30) + 3
      && StartsWith(content, caption[..|caption| - 3]) && caption[|caption| - 3..] == "..."
    ensures contentType != "text" ==> Text.IsLastPart(content, '/', caption)
  {
    if contentType == "text" then content[..if |content| < 30 then |content| else 30] + "..."
    else Text.LastPart(content, '/')
  }

  function CapitalizeAll(words: seq<string>): (r: seq<string>)
    ensures |r| == |words|
  {
    seq(|words|, i requires 0 <= i < |words| => Text.Capitalize(words[i]))
  }

  /** A marker's type as a heading: the `_`-separated words, each with its first letter
      upper-cased, joined by spaces. */
  function MarkerLabel(kind: string): (caption: string)
    ensures |caption| == |kind|
    ensures forall i :: 0 <= i < |kind| ==> caption[i] == LabelChar(kind, i)
  {
    var words := Text.Split(kind, '_');
    Text.SplitJoin(kind, '_');
    CapitalizedJoin(words);
    Text.Join(CapitalizeAll(words), ' ')
  }

  /** Position by position: an underscore becomes a space, the first letter of each
      word is upper-cased, and everything else is kept. */
  function LabelChar(kind: string, i: nat): char
    requires i < |kind|
  {
    if kind[i] == '_' then ' '
    else if i == 0 || kind[i - 1] == '_' then Text.ToUpper(kind[i])
    else kind[i]
  }

  lemma {:induction false} CapitalizedJoin(words: seq<string>)
    requires |words| >= 1
    requires forall j :: 0 <= j < |words| ==> '_' !in words[j]
    ensures var kind := Text.Join(words, '_');
      var caption := Text.Join(CapitalizeAll(words), ' ');
      |caption| == |kind| && forall i :: 0 <= i < |kind| ==> caption[i] == LabelChar(kind, i)
  {
    var kind := Text.Join(words, '_');
    var caps := CapitalizeAll(words);
    var caption := Text.Join(caps, ' ');
    var w := words[0];
    if |words| == 1 {
      forall i | 0 <= i < |kind| ensures caption[i] == LabelChar(kind, i) {
        assert kind[i] in w;
      }
    } else {
      CapitalizedJoin(words[1..]);
      var k' := Text.Join(words[1..], '_');
      assert CapitalizeAll(words)[1..] == CapitalizeAll(words[1..]);
      var rest := Text.Join(CapitalizeAll(words[1..]), ' ');
      assert kind == w + ['_'] + k';
      assert caption == Text.Capitalize(w) + [' '] + rest;
      forall i | 0 <= i < |kind| ensures caption[i] == LabelChar(kind, i) {
        if i < |w| {
          assert kind[i] == w[i];
          if i > 0 { assert kind[i - 1] == w[i - 1]; }
        } else if i > |w| {
          var j := i - |w| - 1;
          assert kind[i] == k'[j] && caption[i] == rest[j];
          if j > 0 { assert kind[i - 1] == k'[j - 1]; }
        }
      }
    }
  }
}
