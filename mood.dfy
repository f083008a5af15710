/** The mood log of the browser client (client/src/App.jsx): its samples, the
    background theme derived from the latest one, and how the log is written to
    and read back from the "moodHistory" entry of local storage. `JSON.parse` and
    `JSON.stringify` are parameters: the model relies only on parsing undoing
    stringifying for the text written for a log. */
module Mood {
  import opened Wrappers
  import opened JsonValues

  /** `{ mood: moodScore, time }`. The mood is `undefined` when the server's
      answer carried no score or when a stored sample lacks one. */
  datatype MoodSample = MoodSample(mood: Option<int>, time: string)

  // ----------------------------------------------------------------- theme

  /** The three backgrounds. */
  datatype Gradient = Green | Blue | Purple {
    function ClassName(): string {
      match this
      case Green => "bg-gradient-to-br from-green-100 to-white"
      case Blue => "bg-gradient-to-br from-blue-100 to-white"
      case Purple => "bg-gradient-to-br from-purple-100 to-white"
    }
  }

  /** `moodHistory.at(-1)?.mood || 0`: an empty log and a sample without a mood
      both read as 0. */
  function LastMood(history: seq<MoodSample>): int {
    if history == [] then 0 else history[|history| - 1].mood.GetOr(0)
  }

  /** `backgroundGradient`: the thresholds are strict, so a mood of exactly 2 or
      exactly -2 keeps the neutral purple. */
  function Background(history: seq<MoodSample>): (g: Gradient)
    ensures g == Green <==> LastMood(history) > 2
    ensures g == Blue <==> LastMood(history) < -2
    ensures g == Purple <==> -2 <= LastMood(history) <= 2
  {
    var last := LastMood(history);
    if last > 2 then Green
    else if last < -2 then Blue
    else Purple
  }

  /** The theme is decided by the newest sample alone; with no sample, or a
      sample without a mood, it is purple. */
  lemma BackgroundOfNewest(history: seq<MoodSample>, s: MoodSample)
    ensures Background(history + [s]) == Background([s])
    ensures Background([]) == Purple
    ensures s.mood.None? ==> Background(history + [s]) == Purple
  {
  }

  // ----------------------------------------------------------- persistence

  /** What `JSON.parse` does with a text: a value, or an exception. */
  datatype Parsed = ParsedValue(value: Json) | ParseError

  /** A sample as `JSON.stringify` writes it: an undefined mood is left out. */
  function EncodeSample(s: MoodSample): Json {
    JObject((if s.mood.Some? then [("mood", JNumber(s.mood.value))] else []) + [("time", JString(s.time))])
  }

  /** A stored sample: an object whose "time" is a string and whose "mood", if
      present, is a number. */
  function DecodeSample(j: Json): Option<MoodSample> {
    match j
    case JObject(fields) =>
      (match (Lookup(fields, "mood"), Lookup(fields, "time"))
       case (None, Some(JString(t))) => Some(MoodSample(None, t))
       case (Some(JNumber(n)), Some(JString(t))) => Some(MoodSample(Some(n), t))
       case _ => None)
    case _ => None
  }

  lemma DecodeEncodeSample(s: MoodSample)
    ensures DecodeSample(EncodeSample(s)) == Some(s)
  {
  }

  function EncodeAll(history: seq<MoodSample>): (items: seq<Json>)
    ensures |items| == |history|
  {
    if history == [] then [] else [EncodeSample(history[0])] + EncodeAll(history[1..])
  }

  /** The log as `JSON.stringify` sees it: an array of samples. */
  function EncodeHistory(history: seq<MoodSample>): Json {
    JArray(EncodeAll(history))
  }

  /** Every item must decode; one bad item rejects the whole array. */
  function DecodeAll(items: seq<Json>): (r: Option<seq<MoodSample>>)
    ensures r.Some? ==> |r.value| == |items|
    ensures r.Some? ==> forall i | 0 <= i < |items| :: Some(r.value[i]) == DecodeSample(items[i])
    ensures r.Some? <==> forall i | 0 <= i < |items| :: DecodeSample(items[i]).Some?
  {
    if items == [] then Some([])
    else match (DecodeSample(items[0]), DecodeAll(items[1..]))
      case (Some(s), Some(rest)) => Some([s] + rest)
      case _ => None
  }

  /** An array of samples; any other value is not a mood log. */
  function DecodeHistory(j: Json): Option<seq<MoodSample>> {
    match j
    case JArray(items) => DecodeAll(items)
    case _ => None
  }

  lemma {:induction false} DecodeEncodeAll(history: seq<MoodSample>)
    ensures DecodeAll(EncodeAll(history)) == Some(history)
  {
    if history != [] {
      DecodeEncodeSample(history[0]);
      DecodeEncodeAll(history[1..]);
      assert EncodeAll(history)[1..] == EncodeAll(history[1..]);
      assert [history[0]] + history[1..] == history;
    }
  }

  /** Decoding undoes encoding: a written log reads back as the same sequence. */
  lemma DecodeEncodeHistory(history: seq<MoodSample>)
    ensures DecodeHistory(EncodeHistory(history)) == Some(history)
  {
    DecodeEncodeAll(history);
  }

  /** The initialiser of `moodHistory` as written:
      `JSON.parse(localStorage.getItem("moodHistory")) || []`, with any exception
      caught and turned into `[]`. An absent entry is `null`, which `JSON.parse`
      reads as the text "null", giving the falsy `null`. Any truthy value is
      kept, whether or not it is an array. */
  function SeedHistory(stored: Option<string>, parse: string -> Parsed): (r: Json)
    ensures Truthy(r)
    ensures stored.None? ==> r == JArray([])
    ensures r == JArray([]) || (stored.Some? && parse(stored.value) == ParsedValue(r))
    ensures stored.Some? && parse(stored.value).ParsedValue? && Truthy(parse(stored.value).value) ==>
      r == parse(stored.value).value
  {
    var parsed := if stored.None? then ParsedValue(JNull) else parse(stored.value);
    match parsed
    case ParseError => JArray([])
    case ParsedValue(v) => if Truthy(v) then v else JArray([])
  }

  /** The stored text "5" (or "true", "\"x\"", "{}") parses to a truthy value
      that is not an array; the initialiser keeps it, and the first render then
      fails: at `moodHistory.at(-1)` for a number, a boolean or an object, and
      at the chart's `data.map` for a string. */
  lemma SeedKeepsNonArray(parse: string -> Parsed)
    requires parse("5") == ParsedValue(JNumber(5))
    ensures SeedHistory(Some("5"), parse) == JNumber(5)
    ensures !SeedHistory(Some("5"), parse).JArray?
    ensures DecodeHistory(SeedHistory(Some("5"), parse)).None?
  {
  }

  /** The initialiser as intended: the stored log when it parses to an array
      of samples, the empty log otherwise. It never fails. */
  function LoadHistory(stored: Option<string>, parse: string -> Parsed): (h: seq<MoodSample>)
    ensures stored.None? ==> h == []
    ensures stored.Some? && parse(stored.value).ParseError? ==> h == []
    ensures h == [] || (stored.Some? && parse(stored.value).ParsedValue? &&
                        DecodeHistory(parse(stored.value).value) == Some(h))
    ensures stored.Some? && parse(stored.value).ParsedValue? &&
            DecodeHistory(parse(stored.value).value).Some? ==>
      h == DecodeHistory(parse(stored.value).value).value
  {
    match DecodeHistory(SeedHistory(stored, parse))
    case Some(h) => h
    case None => []
  }

  /** The text the persistence effect writes for a log. */
  function StoredText(history: seq<MoodSample>, stringify: Json -> string): string {
    stringify(EncodeHistory(history))
  }

  /** Reloading restores the log: whatever was last written comes back as the
      same ordered sequence, provided parsing the written text gives back the
      written array. */
  lemma ReloadRestores(history: seq<MoodSample>, parse: string -> Parsed, stringify: Json -> string)
    requires parse(StoredText(history, stringify)) == ParsedValue(EncodeHistory(history))
    ensures LoadHistory(Some(StoredText(history, stringify)), parse) == history
  {
    DecodeEncodeHistory(history);
  }
}
