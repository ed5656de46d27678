/**
 * The two prompt-building helpers of openai_actions/open_ai_data.py that do
 * not depend on the clock: the hour-by-hour weather summary and the message
 * asking whether a prediction claims a snow day.
 */
module OpenAiData {
  import opened Wrappers
  import opened Text
  import opened JsonText
  import HourlyWeather

  // The hourly summary

  /** One `"{caption}: {value}{unit}"` piece of an hour's segment, read from `hour_{h}_{name}`. */
  datatype SummaryField = SummaryField(caption: string, name: string, unit: string)

  /** The fourteen labelled pieces after `"Hour {h}:"`, in program order. */
  const SummaryFields: seq<SummaryField> := [
    SummaryField("Condition", "condition", ","),
    SummaryField("Temp", "temp_f", "\U{B0}F,"),
    SummaryField("Chance of Snow", "chance_of_snow", "%,"),
    SummaryField("Chance of Rain", "chance_of_rain", "%,"),
    SummaryField("Wind Speed", "wind_mph", "MPH,"),
    SummaryField("Visibility", "visibility_miles", " miles,"),
    SummaryField("Snowfall", "snow_cm", "cm,"),
    SummaryField("Humidity", "humidity", "%,"),
    SummaryField("Cloud Cover", "cloud", "%,"),
    SummaryField("Pressure", "pressure_in", "in,"),
    SummaryField("Feels Like", "feelslike_f", "\U{B0}F,"),
    SummaryField("Wind Chill", "windchill_f", "\U{B0}F,"),
    SummaryField("Gusts", "gust_mph", "MPH,"),
    SummaryField("UV Index", "uv", "")
  ]

  const NoData: string := "No data"

  /** `current_weather_data.get(key, 'No data')`, the values being already rendered as text. */
  function ValueOr(data: map<string, string>, key: string): string
  {
    if key in data then data[key] else NoData
  }

  /** The list passed to `" ".join` for hour `h`. */
  function SegmentParts(data: map<string, string>, h: int): (r: seq<string>)
    ensures |r| == 1 + |SummaryFields|
  {
    ["Hour " + IntToString(h) + ":"]
    + seq(|SummaryFields|, i requires 0 <= i < |SummaryFields| =>
        SummaryFields[i].caption + ": " + ValueOr(data, HourlyWeather.HourPrefix(h) + SummaryFields[i].name) + SummaryFields[i].unit)
  }

  /** The `summary` built for hour `h`. */
  function Segment(data: map<string, string>, h: int): string
  {
    Join(" ", SegmentParts(data, h))
  }

  /** `range(lo, hi)`. */
  function Range(lo: int, hi: int): (r: seq<int>)
    requires lo <= hi
    ensures |r| == hi - lo && forall i :: 0 <= i < |r| ==> r[i] == lo + i
  {
    seq(hi - lo, i requires 0 <= i < hi - lo => lo + i)
  }

  /** The hours of the two loops, in the order they run. */
  const SummaryHours: seq<int> := Range(19, 24) + Range(0, 8)

  function Segments(data: map<string, string>, hours: seq<int>): (r: seq<string>)
    ensures |r| == |hours| && forall i :: 0 <= i < |hours| ==> r[i] == Segment(data, hours[i])
  {
    seq(|hours|, i requires 0 <= i < |hours| => Segment(data, hours[i]))
  }

  /** `parts` accumulated as `hourly_summary += summary + " "`. */
  function Terminated(parts: seq<string>): string
  {
    if parts == [] then "" else Terminated(parts[..|parts| - 1]) + parts[|parts| - 1] + " "
  }

  /** What `create_hourly_weather_summary(current_weather_data)` returns. */
  function HourlySummary(data: map<string, string>): string
  {
    Strip(Terminated(Segments(data, SummaryHours)))
  }

  lemma SegmentsAppend(data: map<string, string>, hours: seq<int>, h: int)
    ensures Segments(data, hours + [h]) == Segments(data, hours) + [Segment(data, h)]
  {
  }

  lemma TerminatedAppend(parts: seq<string>, p: string)
    ensures Terminated(parts + [p]) == Terminated(parts) + p + " "
  {
    assert (parts + [p])[..|parts|] == parts;
  }

  lemma RangeAppend(lo: int, hi: int)
    requires lo <= hi
    ensures Range(lo, hi + 1) == Range(lo, hi) + [hi]
  {
  }

  /** One more pass of either loop appends that hour's segment and a space. */
  lemma TerminatedSegmentsAppend(data: map<string, string>, hours: seq<int>, h: int)
    ensures Terminated(Segments(data, hours + [h])) == Terminated(Segments(data, hours)) + Segment(data, h) + " "
  {
    SegmentsAppend(data, hours, h);
    TerminatedAppend(Segments(data, hours), Segment(data, h));
  }

  /** `create_hourly_weather_summary(current_weather_data)`. */
  method CreateHourlyWeatherSummary(data: map<string, string>) returns (summary: string)
    ensures summary == HourlySummary(data)
  {
    var hourlySummary := "";
    for hour := 19 to 24
      invariant hourlySummary == Terminated(Segments(data, Range(19, hour)))
    {
      var segment := Segment(data, hour);
      RangeAppend(19, hour);
      TerminatedSegmentsAppend(data, Range(19, hour), hour);
      hourlySummary := hourlySummary + segment + " ";
    }
    assert Range(19, 24) + Range(0, 0) == Range(19, 24);
    for hour := 0 to 8
      invariant hourlySummary == Terminated(Segments(data, Range(19, 24) + Range(0, hour)))
    {
      var segment := Segment(data, hour);
      RangeAppend(0, hour);
      Regroup(Range(19, 24), Range(0, hour), [hour]);
      TerminatedSegmentsAppend(data, Range(19, 24) + Range(0, hour), hour);
      hourlySummary := hourlySummary + segment + " ";
    }
    return Strip(hourlySummary);
  }

  /** Thirteen segments, for hours 19 to 23 and then 0 to 7. */
  lemma SummaryHoursInOrder()
    ensures SummaryHours == [19, 20, 21, 22, 23, 0, 1, 2, 3, 4, 5, 6, 7]
  {
  }

  /** Accumulating with a trailing space is joining with single spaces, plus one space at the end. */
  lemma {:induction false} TerminatedJoin(parts: seq<string>)
    requires parts != []
    ensures Terminated(parts) == Join(" ", parts) + " "
    decreases |parts|
  {
    if |parts| > 1 {
      var init := parts[..|parts| - 1];
      TerminatedJoin(init);
      JoinAppend(" ", init, parts[|parts| - 1]);
      assert init + [parts[|parts| - 1]] == parts;
    } else {
      assert Terminated(parts) == Terminated([]) + parts[0] + " ";
    }
  }

  lemma JoinFirst(sep: string, parts: seq<string>)
    requires parts != [] && parts[0] != []
    ensures Join(sep, parts) != [] && Join(sep, parts)[0] == parts[0][0]
  {
  }

  /** The last character of a join is the last character of its last part. */
  lemma JoinLast(sep: string, parts: seq<string>)
    requires parts != [] && parts[|parts| - 1] != []
    ensures var j := Join(sep, parts); j != [] && j[|j| - 1] == parts[|parts| - 1][|parts[|parts| - 1]| - 1]
  {
    if |parts| > 1 {
      var init := parts[..|parts| - 1];
      JoinAppend(sep, init, parts[|parts| - 1]);
      assert init + [parts[|parts| - 1]] == parts;
    }
  }

  /** Every segment starts with `H`, so `strip` never removes anything at the front. */
  lemma SegmentStartsWithHour(data: map<string, string>, h: int)
    ensures Segment(data, h) != [] && Segment(data, h)[0] == 'H'
  {
    JoinFirst(" ", SegmentParts(data, h));
  }

  /**
   * The summary is the thirteen segments joined by single spaces, without
   * trailing whitespace.
   */
  lemma SummaryIsJoin(data: map<string, string>)
    ensures HourlySummary(data) == TrimEnd(Join(" ", Segments(data, SummaryHours)))
  {
    var segs := Segments(data, SummaryHours);
    var j := Join(" ", segs);
    TerminatedJoin(segs);
    SegmentStartsWithHour(data, 19);
    JoinFirst(" ", segs);
    assert TrimStart(j + " ") == j + " ";
    TrimEndSpaces(j, " ");
  }

  /**
   * When the last value, hour 7's UV index, does not end in whitespace (in
   * particular when it is missing and reads `No data`), nothing is trimmed:
   * the summary is exactly the segments joined by single spaces.
   */
  lemma SummaryExactJoin(data: map<string, string>)
    requires var uv := ValueOr(data, HourlyWeather.HourPrefix(7) + "uv"); uv != [] && !IsSpace(uv[|uv| - 1])
    ensures HourlySummary(data) == Join(" ", Segments(data, SummaryHours))
  {
    var segs := Segments(data, SummaryHours);
    LastSummaryHour();
    SegmentLastChar(data, 7);
    assert segs[|segs| - 1] == Segment(data, 7);
    JoinLast(" ", segs);
    SummaryIsJoin(data);
    TrimEndUnpadded(Join(" ", segs));
  }

  lemma LastSummaryHour()
    ensures |SummaryHours| == 13 && SummaryHours[12] == 7
  {
  }

  /** A segment ends with the last character of its UV index value. */
  lemma SegmentLastChar(data: map<string, string>, h: int)
    requires ValueOr(data, HourlyWeather.HourPrefix(h) + "uv") != []
    ensures var seg := Segment(data, h); var uv := ValueOr(data, HourlyWeather.HourPrefix(h) + "uv");
      seg != [] && seg[|seg| - 1] == uv[|uv| - 1]
  {
    var parts := SegmentParts(data, h);
    var uv := ValueOr(data, HourlyWeather.HourPrefix(h) + "uv");
    UvPartLast(data, h, parts);
    var last := parts[14];
    assert last[|last| - 1] == uv[|uv| - 1];
    JoinLast(" ", parts);
  }

  /** The UV index piece closes every segment. */
  lemma UvPartLast(data: map<string, string>, h: int, parts: seq<string>)
    requires parts == SegmentParts(data, h)
    ensures parts[14] == "UV Index: " + ValueOr(data, HourlyWeather.HourPrefix(h) + "uv")
  {
    assert parts[14] == "UV Index: " + ValueOr(data, HourlyWeather.HourPrefix(h) + "uv") + "";
  }

  /** Each piece of the summary reads a key that the hourly extraction writes for the same hour. */
  lemma SummaryReadsExtractedKeys(i: nat)
    requires i < |SummaryFields|
    ensures exists j :: 0 <= j < |HourlyWeather.HourlyFields| && HourlyWeather.HourlyFields[j].name == SummaryFields[i].name
  {
    if i < 7 {
      EarlyPiecesExtracted(i);
    } else {
      LatePiecesExtracted(i);
    }
  }

  /**
   * Pieces 0 to 6 of `SummaryReadsExtractedKeys`. The split into two halves
   * only keeps each proof small; the source has no counterpart.
   */
  lemma EarlyPiecesExtracted(i: nat)
    requires i < 7
    ensures exists j :: 0 <= j < |HourlyWeather.HourlyFields| && HourlyWeather.HourlyFields[j].name == SummaryFields[i].name
  {
    if i == 0 {
      assert HourlyWeather.HourlyFields[14].name == SummaryFields[0].name;
    } else if i == 1 {
      assert HourlyWeather.HourlyFields[0].name == SummaryFields[1].name;
    } else if i == 2 {
      assert HourlyWeather.HourlyFields[1].name == SummaryFields[2].name;
    } else if i == 3 {
      assert HourlyWeather.HourlyFields[2].name == SummaryFields[3].name;
    } else if i == 4 {
      assert HourlyWeather.HourlyFields[3].name == SummaryFields[4].name;
    } else if i == 5 {
      assert HourlyWeather.HourlyFields[4].name == SummaryFields[5].name;
    } else if i == 6 {
      assert HourlyWeather.HourlyFields[5].name == SummaryFields[6].name;
    }
  }

  /**
   * Pieces 7 to 13 of `SummaryReadsExtractedKeys`. The split into two halves
   * only keeps each proof small; the source has no counterpart.
   */
  lemma LatePiecesExtracted(i: nat)
    requires 7 <= i < |SummaryFields|
    ensures exists j :: 0 <= j < |HourlyWeather.HourlyFields| && HourlyWeather.HourlyFields[j].name == SummaryFields[i].name
  {
    if i == 7 {
      assert HourlyWeather.HourlyFields[6].name == SummaryFields[7].name;
    } else if i == 8 {
      assert HourlyWeather.HourlyFields[7].name == SummaryFields[8].name;
    } else if i == 9 {
      assert HourlyWeather.HourlyFields[8].name == SummaryFields[9].name;
    } else if i == 10 {
      assert HourlyWeather.HourlyFields[9].name == SummaryFields[10].name;
    } else if i == 11 {
      assert HourlyWeather.HourlyFields[10].name == SummaryFields[11].name;
    } else if i == 12 {
      assert HourlyWeather.HourlyFields[12].name == SummaryFields[12].name;
    } else if i == 13 {
      assert HourlyWeather.HourlyFields[13].name == SummaryFields[13].name;
    }
  }

  /** The summary's hours are exactly the two extraction windows, 19 to 23 and 0 to 7. */
  lemma SummaryHoursAreWindows(h: int)
    ensures h in SummaryHours <==> (19 <= h < 24 || 0 <= h < 8)
  {
    if 19 <= h < 24 {
      assert SummaryHours[h - 19] == h;
    } else if 0 <= h < 8 {
      assert SummaryHours[5 + h] == h;
    }
  }

  // The prediction check message

  /** The indentation of the template's lines inside the source. */
  const Indent: string := "        "

  /** The f-string of `create_open_ai_prediction_check_message` up to `{prediction_message}`. */
  const CheckOpening: string :=
    "\n" + Indent + "Analyze the following message and respond with ONLY the word \"True\" or \"False\". Tell me\n"
    + Indent + "if there is a greater than or equal to 75% chance of a snow day. Here is the message:\n" + Indent

  /** The f-string after `{prediction_message}`. */
  const CheckClosing: string := "\n" + Indent

  /** The `content` of the check message: the template with newlines escaped, then stripped. */
  function CheckContent(prediction: string): string
  {
    Strip(EscapeNewlines(CheckOpening + prediction + CheckClosing))
  }

  /**
   * `create_open_ai_prediction_check_message(prediction_message)`: the
   * one-message list passed through `json.loads(json.dumps(...))`; `None`
   * is what the `except` clause returns.
   */
  function PredictionCheckMessage(prediction: string): Option<seq<ChatMessage>>
  {
    Loads(Dumps([ChatMessage("user", CheckContent(prediction))]))
  }

  lemma {:induction false} EscapeNewlinesNone(s: string)
    requires '\n' !in s
    ensures EscapeNewlines(s) == s
    decreases |s|
  {
    if s != [] {
      EscapeNewlinesNone(s[1..]);
      assert [s[0]] + s[1..] == s;
    }
  }

  /** Escaping the filled-in template: the escaped opening, the escaped prediction, `\n` and the indentation. */
  lemma EscapedTemplate(prediction: string)
    ensures EscapeNewlines(CheckOpening + prediction + CheckClosing)
         == EscapeNewlines(CheckOpening) + EscapeNewlines(prediction) + "\\n" + Indent
  {
    assert '\n' !in Indent;
    EscapedFilled(CheckOpening, prediction, Indent);
  }

  /** The same for any opening and any indentation without a newline. */
  lemma EscapedFilled(opening: string, prediction: string, indent: string)
    requires '\n' !in indent
    ensures EscapeNewlines(opening + prediction + ("\n" + indent))
         == EscapeNewlines(opening) + EscapeNewlines(prediction) + "\\n" + indent
  {
    EscapeNewlinesAppend(opening + prediction, "\n" + indent);
    EscapeNewlinesAppend(opening, prediction);
    EscapeNewlinesAppend("\n", indent);
    EscapeNewlinesNone(indent);
  }

  /** The template starts with a newline, so its escaped form starts with a backslash. */
  lemma EscapedOpeningStart()
    ensures EscapeNewlines(CheckOpening) != [] && EscapeNewlines(CheckOpening)[0] == '\\'
  {
    assert CheckOpening[0] == '\n';
    assert CheckOpening == [CheckOpening[0]] + CheckOpening[1..];
    EscapeNewlinesAppend([CheckOpening[0]], CheckOpening[1..]);
  }

  lemma IndentAllSpace()
    ensures AllSpace(Indent)
  {
    var indent := Indent;
    assert forall i :: 0 <= i < |indent| ==> indent[i] == ' ';
  }

  /** The stripped template is the escaped opening and prediction followed by the escaped final newline. */
  lemma CheckContentShape(prediction: string)
    ensures CheckContent(prediction) == EscapeNewlines(CheckOpening) + EscapeNewlines(prediction) + "\\n"
  {
    var opening := EscapeNewlines(CheckOpening);
    var escaped := EscapeNewlines(prediction);
    EscapedTemplate(prediction);
    EscapedOpeningStart();
    var tail := "\\n";
    var content := opening + escaped + tail;
    assert content[0] == opening[0] == '\\';
    assert content[|content| - 1] == tail[1] == 'n';
    PrintableNotSpace('\\');
    PrintableNotSpace('n');
    IndentAllSpace();
    StripPadded(content, Indent);
  }

  /**
   * The check message is one `user` message whose content is the escaped
   * template and prediction, ending in the escaped final newline (`strip`
   * removes only the indentation after it), and contains no newline.
   */
  lemma CheckMessageShape(prediction: string)
    ensures var content := EscapeNewlines(CheckOpening) + EscapeNewlines(prediction) + "\\n";
      && PredictionCheckMessage(prediction) == Some([ChatMessage("user", content)])
      && '\n' !in content
  {
    CheckContentShape(prediction);
    LoadsDumps([ChatMessage("user", CheckContent(prediction))]);
  }
}
