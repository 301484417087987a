/** The Tektronix DPO4000-series oscilloscope driver: measurement slots
    (configuring a measurement type on a slot, reading the slots back), the
    trigger, zoom and persistence settings, on-screen annotations and the
    setup memories. Every command goes through one connection; the replies
    it reads are the instrument's. Text-to-float conversion (Python's
    `float()`) is a parameter of the operations that do it. */
module Tektronix {
  import opened Common
  import opened Text
  import opened Values
  import opened Visa

  // ------------------------------------------------------ measurement types

  /** The members of the driver's measurement-type enumeration. */
  datatype MeasurementType =
    | Amplitude | Area | Burst | CycleArea | CycleMean | CycleRms | Delay | Fall
    | Frequency | High | HistogramHits | Low | Maximum | Mean | Median | Minimum
    | NegativeDutyCycle | NegativeEdgeCount | NegativeOvershoot | NegativePulseCount
    | NegativeWidth | PeakHistogramHits | PositiveDutyCycle | PositiveEdgeCount
    | Period | Phase | Peak2Peak | PositiveOvershoot | PositivePulseCount
    | PositiveWidth | Rise | Rms | Sigma1Histogram | Sigma2Histogram
    | Sigma3Histogram | StdevHistogram | TotalOvershoot | WaveformsHistogram

  /** What a member stands for: the instrument's keyword for it, and whether
      it compares two waveforms. */
  datatype Measurement = Measurement(command: string, dualWaveform: bool)

  /** The member's Python name, spelling slips included. */
  function Name(t: MeasurementType): string
  {
    match t
    case Amplitude => "AMPLITUDE"
    case Area => "AREA"
    case Burst => "BURST"
    case CycleArea => "CYCLE_AREA"
    case CycleMean => "CYCLE_MEAN"
    case CycleRms => "CYCLE_RMS"
    case Delay => "DELAY"
    case Fall => "FALL"
    case Frequency => "FREQUENCY"
    case High => "HIGH"
    case HistogramHits => "HISTOGRAM_HITS"
    case Low => "LOW"
    case Maximum => "MAXIMUM"
    case Mean => "MEAN"
    case Median => "MEDIAN"
    case Minimum => "MINIMUM"
    case NegativeDutyCycle => "NEGATIVE_DUTY_CYCLE"
    case NegativeEdgeCount => "NEGATIVE_EDGE_COUNT"
    case NegativeOvershoot => "NEGATIVE_OVERSHOOT"
    case NegativePulseCount => "NEGATIVE_PULSE_COUNT"
    case NegativeWidth => "NEGATIVE_WIDTH"
    case PeakHistogramHits => "PEAK_HISTOGRAM_HITS"
    case PositiveDutyCycle => "POSITIVE_DUTY_CYCLE"
    case PositiveEdgeCount => "POSITIVE_EDGE_COUNT"
    case Period => "PERIOD"
    case Phase => "PHASE"
    case Peak2Peak => "PEAK_2_PEAK"
    case PositiveOvershoot => "POSITIVE_OVERSHOOT"
    case PositivePulseCount => "POSITIVE_PULSE_COUNT"
    case PositiveWidth => "POSTIVE_WIDTH"
    case Rise => "RISE"
    case Rms => "RMS"
    case Sigma1Histogram => "SIGMA1_HISTOGRAM"
    case Sigma2Histogram => "SIGMA2_HISTOGRAM"
    case Sigma3Histogram => "SIGMA3_HISTOGRAM"
    case StdevHistogram => "STDEV_HISTOGRAM"
    case TotalOvershoot => "TOTAL_OVERSHOOT"
    case WaveformsHistogram => "WAVEFORMS_HISTORGRAM"
  }

  /** The member's value. Only DELAY and PHASE take a second waveform. */
  function Info(t: MeasurementType): (m: Measurement)
    ensures m.dualWaveform <==> t == Delay || t == Phase
    ensures |m.command| > 0
  {
    match t
    case Amplitude => Measurement("AMPlitude", false)
    case Area => Measurement("AREa", false)
    case Burst => Measurement("BURst", false)
    case CycleArea => Measurement("CARea", false)
    case CycleMean => Measurement("CMEan", false)
    case CycleRms => Measurement("CRMs", false)
    case Delay => Measurement("DELay", true)
    case Fall => Measurement("FALL", false)
    case Frequency => Measurement("FREQuency", false)
    case High => Measurement("HIGH", false)
    case HistogramHits => Measurement("HITS", false)
    case Low => Measurement("LOW", false)
    case Maximum => Measurement("MAXimum", false)
    case Mean => Measurement("MEAN", false)
    case Median => Measurement("MEDian", false)
    case Minimum => Measurement("MINImum", false)
    case NegativeDutyCycle => Measurement("NDUty", false)
    case NegativeEdgeCount => Measurement("NEDGECount", false)
    case NegativeOvershoot => Measurement("NOVershoot", false)
    case NegativePulseCount => Measurement("NPULSECount", false)
    case NegativeWidth => Measurement("NWIdth", false)
    case PeakHistogramHits => Measurement("PEAKHits", false)
    case PositiveDutyCycle => Measurement("PDUty", false)
    case PositiveEdgeCount => Measurement("PEDGECount", false)
    case Period => Measurement("PERIod", false)
    case Phase => Measurement("PHAse", true)
    case Peak2Peak => Measurement("PK2Pk", false)
    case PositiveOvershoot => Measurement("POVershoot", false)
    case PositivePulseCount => Measurement("PPULSECount", false)
    case PositiveWidth => Measurement("PWIdth", false)
    case Rise => Measurement("RISe", false)
    case Rms => Measurement("RMS", false)
    case Sigma1Histogram => Measurement("SIGMA1", false)
    case Sigma2Histogram => Measurement("SIGMA2", false)
    case Sigma3Histogram => Measurement("SIGMA3", false)
    case StdevHistogram => Measurement("STDdev", false)
    case TotalOvershoot => Measurement("TOVershoot", false)
    case WaveformsHistogram => Measurement("WAVEFORMS", false)
  }

  /** The enumeration's table of member names. */
  function MatchName(name: string): Option<MeasurementType>
  {
    match name
    case "AMPLITUDE" => Some(Amplitude)
    case "AREA" => Some(Area)
    case "BURST" => Some(Burst)
    case "CYCLE_AREA" => Some(CycleArea)
    case "CYCLE_MEAN" => Some(CycleMean)
    case "CYCLE_RMS" => Some(CycleRms)
    case "DELAY" => Some(Delay)
    case "FALL" => Some(Fall)
    case "FREQUENCY" => Some(Frequency)
    case "HIGH" => Some(High)
    case "HISTOGRAM_HITS" => Some(HistogramHits)
    case "LOW" => Some(Low)
    case "MAXIMUM" => Some(Maximum)
    case "MEAN" => Some(Mean)
    case "MEDIAN" => Some(Median)
    case "MINIMUM" => Some(Minimum)
    case "NEGATIVE_DUTY_CYCLE" => Some(NegativeDutyCycle)
    case "NEGATIVE_EDGE_COUNT" => Some(NegativeEdgeCount)
    case "NEGATIVE_OVERSHOOT" => Some(NegativeOvershoot)
    case "NEGATIVE_PULSE_COUNT" => Some(NegativePulseCount)
    case "NEGATIVE_WIDTH" => Some(NegativeWidth)
    case "PEAK_HISTOGRAM_HITS" => Some(PeakHistogramHits)
    case "POSITIVE_DUTY_CYCLE" => Some(PositiveDutyCycle)
    case "POSITIVE_EDGE_COUNT" => Some(PositiveEdgeCount)
    case "PERIOD" => Some(Period)
    case "PHASE" => Some(Phase)
    case "PEAK_2_PEAK" => Some(Peak2Peak)
    case "POSITIVE_OVERSHOOT" => Some(PositiveOvershoot)
    case "POSITIVE_PULSE_COUNT" => Some(PositivePulseCount)
    case "POSTIVE_WIDTH" => Some(PositiveWidth)
    case "RISE" => Some(Rise)
    case "RMS" => Some(Rms)
    case "SIGMA1_HISTOGRAM" => Some(Sigma1Histogram)
    case "SIGMA2_HISTOGRAM" => Some(Sigma2Histogram)
    case "SIGMA3_HISTOGRAM" => Some(Sigma3Histogram)
    case "STDEV_HISTOGRAM" => Some(StdevHistogram)
    case "TOTAL_OVERSHOOT" => Some(TotalOvershoot)
    case "WAVEFORMS_HISTORGRAM" => Some(WaveformsHistogram)
    case _ => None
  }

  /** Enumeration lookup by member name (`MeasurementTypes[name]`): exact,
      case-sensitive, KeyError for anything that is not a member name. */
  function FromName(name: string): (r: Result<MeasurementType>)
    ensures r.Ok? ==> Name(r.value) == name
    ensures r.Err? ==> r.error == KeyError
  {
    match MatchName(name)
    case Some(t) => if Name(t) == name then Ok(t) else Err(KeyError)
    case None => Err(KeyError)
  }

  lemma NameTable0()
    ensures MatchName("AMPLITUDE") == Some(Amplitude)
    ensures MatchName("AREA") == Some(Area)
    ensures MatchName("BURST") == Some(Burst)
    ensures MatchName("CYCLE_AREA") == Some(CycleArea)
    ensures MatchName("CYCLE_MEAN") == Some(CycleMean)
    ensures MatchName("CYCLE_RMS") == Some(CycleRms)
    ensures MatchName("DELAY") == Some(Delay)
    ensures MatchName("FALL") == Some(Fall)
    ensures MatchName("FREQUENCY") == Some(Frequency)
    ensures MatchName("HIGH") == Some(High)
  {
  }

  lemma NameTable1()
    ensures MatchName("HISTOGRAM_HITS") == Some(HistogramHits)
    ensures MatchName("LOW") == Some(Low)
    ensures MatchName("MAXIMUM") == Some(Maximum)
    ensures MatchName("MEAN") == Some(Mean)
    ensures MatchName("MEDIAN") == Some(Median)
    ensures MatchName("MINIMUM") == Some(Minimum)
    ensures MatchName("NEGATIVE_DUTY_CYCLE") == Some(NegativeDutyCycle)
    ensures MatchName("NEGATIVE_EDGE_COUNT") == Some(NegativeEdgeCount)
  {
  }

  lemma NameTable2()
    ensures MatchName("NEGATIVE_OVERSHOOT") == Some(NegativeOvershoot)
    ensures MatchName("NEGATIVE_PULSE_COUNT") == Some(NegativePulseCount)
    ensures MatchName("NEGATIVE_WIDTH") == Some(NegativeWidth)
    ensures MatchName("PEAK_HISTOGRAM_HITS") == Some(PeakHistogramHits)
    ensures MatchName("POSITIVE_DUTY_CYCLE") == Some(PositiveDutyCycle)
    ensures MatchName("POSITIVE_EDGE_COUNT") == Some(PositiveEdgeCount)
    ensures MatchName("PERIOD") == Some(Period)
  {
  }

  lemma NameTable3()
    ensures MatchName("PHASE") == Some(Phase)
    ensures MatchName("PEAK_2_PEAK") == Some(Peak2Peak)
    ensures MatchName("POSITIVE_OVERSHOOT") == Some(PositiveOvershoot)
    ensures MatchName("POSITIVE_PULSE_COUNT") == Some(PositivePulseCount)
    ensures MatchName("POSTIVE_WIDTH") == Some(PositiveWidth)
  {
  }

  lemma NameTable4()
    ensures MatchName("RISE") == Some(Rise)
    ensures MatchName("RMS") == Some(Rms)
    ensures MatchName("SIGMA1_HISTOGRAM") == Some(Sigma1Histogram)
    ensures MatchName("SIGMA2_HISTOGRAM") == Some(Sigma2Histogram)
  {
  }

  lemma NameTable5()
    ensures MatchName("SIGMA3_HISTOGRAM") == Some(Sigma3Histogram)
    ensures MatchName("STDEV_HISTOGRAM") == Some(StdevHistogram)
    ensures MatchName("TOTAL_OVERSHOOT") == Some(TotalOvershoot)
    ensures MatchName("WAVEFORMS_HISTORGRAM") == Some(WaveformsHistogram)
  {
  }

  /** Every member is found again by its own name. */
  lemma NameRoundTrip(t: MeasurementType)
    ensures FromName(Name(t)) == Ok(t)
  {
    NameTable0();
    NameTable1();
    NameTable2();
    NameTable3();
    NameTable4();
    NameTable5();
    match t
    case Amplitude =>
    case Area =>
    case Burst =>
    case CycleArea =>
    case CycleMean =>
    case CycleRms =>
    case Delay =>
    case Fall =>
    case Frequency =>
    case High =>
    case HistogramHits =>
    case Low =>
    case Maximum =>
    case Mean =>
    case Median =>
    case Minimum =>
    case NegativeDutyCycle =>
    case NegativeEdgeCount =>
    case NegativeOvershoot =>
    case NegativePulseCount =>
    case NegativeWidth =>
    case PeakHistogramHits =>
    case PositiveDutyCycle =>
    case PositiveEdgeCount =>
    case Period =>
    case Phase =>
    case Peak2Peak =>
    case PositiveOvershoot =>
    case PositivePulseCount =>
    case PositiveWidth =>
    case Rise =>
    case Rms =>
    case Sigma1Histogram =>
    case Sigma2Histogram =>
    case Sigma3Histogram =>
    case StdevHistogram =>
    case TotalOvershoot =>
    case WaveformsHistogram =>
  }

  /** The lookup is by exact member name: the lower-case spelling and the
      correctly spelt name of the positive-width member are both rejected,
      while the misspelt member name is what selects it. */
  lemma NameLookupIsExact()
    ensures FromName("delay") == Err(KeyError)
    ensures FromName("POSITIVE_WIDTH") == Err(KeyError)
    ensures FromName("POSTIVE_WIDTH") == Ok(PositiveWidth)
  {
    NameTable3();
  }

  // --------------------------------------------------- measurement slots

  /** The measurement argument: a member name or a member. */
  datatype MeasurementArg = ByName(name: string) | ByType(t: MeasurementType)

  function Resolve(arg: MeasurementArg): Result<MeasurementType>
  {
    match arg
    case ByName(name) => FromName(name)
    case ByType(t) => Ok(t)
  }

  /** The command header of a measurement slot: slot n for n > 0, the
      immediate (undisplayed) measurement otherwise. */
  function SlotPrefix(n: int): string
  {
    "MEASU:" + (if n > 0 then "MEAS" + IntToString(n) else "IMM") + ":"
  }

  function ChannelName(ch: int): string
  {
    "CH" + IntToString(ch)
  }

  /** The writes that configure measurement `m` under header `p`: its type,
      its source channels, then switching it on. */
  function SlotCommands(p: string, m: Measurement, channel1: int, channel2: Option<int>): seq<string>
    requires m.dualWaveform ==> channel2.Some?
  {
    [p + "TYP " + m.command, p + "SOU1 " + ChannelName(channel1)]
      + (if m.dualWaveform then [p + "SOU2 " + ChannelName(channel2.value)] else [])
      + [p + "STATE ON"]
  }

  /** `configure_measurement`: the writes it makes, in order, or the error it
      raises before writing anything: KeyError for an unknown name,
      ValueError for a two-waveform type without a second channel. */
  function ConfigureCommands(arg: MeasurementArg, n: int, channel1: int, channel2: Option<int>)
    : (r: Result<seq<string>>)
    ensures r.Err? <==> Resolve(arg).Err? || (Info(Resolve(arg).value).dualWaveform && channel2.None?)
    ensures r.Err? ==> r.error == (if Resolve(arg).Err? then KeyError else ValueError)
  {
    var t :- Resolve(arg);
    var m := Info(t);
    if m.dualWaveform && channel2.None? then
      Err(ValueError)
    else
      Ok(SlotCommands(SlotPrefix(n), m, channel1, channel2))
  }

  lemma PrefixedStartsWith(p: string, x: string)
    ensures StartsWith(p + x, p)
  {
    assert (p + x)[..|p|] == p;
  }

  /** The writes of a successful configuration: type first, then the first
      channel, the second channel for a two-waveform type only, and
      switching the slot on last, every one under the slot's header. */
  lemma ConfigureShape(arg: MeasurementArg, n: int, channel1: int, channel2: Option<int>)
    requires ConfigureCommands(arg, n, channel1, channel2).Ok?
    ensures var cmds := ConfigureCommands(arg, n, channel1, channel2).value;
            var m := Info(Resolve(arg).value);
            var p := SlotPrefix(n);
            && |cmds| == (if m.dualWaveform then 4 else 3)
            && cmds[0] == p + "TYP " + m.command
            && cmds[1] == p + "SOU1 " + ChannelName(channel1)
            && (m.dualWaveform ==> cmds[2] == p + "SOU2 " + ChannelName(channel2.value))
            && cmds[|cmds| - 1] == p + "STATE ON"
            && forall k :: 0 <= k < |cmds| ==> StartsWith(cmds[k], p)
  {
    var cmds := ConfigureCommands(arg, n, channel1, channel2).value;
    var m := Info(Resolve(arg).value);
    var p := SlotPrefix(n);
    PrefixedStartsWith(p, "TYP " + m.command);
    PrefixedStartsWith(p, "SOU1 " + ChannelName(channel1));
    PrefixedStartsWith(p, "STATE ON");
    if m.dualWaveform {
      PrefixedStartsWith(p, "SOU2 " + ChannelName(channel2.value));
    }
  }

  /** Positive slot numbers address different slots; every number that is
      not positive addresses the immediate measurement. */
  lemma SlotsDistinct(n: int, m: int)
    ensures SlotPrefix(n) == SlotPrefix(m) <==> n == m || (n <= 0 && m <= 0)
  {
    if n > 0 && m > 0 && SlotPrefix(n) == SlotPrefix(m) {
      NumberedSlot(n);
      NumberedSlot(m);
      IntToStringInjective(n, m);
    } else if n > 0 && m <= 0 {
      NumberedSlot(n);
      ImmediateSlot(m);
    } else if n <= 0 && m > 0 {
      ImmediateSlot(n);
      NumberedSlot(m);
    }
  }

  /** A numbered slot's header carries its number after "MEASU:MEAS". */
  lemma NumberedSlot(n: int)
    requires n > 0
    ensures var a := SlotPrefix(n); |a| > 10 && a[6] == 'M' && a[10..|a| - 1] == IntToString(n)
  {
    var a := SlotPrefix(n);
    assert a == "MEASU:MEAS" + IntToString(n) + ":";
  }

  lemma ImmediateSlot(n: int)
    requires n <= 0
    ensures SlotPrefix(n)[6] == 'I'
  {
    assert SlotPrefix(n) == "MEASU:IMM:";
  }

  // ------------------------------------------------------ measurement data

  /** A measurement value; a reply `float()` cannot read becomes NaN. */
  datatype Reading = Real(x: real) | NaN

  /** One index gives a single value, any other count a tuple. */
  datatype MeasureData = Scalar(reading: Reading) | Tuple(readings: seq<Reading>)

  function ToReading(toFloat: string -> Option<real>, reply: string): Reading
  {
    match toFloat(reply)
    case Some(x) => Real(x)
    case None => NaN
  }

  /** The value query of a slot. */
  function MeasureQuery(idx: int): string
  {
    if idx == 0 then "MEASU:IMM:VAL?" else "MEASU:MEAS" + IntToString(idx) + ":VAL?"
  }

  /** The value query of a slot is that slot's header exactly when the index
      is not negative: a negative index is configured as the immediate
      measurement but read back from a slot of its own number. */
  lemma QueryMatchesSlot(idx: int)
    ensures MeasureQuery(idx) == SlotPrefix(idx) + "VAL?" <==> idx >= 0
  {
    if idx < 0 {
      assert MeasureQuery(idx)[6] == 'M' && (SlotPrefix(idx) + "VAL?")[6] == 'I';
    }
  }

  /** `f` applied to each of `xs`, in order. */
  function Mapped(f: int -> string, xs: seq<int>): (ys: seq<string>)
    ensures |ys| == |xs|
    ensures forall k :: 0 <= k < |xs| ==> ys[k] == f(xs[k])
  {
    seq(|xs|, k requires 0 <= k < |xs| => f(xs[k]))
  }

  lemma MappedSnoc(f: int -> string, xs: seq<int>, i: nat)
    requires i < |xs|
    ensures Mapped(f, xs[..i + 1]) == Mapped(f, xs[..i]) + [f(xs[i])]
  {
  }

  /** The value queries for `indices`, in order. */
  function Queries(indices: seq<int>): (qs: seq<string>)
    ensures |qs| == |indices|
    ensures forall k :: 0 <= k < |indices| ==> qs[k] == MeasureQuery(indices[k])
  {
    Mapped(MeasureQuery, indices)
  }

  lemma QueriesSnoc(indices: seq<int>, i: nat)
    requires i < |indices|
    ensures Queries(indices[..i + 1]) == Queries(indices[..i]) + [MeasureQuery(indices[i])]
  {
    MappedSnoc(MeasureQuery, indices, i);
  }

  /** The replies read as floats, in order. */
  function Readings(toFloat: string -> Option<real>, replies: seq<string>): (rs: seq<Reading>)
    ensures |rs| == |replies|
    ensures forall k :: 0 <= k < |replies| ==> rs[k] == ToReading(toFloat, replies[k])
  {
    seq(|replies|, k requires 0 <= k < |replies| => ToReading(toFloat, replies[k]))
  }

  lemma ReadingsSnoc(toFloat: string -> Option<real>, replies: seq<string>, i: nat)
    requires i < |replies|
    ensures Readings(toFloat, replies[..i + 1]) == Readings(toFloat, replies[..i]) + [ToReading(toFloat, replies[i])]
  {
  }

  function Pack(data: seq<Reading>): (d: MeasureData)
    ensures d.Scalar? <==> |data| == 1
    ensures d.Scalar? ==> d.reading == data[0]
    ensures d.Tuple? ==> d.readings == data
  {
    if |data| == 1 then Scalar(data[0]) else Tuple(data)
  }

  /** `get_measure_data`: one query per index, in the order given, each
      followed by reading its reply; the first query left unanswered ends it
      with the connection's timeout error. */
  function MeasureDataExchange(replies: seq<string>, indices: seq<int>, toFloat: string -> Option<real>)
    : (ex: Exchange<MeasureData>)
    ensures ex.result.Ok? <==> |indices| <= |replies|
    ensures ex.result.Err? ==> ex.result.error == VisaIOError
    ensures ex.consumed <= |replies| && ex.consumed <= |indices|
  {
    if |indices| <= |replies| then
      Exchange(Queries(indices), |indices|, Ok(Pack(Readings(toFloat, replies[..|indices|]))))
    else
      Exchange(Queries(indices[..|replies| + 1]), |replies|, Err(VisaIOError))
  }

  /** Reading back a slot that was just configured queries that slot, and
      a single index gives a single value. */
  lemma ConfiguredSlotIsRead(arg: MeasurementArg, n: int, channel1: int, channel2: Option<int>,
                             replies: seq<string>, toFloat: string -> Option<real>)
    requires n >= 0 && ConfigureCommands(arg, n, channel1, channel2).Ok?
    requires |replies| > 0
    ensures var ex := MeasureDataExchange(replies, [n], toFloat);
            && ex.sent == [SlotPrefix(n) + "VAL?"]
            && ex.result == Ok(Scalar(ToReading(toFloat, replies[0])))
            && StartsWith(ConfigureCommands(arg, n, channel1, channel2).value[0], SlotPrefix(n))
  {
    ConfigureShape(arg, n, channel1, channel2);
    QueryMatchesSlot(n);
    assert [n][..0] == [];
  }

  // -------------------------------------------------------- float queries

  /** A query whose reply is converted with `float()` (ValueError when it
      is not a number). */
  function FloatExchange(replies: seq<string>, message: string, toFloat: string -> Option<real>)
    : (ex: Exchange<real>)
    ensures ex.sent == [message] && ex.consumed == (if replies == [] then 0 else 1)
    ensures ex.result.Ok? <==> replies != [] && toFloat(replies[0]).Some?
    ensures ex.result.Ok? ==> ex.result.value == toFloat(replies[0]).value
    ensures ex.result.Err? ==> ex.result.error == (if replies == [] then VisaIOError else ValueError)
  {
    var q := QueryExchange(replies, message);
    if q.result.Err? then Abort(q)
    else match toFloat(q.result.value)
      case Some(x) => Exchange(q.sent, q.consumed, Ok(x))
      case None => Exchange(q.sent, q.consumed, Err(ValueError))
  }

  // --------------------------------------------------------------- trigger

  /** `set_trigger_position`: a percentage of the capture window. Comparing
      anything but a number raises TypeError. */
  function TriggerPositionCommand(offset: Value): (r: Result<string>)
    ensures r.Ok? <==> IsNumber(offset) && 0.0 <= Number(offset) <= 100.0
    ensures r.Ok? ==> r.value == "HOR:POS " + Str(offset)
    ensures r.Err? ==> r.error == (if IsNumber(offset) then ValueError else TypeError)
  {
    if !IsNumber(offset) then Err(TypeError)
    else if 0.0 <= Number(offset) <= 100.0 then Ok("HOR:POS " + Str(offset))
    else Err(ValueError)
  }

  const TriggerModes: set<string> := {"AUTO", "NORM", "NORMAL"}

  /** `set_trigger_mode`: the upper-cased text of the argument, if it names
      a trigger mode. */
  function TriggerModeCommand(mode: Value): (r: Result<string>)
    ensures r.Ok? <==> Upper(Str(mode)) in TriggerModes
    ensures r.Ok? ==> r.value == "TRIG:A:MOD " + Upper(Str(mode))
    ensures r.Err? ==> r.error == ValueError
  {
    var m := Upper(Str(mode));
    if m in TriggerModes then Ok("TRIG:A:MOD " + m) else Err(ValueError)
  }

  /** Every spelling of a mode selects the same command. */
  lemma TriggerModeIgnoresCase(s: string)
    ensures TriggerModeCommand(StrValue(Upper(s))) == TriggerModeCommand(StrValue(s))
  {
    UpperIdempotent(s);
  }

  /** `get_trigger_mode`: trailing newlines removed, then lower-cased. */
  function NormalizeTriggerMode(reply: string): (r: string)
    ensures !HasUpper(r)
    ensures |r| > 0 ==> r[|r| - 1] != '\n'
    ensures |r| <= |reply|
  {
    LowerHasNoUpper(RStrip(reply, {'\n'}));
    Lower(RStrip(reply, {'\n'}))
  }

  lemma RStripAppended(s: string, c: char)
    requires |s| > 0 && s[|s| - 1] != c
    ensures RStrip(s + [c], {c}) == s
  {
    assert (s + [c])[..|s|] == s;
  }

  /** A mode that was set and is echoed back with a line ending reads back
      as the lower-case spelling of what was written. */
  lemma TriggerModeReadBack(mode: Value)
    requires TriggerModeCommand(mode).Ok?
    ensures var m := Upper(Str(mode));
            NormalizeTriggerMode(m + "\n") == Lower(m) && Lower(m) in {"auto", "norm", "normal"}
  {
    ModeReadBack(Upper(Str(mode)));
  }

  lemma ModeReadBack(m: string)
    requires m in TriggerModes
    ensures NormalizeTriggerMode(m + "\n") == Lower(m) && Lower(m) in {"auto", "norm", "normal"}
  {
    RStripAppended(m, '\n');
    if m == "AUTO" {
      assert Lower(m) == "auto";
    } else if m == "NORM" {
      assert Lower(m) == "norm";
    } else {
      assert Lower(m) == "normal";
    }
  }

  // ------------------------------------------------------------------ zoom

  function ZoomModeCommand(state: Value): string
  {
    "ZOO:MODE " + (if Truthy(state) then "ON" else "OFF")
  }

  /** `get_zoom_mode`: on when the lower-cased reply contains "on", "true"
      or "1" anywhere. */
  predicate ZoomOn(reply: string)
  {
    var s := Lower(reply);
    Contains(s, "on") || Contains(s, "true") || Contains(s, "1")
  }

  /** The instrument's own words read back as what they mean. Any reply with
      "on" inside it also counts as on, "NONE" among them. */
  lemma ZoomReadBack(state: Value)
    ensures ZoomOn(if Truthy(state) then "ON" else "OFF") == Truthy(state)
    ensures ZoomOn("1") && !ZoomOn("0")
    ensures ZoomOn("NONE")
  {
    assert Lower("ON") == "on" && StartsWith("on", "on");
    assert Lower("1") == "1" && StartsWith("1", "1");
    assert Lower("NONE") == "none" && StartsWith("none"[1..], "on");
    assert Lower("0") == "0";
    FirstCharAbsent("0", "on");
    FirstCharAbsent("0", "true");
    FirstCharAbsent("0", "1");
    assert Lower("OFF") == "off";
    assert "off"[1..] == "ff" && "off"[..2][1] != "on"[1];
    FirstCharAbsent("ff", "on");
    FirstCharAbsent("off", "true");
    FirstCharAbsent("off", "1");
  }

  /** A string whose first character does not occur is not contained. */
  lemma {:induction false} FirstCharAbsent(s: string, sub: string)
    requires |sub| > 0 && forall i :: 0 <= i < |s| ==> s[i] != sub[0]
    ensures !Contains(s, sub)
    decreases |s|
  {
    if |sub| <= |s| {
      assert s[..|sub|][0] == s[0];
    }
    if |s| > 0 {
      FirstCharAbsent(s[1..], sub);
    }
  }

  // ----------------------------------------------------------- persistence

  /** `set_persistence_time`: "inf" in any case is the infinite setting, a
      positive number is sent as a float, any other number as -1 (automatic);
      everything else is a ValueError. */
  function PersistenceCommand(duration: Value): (r: Result<string>)
    ensures r.Ok? <==> (duration.StrValue? && Lower(duration.s) == "inf") || IsNumber(duration)
    ensures r.Err? ==> r.error == ValueError
    ensures r.Ok? && IsNumber(duration) && Number(duration) <= 0.0 ==> r.value == "DIS:PERS -1"
    ensures r.Ok? && IsNumber(duration) && Number(duration) > 0.0 ==> r.value == "DIS:PERS " + FloatStr(duration)
    ensures r.Ok? && duration.StrValue? ==> r.value == "DIS:PERS INFI"
  {
    if duration.StrValue? && Lower(duration.s) == "inf" then Ok("DIS:PERS INFI")
    else if IsNumber(duration) then Ok("DIS:PERS " + (if Number(duration) > 0.0 then FloatStr(duration) else "-1"))
    else Err(ValueError)
  }

  /** A number written as text is not a duration. */
  lemma PersistenceRejectsNumericText()
    ensures PersistenceCommand(StrValue("5")) == Err(ValueError)
    ensures PersistenceCommand(StrValue("InF")) == Ok("DIS:PERS INFI")
  {
    assert Lower("5") == "5";
    assert Lower("InF") == "inf";
  }

  /** `get_persistence_time`: the reply as a float, never below zero. */
  function PersistenceExchange(replies: seq<string>, toFloat: string -> Option<real>): (ex: Exchange<real>)
    ensures ex.sent == ["DIS:PERS?"]
    ensures ex.result.Ok? <==> FloatExchange(replies, "DIS:PERS?", toFloat).result.Ok?
    ensures ex.result.Ok? ==> ex.result.value >= 0.0
    ensures ex.result.Ok? ==> var x := FloatExchange(replies, "DIS:PERS?", toFloat).result.value;
                              (x >= 0.0 ==> ex.result.value == x) && (x < 0.0 ==> ex.result.value == 0.0)
  {
    var f := FloatExchange(replies, "DIS:PERS?", toFloat);
    if f.result.Err? then f
    else Exchange(f.sent, f.consumed, Ok(if f.result.value > 0.0 then f.result.value else 0.0))
  }

  /** The automatic setting (-1) reads back as zero, a positive time as
      itself. */
  lemma PersistenceReadBack(x: real, reply: string, toFloat: string -> Option<real>)
    requires toFloat(reply) == Some(x) && (x > 0.0 || x == -1.0)
    ensures PersistenceExchange([reply], toFloat).result == Ok(if x > 0.0 then x else 0.0)
  {
  }

  // ------------------------------------------------------------ annotation

  function ShowPart(text: string): string
  {
    "MESSAGE:SHOW \"" + text + "\";"
  }

  function BoxPart(x: Value, y: Value): string
  {
    "BOX " + Str(x) + ", " + Str(y) + ";"
  }

  /** `set_annotation`: the message, a box position when both coordinates
      are given, and the command that shows it. */
  function AnnotationMessage(text: string, x: Value, y: Value): (msg: string)
    ensures StartsWith(msg, ShowPart(text))
    ensures |msg| >= 7 && msg[|msg| - 7..] == "STATE 1"
  {
    if x.NoneValue? || y.NoneValue? then ShowPart(text) + "STATE 1"
    else ShowPart(text) + BoxPart(x, y) + "STATE 1"
  }

  /** The box is there exactly when both coordinates are given, and then it
      carries them in order. */
  lemma AnnotationBoxIff(text: string, x: Value, y: Value)
    ensures var rest := AnnotationMessage(text, x, y)[|ShowPart(text)|..];
            && (StartsWith(rest, "BOX ") <==> !x.NoneValue? && !y.NoneValue?)
            && (!x.NoneValue? && !y.NoneValue? ==> rest == BoxPart(x, y) + "STATE 1")
            && (x.NoneValue? || y.NoneValue? ==> rest == "STATE 1")
  {
    var msg := AnnotationMessage(text, x, y);
    var rest := msg[|ShowPart(text)|..];
    if x.NoneValue? || y.NoneValue? {
      assert rest == "STATE 1";
      assert rest[0] == 'S';
    } else {
      assert rest == BoxPart(x, y) + "STATE 1";
      assert rest[..4] == "BOX ";
    }
  }

  // --------------------------------------------------------- setup memory

  /** The wait for completion that follows a setup store or recall. */
  function OpcExchange(replies: seq<string>): (ex: Exchange<()>)
    ensures ex.sent == ["*OPC?"]
    ensures ex.result.Ok? <==> replies != []
    ensures ex.result.Err? ==> ex.result.error == VisaIOError
    ensures ex.consumed == (if replies == [] then 0 else 1)
  {
    var q := QueryExchange(replies, "*OPC?");
    Exchange(q.sent, q.consumed, if q.result.Err? then Err(q.result.error) else Ok(()))
  }

  /** `store_setup` (verb "*SAV") and `recall_setup` (verb "*RCL"). The index
      is checked against 1..10 but the error is never raised. */
  function SetupExchange(replies: seq<string>, verb: string, index: int): Exchange<()>
  {
    Then(WriteExchange(SetupCommand(verb, index), ()), OpcExchange(replies))
  }

  function SetupCommand(verb: string, index: int): string
  {
    verb + " " + IntToString(index)
  }

  /** Any index is sent, in range or not; the only failure is a missing
      completion reply. */
  lemma SetupAcceptsAnyIndex(replies: seq<string>, verb: string, index: int)
    ensures var ex := SetupExchange(replies, verb, index);
            && ex.sent == [SetupCommand(verb, index), "*OPC?"]
            && (ex.result.Ok? <==> replies != [])
            && (ex.result.Err? ==> ex.result.error == VisaIOError)
  {
  }

  /** The timeout after `recall_setup`: restored when the recall completes,
      left at the recall's own timeout when the completion query raises. */
  function TimeoutAfterRecall(previous: real, requested: real, ex: Exchange<()>): (t: real)
    ensures ex.result.Ok? ==> t == previous
    ensures ex.result.Err? ==> t == requested
  {
    if ex.result.Ok? then previous else requested
  }

  /** For every recall: the previous timeout comes back exactly when the
      scope answers "*OPC?", and an unanswered query leaves the requested
      one in place. */
  lemma RecallTimeoutLeftChanged(previous: real, requested: real, index: int, replies: seq<string>)
    ensures replies == [] ==> TimeoutAfterRecall(previous, requested, SetupExchange(replies, "*RCL", index)) == requested
    ensures replies != [] ==> TimeoutAfterRecall(previous, requested, SetupExchange(replies, "*RCL", index)) == previous
  {
    SetupAcceptsAnyIndex(replies, "*RCL", index);
  }

  // -------------------------------------------------------- record length

  /** `get_record_length`: the reply read with `int()`. */
  function RecordLengthExchange(replies: seq<string>): (ex: Exchange<int>)
    ensures ex.sent == ["HOR:RECO?"]
    ensures ex.result.Ok? <==> replies != [] && ParseInt(replies[0]).Ok?
    ensures ex.result.Ok? ==> ex.result.value == ParseInt(replies[0]).value
  {
    var q := QueryExchange(replies, "HOR:RECO?");
    if q.result.Err? then Abort(q)
    else Exchange(q.sent, q.consumed, ParseInt(q.result.value))
  }

  /** A length that was written reads back as itself when echoed. */
  lemma RecordLengthRoundTrip(length: int)
    ensures RecordLengthExchange([IntToString(length)]).result == Ok(length)
  {
    IntRoundTrip(length);
  }

  // ---------------------------------------------------------------- driver

  /** A DPO4000-series oscilloscope on a connection. */
  class Dpo4xxx {
    const io: Transport

    constructor(io: Transport)
      ensures this.io == io
    {
      this.io := io;
    }

    /** `configure_measurement`. */
    method ConfigureMeasurement(arg: MeasurementArg, n: int, channel1: int, channel2: Option<int>)
      returns (r: Outcome)
      modifies io
      ensures var c := ConfigureCommands(arg, n, channel1, channel2);
              && (c.Ok? ==> r == Pass && io.sent == old(io.sent) + c.value)
              && (c.Err? ==> r == Fail(c.error) && io.sent == old(io.sent))
      ensures io.replies == old(io.replies) && io.timeout == old(io.timeout)
    {
      var t := Resolve(arg);
      if t.Err? {
        return Fail(t.error);
      }
      var m := Info(t.value);
      if m.dualWaveform && channel2.None? {
        return Fail(ValueError);
      }
      WriteSlot(SlotPrefix(n), m, channel1, channel2);
      r := Pass;
    }

    /** The writes of `configure_measurement` once the type is resolved. */
    method WriteSlot(p: string, m: Measurement, channel1: int, channel2: Option<int>)
      requires m.dualWaveform ==> channel2.Some?
      modifies io
      ensures io.sent == old(io.sent) + SlotCommands(p, m, channel1, channel2)
      ensures io.replies == old(io.replies) && io.timeout == old(io.timeout)
    {
      io.Write(p + "TYP " + m.command);
      io.Write(p + "SOU1 " + ChannelName(channel1));
      if m.dualWaveform {
        io.Write(p + "SOU2 " + ChannelName(channel2.value));
      }
      io.Write(p + "STATE ON");
    }

    /** `get_measure_data`: one query per index, in order. */
    method GetMeasureData(indices: seq<int>, toFloat: string -> Option<real>) returns (r: Result<MeasureData>)
      modifies io
      ensures io.Performed(old(io.sent), old(io.replies), MeasureDataExchange(old(io.replies), indices, toFloat))
      ensures r == MeasureDataExchange(old(io.replies), indices, toFloat).result
      ensures io.timeout == old(io.timeout)
    {
      ghost var sent0, replies0 := io.sent, io.replies;
      var data: seq<Reading> := [];
      var i := 0;
      while i < |indices|
        invariant 0 <= i <= |indices| && i <= |replies0|
        invariant io.sent == sent0 + Queries(indices[..i]) && io.replies == replies0[i..]
        invariant data == Readings(toFloat, replies0[..i])
        invariant io.timeout == old(io.timeout)
      {
        QueriesSnoc(indices, i);
        var response := io.Query(MeasureQuery(indices[i]));
        if response.Err? {
          return Err(response.error);
        }
        ReadingsSnoc(toFloat, replies0, i);
        data := data + [ToReading(toFloat, response.value)];
        i := i + 1;
      }
      assert indices[..|indices|] == indices;
      r := Ok(Pack(data));
    }

    /** A query whose reply is read with `float()`. */
    method QueryFloat(message: string, toFloat: string -> Option<real>) returns (r: Result<real>)
      modifies io
      ensures io.Performed(old(io.sent), old(io.replies), FloatExchange(old(io.replies), message, toFloat))
      ensures r == FloatExchange(old(io.replies), message, toFloat).result && io.timeout == old(io.timeout)
    {
      var reply := io.Query(message);
      if reply.Err? {
        return Err(reply.error);
      }
      match toFloat(reply.value) {
        case Some(x) => r := Ok(x);
        case None => r := Err(ValueError);
      }
    }

    /** `trigger_run_stop`. */
    method TriggerRunStop()
      modifies io
      ensures io.sent == old(io.sent) + ["ACQUIRE:STOPAFTER RUNSTop", "ACQUIRE:STATE ON"]
      ensures io.replies == old(io.replies) && io.timeout == old(io.timeout)
    {
      io.Write("ACQUIRE:STOPAFTER RUNSTop");
      io.Write("ACQUIRE:STATE ON");
    }

    /** `trigger_force`. */
    method TriggerForce()
      modifies io
      ensures io.sent == old(io.sent) + ["TRIG FORC"]
      ensures io.replies == old(io.replies) && io.timeout == old(io.timeout)
    {
      io.Write("TRIG FORC");
    }

    /** `trigger_single`. */
    method TriggerSingle()
      modifies io
      ensures io.sent == old(io.sent) + ["ACQUIRE:STOPAFTER SEQUENCE", "ACQUIRE:STATE ON"]
      ensures io.replies == old(io.replies) && io.timeout == old(io.timeout)
    {
      io.Write("ACQUIRE:STOPAFTER SEQUENCE");
      io.Write("ACQUIRE:STATE ON");
    }

    /** `set_trigger_position`: nothing is written for an offset outside
      0..100. */
    method SetTriggerPosition(offset: Value) returns (r: Outcome)
      modifies io
      ensures var c := TriggerPositionCommand(offset);
              && (c.Ok? ==> r == Pass && io.sent == old(io.sent) + [c.value])
              && (c.Err? ==> r == Fail(c.error) && io.sent == old(io.sent))
      ensures io.replies == old(io.replies) && io.timeout == old(io.timeout)
    {
      if !IsNumber(offset) {
        return Fail(TypeError);
      }
      if !(0.0 <= Number(offset) <= 100.0) {
        return Fail(ValueError);
      }
      io.Write("HOR:POS " + Str(offset));
      r := Pass;
    }

    /** `get_trigger_position`. */
    method GetTriggerPosition(toFloat: string -> Option<real>) returns (r: Result<real>)
      modifies io
      ensures io.Performed(old(io.sent), old(io.replies), FloatExchange(old(io.replies), "HOR:POS?", toFloat))
      ensures r == FloatExchange(old(io.replies), "HOR:POS?", toFloat).result && io.timeout == old(io.timeout)
    {
      r := QueryFloat("HOR:POS?", toFloat);
    }

    /** `set_trigger_mode`. */
    method SetTriggerMode(mode: Value) returns (r: Outcome)
      modifies io
      ensures var c := TriggerModeCommand(mode);
              && (c.Ok? ==> r == Pass && io.sent == old(io.sent) + [c.value])
              && (c.Err? ==> r == Fail(c.error) && io.sent == old(io.sent))
      ensures io.replies == old(io.replies) && io.timeout == old(io.timeout)
    {
      var m := Upper(Str(mode));
      if m !in TriggerModes {
        return Fail(ValueError);
      }
      io.Write("TRIG:A:MOD " + m);
      r := Pass;
    }

    /** `get_trigger_mode`. */
    method GetTriggerMode() returns (r: Result<string>)
      modifies io
      ensures io.Performed(old(io.sent), old(io.replies), QueryExchange(old(io.replies), "TRIG:A:MOD?"))
      ensures var q := QueryExchange(old(io.replies), "TRIG:A:MOD?").result;
              && (q.Ok? ==> r == Ok(NormalizeTriggerMode(q.value)))
              && (q.Err? ==> r == Err(q.error))
      ensures io.timeout == old(io.timeout)
    {
      var reply := io.Query("TRIG:A:MOD?");
      if reply.Err? {
        return Err(reply.error);
      }
      r := Ok(NormalizeTriggerMode(reply.value));
    }

    /** `set_trigger_level`. */
    method SetTriggerLevel(level: Value)
      modifies io
      ensures io.sent == old(io.sent) + ["TRIG:A:LEV " + Str(level)]
      ensures io.replies == old(io.replies) && io.timeout == old(io.timeout)
    {
      io.Write("TRIG:A:LEV " + Str(level));
    }

    /** `get_trigger_level`. */
    method GetTriggerLevel(toFloat: string -> Option<real>) returns (r: Result<real>)
      modifies io
      ensures io.Performed(old(io.sent), old(io.replies), FloatExchange(old(io.replies), "TRIG:A:LEV?", toFloat))
      ensures r == FloatExchange(old(io.replies), "TRIG:A:LEV?", toFloat).result && io.timeout == old(io.timeout)
    {
      r := QueryFloat("TRIG:A:LEV?", toFloat);
    }

    /** `set_zoom_mode`. */
    method SetZoomMode(state: Value)
      modifies io
      ensures io.sent == old(io.sent) + [ZoomModeCommand(state)]
      ensures io.replies == old(io.replies) && io.timeout == old(io.timeout)
    {
      io.Write("ZOO:MODE " + (if Truthy(state) then "ON" else "OFF"));
    }

    /** `get_zoom_mode`. */
    method GetZoomMode() returns (r: Result<bool>)
      modifies io
      ensures io.Performed(old(io.sent), old(io.replies), QueryExchange(old(io.replies), "ZOO:MODE?"))
      ensures var q := QueryExchange(old(io.replies), "ZOO:MODE?").result;
              && (q.Ok? ==> r == Ok(ZoomOn(q.value)))
              && (q.Err? ==> r == Err(q.error))
      ensures io.timeout == old(io.timeout)
    {
      var reply := io.Query("ZOO:MODE?");
      if reply.Err? {
        return Err(reply.error);
      }
      r := Ok(ZoomOn(reply.value));
    }

    /** `set_zoom_position`. */
    method SetZoomPosition(position: Value)
      modifies io
      ensures io.sent == old(io.sent) + ["ZOO:ZOOM:POS " + Str(position)]
      ensures io.replies == old(io.replies) && io.timeout == old(io.timeout)
    {
      io.Write("ZOO:ZOOM:POS " + Str(position));
    }

    /** `get_zoom_position`. */
    method GetZoomPosition(toFloat: string -> Option<real>) returns (r: Result<real>)
      modifies io
      ensures io.Performed(old(io.sent), old(io.replies), FloatExchange(old(io.replies), "ZOO:ZOOM:POS?", toFloat))
      ensures r == FloatExchange(old(io.replies), "ZOO:ZOOM:POS?", toFloat).result && io.timeout == old(io.timeout)
    {
      r := QueryFloat("ZOO:ZOOM:POS?", toFloat);
    }

    /** `set_zoom_scale`. */
    method SetZoomScale(scale: Value)
      modifies io
      ensures io.sent == old(io.sent) + ["ZOO:ZOOM:SCA " + Str(scale)]
      ensures io.replies == old(io.replies) && io.timeout == old(io.timeout)
    {
      io.Write("ZOO:ZOOM:SCA " + Str(scale));
    }

    /** `get_zoom_scale`. */
    method GetZoomScale(toFloat: string -> Option<real>) returns (r: Result<real>)
      modifies io
      ensures io.Performed(old(io.sent), old(io.replies), FloatExchange(old(io.replies), "ZOO:ZOOM:SCA?", toFloat))
      ensures r == FloatExchange(old(io.replies), "ZOO:ZOOM:SCA?", toFloat).result && io.timeout == old(io.timeout)
    {
      r := QueryFloat("ZOO:ZOOM:SCA?", toFloat);
    }

    /** `set_persistence_time`. */
    method SetPersistenceTime(duration: Value) returns (r: Outcome)
      modifies io
      ensures var c := PersistenceCommand(duration);
              && (c.Ok? ==> r == Pass && io.sent == old(io.sent) + [c.value])
              && (c.Err? ==> r == Fail(c.error) && io.sent == old(io.sent))
      ensures io.replies == old(io.replies) && io.timeout == old(io.timeout)
    {
      if duration.StrValue? && Lower(duration.s) == "inf" {
        io.Write("DIS:PERS INFI");
      } else if IsNumber(duration) {
        io.Write("DIS:PERS " + (if Number(duration) > 0.0 then FloatStr(duration) else "-1"));
      } else {
        return Fail(ValueError);
      }
      r := Pass;
    }

    /** `get_persistence_time`. */
    method GetPersistenceTime(toFloat: string -> Option<real>) returns (r: Result<real>)
      modifies io
      ensures io.Performed(old(io.sent), old(io.replies), PersistenceExchange(old(io.replies), toFloat))
      ensures r == PersistenceExchange(old(io.replies), toFloat).result && io.timeout == old(io.timeout)
    {
      var x := QueryFloat("DIS:PERS?", toFloat);
      if x.Err? {
        return x;
      }
      r := Ok(if x.value > 0.0 then x.value else 0.0);
    }

    /** `set_annotation`. */
    method SetAnnotation(text: string, x: Value, y: Value)
      modifies io
      ensures io.sent == old(io.sent) + [AnnotationMessage(text, x, y)]
      ensures io.replies == old(io.replies) && io.timeout == old(io.timeout)
    {
      var message := ShowPart(text);
      if !(x.NoneValue? || y.NoneValue?) {
        message := message + BoxPart(x, y);
      }
      message := message + "STATE 1";
      io.Write(message);
    }

    /** `clear_annotation`. */
    method ClearAnnotation()
      modifies io
      ensures io.sent == old(io.sent) + ["MESSAGE:CLEAR; STATE 0"]
      ensures io.replies == old(io.replies) && io.timeout == old(io.timeout)
    {
      io.Write("MESSAGE:CLEAR; STATE 0");
    }

    /** `set_record_length`. */
    method SetRecordLength(length: int)
      modifies io
      ensures io.sent == old(io.sent) + ["HOR:RECO " + IntToString(length)]
      ensures io.replies == old(io.replies) && io.timeout == old(io.timeout)
    {
      io.Write("HOR:RECO " + IntToString(length));
    }

    /** `get_record_length`. */
    method GetRecordLength() returns (r: Result<int>)
      modifies io
      ensures io.Performed(old(io.sent), old(io.replies), RecordLengthExchange(old(io.replies)))
      ensures r == RecordLengthExchange(old(io.replies)).result && io.timeout == old(io.timeout)
    {
      var reply := io.Query("HOR:RECO?");
      if reply.Err? {
        return Err(reply.error);
      }
      r := ParseInt(reply.value);
    }

    /** `store_setup`. */
    method StoreSetup(index: int) returns (r: Outcome)
      modifies io
      ensures var ex := SetupExchange(old(io.replies), "*SAV", index);
              && io.Performed(old(io.sent), old(io.replies), ex)
              && r == (if ex.result.Ok? then Pass else Fail(ex.result.error))
      ensures io.timeout == old(io.timeout)
    {
      ghost var sent0, replies0 := io.sent, io.replies;
      io.Write(SetupCommand("*SAV", index));
      var done := io.Query("*OPC?");
      assert replies0[0..] == replies0;
      io.PerformedThen(sent0, replies0, WriteExchange(SetupCommand("*SAV", index), ()), OpcExchange(replies0));
      r := if done.Ok? then Pass else Fail(done.error);
    }

    /** `recall_setup`: the timeout is raised for the recall and restored
        only once the recall has completed. */
    method RecallSetup(index: int, timeout: real) returns (r: Outcome)
      modifies io
      ensures io.Performed(old(io.sent), old(io.replies), SetupExchange(old(io.replies), "*RCL", index))
      ensures var ex := SetupExchange(old(io.replies), "*RCL", index);
              r == (if ex.result.Ok? then Pass else Fail(ex.result.error))
      ensures io.timeout == TimeoutAfterRecall(old(io.timeout), timeout, SetupExchange(old(io.replies), "*RCL", index))
    {
      var previous := io.timeout;
      io.timeout := timeout;
      ghost var sent0, replies0 := io.sent, io.replies;
      ghost var ex := SetupExchange(replies0, "*RCL", index);
      io.Write(SetupCommand("*RCL", index));
      var done := io.Query("*OPC?");
      assert replies0[0..] == replies0;
      io.PerformedThen(sent0, replies0, WriteExchange(SetupCommand("*RCL", index), ()), OpcExchange(replies0));
      if done.Err? {
        assert ex.result.Err?;
        return Fail(done.error);
      }
      io.timeout := previous;
      r := Pass;
    }
  }
}
