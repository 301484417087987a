/** The HP 34401A bench multimeter driver: the mode, range, resolution and
    integration-time tables the driver validates its arguments against, the
    command lists it sends for `config` and the trigger settings, the parser
    for comma-separated replies, and the mode guard every measurement runs
    before it queries a reading.

    The Keysight 34461A driver inherits all of this with different range
    tables, so the range tables are a parameter here (`RangeTables`). */
module Hp34401a {
  import opened Common
  import opened Text
  import opened Values
  import opened Visa

  // ------------------------------------------------------------------ tables

  /** Accepted mode names (upper case) and the SCPI function each selects. */
  const ValidModes: map<string, string> := map[
    "VDC" := "VOLT:DC", "VOLT" := "VOLT", "VAC" := "VOLT:AC",
    "ADC" := "CURR:DC", "AAC" := "CURR:AC", "CURR" := "CURR",
    "V" := "VOLT", "A" := "CURR", "FREQ" := "FREQ", "F" := "FREQ",
    "OHMS" := "RES", "O" := "RES", "RES" := "RES", "FRES" := "FRES",
    "DIOD" := "DIOD", "D" := "DIOD", "CONT" := "CONT", "PER" := "PER",
    "P" := "PER"]

  /** The three range sets `config` consults: every function's ranges, the
      extra restriction for current, and the one for resistance. */
  datatype RangeTables = RangeTables(voltage: set<string>, current: set<string>, resistance: set<string>)

  const Hp34401aRanges: RangeTables := RangeTables(
    {"AUTO", "MIN", "MAX", "DEF", "0.1", "1", "10", "100", "300"},
    {"AUTO", "MIN", "MAX", "DEF", "0.01", "0.1", "1", "3"},
    {"AUTO", "MIN", "MAX", "DEF", "100", "1E3", "10E3", "100E3", "1E6", "10E6", "100E6"})

  /** Integration times, in power-line cycles, that `config` accepts. */
  const NplcSettings: set<string> := {"0.02", "0.2", "1", "2", "10", "20", "100", "200", "MIN", "MAX"}

  /** The coupling argument of `config` and the suffix each adds. */
  const ValidAcdc: map<string, string> := map["DC" := ":DC", "AC" := ":AC"]

  /** Trigger source names (upper case) and the SCPI source each selects. */
  const ValidTrigger: map<string, string> := map[
    "BUS" := "BUS", "IMMEDIATE" := "IMMediate", "IMM" := "IMMediate",
    "EXTERNAL" := "EXTernal", "EXT" := "EXTernal",
    "ALARM1" := "ALARm1", "ALARM2" := "ALARm2", "ALARM3" := "ALARm3", "ALARM4" := "ALARm4",
    "TIMER" := "TIMer", "TIME" := "TIMer", "TIM" := "TIMer"]

  const DelayKeywords: set<string> := {"MIN", "MINIMUM", "MAX", "MAXIMUM"}
  const CountKeywords: set<string> := {"MIN", "MINIMUM", "MAX", "MAXIMUM", "INF", "INFINITE"}

  // ---------------------------------------------------------------- set_mode

  /** The command `set_mode` writes, or the ValueError it raises. */
  function SetModeCommand(mode: string): (r: Result<string>)
    ensures r.Ok? <==> Upper(mode) in ValidModes
    ensures r.Ok? ==> r.value == "CONF:" + ValidModes[Upper(mode)]
    ensures r.Err? ==> r.error == ValueError
  {
    var m := Upper(mode);
    if m in ValidModes then Ok("CONF:" + ValidModes[m]) else Err(ValueError)
  }

  /** The mode name is case-insensitive: any spelling selects what its upper
      case selects. */
  lemma SetModeIgnoresCase(mode: string)
    ensures SetModeCommand(mode) == SetModeCommand(Upper(mode))
    ensures SetModeCommand(mode) == SetModeCommand(Lower(mode))
  {
    UpperIdempotent(mode);
    assert Upper(Lower(mode)) == Upper(mode);
  }

  /** Every accepted mode selects a function that `config` also accepts. */
  lemma SetModeFunctionsAreConfigurable(mode: string)
    requires SetModeCommand(mode).Ok?
    ensures ConfigCommands(Hp34401aRanges, mode, "dc", StrValue("auto"), NoneValue, StrValue("1")).Ok?
  {
    assert Upper("dc") == "DC";
    assert Upper("1") == "1";
  }

  // ------------------------------------------------------------------ config

  /** The range `config` ends up with for function `fn`, given the upper-cased
      requested range; `None` stands for the requested "AUTO", which the
      driver turns into False. Any range the tables do not allow becomes
      "MAX" without an error. */
  function RangeStep(tables: RangeTables, fn: string, requested: Option<string>): string
  {
    if fn == "CURR" && (requested.None? || requested.value !in tables.current) then "MAX"
    else if fn == "RES" && (requested.None? || requested.value !in tables.resistance) then "MAX"
    else if requested.None? || requested.value !in tables.voltage then "MAX"
    else requested.value
  }

  /** The commands `config` builds, from the mapped function plus coupling
      suffix `head`, the settled range, the resolution and the nplc text
      (empty for frequency). The bare "CONF:<head>" needs an empty range. */
  function ConfigList(head: string, range: string, resolution: Value, nplc: string, usefreq: bool): seq<string>
  {
    if Truthy(resolution) && range != "" then
      ["CONF:" + head + " " + range + "," + Str(resolution)]
    else
      var conf := if range != "" then "CONF:" + head + " " + range else "CONF:" + head;
      if (Truthy(resolution) || nplc != "") && !usefreq then
        [conf, "SENS:" + head + (if Truthy(resolution) then ":RES " else ":NPLC ")
               + (if Truthy(resolution) then Str(resolution) else nplc)]
      else [conf]
  }

  /** `config(mode, acdc, signal_range, resolution, nplc)`: the commands it
      writes, in order, or the ValueError it raises before writing any. */
  function ConfigCommands(tables: RangeTables, mode: string, acdc: string, signalRange: Value,
                          resolution: Value, nplc: Value): (r: Result<seq<string>>)
    ensures r.Err? ==> r.error == ValueError
    ensures r.Ok? ==> 1 <= |r.value| <= 2
  {
    var m := Upper(mode);
    if m !in ValidModes then Err(ValueError)
    else
      var fn := ValidModes[m];
      var usefreq := fn == ValidModes["FREQ"];
      var a := Upper(acdc);
      if a !in ValidAcdc then Err(ValueError)
      else
        var suffix := if usefreq then "" else ValidAcdc[a];
        var requested := Upper(Str(signalRange));
        var range := RangeStep(tables, fn, if requested == "AUTO" then None else Some(requested));
        var n := Upper(Str(nplc));
        if n !in NplcSettings then Err(ValueError)
        else Ok(ConfigList(fn + suffix, range, resolution, if usefreq then "" else n, usefreq))
  }

  /** The function and coupling text that heads every command of a valid
      `config` call. */
  function ConfigHead(mode: string, acdc: string): string
    requires Upper(mode) in ValidModes && Upper(acdc) in ValidAcdc
  {
    var fn := ValidModes[Upper(mode)];
    fn + (if fn == "FREQ" then "" else ValidAcdc[Upper(acdc)])
  }

  /** Whether a requested (upper-cased) range is kept for function `fn`: it
      is not AUTO, is a listed range, and for current or resistance is also
      one of their ranges. */
  predicate RangeKept(tables: RangeTables, fn: string, requested: string)
  {
    && requested != "AUTO"
    && requested in tables.voltage
    && (fn == "CURR" ==> requested in tables.current)
    && (fn == "RES" ==> requested in tables.resistance)
  }

  /** The range in the CONF command: the requested one when it is kept,
      otherwise "MAX". */
  function SettledRange(tables: RangeTables, fn: string, signalRange: Value): string
  {
    var requested := Upper(Str(signalRange));
    if RangeKept(tables, fn, requested) then requested else "MAX"
  }

  lemma RangeStepSettles(tables: RangeTables, fn: string, signalRange: Value)
    requires "" !in tables.voltage
    ensures var requested := Upper(Str(signalRange));
            RangeStep(tables, fn, if requested == "AUTO" then None else Some(requested))
              == SettledRange(tables, fn, signalRange)
  {
  }

  /** `config` fails exactly when the mode, the coupling or the nplc setting
      is not in its table, and always with ValueError; the range never makes
      it fail. */
  lemma ConfigFailsOnlyOnBadArgument(tables: RangeTables, mode: string, acdc: string, signalRange: Value,
                                     resolution: Value, nplc: Value)
    ensures var r := ConfigCommands(tables, mode, acdc, signalRange, resolution, nplc);
            r.Err? <==> (Upper(mode) !in ValidModes || Upper(acdc) !in ValidAcdc || Upper(Str(nplc)) !in NplcSettings)
  {
  }

  /** The CONF command `config` sends first: the head, a space and the
      settled range, and ",<resolution>" when a resolution is given. It is
      never the bare "CONF:<head>", since the settled range is never empty
      (the branch for a missing range cannot be reached). */
  lemma ConfigFirstCommand(tables: RangeTables, mode: string, acdc: string, signalRange: Value,
                           resolution: Value, nplc: Value)
    requires "" !in tables.voltage
    requires ConfigCommands(tables, mode, acdc, signalRange, resolution, nplc).Ok?
    ensures var cmds := ConfigCommands(tables, mode, acdc, signalRange, resolution, nplc).value;
            && |cmds| >= 1
            && cmds[0] == "CONF:" + ConfigHead(mode, acdc) + " "
                          + SettledRange(tables, ValidModes[Upper(mode)], signalRange)
                          + (if Truthy(resolution) then "," + Str(resolution) else "")
  {
    RangeStepSettles(tables, ValidModes[Upper(mode)], signalRange);
  }

  /** Without a resolution, every function but frequency gets a second
      command setting the integration time; with one, or for frequency,
      the CONF command is all. */
  lemma ConfigSecondCommand(tables: RangeTables, mode: string, acdc: string, signalRange: Value,
                            resolution: Value, nplc: Value)
    requires "" !in tables.voltage
    requires ConfigCommands(tables, mode, acdc, signalRange, resolution, nplc).Ok?
    ensures var cmds := ConfigCommands(tables, mode, acdc, signalRange, resolution, nplc).value;
            && (|cmds| == 2 <==> !Truthy(resolution) && ValidModes[Upper(mode)] != "FREQ")
            && (|cmds| == 1 || |cmds| == 2)
            && (|cmds| == 2 ==> cmds[1] == "SENS:" + ConfigHead(mode, acdc) + ":NPLC " + Upper(Str(nplc)))
  {
    RangeStepSettles(tables, ValidModes[Upper(mode)], signalRange);
  }

  /** "auto", in any case, configures the maximum range, not autoranging. */
  lemma ConfigAutoMeansMax(tables: RangeTables, fn: string, signalRange: Value)
    requires Upper(Str(signalRange)) == "AUTO"
    ensures SettledRange(tables, fn, signalRange) == "MAX"
  {
  }

  /** The ranges listed only for current (0.01 A and 3 A on the 34401A) are
      never kept: a current range must also be a voltage range, since the
      range checks form one if/elif chain. Shown for a 3 A request, which is
      sent as "MAX", next to a 1 A request, which is kept. */
  lemma CurrentOnlyRangesFallBack()
    ensures forall fn :: !RangeKept(Hp34401aRanges, fn, "3") && !RangeKept(Hp34401aRanges, fn, "0.01")
    ensures ConfigCommands(Hp34401aRanges, "curr", "dc", StrValue("3"), NoneValue, StrValue("1"))
            == Ok(["CONF:" + "CURR:DC" + " " + "MAX", "SENS:" + "CURR:DC" + ":NPLC " + "1"])
    ensures ConfigCommands(Hp34401aRanges, "curr", "dc", StrValue("1"), NoneValue, StrValue("1"))
            == Ok(["CONF:" + "CURR:DC" + " " + "1", "SENS:" + "CURR:DC" + ":NPLC " + "1"])
  {
    assert Upper("curr") == "CURR";
    assert Upper("dc") == "DC";
    assert Upper("3") == "3";
    assert Upper("1") == "1";
    assert ValidModes["CURR"] == "CURR";
    assert ValidAcdc["DC"] == ":DC";
    assert "CURR" + ":DC" == "CURR:DC";
    assert "1" in NplcSettings;
    assert RangeStep(Hp34401aRanges, "CURR", Some("3")) == "MAX";
    assert RangeStep(Hp34401aRanges, "CURR", Some("1")) == "1";
  }

  /** Mode names that already carry the coupling get it a second time:
      "ADC" with coupling "dc" configures "CURR:DC:DC". */
  lemma CouplingRepeated()
    ensures ConfigCommands(Hp34401aRanges, "adc", "dc", StrValue("1"), NoneValue, StrValue("1"))
            == Ok(["CONF:" + "CURR:DC:DC" + " " + "1", "SENS:" + "CURR:DC:DC" + ":NPLC " + "1"])
  {
    assert Upper("adc") == "ADC";
    assert Upper("dc") == "DC";
    assert Upper("1") == "1";
    assert ValidModes["ADC"] == "CURR:DC";
    assert ValidAcdc["DC"] == ":DC";
    assert "1" in NplcSettings;
    assert "CURR:DC" + ":DC" == "CURR:DC:DC";
  }

  // ------------------------------------------------------------- resp_format

  /** A parsed reply: one field, or the list of all fields. */
  datatype Formatted = Scalar(field: string) | FieldList(fields: seq<string>)

  /** The part of a reply that holds the data: after the first '@' and
      without the final character when there is an '@', else all of it. */
  function ReplyBody(response: string): string
  {
    if '@' in response then
      var start := Find(response, '@');
      if start + 1 <= |response| - 1 then response[start + 1..|response| - 1] else ""
    else response
  }

  /** `resp_format(response, str)`: the comma-separated fields of the body,
      as a scalar when there is only one. */
  function RespFormat(response: string): (r: Formatted)
    ensures r.FieldList? ==> |r.fields| >= 2
  {
    var fields := Split(ReplyBody(response), ',');
    if |fields| == 1 then Scalar(fields[0]) else FieldList(fields)
  }

  /** What `resp_format` gives back for a list of fields. */
  function Formatting(fields: seq<string>): Formatted
    requires |fields| >= 1
  {
    if |fields| == 1 then Scalar(fields[0]) else FieldList(fields)
  }

  /** A reply without '@' is just its fields joined with commas: parsing it
      gives the fields back. */
  lemma RespFormatPlain(fields: seq<string>)
    requires |fields| >= 1
    requires forall k :: 0 <= k < |fields| ==> ',' !in fields[k]
    requires '@' !in Join(fields, ',')
    ensures RespFormat(Join(fields, ',')) == Formatting(fields)
  {
    SplitJoin(fields, ',');
  }

  /** A reply with a header ended by '@' and one trailing character: the
      header and the trailing character are dropped and the fields come
      back. */
  lemma RespFormatWithHeader(header: string, fields: seq<string>, last: char)
    requires '@' !in header
    requires |fields| >= 1
    requires forall k :: 0 <= k < |fields| ==> ',' !in fields[k]
    ensures RespFormat(header + "@" + Join(fields, ',') + [last]) == Formatting(fields)
  {
    var body := Join(fields, ',');
    var s := header + "@" + body + [last];
    assert s[|header|] == '@';
    var start := Find(s, '@');
    assert s[..|header|] == header;
    assert start == |header|;
    assert s[start + 1..|s| - 1] == body;
    SplitJoin(fields, ',');
  }

  // ---------------------------------------------------------------- triggers

  /** `set_trigger_delay`: a keyword (any case) or any int or float. */
  function DelayCommand(delay: Value): (r: Result<string>)
    ensures r.Err? ==> r.error == ValueError
  {
    var d := UpperIfStr(delay);
    if (d.StrValue? && d.s in DelayKeywords) || IsNumber(d) then Ok("TRIG:DELay " + Str(d))
    else Err(ValueError)
  }

  /** The integer a bool or int stands for; 0 for anything else. */
  function IntOf(v: Value): int
  {
    if v.IntValue? then v.i else if v.BoolValue? && v.b then 1 else 0
  }

  /** `set_trigger_count`, with its inner range check kept as written. */
  function CountCommand(count: Value): (r: Result<string>)
    ensures r.Err? ==> r.error == ValueError
  {
    var c := UpperIfStr(count);
    if (c.StrValue? && c.s in CountKeywords) || IsInt(c) then Ok("TRIG:COUNt " + Str(c))
    else if IsInt(c) && 1 <= IntOf(c) <= 50000 then Ok("TRIG:COUNt " + Str(c))
    else Err(ValueError)
  }

  /** A delay is accepted iff it is a keyword in any case or a number; the
      keyword is sent upper-cased. */
  lemma DelayAccepted(delay: Value)
    ensures DelayCommand(delay).Ok? <==> (delay.StrValue? && Upper(delay.s) in DelayKeywords) || IsNumber(delay)
    ensures delay.StrValue? && DelayCommand(delay).Ok? ==> DelayCommand(delay).value == "TRIG:DELay " + Upper(delay.s)
  {
  }

  /** Every int is accepted as a count, in or out of [1, 50000]: the range
      check cannot reject anything. Floats and other strings are refused. */
  lemma CountAcceptsAnyInt(count: Value)
    ensures CountCommand(count).Ok? <==> (count.StrValue? && Upper(count.s) in CountKeywords) || IsInt(count)
    ensures count.IntValue? ==> CountCommand(count) == Ok("TRIG:COUNt " + IntToString(count.i))
  {
  }

  lemma CountOutOfRangeAccepted()
    ensures CountCommand(IntValue(0)).Ok? && CountCommand(IntValue(50001)).Ok?
  {
  }

  /** `set_trigger_source`: the new trigger mode, or ValueError. */
  function TriggerSource(trigger: string): (r: Result<string>)
    ensures r.Ok? <==> Upper(trigger) in ValidTrigger
    ensures r.Ok? ==> r.value in ValidTrigger.Values
    ensures r.Err? ==> r.error == ValueError
  {
    var t := Upper(trigger);
    if t in ValidTrigger then Ok(ValidTrigger[t]) else Err(ValueError)
  }

  /** The commands for an optional setting: none when it is not given, its
      command when it is valid, or its error. */
  function Optional(v: Value, c: Result<string>): (r: Result<seq<string>>)
    ensures r.Ok? <==> v.NoneValue? || c.Ok?
    ensures r.Ok? ==> r.value == (if v.NoneValue? then [] else [c.value])
    ensures r.Err? ==> r.error == c.error
  {
    if v.NoneValue? then Ok([]) else if c.Ok? then Ok([c.value]) else Err(c.error)
  }

  /** `set_trigger(trigger, slope, delay, count)`: slope, delay and count
      commands for the arguments given, then the source, stopping at the
      first invalid one. It reads nothing; the result is the new mode. */
  function SetTriggerExchange(trigger: string, slope: Option<string>, delay: Value, count: Value): (ex: Exchange<string>)
    ensures ex.consumed == 0
  {
    Staged(SlopeCommands(slope), Optional(delay, DelayCommand(delay)), Optional(count, CountCommand(count)), TriggerSource(trigger))
  }

  /** The slope command, when a slope is given. */
  function SlopeCommands(slope: Option<string>): (cmds: seq<string>)
    ensures |cmds| == if slope.Some? then 1 else 0
  {
    if slope.Some? then ["TRIG:SLOPe " + slope.value] else []
  }

  /** The writes of `set_trigger` from its stages: the slope commands, the
      delay and count commands or their errors, and the source. */
  function Staged(slopeCmds: seq<string>, d: Result<seq<string>>, n: Result<seq<string>>, s: Result<string>)
    : (ex: Exchange<string>)
    ensures ex.consumed == 0
  {
    if d.Err? then Exchange(slopeCmds, 0, Err(d.error))
    else if n.Err? then Exchange(slopeCmds + d.value, 0, Err(n.error))
    else if s.Err? then Exchange(slopeCmds + d.value + n.value, 0, Err(s.error))
    else Exchange(slopeCmds + d.value + n.value + ["TRIG:SOUR " + s.value], 0, Ok(s.value))
  }

  /** How many of slope, delay and count were given. */
  function Given(slope: Option<string>, delay: Value, count: Value): nat
  {
    (if slope.Some? then 1 else 0) + (if delay.NoneValue? then 0 else 1) + (if count.NoneValue? then 0 else 1)
  }

  /** `set_trigger` succeeds exactly when the source name and every given
      delay and count are valid. */
  lemma SetTriggerSucceedsIff(trigger: string, slope: Option<string>, delay: Value, count: Value)
    ensures SetTriggerExchange(trigger, slope, delay, count).result.Ok?
            <==> Upper(trigger) in ValidTrigger
                 && (delay.NoneValue? || DelayCommand(delay).Ok?)
                 && (count.NoneValue? || CountCommand(count).Ok?)
  {
  }

  /** A successful `set_trigger` sends one command per argument given, with
      the source command last. */
  lemma SetTriggerSourceLast(trigger: string, slope: Option<string>, delay: Value, count: Value)
    requires SetTriggerExchange(trigger, slope, delay, count).result.Ok?
    ensures var ex := SetTriggerExchange(trigger, slope, delay, count);
            && |ex.sent| == Given(slope, delay, count) + 1
            && ex.sent[|ex.sent| - 1] == "TRIG:SOUR " + ValidTrigger[Upper(trigger)]
  {
  }

  /** Every command before the source command is a slope, delay or count
      command, none of which starts like the source command. */
  predicate SettingCommand(cmd: string)
  {
    StartsWith(cmd, "TRIG:SLOPe ") || StartsWith(cmd, "TRIG:DELay ") || StartsWith(cmd, "TRIG:COUNt ")
  }

  lemma SettingIsNotSource(cmd: string)
    requires SettingCommand(cmd)
    ensures !StartsWith(cmd, "TRIG:SOUR")
  {
    assert cmd[5] != 'S' || cmd[6] != 'O';
  }

  /** A failing `set_trigger` sends only settings that came before the
      invalid argument, never the source command. */
  lemma SetTriggerFailsWithoutSource(trigger: string, slope: Option<string>, delay: Value, count: Value)
    requires SetTriggerExchange(trigger, slope, delay, count).result.Err?
    ensures var ex := SetTriggerExchange(trigger, slope, delay, count);
            && |ex.sent| <= Given(slope, delay, count)
            && forall k :: 0 <= k < |ex.sent| ==> !StartsWith(ex.sent[k], "TRIG:SOUR")
  {
    var ex := SetTriggerExchange(trigger, slope, delay, count);
    forall k | 0 <= k < |ex.sent| ensures !StartsWith(ex.sent[k], "TRIG:SOUR") {
      assert SettingCommand(ex.sent[k]);
      SettingIsNotSource(ex.sent[k]);
    }
  }

  /** The mode `get_trigger_source` decodes from a reply: a single field
      that names a source; a list cannot be a dictionary key. */
  function DecodeSource(reply: string): (r: Result<string>)
    ensures r.Ok? ==> r.value in ValidTrigger.Values
  {
    var f := RespFormat(reply);
    if f.FieldList? then Err(TypeError)
    else if f.field in ValidTrigger then Ok(ValidTrigger[f.field])
    else Err(KeyError)
  }

  /** `get_trigger_source`: one query, then the decoding. */
  function GetSourceExchange(replies: seq<string>): (ex: Exchange<string>)
    ensures ex.sent == ["TRIG:SOUR?"] && ex.consumed <= |replies|
    ensures ex.result.Ok? ==> ex.result.value in ValidTrigger.Values
    ensures ex.result.Err? ==> ex.result.error in {VisaIOError, TypeError, KeyError}
  {
    var q := QueryExchange(replies, "TRIG:SOUR?");
    Exchange(q.sent, q.consumed, if q.result.Ok? then DecodeSource(q.result.value) else Err(q.result.error))
  }

  /** A reply naming a source by one of the accepted names decodes to what
      `set_trigger_source` would set for that name, so reading the source
      back agrees with setting it; anything with a comma is a TypeError. */
  lemma SourceReadBack(name: string)
    requires name in ValidTrigger && !HasLower(name) && ',' !in name && '@' !in name
    ensures DecodeSource(name) == TriggerSource(name)
  {
    SplitWithoutSep(name, ',');
    UpperOfNoLower(name);
  }

  lemma SourceListRejected(a: string, b: string)
    requires ',' !in a && ',' !in b && '@' !in a + "," + b
    ensures DecodeSource(a + "," + b) == Err(TypeError)
  {
    assert Join([a, b], ',') == a + [','] + b;
    RespFormatPlain([a, b]);
  }

  // ------------------------------------------------------------ measurements

  /** The six `measure_*` operations. */
  datatype MeasureKind = Voltage | VoltageRms | Current | CurrentRms | Resistance | Frequency

  /** The mode `get_mode` must report before the measurement is taken. */
  function ExpectedMode(kind: MeasureKind): string
  {
    match kind
    case Voltage => "VOLT"
    case VoltageRms => "VOLT:AC"
    case Current => "CURR"
    case CurrentRms => "CURR:AC"
    case Resistance => "RES"
    case Frequency => "FREQ"
  }

  /** The function the MEAS query names. */
  function MeasureFunction(kind: MeasureKind): string
  {
    match kind
    case Voltage => "VOLT:DC"
    case VoltageRms => "VOLT:AC"
    case Current => "CURR:DC"
    case CurrentRms => "CURR:AC"
    case Resistance => "RES"
    case Frequency => "FREQ"
  }

  /** `get_mode`: the reply to "FUNC?" with every '"' removed. */
  function GetModeExchange(replies: seq<string>): (ex: Exchange<string>)
    ensures ex.sent == ["FUNC?"] && ex.consumed <= |replies|
    ensures ex.result.Ok? <==> |replies| > 0
    ensures ex.result.Ok? ==> '"' !in ex.result.value && ex.result.value == RemoveChar(replies[0], '"')
    ensures ex.result.Err? ==> ex.result.error == VisaIOError
  {
    var q := QueryExchange(replies, "FUNC?");
    Exchange(q.sent, q.consumed, if q.result.Ok? then Ok(RemoveChar(q.result.value, '"')) else q.result)
  }

  /** `_measure_with_current_range(ms)`: query the range, then whether
      autorange is on, then measure, naming the range only when autorange
      is off. */
  function RangedMeasureExchange(replies: seq<string>, ms: string): (ex: Exchange<string>)
    ensures ex.consumed <= |replies|
    ensures ex.result.Ok? ==> ex.consumed == 3 && |ex.sent| == 3 && ex.result.value == replies[2]
    ensures |ex.sent| > 0 && ex.sent[0] == "SENS:" + ms + ":RANG?"
  {
    var q1 := QueryExchange(replies, "SENS:" + ms + ":RANG?");
    if q1.result.Err? then Exchange(q1.sent, 0, Err(q1.result.error))
    else
      var q2 := QueryExchange(replies[1..], "SENS:" + ms + ":RANG:AUTO?");
      if q2.result.Err? then Exchange(q1.sent + q2.sent, 1, Err(q2.result.error))
      else
        var auto := ParseInt(q2.result.value);
        if auto.Err? then Exchange(q1.sent + q2.sent, 2, Err(auto.error))
        else
          var q3 := QueryExchange(replies[2..], "MEAS:" + ms + "?" + (if auto.value == 1 then "" else " " + q1.result.value));
          Exchange(q1.sent + q2.sent + q3.sent, 2 + q3.consumed, q3.result)
  }

  /** `measure_<kind>`: the mode guard, then the ranged measurement. The
      reading is returned as text; its conversion to float is not modelled. */
  function MeasureExchange(replies: seq<string>, kind: MeasureKind): (ex: Exchange<string>)
    ensures ex.consumed <= |replies|
    ensures |ex.sent| > 0 && ex.sent[0] == "FUNC?"
    ensures ex.result.Ok? ==> GetModeExchange(replies).result == Ok(ExpectedMode(kind)) && |ex.sent| == 4
  {
    var g := GetModeExchange(replies);
    if g.result.Err? then g
    else if g.result.value != ExpectedMode(kind) then Exchange(g.sent, g.consumed, Err(IOError))
    else
      var m := RangedMeasureExchange(replies[1..], MeasureFunction(kind));
      Exchange(g.sent + m.sent, 1 + m.consumed, m.result)
  }

  /** A meter in the wrong mode makes the measurement fail with IOError after
      the "FUNC?" query alone: no range or MEAS query is sent. */
  lemma MeasureGuard(replies: seq<string>, kind: MeasureKind)
    requires |replies| > 0 && RemoveChar(replies[0], '"') != ExpectedMode(kind)
    ensures MeasureExchange(replies, kind) == Exchange(["FUNC?"], 1, Err(IOError))
  {
  }

  /** A meter in the right mode that answers all four queries: the reading
      is the fourth reply, and the MEAS query carries the reported range
      exactly when autorange is off. */
  lemma MeasureInMode(replies: seq<string>, kind: MeasureKind)
    requires |replies| >= 4 && RemoveChar(replies[0], '"') == ExpectedMode(kind)
    requires ParseInt(replies[2]).Ok?
    ensures var ms := MeasureFunction(kind);
            MeasureExchange(replies, kind)
              == Exchange(["FUNC?", "SENS:" + ms + ":RANG?", "SENS:" + ms + ":RANG:AUTO?",
                           "MEAS:" + ms + "?" + (if ParseInt(replies[2]).value == 1 then "" else " " + replies[1])],
                          4, Ok(replies[3]))
  {
  }

  /** The quotes the meter puts around its mode do not matter. */
  lemma QuotedModeAccepted(kind: MeasureKind)
    ensures RemoveChar("\"" + ExpectedMode(kind) + "\"", '"') == ExpectedMode(kind)
  {
    var m := ExpectedMode(kind);
    RemoveCharAbsent(m, '"');
    RemoveCharAppend("\"" + m, "\"", '"');
    RemoveCharAppend("\"", m, '"');
  }

  // ------------------------------------------------------------------ driver

  /** An HP 34401A (or, with other range tables, a Keysight 34461A) on a
      connection, with the trigger mode the driver last set or read. */
  class Hp34401a {
    const io: Transport
    const tables: RangeTables
    var triggerMode: string

    constructor(io: Transport, tables: RangeTables, triggerMode: string)
      ensures this.io == io && this.tables == tables && this.triggerMode == triggerMode
    {
      this.io := io;
      this.tables := tables;
      this.triggerMode := triggerMode;
    }

    /** `set_mode`: one CONF write, or ValueError and nothing written. */
    method SetMode(mode: string) returns (r: Outcome)
      modifies io
      ensures var c := SetModeCommand(mode);
              && (c.Ok? ==> r == Pass && io.sent == old(io.sent) + [c.value])
              && (c.Err? ==> r == Fail(c.error) && io.sent == old(io.sent))
      ensures io.replies == old(io.replies) && io.timeout == old(io.timeout)
    {
      var c := SetModeCommand(mode);
      if c.Err? {
        return Fail(c.error);
      }
      io.Write(c.value);
      r := Pass;
    }

    /** `get_mode`. */
    method GetMode() returns (r: Result<string>)
      modifies io
      ensures io.Performed(old(io.sent), old(io.replies), GetModeExchange(old(io.replies)))
      ensures r == GetModeExchange(old(io.replies)).result && io.timeout == old(io.timeout)
    {
      var reply := io.Query("FUNC?");
      if reply.Err? {
        return reply;
      }
      r := Ok(RemoveChar(reply.value, '"'));
    }

    /** `config`: builds the command list, then writes it in order. */
    method Config(mode: string, acdc: string, signalRange: Value, resolution: Value, nplc: Value)
      returns (r: Outcome)
      modifies io
      ensures var c := ConfigCommands(tables, mode, acdc, signalRange, resolution, nplc);
              && (c.Ok? ==> r == Pass && io.sent == old(io.sent) + c.value)
              && (c.Err? ==> r == Fail(c.error) && io.sent == old(io.sent))
      ensures io.replies == old(io.replies) && io.timeout == old(io.timeout)
    {
      var c := ConfigCommands(tables, mode, acdc, signalRange, resolution, nplc);
      if c.Err? {
        return Fail(c.error);
      }
      var cmds := c.value;
      var i := 0;
      while i < |cmds|
        invariant 0 <= i <= |cmds|
        invariant io.sent == old(io.sent) + cmds[..i]
        invariant io.replies == old(io.replies) && io.timeout == old(io.timeout)
      {
        io.Write(cmds[i]);
        assert cmds[..i + 1] == cmds[..i] + [cmds[i]];
        i := i + 1;
      }
      assert cmds[..|cmds|] == cmds;
      r := Pass;
    }

    /** `set_trigger_slope`: written as given. */
    method SetTriggerSlope(slope: string)
      modifies io
      ensures io.sent == old(io.sent) + ["TRIG:SLOPe " + slope]
      ensures io.replies == old(io.replies) && io.timeout == old(io.timeout)
    {
      io.Write("TRIG:SLOPe " + slope);
    }

    /** `set_trigger_delay`. */
    method SetTriggerDelay(delay: Value) returns (r: Outcome)
      modifies io
      ensures var c := DelayCommand(delay);
              && (c.Ok? ==> r == Pass && io.sent == old(io.sent) + [c.value])
              && (c.Err? ==> r == Fail(c.error) && io.sent == old(io.sent))
      ensures io.replies == old(io.replies) && io.timeout == old(io.timeout)
    {
      var c := DelayCommand(delay);
      if c.Err? {
        return Fail(c.error);
      }
      io.Write(c.value);
      r := Pass;
    }

    /** `set_trigger_count`. */
    method SetTriggerCount(count: Value) returns (r: Outcome)
      modifies io
      ensures var c := CountCommand(count);
              && (c.Ok? ==> r == Pass && io.sent == old(io.sent) + [c.value])
              && (c.Err? ==> r == Fail(c.error) && io.sent == old(io.sent))
      ensures io.replies == old(io.replies) && io.timeout == old(io.timeout)
    {
      var c := CountCommand(count);
      if c.Err? {
        return Fail(c.error);
      }
      io.Write(c.value);
      r := Pass;
    }

    /** `set_trigger_source`: the mode is updated before the write, and left
        alone when the name is refused. */
    method SetTriggerSource(trigger: string) returns (r: Outcome)
      modifies this, io
      ensures var s := TriggerSource(trigger);
              && (s.Ok? ==> r == Pass && triggerMode == s.value
                            && io.sent == old(io.sent) + ["TRIG:SOUR " + s.value])
              && (s.Err? ==> r == Fail(s.error) && triggerMode == old(triggerMode) && io.sent == old(io.sent))
      ensures io.replies == old(io.replies) && io.timeout == old(io.timeout)
    {
      var s := TriggerSource(trigger);
      if s.Err? {
        return Fail(s.error);
      }
      triggerMode := s.value;
      io.Write("TRIG:SOUR " + triggerMode);
      r := Pass;
    }

    /** The first part of `set_trigger`: slope, delay and count, each only
        when given, stopping at the first invalid one. */
    method ApplySettings(slope: Option<string>, delay: Value, count: Value) returns (r: Outcome)
      modifies io
      ensures var pre := SlopeCommands(slope);
              var d := Optional(delay, DelayCommand(delay));
              var n := Optional(count, CountCommand(count));
              && (d.Err? ==> r == Fail(d.error) && io.sent == old(io.sent) + pre)
              && (d.Ok? && n.Err? ==> r == Fail(n.error) && io.sent == old(io.sent) + (pre + d.value))
              && (d.Ok? && n.Ok? ==> r == Pass && io.sent == old(io.sent) + (pre + d.value + n.value))
      ensures io.replies == old(io.replies) && io.timeout == old(io.timeout)
    {
      if slope.Some? {
        SetTriggerSlope(slope.value);
      }
      r := Pass;
      if !delay.NoneValue? {
        r := SetTriggerDelay(delay);
        if r.Fail? {
          return;
        }
      }
      if !count.NoneValue? {
        r := SetTriggerCount(count);
      }
    }

    /** `set_trigger`: the three optional settings, then the source. */
    method SetTrigger(trigger: string, slope: Option<string>, delay: Value, count: Value) returns (r: Outcome)
      modifies this, io
      ensures var ex := SetTriggerExchange(trigger, slope, delay, count);
              && io.Performed(old(io.sent), old(io.replies), ex)
              && (ex.result.Ok? ==> r == Pass && triggerMode == ex.result.value)
              && (ex.result.Err? ==> r == Fail(ex.result.error) && triggerMode == old(triggerMode))
      ensures io.timeout == old(io.timeout)
    {
      ghost var sent0 := io.sent;
      r := ApplySettings(slope, delay, count);
      if r.Fail? {
        return;
      }
      ghost var settings := SlopeCommands(slope) + Optional(delay, DelayCommand(delay)).value
                            + Optional(count, CountCommand(count)).value;
      r := SetTriggerSource(trigger);
      if r.Pass? {
        assert io.sent == sent0 + (settings + ["TRIG:SOUR " + triggerMode]);
      }
    }

    /** `get_trigger_source`: the decoded mode becomes the trigger mode. */
    method GetTriggerSource() returns (r: Result<string>)
      modifies this, io
      ensures var ex := GetSourceExchange(old(io.replies));
              && io.Performed(old(io.sent), old(io.replies), ex) && r == ex.result
              && triggerMode == (if r.Ok? then r.value else old(triggerMode))
      ensures io.timeout == old(io.timeout)
    {
      var reply := io.Query("TRIG:SOUR?");
      if reply.Err? {
        return Err(reply.error);
      }
      r := DecodeSource(reply.value);
      if r.Ok? {
        triggerMode := r.value;
      }
    }

    /** `trigger`: a bus trigger (IEEE 488.2 section 10.37, "*TRG") is sent
        only when the trigger mode is BUS; otherwise nothing is sent. */
    method Trigger()
      modifies io
      ensures io.sent == old(io.sent) + (if triggerMode == ValidTrigger["BUS"] then ["*TRG"] else [])
      ensures io.replies == old(io.replies) && io.timeout == old(io.timeout)
    {
      if triggerMode == ValidTrigger["BUS"] {
        io.Write("*TRG");
      }
    }

    /** `_measure_with_current_range`. */
    method MeasureWithCurrentRange(ms: string) returns (r: Result<string>)
      modifies io
      ensures io.Performed(old(io.sent), old(io.replies), RangedMeasureExchange(old(io.replies), ms))
      ensures r == RangedMeasureExchange(old(io.replies), ms).result && io.timeout == old(io.timeout)
    {
      var range := io.Query("SENS:" + ms + ":RANG?");
      if range.Err? {
        return Err(range.error);
      }
      var autoReply := io.Query("SENS:" + ms + ":RANG:AUTO?");
      if autoReply.Err? {
        return Err(autoReply.error);
      }
      var auto := ParseInt(autoReply.value);
      if auto.Err? {
        return Err(auto.error);
      }
      r := io.Query("MEAS:" + ms + "?" + (if auto.value == 1 then "" else " " + range.value));
    }

    /** `measure_voltage`, `measure_voltage_rms`, `measure_current`,
        `measure_current_rms`, `measure_resistance`, `measure_frequency`. */
    method Measure(kind: MeasureKind) returns (r: Result<string>)
      modifies io
      ensures io.Performed(old(io.sent), old(io.replies), MeasureExchange(old(io.replies), kind))
      ensures r == MeasureExchange(old(io.replies), kind).result && io.timeout == old(io.timeout)
    {
      var mode := GetMode();
      if mode.Err? {
        return mode;
      }
      if mode.value != ExpectedMode(kind) {
        return Err(IOError);
      }
      r := MeasureWithCurrentRange(MeasureFunction(kind));
    }
  }

  /** Selecting the BUS source, in any case, is what makes `trigger` send
      "*TRG", and so is reading "BUS" back from the meter. */
  lemma BusSourceEnablesTrigger(trigger: string)
    requires Upper(trigger) == "BUS"
    ensures TriggerSource(trigger) == Ok(ValidTrigger["BUS"])
    ensures DecodeSource("BUS") == Ok(ValidTrigger["BUS"])
  {
    SourceReadBack("BUS");
  }
}
