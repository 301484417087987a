/** The Fluke 45 multimeter. Over RS-232 the meter answers every command
    and query with an extra prompt line ("=>" on success, "?>" on error)
    that the driver reads and only logs. Range numbers depend on the mode
    and the reading rate, and are looked up in a fixed table. */
module Fluke45 {
  import opened Common
  import opened Text
  import opened Visa
  import Instruments

  // ------------------------------------------------------------------ tables

  /** The ranges for a set of reading rates: upper limits in ascending
      order, each with the range number that selects it. */
  datatype RateGroup = RateGroup(rates: set<string>, entries: seq<(real, int)>)

  /** The range table of a set of modes. */
  datatype ModeGroup = ModeGroup(modes: set<string>, rateGroups: seq<RateGroup>)

  const VoltsMediumFast: seq<(real, int)> := [(0.3, 1), (3.0, 2), (30.0, 3), (300.0, 4), (1000.0, 5)]
  const VoltsSlow: seq<(real, int)> := [(0.1, 1), (1.0, 2), (10.0, 3), (100.0, 4), (1000.0, 5)]
  const AmpsMediumFast: seq<(real, int)> := [(0.03, 1), (0.1, 2), (10.0, 3)]
  const AmpsSlow: seq<(real, int)> := [(0.01, 1), (0.1, 2), (10.0, 3)]
  const OhmsMediumFast: seq<(real, int)> := [(300.0, 1), (3000.0, 2), (30000.0, 3), (300000.0, 4),
                                             (3000000.0, 5), (30000000.0, 6), (300000000.0, 7)]
  const OhmsSlow: seq<(real, int)> := [(100.0, 1), (1000.0, 2), (10000.0, 3), (100000.0, 4),
                                       (1000000.0, 5), (10000000.0, 6), (100000000.0, 7)]
  const Hertz: seq<(real, int)> := [(1000.0, 1), (10000.0, 2), (100000.0, 3), (1000000.0, 4), (10000000.0, 5)]

  const RangeTable: seq<ModeGroup> := [
    ModeGroup({"VDC", "VAC"}, [RateGroup({"M", "F"}, VoltsMediumFast), RateGroup({"S"}, VoltsSlow)]),
    ModeGroup({"ADC", "AAC"}, [RateGroup({"M", "F"}, AmpsMediumFast), RateGroup({"S"}, AmpsSlow)]),
    ModeGroup({"OHM"}, [RateGroup({"M", "F"}, OhmsMediumFast), RateGroup({"S"}, OhmsSlow)]),
    ModeGroup({"FREQ"}, [RateGroup({"S", "M", "F"}, Hertz)])]

  const ValidModes: set<string> := {"AAC", "ADC", "VAC", "VDC", "OHMS", "FREQ", "CONT", "DIODE"}

  const ValidRates: set<string> := {"S", "M", "F"}

  /** The line ending `get_mode` and `get_rate` strip. */
  const LineEnd: set<char> := {'\r', '\n'}

  // ------------------------------------------------------ range lookup

  /** The first rate group listing `rate`. */
  function FindRateGroup(groups: seq<RateGroup>, rate: string): (r: Option<nat>)
    ensures r.None? <==> forall j :: 0 <= j < |groups| ==> rate !in groups[j].rates
    ensures r.Some? ==> r.value < |groups| && rate in groups[r.value].rates
                        && forall j :: 0 <= j < r.value ==> rate !in groups[j].rates
  {
    if groups == [] then None
    else if rate in groups[0].rates then Some(0)
    else
      var r := FindRateGroup(groups[1..], rate);
      if r.None? then None else Some(r.value + 1)
  }

  /** The entries searched for `mode` and `rate`: those of the first rate
      group listing the rate, in the first mode group listing the mode that
      has such a rate group; None when no group matches. */
  function SelectEntries(table: seq<ModeGroup>, mode: string, rate: string): (r: Option<seq<(real, int)>>)
    ensures r.None? <==> forall j :: 0 <= j < |table| ==>
                           mode !in table[j].modes || FindRateGroup(table[j].rateGroups, rate).None?
  {
    if table == [] then None
    else if mode in table[0].modes && FindRateGroup(table[0].rateGroups, rate).Some? then
      Some(table[0].rateGroups[FindRateGroup(table[0].rateGroups, rate).value].entries)
    else
      var r := SelectEntries(table[1..], mode, rate);
      assert r.None? ==> forall j :: 1 <= j < |table| ==>
                           mode !in table[j].modes || FindRateGroup(table[j].rateGroups, rate).None? by {
        if r.None? {
          forall j | 1 <= j < |table|
            ensures mode !in table[j].modes || FindRateGroup(table[j].rateGroups, rate).None?
          {
            assert table[1..][j - 1] == table[j];
          }
        }
      }
      r
  }

  /** The first entry whose limit is strictly above `value`. */
  function FirstAbove(entries: seq<(real, int)>, value: real): (r: Option<nat>)
    ensures r.None? <==> forall j :: 0 <= j < |entries| ==> value >= entries[j].0
    ensures r.Some? ==> r.value < |entries| && value < entries[r.value].0
                        && forall j :: 0 <= j < r.value ==> value >= entries[j].0
  {
    if entries == [] then None
    else if value < entries[0].0 then Some(0)
    else
      var r := FirstAbove(entries[1..], value);
      if r.None? then None else Some(r.value + 1)
  }

  /** The first entry whose range number is `n`. */
  function FirstNumbered(entries: seq<(real, int)>, n: int): (r: Option<nat>)
    ensures r.None? <==> forall j :: 0 <= j < |entries| ==> entries[j].1 != n
    ensures r.Some? ==> r.value < |entries| && entries[r.value].1 == n
                        && forall j :: 0 <= j < r.value ==> entries[j].1 != n
  {
    if entries == [] then None
    else if entries[0].1 == n then Some(0)
    else
      var r := FirstNumbered(entries[1..], n);
      if r.None? then None else Some(r.value + 1)
  }

  /** `_get_range_number(value)` once the mode and the rate are known: the
      number of the smallest range above the value, ValueError when the
      value is above them all, None when no table applies. Comparing the
      missing value None with a limit is a TypeError. */
  function RangeFor(mode: string, rate: string, value: Option<real>): (r: Result<Option<int>>)
  {
    var entries := SelectEntries(RangeTable, mode, rate);
    if entries.None? then Ok(None)
    else if entries.value == [] then Err(ValueError)
    else if value.None? then Err(TypeError)
    else
      var i := FirstAbove(entries.value, value.value);
      if i.Some? then Ok(Some(entries.value[i.value].1)) else Err(ValueError)
  }

  /** `_get_range_number(n, reverse_lookup=True)` once the mode and the rate
      are known: the upper limit of range `n`. */
  function RangeLimit(mode: string, rate: string, n: int): (r: Result<Option<real>>)
  {
    var entries := SelectEntries(RangeTable, mode, rate);
    if entries.None? then Ok(None)
    else
      var i := FirstNumbered(entries.value, n);
      if i.Some? then Ok(Some(entries.value[i.value].0)) else Err(ValueError)
  }

  /** Within a rate group the limits ascend and the ranges are numbered
      1, 2, 3, ... in order. */
  predicate WellFormedEntries(entries: seq<(real, int)>)
  {
    && (forall i :: 0 <= i < |entries| ==> entries[i].1 == i + 1)
    && (forall i :: 0 < i < |entries| ==> entries[i - 1].0 < entries[i].0)
  }

  /** Ascending neighbours make the whole group ascending. */
  lemma {:induction false} AscendingFromNeighbours(entries: seq<(real, int)>, i: nat, j: nat)
    requires WellFormedEntries(entries) && i < j < |entries|
    ensures entries[i].0 < entries[j].0
    decreases j - i
  {
    if i + 1 < j {
      AscendingFromNeighbours(entries, i + 1, j);
    }
  }

  /** Where `SelectEntries` takes its entries from: the mode group and the
      rate group within it. */
  function SelectIndex(table: seq<ModeGroup>, mode: string, rate: string): (r: Option<(nat, nat)>)
    ensures r.Some? ==> r.value.0 < |table| && r.value.1 < |table[r.value.0].rateGroups|
    ensures r.Some? <==> SelectEntries(table, mode, rate).Some?
    ensures r.Some? ==> SelectEntries(table, mode, rate).value == table[r.value.0].rateGroups[r.value.1].entries
  {
    if table == [] then None
    else if mode in table[0].modes && FindRateGroup(table[0].rateGroups, rate).Some? then
      Some((0, FindRateGroup(table[0].rateGroups, rate).value))
    else
      var r := SelectIndex(table[1..], mode, rate);
      if r.None? then None else Some((r.value.0 + 1, r.value.1))
  }

  lemma VoltGroupsWellFormed()
    ensures WellFormedEntries(VoltsMediumFast) && WellFormedEntries(VoltsSlow)
  {
  }

  lemma AmpGroupsWellFormed()
    ensures WellFormedEntries(AmpsMediumFast) && WellFormedEntries(AmpsSlow)
  {
  }

  lemma OhmGroupsWellFormed()
    ensures WellFormedEntries(OhmsMediumFast) && WellFormedEntries(OhmsSlow)
  {
  }

  lemma HertzGroupWellFormed()
    ensures WellFormedEntries(Hertz)
  {
  }

  /** Every rate group of the table is well formed. */
  lemma RangeTableWellFormed(mode: string, rate: string)
    requires SelectEntries(RangeTable, mode, rate).Some?
    ensures WellFormedEntries(SelectEntries(RangeTable, mode, rate).value)
    ensures |SelectEntries(RangeTable, mode, rate).value| > 0
  {
    VoltGroupsWellFormed();
    AmpGroupsWellFormed();
    OhmGroupsWellFormed();
    HertzGroupWellFormed();
    var (j, k) := SelectIndex(RangeTable, mode, rate).value;
    assert RangeTable[j].rateGroups[k].entries in
      {VoltsMediumFast, VoltsSlow, AmpsMediumFast, AmpsSlow, OhmsMediumFast, OhmsSlow, Hertz};
  }

  /** Reading the range back after setting it from a value: the limit of
      the range chosen for the value is above the value, and no smaller
      range's limit is. */
  lemma RangeRoundTrip(mode: string, rate: string, value: real)
    requires RangeFor(mode, rate, Some(value)).Ok? && RangeFor(mode, rate, Some(value)).value.Some?
    ensures var n := RangeFor(mode, rate, Some(value)).value.value;
            && RangeLimit(mode, rate, n).Ok? && RangeLimit(mode, rate, n).value.Some?
            && value < RangeLimit(mode, rate, n).value.value
            && forall t :: t in SelectEntries(RangeTable, mode, rate).value && t.0 < RangeLimit(mode, rate, n).value.value
                 ==> value >= t.0
  {
    RangeTableWellFormed(mode, rate);
    var entries := SelectEntries(RangeTable, mode, rate).value;
    var i := FirstAbove(entries, value).value;
    assert FirstNumbered(entries, entries[i].1) == Some(i);
    forall t | t in entries && t.0 < entries[i].0
      ensures value >= t.0
    {
      var j :| 0 <= j < |entries| && entries[j] == t;
      if i < j {
        AscendingFromNeighbours(entries, i, j);
      }
    }
  }

  /** The resistance mode is named "OHMS" by `set_mode` but "OHM" in the
      range table, so in that mode no range table applies. */
  lemma OhmsHasNoRangeTable(rate: string, value: Option<real>, n: int)
    ensures RangeFor("OHMS", rate, value) == Ok(None)
    ensures RangeLimit("OHMS", rate, n) == Ok(None)
  {
    assert forall j :: 0 <= j < |RangeTable| ==> "OHMS" !in RangeTable[j].modes;
  }

  /** Resistance at the slow rate is looked up in the slow resistance table. */
  lemma OhmSlowEntries()
    ensures SelectEntries(RangeTable, "OHM", "S") == Some(OhmsSlow)
  {
    var t1, t2 := RangeTable[1..], RangeTable[2..];
    assert t1[1..] == t2 && t1[0] == RangeTable[1] && t2[0] == RangeTable[2];
    assert FindRateGroup(RangeTable[2].rateGroups, "S") == Some(1);
    assert SelectEntries(t2, "OHM", "S") == Some(OhmsSlow);
    assert SelectEntries(t1, "OHM", "S") == SelectEntries(t2, "OHM", "S");
  }

  /** The resistance table's top range is number 7, which `set_range`
      refuses (it accepts 0 to 6). */
  lemma TopResistanceRangeIsSeven(value: real)
    requires 10000000.0 <= value < 100000000.0
    ensures RangeFor("OHM", "S", Some(value)) == Ok(Some(7))
    ensures !RangeNumberAccepted(Some(7))
  {
    OhmSlowEntries();
    var r := FirstAbove(OhmsSlow, value);
    assert forall j :: 0 <= j < 6 ==> value >= OhmsSlow[j].0;
    assert r.Some? && r.value == 6 by {
      assert value < OhmsSlow[6].0;
    }
  }

  // --------------------------------------------------------- commands

  /** `n in range(0, 7)`. */
  predicate RangeNumberAccepted(n: Option<int>)
  {
    n.Some? && 0 <= n.value < 7
  }

  /** `set_trigger_source`: external when "ext" occurs in the name in any
      case, internal otherwise. */
  function TriggerSourceCommand(trigger: string): (cmd: string)
    ensures cmd == "TRIGGER 2" <==> Contains(Lower(trigger), "ext")
    ensures cmd == "TRIGGER 2" || cmd == "TRIGGER 1"
  {
    if Contains(Lower(trigger), "ext") then "TRIGGER 2" else "TRIGGER 1"
  }

  /** Serial when "asrl" occurs in the lower-cased address. */
  predicate IsSerialAddress(address: string)
  {
    Contains(Lower(address), "asrl")
  }

  // ------------------------------------------------------- exchanges

  /** `write`: on serial the prompt line is read as well, whatever it says. */
  function WriteAck(serial: bool, replies: seq<string>, message: string): (ex: Exchange<()>)
    ensures ex.sent == [message] && ex.consumed <= |replies|
    ensures ex.result.Ok? <==> !serial || |replies| > 0
    ensures ex.consumed == if serial && |replies| > 0 then 1 else 0
  {
    if !serial then WriteExchange(message, ())
    else
      var ack := NextReply(replies);
      Exchange([message], if ack.Ok? then 1 else 0, if ack.Ok? then Ok(()) else Err(ack.error))
  }

  /** `query`: on serial the prompt line that follows the reply is read as
      well, and the reply is returned unchanged. */
  function QueryAck(serial: bool, replies: seq<string>, message: string): (ex: Exchange<string>)
    ensures ex.sent == [message] && ex.consumed <= |replies|
  {
    var q := QueryExchange(replies, message);
    if !serial || q.result.Err? then q
    else
      var ack := NextReply(replies[1..]);
      Exchange([message], if ack.Ok? then 2 else 1, if ack.Ok? then q.result else Err(ack.error))
  }

  /** A command that is written when valid and otherwise raised with
      nothing written. */
  function CommandAck(serial: bool, replies: seq<string>, cmd: Result<string>): (ex: Exchange<()>)
    ensures ex.consumed <= |replies|
    ensures cmd.Err? ==> ex == Exchange([], 0, Err(cmd.error))
    ensures cmd.Ok? ==> ex == WriteAck(serial, replies, cmd.value)
  {
    if cmd.Ok? then WriteAck(serial, replies, cmd.value) else Exchange([], 0, Err(cmd.error))
  }

  /** A query whose reply has its trailing line ending stripped: `get_mode`
      asks "FUNC1?" and `get_rate` asks "RATE?". It succeeds iff the reply
      (and, on serial, the prompt after it) is there. */
  function StrippedQuery(serial: bool, replies: seq<string>, message: string): (ex: Exchange<string>)
    ensures ex.sent == [message] && ex.consumed <= |replies|
    ensures ex.result.Ok? <==> |replies| > (if serial then 1 else 0)
    ensures ex.result.Ok? ==> ex.consumed == (if serial then 2 else 1) && ex.result.value == RStrip(replies[0], LineEnd)
    ensures ex.result.Err? ==> ex.result.error == VisaIOError
  {
    var q := QueryAck(serial, replies, message);
    Exchange(q.sent, q.consumed, if q.result.Ok? then Ok(RStrip(q.result.value, LineEnd)) else q.result)
  }

  /** `get_mode()`. */
  function ModeQuery(serial: bool, replies: seq<string>): (ex: Exchange<string>)
    ensures ex.sent == ["FUNC1?"] && ex.consumed <= |replies|
  {
    StrippedQuery(serial, replies, "FUNC1?")
  }

  /** Asks for the mode and the rate, then `k` with both. */
  function WithModeAndRate<T>(serial: bool, replies: seq<string>, k: (string, string) -> Result<T>): (ex: Exchange<T>)
    ensures ex.sent <= ["FUNC1?", "RATE?"] && ex.consumed <= |replies|
    ensures ex.result.Ok? ==> ex.sent == ["FUNC1?", "RATE?"]
  {
    var m := ModeQuery(serial, replies);
    if m.result.Err? then Abort(m)
    else
      var r := StrippedQuery(serial, replies[m.consumed..], "RATE?");
      if r.result.Err? then Then(m, Abort(r))
      else Then(m, Exchange(r.sent, r.consumed, k(m.result.value, r.result.value)))
  }

  /** `_get_range_number(value)`. */
  function RangeNumberExchange(serial: bool, replies: seq<string>, value: Option<real>): Exchange<Option<int>>
  {
    WithModeAndRate(serial, replies, (mode, rate) => RangeFor(mode, rate, value))
  }

  /** `_get_range_number(n, reverse_lookup=True)`. */
  function RangeLimitExchange(serial: bool, replies: seq<string>, n: int): Exchange<Option<real>>
  {
    WithModeAndRate(serial, replies, (mode, rate) => RangeLimit(mode, rate, n))
  }

  /** The final step of `set_range`: "RANGE n" for n from 0 to 6. */
  function RangeWrite(serial: bool, replies: seq<string>, n: Option<int>): (ex: Exchange<()>)
    ensures ex.consumed <= |replies|
    ensures !RangeNumberAccepted(n) ==> ex == Exchange([], 0, Err(ValueError))
    ensures ex.result.Ok? ==> RangeNumberAccepted(n) && ex.sent == ["RANGE " + IntToString(n.value)]
  {
    CommandAck(serial, replies, if RangeNumberAccepted(n) then Ok("RANGE " + IntToString(n.value)) else Err(ValueError))
  }

  /** `set_range(signal_range, n, auto_range)`: "AUTO" when autoranging
      (then `n` is still checked); otherwise the number given, or the one
      looked up for the value. */
  function SetRangeExchange(serial: bool, replies: seq<string>, signalRange: Option<real>, n: Option<int>, autoRange: bool): (ex: Exchange<()>)
    ensures ex.consumed <= |replies|
    ensures autoRange ==> |ex.sent| > 0 && ex.sent[0] == "AUTO"
    ensures ex.result.Ok? ==> |ex.sent| > 0 && "RANGE " <= ex.sent[|ex.sent| - 1]
  {
    if autoRange then
      var a := WriteAck(serial, replies, "AUTO");
      if a.result.Err? then Abort(a) else Then(a, RangeWrite(serial, replies[a.consumed..], n))
    else if n.None? then
      var k := RangeNumberExchange(serial, replies, signalRange);
      if k.result.Err? then Abort(k) else Then(k, RangeWrite(serial, replies[k.consumed..], k.result.value))
    else
      RangeWrite(serial, replies, n)
  }

  /** `get_range()`: the range number read as an integer, then its limit. */
  function GetRangeExchange(serial: bool, replies: seq<string>): (ex: Exchange<Option<real>>)
    ensures ex.consumed <= |replies|
    ensures |ex.sent| > 0 && ex.sent[0] == "RANGE1?"
    ensures ex.result.Ok? ==> ex.sent == ["RANGE1?", "FUNC1?", "RATE?"]
  {
    var q := QueryAck(serial, replies, "RANGE1?");
    if q.result.Err? then Abort(q)
    else
      var n := ParseInt(q.result.value);
      if n.Err? then Exchange(q.sent, q.consumed, Err(n.error))
      else Then(q, RangeLimitExchange(serial, replies[q.consumed..], n.value))
  }

  /** `set_rate(rate)`. */
  function RateCommand(rate: string): (r: Result<string>)
    ensures r.Ok? <==> Upper(rate) in ValidRates
    ensures r.Ok? ==> r.value == "RATE " + Upper(rate)
    ensures r.Err? ==> r.error == ValueError
  {
    var u := Upper(rate);
    if u in ValidRates then Ok("RATE " + u) else Err(ValueError)
  }

  /** `set_mode(mode)`: the upper-cased name itself is the command. */
  function ModeCommand(mode: string): (r: Result<string>)
    ensures r.Ok? <==> Upper(mode) in ValidModes
    ensures r.Ok? ==> r.value == Upper(mode)
    ensures r.Err? ==> r.error == ValueError
  {
    var u := Upper(mode);
    if u in ValidModes then Ok(u) else Err(ValueError)
  }

  /** `set_local()`: "LOCS" on serial; otherwise the base class's go-to-local
      call, whose bus call outcome is `ren`. */
  function SetLocalExchange(serial: bool, replies: seq<string>, ren: Outcome): (ex: Exchange<()>)
    ensures ex.consumed <= |replies|
  {
    if serial then WriteAck(serial, replies, "LOCS")
    else
      var o := Instruments.SetLocal(ren);
      Exchange([], 0, if o.Pass? then Ok(()) else Err(o.error))
  }

  /** `config(mode, rate, signal_range, range_n)`: the mode, then the range,
      then the rate; the first failure stops the sequence. */
  function ConfigExchange(serial: bool, replies: seq<string>, mode: string, rate: string,
                          signalRange: Option<real>, rangeN: Option<int>): (ex: Exchange<()>)
    ensures ex.consumed <= |replies|
    ensures ex.result.Ok? ==>
              |ex.sent| >= 2 && ex.sent[0] == Upper(mode) && ex.sent[|ex.sent| - 1] == "RATE " + Upper(rate)
  {
    var m := CommandAck(serial, replies, ModeCommand(mode));
    if m.result.Err? then m
    else
      var r := SetRangeExchange(serial, replies[m.consumed..], signalRange, rangeN, false);
      if r.result.Err? then Then(m, r)
      else Then(m, Then(r, CommandAck(serial, replies[m.consumed..][r.consumed..], RateCommand(rate))))
  }

  /** The measurements, each allowed only in one mode. */
  datatype MeasureKind = Voltage | VoltageRms | Current | CurrentRms | Resistance | Frequency

  function ExpectedMode(kind: MeasureKind): (m: string)
    ensures m in ValidModes
  {
    match kind
    case Voltage => "VDC"
    case VoltageRms => "VAC"
    case Current => "ADC"
    case CurrentRms => "AAC"
    case Resistance => "OHMS"
    case Frequency => "FREQ"
  }

  /** `measure_*()`: IOError unless the meter is in the expected mode;
      then the reading, as the reply to "VAL?". */
  function MeasureExchange(serial: bool, replies: seq<string>, kind: MeasureKind): (ex: Exchange<string>)
    ensures ex.consumed <= |replies|
    ensures ex.sent == ["FUNC1?"] || ex.sent == ["FUNC1?", "VAL?"]
    ensures ex.result.Ok? ==> ex.sent == ["FUNC1?", "VAL?"] && ModeQuery(serial, replies).result == Ok(ExpectedMode(kind))
  {
    var m := ModeQuery(serial, replies);
    if m.result.Err? then m
    else if m.result.value != ExpectedMode(kind) then Exchange(m.sent, m.consumed, Err(IOError))
    else Then(m, QueryAck(serial, replies[m.consumed..], "VAL?"))
  }

  // ------------------------------------------------------------- lemmas

  /** On serial, the prompt line is consumed and ignored: a command succeeds
      and a query returns its reply whatever the prompt says. Without the
      prompt line the read times out. */
  lemma PromptIgnored(reply: string, prompt: string, rest: seq<string>, message: string)
    ensures WriteAck(true, [prompt] + rest, message) == Exchange([message], 1, Ok(()))
    ensures QueryAck(true, [reply, prompt] + rest, message) == Exchange([message], 2, Ok(reply))
    ensures QueryAck(true, [reply], message) == Exchange([message], 1, Err(VisaIOError))
    ensures WriteAck(true, [], message).result == Err(VisaIOError)
  {
    assert ([reply, prompt] + rest)[1..] == [prompt] + rest;
    assert [reply][1..] == [];
  }

  /** Not on serial, writes and queries are the plain ones. */
  lemma PlainWhenNotSerial(replies: seq<string>, message: string)
    ensures WriteAck(false, replies, message) == WriteExchange(message, ())
    ensures QueryAck(false, replies, message) == QueryExchange(replies, message)
  {
  }

  /** `set_mode` and `set_rate` ignore case, accept exactly their names and
      write nothing otherwise. */
  lemma ModeAndRateAccepted(mode: string, rate: string)
    ensures ModeCommand(mode).Ok? <==> Upper(mode) in {"AAC", "ADC", "VAC", "VDC", "OHMS", "FREQ", "CONT", "DIODE"}
    ensures RateCommand(rate).Ok? <==> Upper(rate) in {"S", "M", "F"}
    ensures ModeCommand(mode) == ModeCommand(Lower(mode))
    ensures RateCommand(rate) == RateCommand(Lower(rate))
  {
    assert Upper(Lower(mode)) == Upper(mode);
    assert Upper(Lower(rate)) == Upper(rate);
  }

  /** With autoranging, "AUTO" is written and, unless a range number from 0
      to 6 is also given, ValueError is raised afterwards; on serial the
      prompt after "AUTO" is read first, and without it the read times out. */
  lemma AutoRangeThenRaises(serial: bool, replies: seq<string>, signalRange: Option<real>)
    ensures (!serial || |replies| > 0) ==>
      SetRangeExchange(serial, replies, signalRange, None, true) == Exchange(["AUTO"], if serial then 1 else 0, Err(ValueError))
    ensures serial && replies == [] ==>
      SetRangeExchange(serial, replies, signalRange, None, true) == Exchange(["AUTO"], 0, Err(VisaIOError))
  {
  }

  /** A range number outside 0..6 is refused before anything is written,
      including 7, the top resistance range of the table. */
  lemma RangeNumberOutOfBounds(serial: bool, replies: seq<string>, signalRange: Option<real>, n: int)
    requires n < 0 || n >= 7
    ensures SetRangeExchange(serial, replies, signalRange, Some(n), false) == Exchange([], 0, Err(ValueError))
  {
  }

  /** A looked-up range is written as "RANGE n" after the mode and rate
      queries; a value above the table raises ValueError after them. On
      serial each query and the write also read a prompt line `p`. */
  lemma SetRangeFromValue(serial: bool, mode: string, rate: string, p: string, value: real, rest: seq<string>)
    requires '\r' !in mode && '\n' !in mode && '\r' !in rate && '\n' !in rate
    requires RangeFor(mode, rate, Some(value)).Ok?
    ensures var replies := if serial then [mode, p, rate, p, p] + rest else [mode, rate] + rest;
            var ex := SetRangeExchange(serial, replies, Some(value), None, false);
            var n := RangeFor(mode, rate, Some(value)).value;
            && (RangeNumberAccepted(n) ==>
                  ex == Exchange(["FUNC1?", "RATE?", "RANGE " + IntToString(n.value)], if serial then 5 else 2, Ok(())))
            && (!RangeNumberAccepted(n) ==> ex == Exchange(["FUNC1?", "RATE?"], if serial then 4 else 2, Err(ValueError)))
  {
    var tail := if serial then [p] + rest else rest;
    var replies := if serial then [mode, p, rate, p, p] + rest else [mode, rate] + rest;
    if serial {
      Regrouped([mode, p, rate, p], [p], rest);
      assert [mode, p, rate, p] + [p] == [mode, p, rate, p, p];
    }
    ModeAndRateRead(serial, mode, rate, p, tail, value);
    var c := if serial then 4 else 2;
    var n := RangeFor(mode, rate, Some(value)).value;
    LookupThenWrite(serial, replies, value, c, n);
    RangeWriteAnswered(serial, tail, n);
  }

  /** A range lookup that finds `n` is followed by the write of `n`. */
  lemma LookupThenWrite(serial: bool, replies: seq<string>, value: real, c: nat, n: Option<int>)
    requires c <= |replies|
    requires RangeNumberExchange(serial, replies, Some(value)) == Exchange(["FUNC1?", "RATE?"], c, Ok(n))
    ensures SetRangeExchange(serial, replies, Some(value), None, false)
         == Then(Exchange(["FUNC1?", "RATE?"], c, Ok(n)), RangeWrite(serial, replies[c..], n))
  {
  }

  /** The final write of `set_range`: "RANGE n" (with its prompt on serial)
      for n from 0 to 6, ValueError with nothing written otherwise. */
  lemma RangeWriteAnswered(serial: bool, tail: seq<string>, n: Option<int>)
    requires serial ==> |tail| > 0
    ensures RangeNumberAccepted(n) ==>
      RangeWrite(serial, tail, n) == Exchange(["RANGE " + IntToString(n.value)], if serial then 1 else 0, Ok(()))
    ensures !RangeNumberAccepted(n) ==> RangeWrite(serial, tail, n) == Exchange([], 0, Err(ValueError))
  {
  }

  /** The mode and rate queries of a range lookup, answered by `mode` and
      `rate`, leave `tail` to the rest of `set_range`. */
  lemma ModeAndRateRead(serial: bool, mode: string, rate: string, p: string, tail: seq<string>, value: real)
    requires '\r' !in mode && '\n' !in mode && '\r' !in rate && '\n' !in rate
    ensures var replies := if serial then [mode, p, rate, p] + tail else [mode, rate] + tail;
            var c := if serial then 4 else 2;
            var k := RangeNumberExchange(serial, replies, Some(value));
            && |replies| >= c && replies[c..] == tail
            && k == Exchange(["FUNC1?", "RATE?"], c, RangeFor(mode, rate, Some(value)))
  {
    var m, r := if serial then [mode, p] else [mode], if serial then [rate, p] else [rate];
    var replies := m + (r + tail);
    Regrouped(m, r, tail);
    AnsweredQuery(serial, mode, p, r + tail, "FUNC1?");
    assert replies[|m|..] == r + tail;
    AnsweredQuery(serial, rate, p, tail, "RATE?");
  }

  lemma Regrouped(a: seq<string>, b: seq<string>, c: seq<string>)
    ensures (a + b) + c == a + (b + c)
  {
  }

  /** A query answered by `reply` (and, on serial, the prompt `p`) returns
      the reply and consumes exactly those lines. */
  lemma AnsweredQuery(serial: bool, reply: string, p: string, rest: seq<string>, message: string)
    requires '\r' !in reply && '\n' !in reply
    ensures var replies := (if serial then [reply, p] else [reply]) + rest;
            && |replies| >= (if serial then 2 else 1)
            && StrippedQuery(serial, replies, message) == Exchange([message], if serial then 2 else 1, Ok(reply))
            && QueryAck(serial, replies, message) == Exchange([message], if serial then 2 else 1, Ok(reply))
  {
    RStripNoLineEnd(reply);
    var replies := (if serial then [reply, p] else [reply]) + rest;
    assert replies[0] == reply;
    if serial {
      assert replies[1..][0] == p;
    }
  }

  /** A reply without line-ending characters is not changed by stripping. */
  lemma RStripNoLineEnd(s: string)
    ensures '\r' !in s && '\n' !in s ==> RStrip(s, LineEnd) == s
  {
    if '\r' !in s && '\n' !in s && |s| > 0 {
      assert s[|s| - 1] in s;
    }
  }

  /** `config` stops at the first failure: a failing mode sends nothing at
      all, a mode write whose prompt never comes sends only the mode, and a
      failing range leaves the rate unsent. On serial the mode write reads
      one prompt line before the range is set. */
  lemma ConfigStopsAtFirstFailure(serial: bool, replies: seq<string>, mode: string, rate: string,
                                  signalRange: Option<real>, rangeN: Option<int>)
    ensures var ex := ConfigExchange(serial, replies, mode, rate, signalRange, rangeN);
            && (ModeCommand(mode).Err? ==> ex == Exchange([], 0, Err(ValueError)))
            && (ModeCommand(mode).Ok? && serial && replies == [] ==>
                  ex == Exchange([Upper(mode)], 0, Err(VisaIOError)))
            && (ModeCommand(mode).Ok? && (!serial || |replies| > 0) ==>
                  var k := if serial then 1 else 0;
                  var r := SetRangeExchange(serial, replies[k..], signalRange, rangeN, false);
                  r.result.Err? ==> ex.sent == [Upper(mode)] + r.sent && ex.result == r.result)
  {
  }

  /** In the wrong mode a measurement raises IOError without asking for a
      reading; in the right one it returns the reply to "VAL?". On serial
      each query also reads a prompt line `p`. */
  lemma MeasureGuard(serial: bool, kind: MeasureKind, mode: string, p: string, reading: string, rest: seq<string>)
    requires '\r' !in mode && '\n' !in mode
    ensures mode != ExpectedMode(kind) ==>
              MeasureExchange(serial, if serial then [mode, p] + rest else [mode] + rest, kind)
              == Exchange(["FUNC1?"], if serial then 2 else 1, Err(IOError))
    ensures mode == ExpectedMode(kind) ==>
              MeasureExchange(serial, if serial then [mode, p, reading, p] + rest else [mode, reading] + rest, kind)
              == Exchange(["FUNC1?", "VAL?"], if serial then 4 else 2, Ok(reading))
  {
    RStripNoLineEnd(mode);
    if serial {
      var wrong, right := [mode, p] + rest, [mode, p, reading, p] + rest;
      assert wrong[0] == mode && wrong[1..][0] == p;
      assert right[0] == mode && right[1..][0] == p;
      assert right[2..] == [reading, p] + rest;
      assert right[2..][1..][0] == p;
    } else {
      assert ([mode] + rest)[0] == mode;
      assert ([mode, reading] + rest)[0] == mode;
      assert ([mode, reading] + rest)[1..] == [reading] + rest;
    }
  }

  // ------------------------------------------------------------ the driver

  class Fluke45 {
    const io: Transport
    const isSerial: bool

    /** The constructor's serial detection; flushing the port and setting
        the line terminations are not modelled. */
    constructor(io: Transport, address: string)
      ensures this.io == io && isSerial == IsSerialAddress(address)
    {
      this.io := io;
      isSerial := IsSerialAddress(address);
    }

    method Write(message: string) returns (r: Result<()>)
      modifies io
      ensures io.Performed(old(io.sent), old(io.replies), WriteAck(isSerial, old(io.replies), message))
      ensures r == WriteAck(isSerial, old(io.replies), message).result
    {
      io.Write(message);
      r := Ok(());
      if isSerial {
        var prompt := io.Read();
        if prompt.Err? {
          r := Err(prompt.error);
        }
      }
    }

    method Query(message: string) returns (r: Result<string>)
      modifies io
      ensures io.Performed(old(io.sent), old(io.replies), QueryAck(isSerial, old(io.replies), message))
      ensures r == QueryAck(isSerial, old(io.replies), message).result
    {
      r := io.Query(message);
      if isSerial && r.Ok? {
        var prompt := io.Read();
        if prompt.Err? {
          r := Err(prompt.error);
        }
      }
    }

    /** Writes a valid command, or raises its error with nothing written. */
    method Command(cmd: Result<string>) returns (r: Result<()>)
      modifies io
      ensures io.Performed(old(io.sent), old(io.replies), CommandAck(isSerial, old(io.replies), cmd))
      ensures r == CommandAck(isSerial, old(io.replies), cmd).result
    {
      if cmd.Err? {
        return Err(cmd.error);
      }
      r := Write(cmd.value);
    }

    method StrippedQueryOf(message: string) returns (r: Result<string>)
      modifies io
      ensures io.Performed(old(io.sent), old(io.replies), StrippedQuery(isSerial, old(io.replies), message))
      ensures r == StrippedQuery(isSerial, old(io.replies), message).result
    {
      r := Query(message);
      if r.Ok? {
        r := Ok(RStrip(r.value, LineEnd));
      }
    }

    method GetMode() returns (r: Result<string>)
      modifies io
      ensures io.Performed(old(io.sent), old(io.replies), ModeQuery(isSerial, old(io.replies)))
      ensures r == ModeQuery(isSerial, old(io.replies)).result
    {
      r := StrippedQueryOf("FUNC1?");
    }

    method GetRate() returns (r: Result<string>)
      modifies io
      ensures io.Performed(old(io.sent), old(io.replies), StrippedQuery(isSerial, old(io.replies), "RATE?"))
      ensures r == StrippedQuery(isSerial, old(io.replies), "RATE?").result
    {
      r := StrippedQueryOf("RATE?");
    }

    /** `_get_range_number(value)`. */
    method RangeNumber(value: Option<real>) returns (r: Result<Option<int>>)
      modifies io
      ensures io.Performed(old(io.sent), old(io.replies), RangeNumberExchange(isSerial, old(io.replies), value))
      ensures r == RangeNumberExchange(isSerial, old(io.replies), value).result
    {
      ghost var sent0, replies0 := io.sent, io.replies;
      var mode := GetMode();
      if mode.Err? {
        return Err(mode.error);
      }
      ghost var m := ModeQuery(isSerial, replies0);
      var rate := GetRate();
      ghost var rq := StrippedQuery(isSerial, replies0[m.consumed..], "RATE?");
      if rate.Err? {
        io.PerformedThen(sent0, replies0, m, Abort<string, Option<int>>(rq));
        return Err(rate.error);
      }
      r := RangeFor(mode.value, rate.value, value);
      io.PerformedThen(sent0, replies0, m, Exchange(rq.sent, rq.consumed, r));
    }

    /** `_get_range_number(n, reverse_lookup=True)`. */
    method RangeLimitOf(n: int) returns (r: Result<Option<real>>)
      modifies io
      ensures io.Performed(old(io.sent), old(io.replies), RangeLimitExchange(isSerial, old(io.replies), n))
      ensures r == RangeLimitExchange(isSerial, old(io.replies), n).result
    {
      ghost var sent0, replies0 := io.sent, io.replies;
      var mode := GetMode();
      if mode.Err? {
        return Err(mode.error);
      }
      ghost var m := ModeQuery(isSerial, replies0);
      var rate := GetRate();
      ghost var rq := StrippedQuery(isSerial, replies0[m.consumed..], "RATE?");
      if rate.Err? {
        io.PerformedThen(sent0, replies0, m, Abort<string, Option<real>>(rq));
        return Err(rate.error);
      }
      r := RangeLimit(mode.value, rate.value, n);
      io.PerformedThen(sent0, replies0, m, Exchange(rq.sent, rq.consumed, r));
    }

    /** The final step of `set_range`. */
    method WriteRange(n: Option<int>) returns (r: Result<()>)
      modifies io
      ensures io.Performed(old(io.sent), old(io.replies), RangeWrite(isSerial, old(io.replies), n))
      ensures r == RangeWrite(isSerial, old(io.replies), n).result
    {
      r := Command(if RangeNumberAccepted(n) then Ok("RANGE " + IntToString(n.value)) else Err(ValueError));
    }

    /** `set_range(signal_range, n, auto_range)`. */
    method SetRange(signalRange: Option<real>, n: Option<int>, autoRange: bool) returns (r: Result<()>)
      modifies io
      ensures io.Performed(old(io.sent), old(io.replies), SetRangeExchange(isSerial, old(io.replies), signalRange, n, autoRange))
      ensures r == SetRangeExchange(isSerial, old(io.replies), signalRange, n, autoRange).result
    {
      ghost var sent0, replies0 := io.sent, io.replies;
      if autoRange {
        var a := Write("AUTO");
        if a.Err? {
          return Err(a.error);
        }
        ghost var ax := WriteAck(isSerial, replies0, "AUTO");
        r := WriteRange(n);
        io.PerformedThen(sent0, replies0, ax, RangeWrite(isSerial, replies0[ax.consumed..], n));
      } else if n.None? {
        var k := RangeNumber(signalRange);
        if k.Err? {
          return Err(k.error);
        }
        ghost var kx := RangeNumberExchange(isSerial, replies0, signalRange);
        r := WriteRange(k.value);
        io.PerformedThen(sent0, replies0, kx, RangeWrite(isSerial, replies0[kx.consumed..], k.value));
      } else {
        r := WriteRange(n);
      }
    }

    /** `get_range()`. */
    method GetRange() returns (r: Result<Option<real>>)
      modifies io
      ensures io.Performed(old(io.sent), old(io.replies), GetRangeExchange(isSerial, old(io.replies)))
      ensures r == GetRangeExchange(isSerial, old(io.replies)).result
    {
      ghost var sent0, replies0 := io.sent, io.replies;
      var reply := Query("RANGE1?");
      if reply.Err? {
        return Err(reply.error);
      }
      var n := ParseInt(reply.value);
      if n.Err? {
        return Err(n.error);
      }
      ghost var q := QueryAck(isSerial, replies0, "RANGE1?");
      r := RangeLimitOf(n.value);
      io.PerformedThen(sent0, replies0, q, RangeLimitExchange(isSerial, replies0[q.consumed..], n.value));
    }

    method SetRate(rate: string) returns (r: Result<()>)
      modifies io
      ensures io.Performed(old(io.sent), old(io.replies), CommandAck(isSerial, old(io.replies), RateCommand(rate)))
      ensures r == CommandAck(isSerial, old(io.replies), RateCommand(rate)).result
    {
      r := Command(RateCommand(rate));
    }

    method SetMode(mode: string) returns (r: Result<()>)
      modifies io
      ensures io.Performed(old(io.sent), old(io.replies), CommandAck(isSerial, old(io.replies), ModeCommand(mode)))
      ensures r == CommandAck(isSerial, old(io.replies), ModeCommand(mode)).result
    {
      r := Command(ModeCommand(mode));
    }

    method SetTriggerSource(trigger: string) returns (r: Result<()>)
      modifies io
      ensures io.Performed(old(io.sent), old(io.replies), WriteAck(isSerial, old(io.replies), TriggerSourceCommand(trigger)))
      ensures r == WriteAck(isSerial, old(io.replies), TriggerSourceCommand(trigger)).result
    {
      r := Write(TriggerSourceCommand(trigger));
    }

    /** `set_local()`, given the outcome of the bus call the base class makes. */
    method SetLocal(ren: Outcome) returns (r: Result<()>)
      modifies io
      ensures io.Performed(old(io.sent), old(io.replies), SetLocalExchange(isSerial, old(io.replies), ren))
      ensures r == SetLocalExchange(isSerial, old(io.replies), ren).result
    {
      if isSerial {
        r := Write("LOCS");
      } else {
        var o := Instruments.SetLocal(ren);
        r := if o.Pass? then Ok(()) else Err(o.error);
      }
    }

    /** `trigger()`: written on the session directly, so no prompt is read
        even on serial. */
    method Trigger()
      modifies io
      ensures io.sent == old(io.sent) + ["*TRG"] && io.replies == old(io.replies)
    {
      io.Write("*TRG");
    }

    /** `config(mode, rate, signal_range, range_n)`. */
    method Config(mode: string, rate: string, signalRange: Option<real>, rangeN: Option<int>) returns (r: Result<()>)
      modifies io
      ensures io.Performed(old(io.sent), old(io.replies), ConfigExchange(isSerial, old(io.replies), mode, rate, signalRange, rangeN))
      ensures r == ConfigExchange(isSerial, old(io.replies), mode, rate, signalRange, rangeN).result
    {
      ghost var sent0, replies0 := io.sent, io.replies;
      r := SetMode(mode);
      if r.Err? {
        return;
      }
      ghost var mx := CommandAck(isSerial, replies0, ModeCommand(mode));
      ghost var sent1, replies1 := io.sent, io.replies;
      r := SetRange(signalRange, rangeN, false);
      ghost var rx := SetRangeExchange(isSerial, replies1, signalRange, rangeN, false);
      if r.Err? {
        io.PerformedThen(sent0, replies0, mx, rx);
        return;
      }
      r := SetRate(rate);
      ghost var tx := CommandAck(isSerial, replies1[rx.consumed..], RateCommand(rate));
      io.PerformedThen(sent1, replies1, rx, tx);
      io.PerformedThen(sent0, replies0, mx, Then(rx, tx));
    }

    /** `measure_voltage()` and the other `measure_*()` methods, without the
        float conversion and scaling of the reading. */
    method Measure(kind: MeasureKind) returns (r: Result<string>)
      modifies io
      ensures io.Performed(old(io.sent), old(io.replies), MeasureExchange(isSerial, old(io.replies), kind))
      ensures r == MeasureExchange(isSerial, old(io.replies), kind).result
    {
      ghost var sent0, replies0 := io.sent, io.replies;
      var mode := GetMode();
      if mode.Err? {
        return Err(mode.error);
      }
      if mode.value != ExpectedMode(kind) {
        return Err(IOError);
      }
      ghost var m := ModeQuery(isSerial, replies0);
      r := Query("VAL?");
      io.PerformedThen(sent0, replies0, m, QueryAck(isSerial, replies0[m.consumed..], "VAL?"));
    }
  }
}
