/** The HP 3478A multimeter driven through an AR488 GPIB adapter: the
    function, range and trigger codes it writes, and the decoding of the
    five-byte status register it reads back with the "B" command. The
    adapter is a byte stream: commands are written as text and replies are
    read as bytes. */
module Hp3478a {
  import opened Common
  import opened Text
  import opened Values
  import opened Visa

  // ------------------------------------------------------------- bit fields

  /** Whether bit `j` of `m` is set. */
  predicate Bit(m: bv8, j: bv8)
    requires j < 8
  {
    (m >> j) & 1 == 1
  }

  /** The position of the lowest set bit of `m` at or above `i`, or 8 when
      there is none. */
  function LowestSetFrom(m: bv8, i: bv8): (k: bv8)
    requires i <= 8
    ensures i <= k <= 8
    decreases 8 - i as int
  {
    if i == 8 then 8 else if Bit(m, i) then i else LowestSetFrom(m, i + 1)
  }

  /** `LowestSetFrom` finds a set bit, and no bit between `i` and it is set. */
  lemma {:induction false} LowestSetFromIsLowest(m: bv8, i: bv8)
    requires i <= 8
    ensures LowestSetFrom(m, i) < 8 ==> Bit(m, LowestSetFrom(m, i))
    ensures forall j: bv8 :: i <= j < LowestSetFrom(m, i) ==> !Bit(m, j)
    decreases 8 - i as int
  {
    if i < 8 && !Bit(m, i) {
      LowestSetFromIsLowest(m, i + 1);
    }
  }

  /** A non-zero byte has a set bit. */
  lemma NonZeroHasSetBit(m: bv8)
    requires m != 0
    ensures LowestSetFrom(m, 0) < 8
  {
    LowestSetFromIsLowest(m, 0);
    if LowestSetFrom(m, 0) == 8 {
      assert false;
    }
  }

  /** The number of trailing zero bits of a non-zero byte. */
  function TrailingZeros(m: bv8): (k: bv8)
    requires m != 0
    ensures k < 8
  {
    NonZeroHasSetBit(m);
    LowestSetFrom(m, 0)
  }

  /** The lowest set bit is at `TrailingZeros(m)`. */
  lemma TrailingZerosIsLowest(m: bv8)
    requires m != 0
    ensures Bit(m, TrailingZeros(m))
    ensures forall j: bv8 :: j < TrailingZeros(m) ==> !Bit(m, j)
  {
    LowestSetFromIsLowest(m, 0);
  }

  /** The field of `val` selected by `mask`, shifted down to bit 0. */
  function FieldValue(mask: bv8, val: bv8): (r: bv8)
    requires mask != 0
  {
    ShiftedField(TrailingZeros(mask), mask, val)
  }

  /** The bits of `val` under `mask`, both shifted down by `k`. */
  function ShiftedField(k: bv8, mask: bv8, val: bv8): bv8
    requires k < 8
  {
    (val >> k) & (mask >> k)
  }

  /** The shifting of `_shift_by_mask`, one bit at a time: while the
      mask's lowest bit is clear, both values move down by one. */
  function ShiftedDown(mask: bv8, val: bv8): bv8
    requires mask != 0
    decreases mask
  {
    if mask & 1 == 1 then val & mask else ShiftedDown(mask >> 1, val >> 1)
  }

  /** Shifting one bit at a time until the mask's lowest set bit reaches
      bit 0 gives the field under the mask, moved down to bit 0. */
  lemma ShiftedDownIsField(mask: bv8, val: bv8)
    requires mask != 0
    ensures ShiftedDown(mask, val) == FieldValue(mask, val)
  {
    TrailingZerosIsLowest(mask);
    ShiftedDownFrom(mask, val, 0, TrailingZeros(mask));
  }

  /** From position `i` up to the lowest set bit `k`, shifting one bit at a
      time ends with the field at `k`. */
  lemma {:induction false} ShiftedDownFrom(mask: bv8, val: bv8, i: bv8, k: bv8)
    requires i <= k < 8 && Bit(mask, k)
    requires forall j: bv8 :: i <= j < k ==> !Bit(mask, j)
    ensures mask >> i != 0 && ShiftedDown(mask >> i, val >> i) == ShiftedField(k, mask, val)
    decreases k - i
  {
    if i < k {
      var j := i + 1;
      ShiftedDownFrom(mask, val, j, k);
      ShiftedDownBack(mask, val, i, j, k);
    } else {
      ShiftedDownAt(mask, val, k);
    }
  }

  /** At the lowest set bit, shifting stops and gives the field. */
  lemma ShiftedDownAt(mask: bv8, val: bv8, k: bv8)
    requires k < 8 && Bit(mask, k)
    ensures mask >> k != 0 && ShiftedDown(mask >> k, val >> k) == ShiftedField(k, mask, val)
  {
    assert ShiftedDown(mask >> k, val >> k) == (val >> k) & (mask >> k);
  }

  /** Below the lowest set bit, shifting at `i` does what it does at the
      next position `j`. */
  lemma ShiftedDownBack(mask: bv8, val: bv8, i: bv8, j: bv8, k: bv8)
    requires i < k < 8
    requires j == i + 1
    requires !Bit(mask, i)
    requires mask >> j != 0
    requires ShiftedDown(mask >> j, val >> j) == ShiftedField(k, mask, val)
    ensures mask >> i != 0 && ShiftedDown(mask >> i, val >> i) == ShiftedField(k, mask, val)
  {
    ShiftAgain(mask, i, j);
    ShiftAgain(val, i, j);
    ShiftedDownStep(mask >> i, val >> i);
  }

  /** One step of `ShiftedDown` while the mask's lowest bit is clear. */
  lemma ShiftedDownStep(m: bv8, v: bv8)
    requires m >> 1 != 0 && m & 1 == 0
    ensures m != 0 && ShiftedDown(m, v) == ShiftedDown(m >> 1, v >> 1)
  {
  }

  /** `_shift_by_mask(mask, val)`: shift both right until the mask's lowest
      bit is set, then keep the bits under the mask. A zero mask would loop
      forever, so it is excluded. */
  method ShiftByMask(mask: bv8, val: bv8) returns (r: bv8)
    requires mask != 0
    ensures r == FieldValue(mask, val)
  {
    var m := mask;
    var v := val;
    while m & 1 == 0
      invariant m != 0 && ShiftedDown(m, v) == ShiftedDown(mask, val)
      decreases m
    {
      m := m >> 1;
      v := v >> 1;
    }
    r := v & m;
    ShiftedDownIsField(mask, val);
  }

  /** Shifting by `i` and then by one is shifting by `j`, the next
      position. */
  lemma ShiftAgain(x: bv8, i: bv8, j: bv8)
    requires i < 7 && j == i + 1
    ensures (x >> i) >> 1 == x >> j
  {
    if i == 0 {
    } else if i == 1 {
    } else if i == 2 {
    } else if i == 3 {
    } else if i == 4 {
    } else if i == 5 {
    } else {
      assert i == 6;
    }
  }

  /** The field value never exceeds the mask moved down to bit 0. */
  lemma FieldWithinMask(mask: bv8, val: bv8)
    requires mask != 0
    ensures FieldValue(mask, val) <= mask >> TrailingZeros(mask)
  {
    ShiftedFieldWithin(TrailingZeros(mask), mask, val);
  }

  lemma ShiftedFieldWithin(k: bv8, mask: bv8, val: bv8)
    requires k < 8
    ensures ShiftedField(k, mask, val) <= mask >> k
  {
    if k == 0 {
    } else if k == 1 {
    } else if k == 2 {
    } else if k == 3 {
    } else if k == 4 {
    } else if k == 5 {
    } else if k == 6 {
    } else {
      assert k == 7;
    }
  }

  /** A field value written into its place under a contiguous mask, with
      anything outside the mask beside it, reads back as the same value. */
  lemma FieldRoundTrip(mask: bv8, k: bv8, f: bv8, rest: bv8)
    requires mask != 0 && k == TrailingZeros(mask)
    requires f & (mask >> k) == f
    requires rest & mask == 0
    ensures FieldValue(mask, (f << k) | rest) == f
  {
    ShiftedFieldRoundTrip(k, mask, f, rest);
  }

  /** The round trip for each shift amount in turn. */
  lemma ShiftedFieldRoundTrip(k: bv8, mask: bv8, f: bv8, rest: bv8)
    requires k < 8 && f & (mask >> k) == f && rest & mask == 0
    ensures ShiftedField(k, mask, (f << k) | rest) == f
  {
    if k == 0 {
    } else if k == 1 {
    } else if k == 2 {
    } else if k == 3 {
    } else if k == 4 {
    } else if k == 5 {
    } else if k == 6 {
    } else {
      assert k == 7;
    }
  }

  // ------------------------------------------------------------------ tables

  /** Mode names and the function code that selects each. */
  const ModeCodes: map<string, string> := map["VDC" := "F1", "VAC" := "F2", "ADC" := "F5", "AAC" := "F6", "OHMS" := "F3"]

  /** Per mode, the ranges in ascending order: the upper limit of each and
      the command that selects it. */
  const Ranges: map<string, seq<(real, string)>> := map[
    "VDC" := [(0.03, "R-2"), (0.3, "R-1"), (3.0, "R0"), (30.0, "R1"), (300.0, "R2")],
    "VAC" := [(0.3, "R-1"), (3.0, "R0"), (30.0, "R1"), (300.0, "R2")],
    "ADC" := [(0.3, "R-1"), (3.0, "R0")],
    "AAC" := [(0.3, "R-1"), (3.0, "R0")],
    "OHMS" := [(30.0, "R1"), (300.0, "R2"), (3000.0, "R3"), (30000.0, "R4"), (300000.0, "R5"),
               (3000000.0, "R6"), (30000000.0, "R7")]]

  const Triggers: map<string, string> := map["INTERNAL" := "T1", "EXTERNAL" := "T2", "SINGLE" := "T3"]

  /** The three fields of the first status byte. */
  const FunctionNames: map<int, string> :=
    map[1 := "VDC", 2 := "VAC", 3 := "OHMS", 4 := "OHMS", 5 := "ADC", 6 := "AAC", 7 := "OHMS"]
  const RangeNames: map<int, string> := map[
    1 := "30mV DC, 300mV AC, 30 ohm, 300mA AC or DC, ohms extended",
    2 := "300mV DC, 3V AC, 300 ohm, 3A AC or DC",
    3 := "3V DCM, 30V AC, 3K ohm",
    4 := "30V DC, 300V AC 30K ohm",
    5 := "300V DC, 300K ohm",
    6 := "3M ohm",
    7 := "30M ohm"]
  const DigitNames: map<int, string> := map[1 := "5.5 Digit Mode", 2 := "4.5 Digit Mode", 3 := "3.5 Digit Mode"]

  /** How one status byte is decoded: bit fields looked up in tables, one
      name per bit from the top bit down, or the byte itself. */
  datatype Lookup = Fields(fields: seq<(bv8, map<int, string>)>) | Bits(names: seq<string>) | RawByte

  /** The decoding of the five status bytes, in order. */
  const StatusLookup: seq<Lookup> := [
    Fields([(0xE0, FunctionNames), (0x1C, RangeNames), (0x03, DigitNames)]),
    Bits(["Always 0", "External Trigger Enabled", "Cal RAM Enabled", "Front/Rear SW in Front Pos",
          "50Hz Line Freq Set", "Auto-Zero Enabled", "Internal Trigger Enabled"]),
    Bits(["PON SRQ switch on last POR or CLS Recv", "Always 0", "SRQ if CAL Procedure Failed",
          "SRQ if SRQ key pressed", "SRQ if HW error", "SRQ if syntax error", "Unused",
          "SRQ as every reading avail"]),
    Bits(["Always 0", "Always 0", "A/D link failure", "A/D slope error",
          "ROM selftest failed", "RAM selftest failed", "CAL RAM bad checksum"]),
    RawByte]

  // ------------------------------------------------------- command builders

  /** `set_mode`: the function code for the upper-cased name. */
  function SetModeCommand(mode: string): (r: Result<string>)
    ensures r.Ok? <==> Upper(mode) in ModeCodes
    ensures r.Ok? ==> r.value == ModeCodes[Upper(mode)]
    ensures r.Err? ==> r.error == ValueError
  {
    var m := Upper(mode);
    if m in ModeCodes then Ok(ModeCodes[m]) else Err(ValueError)
  }

  /** `set_resolution`: 3, 4 or 5 digits (an equal float counts too). */
  function ResolutionCommand(digits: Value): (r: Result<string>)
    ensures r.Err? ==> r.error == ValueError
  {
    if IsNumber(digits) && Number(digits) in {3.0, 4.0, 5.0} then Ok("N" + Str(digits)) else Err(ValueError)
  }

  /** `set_trigger`: the trigger code for the upper-cased name. */
  function TriggerCommand(trigger: string): (r: Result<string>)
    ensures r.Err? ==> r.error == ValueError
  {
    var t := Upper(trigger);
    if t in Triggers then Ok(Triggers[t]) else Err(ValueError)
  }

  /** `set_autozero`. */
  function AutozeroCommand(enabled: bool): string
  {
    if enabled then "Z1" else "Z0"
  }

  /** `set_display`: the message shown, with or without display updates
      paused, or the normal display for an empty message. */
  function DisplayCommand(msg: string, pauseUpdates: bool): string
  {
    if |msg| > 0 then (if pauseUpdates then "D3" + msg else "D2" + msg) else "D1"
  }

  /** Index of the first range whose limit is strictly above `x`. */
  function FirstAbove(table: seq<(real, string)>, x: real): (r: Option<nat>)
    ensures r.None? <==> forall j :: 0 <= j < |table| ==> x >= table[j].0
    ensures r.Some? ==> r.value < |table| && x < table[r.value].0
                        && forall j :: 0 <= j < r.value ==> x >= table[j].0
  {
    if table == [] then None
    else if x < table[0].0 then Some(0)
    else
      var r := FirstAbove(table[1..], x);
      if r.None? then None else Some(r.value + 1)
  }

  /** `set_range(max_value)` in the current mode: the command of the first
      range above the value; ValueError when there is none; and the
      AttributeError of a driver whose mode was never set. */
  function RangeCommand(currentMode: Option<string>, maxValue: real): (r: Result<string>)
    ensures currentMode.None? ==> r == Err(AttributeError)
    ensures currentMode.Some? && currentMode.value !in Ranges ==> r == Err(KeyError)
    ensures r.Ok? ==>
              && currentMode.Some? && currentMode.value in Ranges
              && exists j :: 0 <= j < |Ranges[currentMode.value]| && r.value == Ranges[currentMode.value][j].1
                             && maxValue < Ranges[currentMode.value][j].0
  {
    if currentMode.None? then Err(AttributeError)
    else if currentMode.value !in Ranges then Err(KeyError)
    else
      var table := Ranges[currentMode.value];
      var i := FirstAbove(table, maxValue);
      if i.Some? then Ok(table[i.value].1) else Err(ValueError)
  }

  /** Limits strictly increasing along the table. */
  predicate Ascending(table: seq<(real, string)>)
  {
    forall i, j :: 0 <= i < j < |table| ==> table[i].0 < table[j].0
  }

  lemma RangesAscending(mode: string)
    requires mode in Ranges
    ensures Ascending(Ranges[mode]) && |Ranges[mode]| > 0
  {
  }

  /** `set_range` raises ValueError exactly when the value is at or above
      the highest range of the mode; otherwise it selects the smallest range
      whose limit is above the value. */
  lemma RangeSelection(mode: string, maxValue: real)
    requires mode in Ranges
    ensures var table := Ranges[mode];
            && (RangeCommand(Some(mode), maxValue).Err? <==> maxValue >= table[|table| - 1].0)
            && (RangeCommand(Some(mode), maxValue).Err? ==> RangeCommand(Some(mode), maxValue).error == ValueError)
            && (RangeCommand(Some(mode), maxValue).Ok? ==>
                  exists i :: 0 <= i < |table| && RangeCommand(Some(mode), maxValue).value == table[i].1
                              && maxValue < table[i].0 && (i > 0 ==> maxValue >= table[i - 1].0))
  {
    RangesAscending(mode);
    var table := Ranges[mode];
    var i := FirstAbove(table, maxValue);
    if i.Some? {
      assert maxValue < table[|table| - 1].0 by {
        if i.value < |table| - 1 {
          assert table[i.value].0 < table[|table| - 1].0;
        }
      }
      var k := i.value;
      assert RangeCommand(Some(mode), maxValue).value == table[k].1;
      assert k > 0 ==> maxValue >= table[k - 1].0;
    }
  }

  /** The function code of each mode is the code the status byte reports
      for that mode, so the mode set is the mode read back. */
  lemma ModeCodeReadBack(m: string)
    requires m in ModeCodes
    ensures var code := ModeCodes[m];
            && |code| == 2 && code[0] == 'F'
            && FunctionNames[CodeDigit(code[1])] == m
  {
    assert ModeCodes.Keys == {"VDC", "VAC", "ADC", "AAC", "OHMS"};
    if m == "VDC" {
      assert ModeCodes[m] == "F1" && CodeDigit('1') == 1 && FunctionNames[1] == "VDC";
    } else if m == "VAC" {
      assert ModeCodes[m] == "F2" && CodeDigit('2') == 2 && FunctionNames[2] == "VAC";
    } else if m == "ADC" {
      assert ModeCodes[m] == "F5" && CodeDigit('5') == 5 && FunctionNames[5] == "ADC";
    } else if m == "AAC" {
      assert ModeCodes[m] == "F6" && CodeDigit('6') == 6 && FunctionNames[6] == "AAC";
    } else {
      assert ModeCodes[m] == "F3" && CodeDigit('3') == 3 && FunctionNames[3] == "OHMS";
    }
  }

  /** `set_mode` ignores case and writes the F code of the mode. */
  lemma SetModeIgnoresCase(mode: string)
    ensures SetModeCommand(mode) == SetModeCommand(Upper(mode)) == SetModeCommand(Lower(mode))
    ensures SetModeCommand(mode).Ok? <==> Upper(mode) in {"VDC", "VAC", "ADC", "AAC", "OHMS"}
  {
    UpperIdempotent(mode);
    assert Upper(Lower(mode)) == Upper(mode);
  }

  /** The value of a digit character. */
  function CodeDigit(c: char): int
  {
    c as int - '0' as int
  }

  /** Resolution is accepted for exactly the numbers 3, 4 and 5. */
  lemma ResolutionAccepted(digits: Value)
    ensures ResolutionCommand(digits).Ok? <==> IsNumber(digits) && Number(digits) in {3.0, 4.0, 5.0}
    ensures digits.IntValue? && 3 <= digits.i <= 5 ==> ResolutionCommand(digits) == Ok("N" + IntToString(digits.i))
    ensures digits.FloatValue? && digits.x in {3.0, 4.0, 5.0} ==> ResolutionCommand(digits) == Ok("N" + digits.repr)
  {
  }

  /** The trigger name is case-insensitive. */
  lemma TriggerIgnoresCase(trigger: string)
    ensures TriggerCommand(trigger) == TriggerCommand(Upper(trigger))
    ensures TriggerCommand(trigger).Ok? <==> Upper(trigger) in {"INTERNAL", "EXTERNAL", "SINGLE"}
  {
    UpperIdempotent(trigger);
  }

  /** The message follows the two-character display code unchanged, and
      only the empty message restores the normal display. */
  lemma DisplayMessageRecovered(msg: string, pauseUpdates: bool)
    ensures var cmd := DisplayCommand(msg, pauseUpdates);
            && |cmd| >= 2 && cmd[2..] == msg
            && (cmd[..2] == "D1" <==> msg == "")
            && (msg != "" ==> cmd[..2] == (if pauseUpdates then "D3" else "D2"))
  {
    var cmd := DisplayCommand(msg, pauseUpdates);
    assert cmd[..2][1] == cmd[1];
  }

  // ------------------------------------------------------ status decoding

  /** One entry of the decoded status: a description, or the byte itself. */
  datatype StatusItem = Text(s: string) | Raw(b: bv8)

  /** The weight of the bit named at `index` in a list of bit names: the
      first name is the top bit. */
  const BitWeights: seq<bv8> := [0x80, 0x40, 0x20, 0x10, 0x08, 0x04, 0x02, 0x01]

  predicate BitSet(byte: bv8, index: int)
    requires 0 <= index < 8
  {
    byte & BitWeights[index] != 0
  }

  /** The table key a bit field holds. */
  function FieldKey(mask: bv8, byte: bv8): int
    requires mask != 0
  {
    FieldValue(mask, byte) as int
  }

  predicate MasksNonZero(fields: seq<(bv8, map<int, string>)>)
  {
    forall i :: 0 <= i < |fields| ==> fields[i].0 != 0
  }

  predicate WellFormed(lookup: Lookup)
  {
    && (lookup.Fields? ==> MasksNonZero(lookup.fields))
    && (lookup.Bits? ==> |lookup.names| <= 8)
  }

  /** Each field of `byte` looked up in its table, in order; a value missing
      from its table is a KeyError. */
  function FieldsOutput(byte: bv8, fields: seq<(bv8, map<int, string>)>): (r: Result<seq<StatusItem>>)
    requires MasksNonZero(fields)
    ensures r.Ok? <==> forall i :: 0 <= i < |fields| ==> FieldKey(fields[i].0, byte) in fields[i].1
    ensures r.Ok? ==> |r.value| == |fields|
                      && forall i :: 0 <= i < |fields| ==> r.value[i] == Text(fields[i].1[FieldKey(fields[i].0, byte)])
    ensures r.Err? ==> r.error == KeyError
    decreases |fields|
  {
    if fields == [] then Ok([])
    else
      var n := |fields| - 1;
      var prev := FieldsOutput(byte, fields[..n]);
      var key := FieldKey(fields[n].0, byte);
      if prev.Err? then prev
      else if key in fields[n].1 then Ok(prev.value + [Text(fields[n].1[key])])
      else Err(KeyError)
  }

  /** The names of the bits set in `byte`. */
  function SetBitNames(byte: bv8, names: seq<string>): set<StatusItem>
    requires |names| <= 8
  {
    set i | 0 <= i < |names| && BitSet(byte, i) :: Text(names[i])
  }

  /** The names of the set bits, in list order: an entry is listed exactly
      when its bit is set. */
  function BitsOutput(byte: bv8, names: seq<string>): (r: seq<StatusItem>)
    requires |names| <= 8
    ensures forall x :: x in r <==> x in SetBitNames(byte, names)
    ensures |r| <= |names|
    decreases |names|
  {
    if names == [] then []
    else
      var n := |names| - 1;
      var prev := BitsOutput(byte, names[..n]);
      var r := prev + (if BitSet(byte, n) then [Text(names[n])] else []);
      assert SetBitNames(byte, names) == SetBitNames(byte, names[..n]) + (if BitSet(byte, n) then {Text(names[n])} else {}) by {
        forall x | x in SetBitNames(byte, names)
          ensures x in SetBitNames(byte, names[..n]) + (if BitSet(byte, n) then {Text(names[n])} else {})
        {
          var i :| 0 <= i < |names| && BitSet(byte, i) && x == Text(names[i]);
          if i < n {
            assert names[..n][i] == names[i];
          }
        }
      }
      r
  }

  /** The source's scan of a bit list from index `i` on: each name, in list
      order, followed by the rest, when its bit is set. */
  function SetBitsFrom(byte: bv8, names: seq<string>, i: nat): seq<StatusItem>
    requires |names| <= 8 && i <= |names|
    decreases |names| - i
  {
    if i == |names| then []
    else (if BitSet(byte, i) then [Text(names[i])] else []) + SetBitsFrom(byte, names, i + 1)
  }

  lemma {:induction false} SetBitsFromSnoc(byte: bv8, names: seq<string>, i: nat)
    requires 0 < |names| <= 8 && i < |names|
    ensures var n := |names| - 1;
      SetBitsFrom(byte, names, i)
      == SetBitsFrom(byte, names[..n], i) + (if BitSet(byte, n) then [Text(names[n])] else [])
    decreases |names| - i
  {
    var n := |names| - 1;
    if i < n {
      SetBitsFromSnoc(byte, names, i + 1);
      SetBitsFromHead(byte, names, i);
    } else {
      assert SetBitsFrom(byte, names, i + 1) == [];
      assert SetBitsFrom(byte, names[..n], i) == [];
    }
  }

  /** Index `i` below the last one reads the same name in `names` and in
      `names` without its last entry. */
  lemma SetBitsFromHead(byte: bv8, names: seq<string>, i: nat)
    requires 0 < |names| <= 8 && i < |names| - 1
    ensures var n := |names| - 1;
      var head: seq<StatusItem> := if BitSet(byte, i) then [Text(names[i])] else [];
      var last: seq<StatusItem> := if BitSet(byte, n) then [Text(names[n])] else [];
      SetBitsFrom(byte, names, i + 1) == SetBitsFrom(byte, names[..n], i + 1) + last ==>
      SetBitsFrom(byte, names, i) == SetBitsFrom(byte, names[..n], i) + last
  {
    var n := |names| - 1;
    assert names[..n][i] == names[i];
  }

  /** `get_status` lists the set bits' names in list order: the output is
      exactly the scan of the whole list. */
  lemma {:induction false} BitsOutputInOrder(byte: bv8, names: seq<string>)
    requires |names| <= 8
    ensures BitsOutput(byte, names) == SetBitsFrom(byte, names, 0)
    decreases |names|
  {
    if names != [] {
      BitsOutputInOrder(byte, names[..|names| - 1]);
      SetBitsFromSnoc(byte, names, 0);
    }
  }

  /** One status byte decoded as its lookup says; only a field lookup can
      fail. */
  function GroupOutput(byte: bv8, lookup: Lookup): (r: Result<seq<StatusItem>>)
    requires WellFormed(lookup)
    ensures r.Err? ==> lookup.Fields? && r.error == KeyError
  {
    match lookup
    case Fields(fields) => FieldsOutput(byte, fields)
    case Bits(names) => Ok(BitsOutput(byte, names))
    case RawByte => Ok([Raw(byte)])
  }

  lemma LookupWellFormed()
    ensures forall i :: 0 <= i < |StatusLookup| ==> WellFormed(StatusLookup[i])
  {
  }

  /** The status bytes decoded one after the other, each by its own lookup;
      decoding fails, with a KeyError, exactly when some byte does. */
  function StatusOutput(raw: seq<bv8>): (r: Result<seq<StatusItem>>)
    requires |raw| <= |StatusLookup|
    ensures (LookupWellFormed();
             r.Ok? <==> forall i :: 0 <= i < |raw| ==> GroupOutput(raw[i], StatusLookup[i]).Ok?)
    ensures r.Err? ==> r.error == KeyError
    decreases |raw|
  {
    LookupWellFormed();
    if raw == [] then Ok([])
    else
      var n := |raw| - 1;
      var prev := StatusOutput(raw[..n]);
      var g := GroupOutput(raw[n], StatusLookup[n]);
      if prev.Err? then prev
      else if g.Err? then g
      else Ok(prev.value + g.value)
  }

  /** At most the first `n` elements. */
  function Take<T>(s: seq<T>, n: nat): (r: seq<T>)
    ensures |r| <= n && r <= s
    ensures |s| <= n ==> r == s
  {
    if |s| <= n then s else s[..n]
  }

  /** One more field, as the decoding loop takes it. */
  lemma FieldsSnoc(byte: bv8, fields: seq<(bv8, map<int, string>)>, i: nat, out: seq<StatusItem>)
    requires MasksNonZero(fields) && i < |fields| && FieldsOutput(byte, fields[..i]) == Ok(out)
    ensures var key := FieldKey(fields[i].0, byte);
      FieldsOutput(byte, fields[..i + 1]) == if key in fields[i].1 then Ok(out + [Text(fields[i].1[key])]) else Err(KeyError)
  {
    assert fields[..i + 1][..i] == fields[..i];
  }

  /** A field whose value is missing from its table fails the decoding. */
  lemma FieldsFail(byte: bv8, fields: seq<(bv8, map<int, string>)>, i: nat)
    requires MasksNonZero(fields) && i < |fields| && FieldKey(fields[i].0, byte) !in fields[i].1
    ensures FieldsOutput(byte, fields) == Err(KeyError)
  {
  }

  /** Decodes the fields of one byte, shifting each out with its mask. */
  method DecodeFields(byte: bv8, fields: seq<(bv8, map<int, string>)>) returns (r: Result<seq<StatusItem>>)
    requires MasksNonZero(fields)
    ensures r == FieldsOutput(byte, fields)
  {
    var out: seq<StatusItem> := [];
    var i := 0;
    while i < |fields|
      invariant 0 <= i <= |fields|
      invariant FieldsOutput(byte, fields[..i]) == Ok(out)
    {
      var (mask, table) := fields[i];
      var v := ShiftByMask(mask, byte);
      var key := v as int;
      assert key == FieldKey(fields[i].0, byte);
      if key !in table {
        FieldsFail(byte, fields, i);
        return Err(KeyError);
      }
      FieldsSnoc(byte, fields, i, out);
      out := out + [Text(table[key])];
      i := i + 1;
    }
    assert fields[..i] == fields;
    r := Ok(out);
  }

  /** Lists the names of the set bits, testing the top bit first. */
  method DecodeBits(byte: bv8, names: seq<string>) returns (r: seq<StatusItem>)
    requires |names| <= 8
    ensures r == BitsOutput(byte, names)
  {
    r := [];
    var i := 0;
    while i < |names|
      invariant 0 <= i <= |names|
      invariant r == BitsOutput(byte, names[..i])
    {
      assert names[..i + 1][..i] == names[..i];
      if byte & BitWeights[i] != 0 {
        r := r + [Text(names[i])];
      }
      i := i + 1;
    }
    assert names[..i] == names;
  }

  method DecodeGroup(byte: bv8, lookup: Lookup) returns (r: Result<seq<StatusItem>>)
    requires WellFormed(lookup)
    ensures r == GroupOutput(byte, lookup)
  {
    match lookup
    case Fields(fields) =>
      r := DecodeFields(byte, fields);
    case Bits(names) =>
      var items := DecodeBits(byte, names);
      r := Ok(items);
    case RawByte =>
      r := Ok([Raw(byte)]);
  }

  /** One more status byte, as the decoding loop takes it. */
  lemma StatusSnoc(raw: seq<bv8>, i: nat, out: seq<StatusItem>)
    requires i < |raw| <= |StatusLookup| && StatusOutput(raw[..i]) == Ok(out)
    requires (LookupWellFormed(); GroupOutput(raw[i], StatusLookup[i]).Ok?)
    ensures (LookupWellFormed(); StatusOutput(raw[..i + 1]) == Ok(out + GroupOutput(raw[i], StatusLookup[i]).value))
  {
    assert raw[..i + 1][..i] == raw[..i];
  }

  /** A byte that fails to decode fails the whole status. */
  lemma StatusFail(raw: seq<bv8>, i: nat)
    requires i < |raw| <= |StatusLookup|
    requires (LookupWellFormed(); GroupOutput(raw[i], StatusLookup[i]).Err?)
    ensures StatusOutput(raw) == Err(KeyError)
  {
  }

  /** Decodes the status bytes one after the other, each with its lookup. */
  method DecodeStatus(raw: seq<bv8>) returns (r: Result<seq<StatusItem>>)
    requires |raw| <= |StatusLookup|
    ensures r == StatusOutput(raw)
  {
    var out: seq<StatusItem> := [];
    var i := 0;
    LookupWellFormed();
    while i < |raw|
      invariant 0 <= i <= |raw|
      invariant StatusOutput(raw[..i]) == Ok(out)
    {
      var g := DecodeGroup(raw[i], StatusLookup[i]);
      if g.Err? {
        StatusFail(raw, i);
        return Err(g.error);
      }
      StatusSnoc(raw, i, out);
      out := out + g.value;
      i := i + 1;
    }
    assert raw[..i] == raw;
    r := Ok(out);
  }

  /** The three fields of the first status byte are its top three bits
      (function), the next three (range) and the low two (digits). */
  lemma FirstByteFields(b: bv8)
    ensures FieldKey(0xE0, b) == (b >> 5) as int
    ensures FieldKey(0x1C, b) == ((b >> 2) & 7) as int
    ensures FieldKey(0x03, b) == (b & 3) as int
  {
    assert TrailingZeros(0xE0) == 5;
    assert TrailingZeros(0x1C) == 2;
    assert TrailingZeros(0x03) == 0;
  }

  /** Each field of the first status byte is a key from 0 to 7. */
  lemma FirstByteKeysInRange(b: bv8)
    ensures 0 <= FieldKey(0xE0, b) <= 7 && 0 <= FieldKey(0x1C, b) <= 7 && 0 <= FieldKey(0x03, b) <= 3
  {
    FirstByteFields(b);
  }

  /** A byte with three fields decodes when each field's key is in its
      table. */
  lemma ThreeFields(b: bv8, fields: seq<(bv8, map<int, string>)>)
    requires |fields| == 3 && MasksNonZero(fields)
    ensures var k0, k1, k2 := FieldKey(fields[0].0, b), FieldKey(fields[1].0, b), FieldKey(fields[2].0, b);
            && (FieldsOutput(b, fields).Ok? <==> k0 in fields[0].1 && k1 in fields[1].1 && k2 in fields[2].1)
            && (FieldsOutput(b, fields).Ok? ==>
                  FieldsOutput(b, fields).value == [Text(fields[0].1[k0]), Text(fields[1].1[k1]), Text(fields[2].1[k2])])
  {
    var out := FieldsOutput(b, fields);
    if out.Ok? {
      assert FieldKey(fields[0].0, b) in fields[0].1;
      assert FieldKey(fields[1].0, b) in fields[1].1;
      assert FieldKey(fields[2].0, b) in fields[2].1;
    } else {
      var i :| 0 <= i < 3 && FieldKey(fields[i].0, b) !in fields[i].1;
      assert i == 0 || i == 1 || i == 2;
    }
  }

  /** The keys of the first byte's tables. */
  lemma FirstByteTableKeys()
    ensures forall k :: 0 <= k <= 7 ==> (k in FunctionNames <==> k != 0) && (k in RangeNames <==> k != 0)
    ensures forall k :: 0 <= k <= 3 ==> (k in DigitNames <==> k != 0)
  {
  }

  /** The first status byte decodes exactly when none of its three fields
      is zero, into the function, the range and the digits, in that order. */
  lemma FirstByteDecoding(b: bv8)
    ensures GroupOutput(b, StatusLookup[0]).Ok? <==> FieldKey(0xE0, b) != 0 && FieldKey(0x1C, b) != 0 && FieldKey(0x03, b) != 0
    ensures GroupOutput(b, StatusLookup[0]).Ok? ==>
              GroupOutput(b, StatusLookup[0]).value ==
                [Text(FunctionNames[FieldKey(0xE0, b)]), Text(RangeNames[FieldKey(0x1C, b)]),
                 Text(DigitNames[FieldKey(0x03, b)])]
  {
    FirstByteKeysInRange(b);
    FirstByteTableKeys();
    var fields := StatusLookup[0].fields;
    assert fields == [(0xE0, FunctionNames), (0x1C, RangeNames), (0x03, DigitNames)];
    ThreeFields(b, fields);
  }

  /** Only the first status byte can make decoding fail: the bit lists and
      the raw byte accept anything. */
  lemma {:induction false} StatusFailsOnlyOnFirstByte(raw: seq<bv8>)
    requires |raw| <= |StatusLookup|
    ensures StatusOutput(raw).Ok? <==> |raw| == 0 || GroupOutput(raw[0], StatusLookup[0]).Ok?
  {
    LookupWellFormed();
    forall i | 1 <= i < |raw|
      ensures GroupOutput(raw[i], StatusLookup[i]).Ok?
    {
      assert !StatusLookup[i].Fields?;
    }
  }

  /** The decoding of the first byte leads the decoded status. */
  lemma {:induction false} StatusStartsWithFirstByte(raw: seq<bv8>)
    requires 1 <= |raw| <= |StatusLookup|
    requires StatusOutput(raw).Ok?
    ensures (LookupWellFormed(); GroupOutput(raw[0], StatusLookup[0]).Ok?)
    ensures (LookupWellFormed(); GroupOutput(raw[0], StatusLookup[0]).value <= StatusOutput(raw).value)
    decreases |raw|
  {
    LookupWellFormed();
    if |raw| > 1 {
      var n := |raw| - 1;
      assert raw[..n][0] == raw[0];
      StatusStartsWithFirstByte(raw[..n]);
    }
  }

  /** A full status ends with the raw DAC byte. */
  lemma FullStatusEndsWithRawByte(raw: seq<bv8>)
    requires |raw| == |StatusLookup|
    requires StatusOutput(raw).Ok?
    ensures var out := StatusOutput(raw).value; |out| > 0 && out[|out| - 1] == Raw(raw[4])
  {
    LookupWellFormed();
    assert GroupOutput(raw[4], StatusLookup[4]) == Ok([Raw(raw[4])]);
  }

  // ---------------------------------------------------------- the adapter

  /** The next reply of the adapter. A missing reply is modelled as an
      IOError. */
  function NextBytes(replies: seq<seq<bv8>>): (r: Result<seq<bv8>>)
    ensures r.Ok? <==> |replies| > 0
    ensures r.Ok? ==> r.value == replies[0]
  {
    if replies == [] then Err(IOError) else Ok(replies[0])
  }

  /** The AR488 adapter: the commands written to it and the replies it
      will give, each a string of bytes. */
  class Ar488 {
    var sent: seq<string>
    var replies: seq<seq<bv8>>

    constructor(replies: seq<seq<bv8>>)
      ensures this.sent == [] && this.replies == replies
    {
      this.sent := [];
      this.replies := replies;
    }

    /** The adapter now shows exactly the effect of `ex`. */
    ghost predicate Performed<T>(sent0: seq<string>, replies0: seq<seq<bv8>>, ex: Exchange<T>)
      reads this
    {
      ex.consumed <= |replies0| && sent == sent0 + ex.sent && replies == replies0[ex.consumed..]
    }

    method Write(message: string)
      modifies this
      ensures sent == old(sent) + [message] && replies == old(replies)
    {
      sent := sent + [message];
    }

    method Read() returns (r: Result<seq<bv8>>)
      modifies this
      ensures r == NextBytes(old(replies))
      ensures sent == old(sent) && replies == if old(replies) == [] then [] else old(replies)[1..]
    {
      if replies == [] {
        r := Err(IOError);
      } else {
        r := Ok(replies[0]);
        replies := replies[1..];
      }
    }
  }

  // ---------------------------------------------------------- exchanges

  /** A command that is written when it could be built, and otherwise
      raised with nothing written. */
  function CommandExchange(cmd: Result<string>): (ex: Exchange<()>)
    ensures ex.consumed == 0
    ensures ex.result.Ok? <==> cmd.Ok?
    ensures ex.sent == if cmd.Ok? then [cmd.value] else []
  {
    if cmd.Ok? then WriteExchange(cmd.value, ()) else Exchange([], 0, Err(cmd.error))
  }

  /** `get_status()`: "B" is written, and the first five bytes of the reply
      are returned with their decoding. */
  function StatusExchange(replies: seq<seq<bv8>>): (ex: Exchange<(seq<bv8>, seq<StatusItem>)>)
    ensures ex.sent == ["B"] && ex.consumed <= 1 && ex.consumed <= |replies|
    ensures ex.result.Ok? ==> |replies| > 0 && ex.result.value.0 == Take(replies[0], 5)
  {
    var data := NextBytes(replies);
    if data.Err? then Exchange(["B"], 0, Err(data.error))
    else
      var raw := Take(data.value, 5);
      var out := StatusOutput(raw);
      Exchange(["B"], 1, if out.Ok? then Ok((raw, out.value)) else Err(out.error))
  }

  /** `get_mode()`: the first decoded status entry; an empty reply leaves
      nothing to take (IndexError). */
  function ModeExchange(replies: seq<seq<bv8>>): (ex: Exchange<StatusItem>)
    ensures ex.sent == ["B"] && ex.consumed <= 1 && ex.consumed <= |replies|
    ensures ex.consumed == 1 <==> |replies| > 0
    ensures ex.result.Err? ==> ex.result.error in {IOError, KeyError, IndexError}
  {
    var st := StatusExchange(replies);
    if st.result.Err? then Exchange(st.sent, st.consumed, Err(st.result.error))
    else if st.result.value.1 == [] then Exchange(st.sent, st.consumed, Err(IndexError))
    else Exchange(st.sent, st.consumed, Ok(st.result.value.1[0]))
  }

  /** The measurements, each allowed only in one mode. */
  datatype MeasureKind = Voltage | VoltageRms | Current | CurrentRms | Resistance

  function ExpectedMode(kind: MeasureKind): (m: string)
    ensures m in ModeCodes
  {
    match kind
    case Voltage => "VDC"
    case VoltageRms => "VAC"
    case Current => "ADC"
    case CurrentRms => "AAC"
    case Resistance => "OHMS"
  }

  /** `measure_*()`: the mode is checked through the status register, and
      only in the expected mode is the reading read; another mode is an
      IOError. The reading is returned as the bytes received. */
  function MeasureExchange(replies: seq<seq<bv8>>, kind: MeasureKind): (ex: Exchange<seq<bv8>>)
    ensures ex.sent == ["B"] && ex.consumed <= |replies|
    ensures ex.result.Ok? ==> ModeExchange(replies).result == Ok(Text(ExpectedMode(kind))) && ex.consumed == 2
  {
    var m := ModeExchange(replies);
    if m.result.Err? then Exchange(m.sent, m.consumed, Err(m.result.error))
    else if m.result.value != Text(ExpectedMode(kind)) then Exchange(m.sent, m.consumed, Err(IOError))
    else
      var d := NextBytes(replies[m.consumed..]);
      Exchange(m.sent, m.consumed + (if d.Ok? then 1 else 0), d)
  }

  /** `get_mode()` reports the function field of the first status byte,
      and fails, reading one reply, when a field of that byte is zero. */
  lemma ModeFromFunctionField(data: seq<bv8>, rest: seq<seq<bv8>>)
    requires |data| >= 1
    ensures var ex := ModeExchange([data] + rest);
            && ex.consumed == 1
            && (ex.result.Ok? <==> FieldKey(0xE0, data[0]) != 0 && FieldKey(0x1C, data[0]) != 0 && FieldKey(0x03, data[0]) != 0)
            && (ex.result.Ok? ==> ex.result.value == Text(FunctionNames[FieldKey(0xE0, data[0])]))
            && (ex.result.Err? ==> ex.result.error == KeyError)
  {
    var raw := Take(data, 5);
    assert raw[0] == data[0];
    assert ([data] + rest)[0] == data;
    FirstByteDecoding(data[0]);
    StatusFailsOnlyOnFirstByte(raw);
    if StatusOutput(raw).Ok? {
      StatusStartsWithFirstByte(raw);
    }
  }

  /** An empty status reply decodes to nothing, so `get_mode()` has no
      entry to return. */
  lemma EmptyStatusHasNoMode(rest: seq<seq<bv8>>)
    ensures ModeExchange([[]] + rest) == Exchange(["B"], 1, Err(IndexError))
  {
    assert ([[]] + rest)[0] == [];
  }

  /** Measuring in the wrong mode raises IOError without reading a
      reading; in the expected mode the next reply is the reading. */
  lemma MeasureGuard(replies: seq<seq<bv8>>, kind: MeasureKind)
    ensures var m := ModeExchange(replies); var ex := MeasureExchange(replies, kind);
            && (m.result != Ok(Text(ExpectedMode(kind))) ==> ex.result.Err? && ex.consumed == m.consumed)
            && (m.result.Ok? && m.result.value != Text(ExpectedMode(kind)) ==> ex.result == Err(IOError))
            && (m.result == Ok(Text(ExpectedMode(kind))) ==>
                  ex.consumed >= 1 && ex.result == NextBytes(replies[1..]))
  {
  }

  /** Setting a mode and reading the status back agree: a status byte whose
      function field carries the digit of the mode's F code reports that
      mode, so the matching measurement goes ahead. */
  lemma SetModeThenMeasure(kind: MeasureKind, b: bv8, data: seq<bv8>, rest: seq<seq<bv8>>)
    requires |data| >= 1 && data[0] == b
    requires FieldKey(0xE0, b) == CodeDigit(ModeCodes[ExpectedMode(kind)][1])
    requires FieldKey(0x1C, b) != 0 && FieldKey(0x03, b) != 0
    ensures ModeExchange([data] + rest).result == Ok(Text(ExpectedMode(kind)))
    ensures MeasureExchange([data] + rest, kind).result == NextBytes(rest)
  {
    var m := ExpectedMode(kind);
    ModeCodeReadBack(m);
    ModeFromFunctionField(data, rest);
    assert ([data] + rest)[1..] == rest;
  }

  // ------------------------------------------------------------ the driver

  class Hp3478a {
    const intf: Ar488
    /** The mode last set; None until `set_mode` succeeds. */
    var currentMode: Option<string>

    constructor(intf: Ar488)
      ensures this.intf == intf && currentMode == None
    {
      this.intf := intf;
      currentMode := None;
    }

    /** Writes the command, or raises its error with nothing written. */
    method Perform(cmd: Result<string>) returns (r: Result<()>)
      modifies intf
      ensures intf.Performed(old(intf.sent), old(intf.replies), CommandExchange(cmd))
      ensures r == CommandExchange(cmd).result
    {
      if cmd.Ok? {
        intf.Write(cmd.value);
        r := Ok(());
      } else {
        r := Err(cmd.error);
      }
    }

    /** `set_mode(mode)`: the mode is remembered for `set_range`. */
    method SetMode(mode: string) returns (r: Result<()>)
      modifies this, intf
      ensures intf.Performed(old(intf.sent), old(intf.replies), CommandExchange(SetModeCommand(mode)))
      ensures r == CommandExchange(SetModeCommand(mode)).result
      ensures currentMode == if r.Ok? then Some(Upper(mode)) else old(currentMode)
    {
      var cmd := SetModeCommand(mode);
      if cmd.Ok? {
        currentMode := Some(Upper(mode));
      }
      r := Perform(cmd);
    }

    method SetResolution(digits: Value) returns (r: Result<()>)
      modifies intf
      ensures intf.Performed(old(intf.sent), old(intf.replies), CommandExchange(ResolutionCommand(digits)))
      ensures r == CommandExchange(ResolutionCommand(digits)).result
    {
      r := Perform(ResolutionCommand(digits));
    }

    method SetTrigger(trigger: string) returns (r: Result<()>)
      modifies intf
      ensures intf.Performed(old(intf.sent), old(intf.replies), CommandExchange(TriggerCommand(trigger)))
      ensures r == CommandExchange(TriggerCommand(trigger)).result
    {
      r := Perform(TriggerCommand(trigger));
    }

    method SetAutozero(enabled: bool)
      modifies intf
      ensures intf.sent == old(intf.sent) + [AutozeroCommand(enabled)] && intf.replies == old(intf.replies)
    {
      intf.Write(AutozeroCommand(enabled));
    }

    method SetDisplay(msg: string, pauseUpdates: bool)
      modifies intf
      ensures intf.sent == old(intf.sent) + [DisplayCommand(msg, pauseUpdates)] && intf.replies == old(intf.replies)
    {
      intf.Write(DisplayCommand(msg, pauseUpdates));
    }

    /** `set_range(max_value)`: the ranges of the current mode are tried in
        order and the first one above the value is written. */
    method SetRange(maxValue: real) returns (r: Result<()>)
      modifies intf
      ensures intf.Performed(old(intf.sent), old(intf.replies), CommandExchange(RangeCommand(currentMode, maxValue)))
      ensures r == CommandExchange(RangeCommand(currentMode, maxValue)).result
    {
      if currentMode.None? {
        return Err(AttributeError);
      }
      if currentMode.value !in Ranges {
        return Err(KeyError);
      }
      var table := Ranges[currentMode.value];
      var i := 0;
      while i < |table|
        invariant 0 <= i <= |table|
        invariant forall j :: 0 <= j < i ==> maxValue >= table[j].0
        invariant intf.sent == old(intf.sent) && intf.replies == old(intf.replies)
      {
        if maxValue < table[i].0 {
          intf.Write(table[i].1);
          return Ok(());
        }
        i := i + 1;
      }
      r := Err(ValueError);
    }

    /** `get_status()`. */
    method GetStatus() returns (r: Result<(seq<bv8>, seq<StatusItem>)>)
      modifies intf
      ensures intf.Performed(old(intf.sent), old(intf.replies), StatusExchange(old(intf.replies)))
      ensures r == StatusExchange(old(intf.replies)).result
    {
      intf.Write("B");
      var data := intf.Read();
      if data.Err? {
        return Err(data.error);
      }
      var raw := Take(data.value, 5);
      var out := DecodeStatus(raw);
      r := if out.Ok? then Ok((raw, out.value)) else Err(out.error);
    }

    /** `get_mode()`. */
    method GetMode() returns (r: Result<StatusItem>)
      modifies intf
      ensures intf.Performed(old(intf.sent), old(intf.replies), ModeExchange(old(intf.replies)))
      ensures r == ModeExchange(old(intf.replies)).result
    {
      var st := GetStatus();
      if st.Err? {
        return Err(st.error);
      }
      if st.value.1 == [] {
        return Err(IndexError);
      }
      r := Ok(st.value.1[0]);
    }

    /** `measure_voltage()`, `measure_voltage_rms()`, `measure_current()`,
        `measure_current_rms()` and `measure_resistance()`. */
    method Measure(kind: MeasureKind) returns (r: Result<seq<bv8>>)
      modifies intf
      ensures intf.Performed(old(intf.sent), old(intf.replies), MeasureExchange(old(intf.replies), kind))
      ensures r == MeasureExchange(old(intf.replies), kind).result
    {
      var mode := GetMode();
      if mode.Err? {
        return Err(mode.error);
      }
      if mode.value != Text(ExpectedMode(kind)) {
        return Err(IOError);
      }
      r := intf.Read();
    }
  }
}
