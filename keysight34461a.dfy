/** The Keysight 34461A driver: an HP 34401A driver (`Hp34401a.Hp34401a`
    built with `KeysightRanges`) with its own range tables and commands for
    the front-panel display and the instrument label. Each display command
    is one write or one query, given here as the exchange it performs. */
module Keysight34461a {
  import opened Common
  import opened Text
  import opened Values
  import opened Visa
  import opened Hp34401a

  /** The range tables that replace the HP 34401A's: a 1000 V range instead
      of 300 V, and two lower current ranges. */
  const KeysightRanges: RangeTables := RangeTables(
    {"AUTO", "MIN", "MAX", "DEF", "0.1", "1", "10", "100", "1000"},
    {"AUTO", "MIN", "MAX", "DEF", "0.0001", "0.001", "0.01", "0.1", "1", "3"},
    {"AUTO", "MIN", "MAX", "DEF", "100", "1E3", "10E3", "100E3", "1E6", "10E6", "100E6"})

  /** Display view names `set_display_mode` accepts. */
  const DisplayModes: set<string> := {"NUM", "HIST", "TCH", "MET"}

  /** `text` between double quotes, as the text commands send it. */
  function Quoted(text: string): string
  {
    "\"" + text + "\""
  }

  /** A query whose reply is returned with every '"' removed:
      `get_display_text` asks "DISP:TEXT?" and `get_label_text` asks
      "SYSTEM:LABEL?". */
  function UnquotedQuery(replies: seq<string>, message: string): (ex: Exchange<string>)
    ensures ex.sent == [message] && ex.consumed <= |replies|
    ensures ex.result.Ok? <==> |replies| > 0
    ensures ex.result.Ok? ==> '"' !in ex.result.value && ex.result.value == RemoveChar(replies[0], '"')
    ensures ex.result.Err? ==> ex.result.error == VisaIOError
  {
    var q := QueryExchange(replies, message);
    Exchange(q.sent, q.consumed, if q.result.Ok? then Ok(RemoveChar(q.result.value, '"')) else q.result)
  }

  /** A text command: `command`, a space and the quoted text, written with
      nothing read. `set_display_text` writes it with "DISP:TEXT" and
      `set_label_text` with "SYSTEM:LABEL"; `clear_display_text` and
      `clear_label_text` write the same commands with the empty text. */
  function TextWrite(command: string, text: string): (ex: Exchange<()>)
    ensures ex.sent == [command + " " + Quoted(text)] && ex.consumed == 0 && ex.result.Ok?
  {
    WriteExchange(command + " " + Quoted(text), ())
  }

  /** `set_display_state(state)`. */
  function SetDisplayState(state: bool): (ex: Exchange<()>)
    ensures |ex.sent| == 1 && ex.consumed == 0 && ex.result.Ok?
    ensures ex.sent[0] == "DISP ON" <==> state
  {
    WriteExchange(if state then "DISP ON" else "DISP OFF", ())
  }

  /** `get_display_state()`: the reply read as an integer, non-zero meaning
      on; a reply that is not an integer is a ValueError. */
  function GetDisplayState(replies: seq<string>): (ex: Exchange<bool>)
    ensures ex.sent == ["DISP?"] && ex.consumed <= |replies|
    ensures ex.result.Ok? <==> |replies| > 0 && ParseInt(replies[0]).Ok?
    ensures ex.result.Err? ==> ex.result.error == (if |replies| > 0 then ValueError else VisaIOError)
  {
    var q := QueryExchange(replies, "DISP?");
    if q.result.Err? then Exchange(q.sent, q.consumed, Err(q.result.error))
    else
      var n := ParseInt(q.result.value);
      Exchange(q.sent, q.consumed, if n.Ok? then Ok(n.value != 0) else Err(n.error))
  }

  /** `set_display_mode(mode)`: a known view, upper-cased, or ValueError
      with nothing written. */
  function SetDisplayMode(mode: string): (ex: Exchange<()>)
    ensures ex.consumed == 0
    ensures ex.result.Ok? <==> Upper(mode) in DisplayModes
    ensures ex.result.Err? ==> ex.sent == [] && ex.result.error == ValueError
  {
    var m := Upper(mode);
    if m in DisplayModes then WriteExchange("DISP:VIEW " + m, ()) else Exchange([], 0, Err(ValueError))
  }

  /** `get_display_mode()`: the reply as it is. */
  function GetDisplayMode(replies: seq<string>): (ex: Exchange<string>)
    ensures ex.sent == ["DISP:VIEW?"] && (ex.result.Ok? <==> |replies| > 0)
    ensures ex.result.Ok? ==> ex.result.value == replies[0]
  {
    QueryExchange(replies, "DISP:VIEW?")
  }

  /** A text without quotes that the meter reports back between quotes, as
      it was sent, reads back unchanged, for the display text and the label
      alike. */
  lemma DisplayTextRoundTrip(command: string, query: string, text: string, rest: seq<string>)
    requires '"' !in text
    ensures TextWrite(command, text).sent == [command + " \"" + text + "\""]
    ensures UnquotedQuery([Quoted(text)] + rest, query).result == Ok(text)
  {
    assert command + " " + Quoted(text) == command + " \"" + text + "\"";
    assert ([Quoted(text)] + rest)[0] == Quoted(text);
    RemoveCharAppend("\"" + text, "\"", '"');
    RemoveCharAppend("\"", text, '"');
    RemoveCharAbsent(text, '"');
    assert RemoveChar("\"", '"') == "";
    assert RemoveChar(Quoted(text), '"') == text;
  }

  /** Clearing sends the empty quoted text, which reads back as "". */
  lemma ClearReadsBackEmpty(command: string, query: string, rest: seq<string>)
    ensures TextWrite(command, "").sent == [command + " \"\""]
    ensures UnquotedQuery([Quoted("")] + rest, query).result == Ok("")
  {
    assert command + " " + Quoted("") == command + " \"\"";
    DisplayTextRoundTrip(command, query, "", rest);
  }

  /** The state written reads back as the same state, and any integer reply
      other than 0 counts as on. */
  lemma DisplayStateRoundTrip(state: bool, reply: string, rest: seq<string>)
    ensures GetDisplayState([if state then "1" else "0"] + rest).result == Ok(state)
    ensures ParseInt(reply).Ok? ==> GetDisplayState([reply] + rest).result == Ok(ParseInt(reply).value != 0)
    ensures ParseInt(reply).Err? ==> GetDisplayState([reply] + rest).result == Err(ValueError)
  {
    IntRoundTrip(if state then 1 else 0);
    assert IntToString(1) == "1" && IntToString(0) == "0";
  }

  /** A view name is accepted in any case exactly when its upper case is one
      of the four views, and it is written upper-cased. */
  lemma DisplayModeAccepted(mode: string)
    ensures SetDisplayMode(mode).result.Ok? <==> Upper(mode) in DisplayModes
    ensures SetDisplayMode(mode).result.Ok? ==> SetDisplayMode(mode).sent == ["DISP:VIEW " + Upper(mode)]
    ensures SetDisplayMode(mode).result.Err? ==> SetDisplayMode(mode).sent == [] && SetDisplayMode(mode).result.error == ValueError
    ensures SetDisplayMode(mode) == SetDisplayMode(Lower(mode))
  {
    assert Upper(Lower(mode)) == Upper(mode);
  }

  /** The overridden tables change the inherited `config`: a 1000 V range
      is kept on the 34461A but falls back to "MAX" on the 34401A, and a
      300 V range the other way round. */
  lemma VoltageRangesDiffer()
    ensures SettledRange(KeysightRanges, "VOLT:DC", StrValue("1000")) == "1000"
    ensures SettledRange(Hp34401aRanges, "VOLT:DC", StrValue("1000")) == "MAX"
    ensures SettledRange(KeysightRanges, "VOLT:DC", StrValue("300")) == "MAX"
    ensures SettledRange(Hp34401aRanges, "VOLT:DC", StrValue("300")) == "300"
  {
    assert Upper("1000") == "1000";
    assert Upper("300") == "300";
  }

  /** As on the 34401A, the ranges listed only for current are never kept,
      so the 100 uA, 1 mA, 10 mA and 3 A ranges cannot be configured. */
  lemma KeysightCurrentOnlyRangesFallBack(fn: string, signalRange: Value)
    requires Upper(Str(signalRange)) in {"0.0001", "0.001", "0.01", "3"}
    ensures SettledRange(KeysightRanges, fn, signalRange) == "MAX"
  {
  }
}
