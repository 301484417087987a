# PythonEquipmentDrivers: a verified Dafny model of its core

PythonEquipmentDrivers drives bench instruments (multimeters, an
oscilloscope) over VISA, GPIB and RS-232, and assembles them into a test
"environment" from a configuration. This project models three parts of it
and proves what they promise:

1. **The base instrument** (`pythonequipmentdrivers/core.py` and
   `pythonequipmentdrivers/__core.py`). Module `Instruments` covers:
   - the process-wide registry of serial sessions that lets several drivers share one RS-232 port;
   - construction with its timeout;
   - equality by address and class name;
   - the go-to-local call of both layouts.
2. **The equipment environment** (`pythonequipmentdrivers/__core.py`). Module `Environment` covers:
   - validating the device mask, then filtering the configuration in place;
   - connecting devices one by one, with a failure policy that depends on the mask;
   - running initialisation sequences through `initiaize_device` and `get_callable_methods`;
   - the `Dmms` group of multimeters with its `fetch_data`, `init`, `reset` and `set_local`.
3. **The drivers.** For each one, the model states which commands a driver writes, which replies it reads, and what it returns or raises:
   - HP 34401A (`Hp34401a`);
   - Keysight 34461A (`Keysight34461a`);
   - HP 3478A behind an AR488 GPIB adapter (`Hp3478a`);
   - Fluke 45 (`Fluke45`);
   - Tektronix DPO4xxx oscilloscope (`Tektronix`).

**The connection and exchanges.** The connection is `Visa.Transport`, a class holding:
- the log of messages written (`sent`);
- the queue of replies the instrument will give (`replies`); a read from an empty queue is the VISA timeout (`VisaIOError`);
- the session `timeout`.

Each driver operation that talks to the instrument is specified by a pure "exchange" function of the reply queue. The exchange gives the messages sent, the number of replies consumed, and the result or error. The driver's method ensures that the connection performs exactly that exchange. Lemmas about the exchange functions state the drivers' behaviour.

**Python values and dictionaries.** Python values that the drivers format or test with `isinstance` are `Values.Value`. Python exceptions are `Common.Error`. Ordered Python dictionaries are sequences of pairs (`Dicts`).

**Standards.** The IEEE 488.2 common commands the drivers send are opaque strings:
- `*TRG`: section 10.37;
- `*OPC?`: section 10.19;
- `*SAV`: section 10.33;
- `*RCL`: section 10.29.

## Model

| member | source | states |
|---|---|---|
| Visa.Transport.Write | pythonequipmentdrivers/core.py:99-114 | a write appends the message to the connection's log and reads nothing |
| Visa.Transport.Read | pythonequipmentdrivers/core.py:116-130 | a read takes the next reply, or fails with the VISA timeout when the instrument has none |
| Visa.Transport.Query | pythonequipmentdrivers/core.py:132-147 | a query is one write followed by one read |
| Visa.QueryExchange | pythonequipmentdrivers/core.py:132-147 | a query sends exactly its message and consumes a reply exactly when it succeeds |
| Instruments.FirstMatch | pythonequipmentdrivers/core.py:85-88 | the entry found is the first registered short form contained in the key; none before it matches, and None means none matches |
| Instruments.ShortForm | pythonequipmentdrivers/core.py:92 | the stored short form is a prefix of the address (the text before "::") |
| Instruments.Registry.Find | pythonequipmentdrivers/core.py:84-88 | the scan over the registry returns the first entry whose short form occurs in the upper-cased address |
| Instruments.Registry.Open | pythonequipmentdrivers/core.py:64-97 | a non-serial address always opens a new session and leaves the registry alone; a serial address reuses the first matching session unchanged; otherwise a new session is opened and appended with its short form; the registry only grows and never holds a session twice |
| Instruments.OwnEntryMatchesIff | pythonequipmentdrivers/core.py:85-86 | a port finds its own entry again exactly when its short form has no lower-case letter ("asrl3::INSTR" is reopened every time) |
| Instruments.MatchAfterAppend | pythonequipmentdrivers/core.py:84-94 | after registering a port, reopening the same address finds an entry iff one existed before or the short form has no lower-case letter |
| Instruments.PrefixPortShadows | pythonequipmentdrivers/core.py:86 | matching is by containment, so an entry "ASRL1" is handed out for "ASRL10::INSTR" |
| Instruments.Connect | pythonequipmentdrivers/core.py:59-62 | construction opens the session as `open_instrument` does (a matching serial session is reused and nothing is registered; otherwise a fresh session with no traffic, registered under its short form when serial; a failed open raises VisaIOError and registers nothing), then sets its timeout to the keyword argument or 1000; every other registered session is unchanged, and no session's traffic changes |
| Instruments.ConnectTwice | pythonequipmentdrivers/core.py:57-93 | two drivers on the same serial port (short form without lower-case letters) share one session, and the timeout set by the second is the one the first sees |
| Instruments.EqReflexive | pythonequipmentdrivers/core.py:232-254 | an instrument equals itself |
| Instruments.EqSymmetric | pythonequipmentdrivers/core.py:232-254 | equality is symmetric |
| Instruments.EqTransitive | pythonequipmentdrivers/core.py:232-254 | equality is transitive |
| Instruments.EqIgnoresHandle | pythonequipmentdrivers/__core.py:236-258 | two instruments are equal iff address and class name agree, whatever their sessions; a non-instrument is never equal |
| Instruments.NeIsNotEq | pythonequipmentdrivers/core.py:256-268 | `__ne__` is the negation of `__eq__` |
| Instruments.SetLocal | pythonequipmentdrivers/core.py:205-211 | `set_local` succeeds iff the bus call succeeds or fails with AttributeError or VisaIOError; any other error propagates unchanged |
| Instruments.SetLocalPrivate | pythonequipmentdrivers/__core.py:209-215 | this layout swallows only AttributeError |
| Instruments.SetLocalLayoutsDiffer | pythonequipmentdrivers/__core.py:209-215 | the two layouts differ exactly on a VisaIOError from the bus call |
| Environment.CallableMethods | pythonequipmentdrivers/__core.py:608-628 | the scan fails iff reading some attribute raises, and then with the error of the first such attribute in `__dir__()` order |
| Environment.CallableMethodsMembers | pythonequipmentdrivers/__core.py:608-628 | when the scan succeeds, a name is offered iff some attribute of that name is callable and the name holds no "__" |
| Environment.ValidSteps | pythonequipmentdrivers/__core.py:654-655 | the steps kept are steps of the sequence that name a callable method |
| Environment.InitCallsValidSteps | pythonequipmentdrivers/__core.py:631-661 | only listed, callable steps are called; a failing sequence fails with the last call's error, which is never a TypeError |
| Environment.InitRunsAllValid | pythonequipmentdrivers/__core.py:654-661 | when no call fails with anything but TypeError, every callable step is called in order and the sequence succeeds |
| Environment.InitializeDevice | pythonequipmentdrivers/__core.py:651-661 | `initiaize_device` scans the attributes first, and a read that raises ends it before any step; otherwise the loop calls exactly the steps, and ends with exactly the outcome, of the specification |
| Environment.SilentScanEndsAttempt | pythonequipmentdrivers/__core.py:575-591 | a device whose attribute scan raises VisaIOError (an unanswered "*IDN?") makes no init call; under a mask the loop ends with ConnectionError, without one the device is skipped |
| Environment.MaskedMembers | pythonequipmentdrivers/__core.py:538-542 | the filtered configuration keeps exactly the entries whose name is in the mask |
| Environment.MaskedKeys | pythonequipmentdrivers/__core.py:516-542 | when the mask is a subset of the names, the filtered configuration's names are exactly the mask |
| Environment.MaskedDistinct | pythonequipmentdrivers/__core.py:538-542 | filtering keeps the names distinct |
| Environment.Configuration.KeepOnly | pythonequipmentdrivers/__core.py:538-542 | popping every unmasked name in place leaves exactly the masked entries, in order |
| Environment.Configuration.Pop | pythonequipmentdrivers/__core.py:542 | `pop` removes the named entry and keeps the others in order |
| Environment.RemoveAbsent | pythonequipmentdrivers/__core.py:542 | popping a missing name changes nothing |
| Environment.RunAttempted | pythonequipmentdrivers/__core.py:552-602 | devices are tried in configuration order, each at most once; the loop ends early only on an error |
| Environment.RunSkips | pythonequipmentdrivers/__core.py:582-602 | every device tried before the last one got through: it connected, or failed in a caught way while no mask was set |
| Environment.RunStops | pythonequipmentdrivers/__core.py:582-602 | when the loop stops, the error comes from the last device tried: ConnectionError for a caught error under a mask, the error itself otherwise |
| Environment.AbortOnlyUnderMask | pythonequipmentdrivers/__core.py:582-602 | a device ends the loop iff it fails and either a mask is set or the error is not one the loop catches |
| Environment.RunBound | pythonequipmentdrivers/__core.py:566-568 | the attributes bound are exactly the tried devices whose construction succeeded, in order; earlier ones stay bound when a later one aborts |
| Environment.ConnectedKeys | pythonequipmentdrivers/__core.py:568 | only configured names are bound |
| Environment.RunGroup | pythonequipmentdrivers/__core.py:569-571 | the multimeter group holds the connected multimeters under their names with "DMM" removed; a later one replaces an earlier one of the same group name |
| Environment.RunStaysFailed | pythonequipmentdrivers/__core.py:582-602 | once an error has ended the loop, later entries change nothing |
| Environment.AttemptDevice | pythonequipmentdrivers/__core.py:554-602 | one pass of the loop body, with its `except` clauses, does what the specification of one attempt says |
| Environment.EnvironmentSetup.Setup | pythonequipmentdrivers/__core.py:494-530 | an unsupported source raises ValueError; a mask naming a missing device raises IOError before any connection; otherwise the configuration is filtered in place (the caller's own dictionary) and connected as specified |
| Environment.EnvironmentSetup.MakeConnections | pythonequipmentdrivers/__core.py:549-605 | the bound devices, the names tried and the outcome are those of the specification; the `dmms` group exists iff the loop completed and found a multimeter |
| Environment.FetchedKeys | pythonequipmentdrivers/__core.py:373-382 | the readings are keyed exactly by the new names of the members: the mapped name, else the member's own name unless only mapped members are wanted |
| Environment.FetchedSkipsUnmapped | pythonequipmentdrivers/__core.py:376-378 | with `only_mapped`, unmapped members are never fetched, so their errors cannot surface |
| Environment.FetchedByName | pythonequipmentdrivers/__core.py:373-382 | without a mapper, every member's reading is stored under its own name, in member order |
| Environment.FetchedStaysFailed | pythonequipmentdrivers/__core.py:375-381 | the first failing fetch is the outcome; later members are not fetched |
| Environment.Dmms.FetchData | pythonequipmentdrivers/__core.py:359-382 | the loop of `fetch_data` returns exactly the readings dictionary of the specification |
| Environment.FanOutOutcome | pythonequipmentdrivers/__core.py:384-412 | members are called in order until the first error that is not swallowed, which becomes the outcome; without one, every member is called |
| Environment.FanOutStaysFailed | pythonequipmentdrivers/__core.py:390-412 | after an error escapes, no further member is called |
| Environment.Each | pythonequipmentdrivers/__core.py:390-412 | the loop shared by `init`, `reset` and `set_local` calls exactly the members, and ends with exactly the outcome, of the specification |
| Environment.Dmms.Init | pythonequipmentdrivers/__core.py:384-394 | `init` ignores AttributeError only |
| Environment.Dmms.Propagate | pythonequipmentdrivers/__core.py:396-403 | `reset`, and `set_local` at lines 405-412, call every member in order and let every error through |
| Environment.Attempt | pythonequipmentdrivers/__core.py:554-602 | one pass of the loop body adds the device to those tried; after a clean run so far its outcome is that of the error escaping construction or init: none passes, a caught one passes without a mask and ends the loop with ConnectionError under one, any other ends it unchanged |
| Environment.Run | pythonequipmentdrivers/__core.py:552-602 | the loop tries at most one device per entry; it completes only after trying every entry, and an error ends it only after some device was tried |
| Hp34401a.SetModeCommand | src/pythonequipmentdrivers/multimeter/_hp_34401a.py:127-131 | a mode is accepted iff its upper case is a listed mode; the command is "CONF:" plus its function; otherwise ValueError |
| Hp34401a.SetModeIgnoresCase | src/pythonequipmentdrivers/multimeter/_hp_34401a.py:127 | the mode name is case-insensitive |
| Hp34401a.SetModeFunctionsAreConfigurable | src/pythonequipmentdrivers/multimeter/_hp_34401a.py:27-47 | every mode `set_mode` accepts is also accepted by `config` |
| Hp34401a.RangeStepSettles | src/pythonequipmentdrivers/multimeter/_hp_34401a.py:518-533 | the range step keeps a requested range only when the tables allow it for the function, and otherwise uses "MAX" |
| Hp34401a.ConfigFailsOnlyOnBadArgument | src/pythonequipmentdrivers/multimeter/_hp_34401a.py:503-538 | `config` fails iff the mode, the coupling or the nplc value is not in its table, always with ValueError; the range never makes it fail |
| Hp34401a.ConfigFirstCommand | src/pythonequipmentdrivers/multimeter/_hp_34401a.py:540-547 | the first command is "CONF:" with function, coupling, settled range and, when given, the resolution; the bare "CONF:" branch is unreachable |
| Hp34401a.ConfigSecondCommand | src/pythonequipmentdrivers/multimeter/_hp_34401a.py:549-554 | without a resolution every function but frequency gets a second "SENS:...:NPLC" command; otherwise the CONF command is all |
| Hp34401a.ConfigAutoMeansMax | src/pythonequipmentdrivers/multimeter/_hp_34401a.py:518-520 | "auto" in any case configures the maximum range, not autoranging |
| Hp34401a.CurrentOnlyRangesFallBack | src/pythonequipmentdrivers/multimeter/_hp_34401a.py:522-533 | ranges listed only for current (0.01 and 3) are never kept, because the range checks form one if/elif chain |
| Hp34401a.CouplingRepeated | src/pythonequipmentdrivers/multimeter/_hp_34401a.py:506-515 | a mode that already carries its coupling gets it again ("ADC" with "dc" configures "CURR:DC:DC") |
| Hp34401a.Hp34401a.Config | src/pythonequipmentdrivers/multimeter/_hp_34401a.py:473-559 | `config` writes exactly the command list of the specification, in order, or nothing when it raises |
| Hp34401a.RespFormat | src/pythonequipmentdrivers/multimeter/_hp_34401a.py:573-586 | a list result always has at least two fields |
| Hp34401a.RespFormatPlain | src/pythonequipmentdrivers/multimeter/_hp_34401a.py:577-586 | a reply without '@' parses back to the fields it joins |
| Hp34401a.RespFormatWithHeader | src/pythonequipmentdrivers/multimeter/_hp_34401a.py:573-586 | with an '@' header, the header and the final character are dropped and the fields come back |
| Hp34401a.DelayAccepted | src/pythonequipmentdrivers/multimeter/_hp_34401a.py:206-214 | a delay is accepted iff it is a keyword in any case or a number; a keyword is sent upper-cased |
| Hp34401a.CountAcceptsAnyInt | src/pythonequipmentdrivers/multimeter/_hp_34401a.py:263-278 | every int is accepted as a count, whatever its value, as are the keywords in any case; anything else is ValueError |
| Hp34401a.CountOutOfRangeAccepted | src/pythonequipmentdrivers/multimeter/_hp_34401a.py:267-276 | 0 and 50001 are accepted: the [1, 50000] check cannot reject anything |
| Hp34401a.TriggerSource | src/pythonequipmentdrivers/multimeter/_hp_34401a.py:235-239 | a source name is accepted iff its upper case is listed, and maps to a listed source; otherwise ValueError |
| Hp34401a.Optional | src/pythonequipmentdrivers/multimeter/_hp_34401a.py:177-184 | a setting that is not given sends nothing; a given one sends its command or raises its error |
| Hp34401a.SetTriggerSucceedsIff | src/pythonequipmentdrivers/multimeter/_hp_34401a.py:156-186 | `set_trigger` succeeds iff the source name and every given delay and count are valid |
| Hp34401a.SetTriggerSourceLast | src/pythonequipmentdrivers/multimeter/_hp_34401a.py:177-186 | a successful `set_trigger` sends one command per given setting, with the source command last |
| Hp34401a.SetTriggerFailsWithoutSource | src/pythonequipmentdrivers/multimeter/_hp_34401a.py:177-186 | a failing `set_trigger` never sends the source command |
| Hp34401a.SettingIsNotSource | src/pythonequipmentdrivers/multimeter/_hp_34401a.py:196-278 | slope, delay and count commands never start like the source command |
| Hp34401a.Hp34401a.SetTriggerSource | src/pythonequipmentdrivers/multimeter/_hp_34401a.py:225-240 | a valid name sets the trigger mode, then writes it; an invalid one leaves the mode and the bus untouched |
| Hp34401a.Hp34401a.SetTrigger | src/pythonequipmentdrivers/multimeter/_hp_34401a.py:156-186 | `set_trigger` performs exactly the specified writes and leaves the new trigger mode only on success |
| Hp34401a.DecodeSource | src/pythonequipmentdrivers/multimeter/_hp_34401a.py:250-254 | a decoded source is always one of the listed sources |
| Hp34401a.SourceReadBack | src/pythonequipmentdrivers/multimeter/_hp_34401a.py:235-254 | reading a source name back gives what setting that name would set |
| Hp34401a.SourceListRejected | src/pythonequipmentdrivers/multimeter/_hp_34401a.py:251-253 | a reply with a comma parses to a list, which cannot be a dictionary key (TypeError) |
| Hp34401a.Hp34401a.GetTriggerSource | src/pythonequipmentdrivers/multimeter/_hp_34401a.py:242-254 | the decoded source becomes the trigger mode |
| Hp34401a.Hp34401a.Trigger | src/pythonequipmentdrivers/multimeter/_hp_34401a.py:450-456 | "*TRG" is sent iff the trigger mode is BUS |
| Hp34401a.BusSourceEnablesTrigger | src/pythonequipmentdrivers/multimeter/_hp_34401a.py:235-254 | selecting BUS in any case, or reading "BUS" back, is what enables `trigger` |
| Hp34401a.GetModeExchange | src/pythonequipmentdrivers/multimeter/_hp_34401a.py:143-144 | `get_mode` sends "FUNC?" and returns the reply without any '"' |
| Hp34401a.MeasureGuard | src/pythonequipmentdrivers/multimeter/_hp_34401a.py:314-316 | in the wrong mode a measurement raises IOError after "FUNC?" alone: no range or MEAS query |
| Hp34401a.MeasureInMode | src/pythonequipmentdrivers/multimeter/_hp_34401a.py:296-300 | in the right mode the reading is the fourth reply, and the MEAS query names the range iff autorange is off |
| Hp34401a.QuotedModeAccepted | src/pythonequipmentdrivers/multimeter/_hp_34401a.py:144 | the quotes around the reported mode do not matter |
| Hp34401a.Hp34401a.Measure | src/pythonequipmentdrivers/multimeter/_hp_34401a.py:302-402 | each `measure_*` performs exactly the mode check and ranged measurement of the specification |
| Hp34401a.Hp34401a.MeasureWithCurrentRange | src/pythonequipmentdrivers/multimeter/_hp_34401a.py:284-300 | the range query, the autorange query and the MEAS query, as specified |
| Hp34401a.ConfigCommands | src/pythonequipmentdrivers/multimeter/_hp_34401a.py:473-559 | `config` either raises ValueError before writing anything, or writes one or two commands |
| Hp34401a.DelayCommand | src/pythonequipmentdrivers/multimeter/_hp_34401a.py:198-214 | a refused delay raises ValueError, the only error it can raise |
| Hp34401a.CountCommand | src/pythonequipmentdrivers/multimeter/_hp_34401a.py:256-278 | a refused count raises ValueError, the only error it can raise |
| Hp34401a.GetSourceExchange | src/pythonequipmentdrivers/multimeter/_hp_34401a.py:242-254 | `get_trigger_source` sends "TRIG:SOUR?" and returns a listed trigger mode, or fails with a timeout, TypeError (a list reply) or KeyError (an unknown name) |
| Hp34401a.RangedMeasureExchange | src/pythonequipmentdrivers/multimeter/_hp_34401a.py:284-300 | the range query comes first; a reading is the third reply, after exactly three queries |
| Hp34401a.MeasureExchange | src/pythonequipmentdrivers/multimeter/_hp_34401a.py:302-402 | a measurement starts with "FUNC?" and returns a reading only when the reported mode is the expected one, after four queries |
| Hp34401a.Hp34401a.SetMode | src/pythonequipmentdrivers/multimeter/_hp_34401a.py:113-131 | `set_mode` writes the CONF command for a listed mode, or raises ValueError with nothing written; replies and timeout are untouched |
| Hp34401a.Hp34401a.GetMode | src/pythonequipmentdrivers/multimeter/_hp_34401a.py:133-144 | `get_mode` performs exactly the "FUNC?" exchange and returns its unquoted reply |
| Hp34401a.Hp34401a.SetTriggerSlope | src/pythonequipmentdrivers/multimeter/_hp_34401a.py:188-196 | the slope is written as given, with no check |
| Hp34401a.Hp34401a.SetTriggerDelay | src/pythonequipmentdrivers/multimeter/_hp_34401a.py:198-214 | a valid delay is written; an invalid one raises ValueError with nothing written |
| Hp34401a.Hp34401a.SetTriggerCount | src/pythonequipmentdrivers/multimeter/_hp_34401a.py:256-278 | a valid count is written; anything else raises ValueError with nothing written |
| Hp34401a.Hp34401a.ApplySettings | src/pythonequipmentdrivers/multimeter/_hp_34401a.py:177-184 | slope, delay and count are written in that order, each only when given, stopping at the first invalid one |
| Keysight34461a.DisplayTextRoundTrip | src/pythonequipmentdrivers/multimeter/_keysight_34461a.py:55-60 | for the display text, and the label at lines 87-92 alike, the command and the quoted text are written, and a text without quotes that the meter echoes between quotes reads back unchanged |
| Keysight34461a.ClearReadsBackEmpty | src/pythonequipmentdrivers/multimeter/_keysight_34461a.py:62-63 | clearing writes the command with the empty quoted text `""`, which reads back as ""; likewise `clear_label_text` at lines 94-95 |
| Keysight34461a.DisplayStateRoundTrip | src/pythonequipmentdrivers/multimeter/_keysight_34461a.py:65-73 | the state written reads back the same; any non-zero integer reply is on; a non-integer reply is ValueError |
| Keysight34461a.DisplayModeAccepted | src/pythonequipmentdrivers/multimeter/_keysight_34461a.py:75-81 | a view name is accepted in any case iff its upper case is one of the four views and is written upper-cased; otherwise ValueError with nothing written |
| Keysight34461a.UnquotedQuery | src/pythonequipmentdrivers/multimeter/_keysight_34461a.py:58-60 | `get_display_text` asks "DISP:TEXT?" (and `get_label_text` at lines 90-92 asks "SYSTEM:LABEL?"): answered, the reply with every '"' removed; unanswered, a timeout |
| Keysight34461a.VoltageRangesDiffer | src/pythonequipmentdrivers/multimeter/_keysight_34461a.py:26 | the overridden tables keep 1000 V but not 300 V, the reverse of the HP 34401A |
| Keysight34461a.KeysightCurrentOnlyRangesFallBack | src/pythonequipmentdrivers/multimeter/_keysight_34461a.py:28-39 | the 100 uA, 1 mA, 10 mA and 3 A ranges cannot be configured |
| Keysight34461a.TextWrite | src/pythonequipmentdrivers/multimeter/_keysight_34461a.py:55-56 | one write of the command, a space and the quoted text; nothing is read and it cannot fail (`set_label_text` at lines 87-88 is the same with "SYSTEM:LABEL") |
| Keysight34461a.SetDisplayState | src/pythonequipmentdrivers/multimeter/_keysight_34461a.py:65-69 | one write, "DISP ON" exactly when the state is true |
| Keysight34461a.GetDisplayState | src/pythonequipmentdrivers/multimeter/_keysight_34461a.py:71-73 | succeeds iff a reply comes and reads as an integer; a reply that does not is ValueError, no reply a timeout |
| Keysight34461a.SetDisplayMode | src/pythonequipmentdrivers/multimeter/_keysight_34461a.py:75-81 | accepted iff the upper-cased view is one of the four; otherwise ValueError with nothing written |
| Keysight34461a.GetDisplayMode | src/pythonequipmentdrivers/multimeter/_keysight_34461a.py:83-85 | "DISP:VIEW?" answered gives the reply unchanged |
| Hp3478a.ShiftByMask | pythonequipmentdrivers/multimeter/HP_3478A_AR488.py:164-170 | the shifting loop returns the field of the value under the mask, moved down to bit 0 |
| Hp3478a.ShiftedDownIsField | pythonequipmentdrivers/multimeter/HP_3478A_AR488.py:164-170 | shifting mask and value down one bit at a time until the mask's lowest bit is set yields the bits under the mask moved down to bit 0 |
| Hp3478a.TrailingZerosIsLowest | pythonequipmentdrivers/multimeter/HP_3478A_AR488.py:166-168 | the loop stops at the mask's lowest set bit |
| Hp3478a.FieldWithinMask | pythonequipmentdrivers/multimeter/HP_3478A_AR488.py:169 | the field is at most the shifted mask |
| Hp3478a.FieldRoundTrip | pythonequipmentdrivers/multimeter/HP_3478A_AR488.py:164-170 | a field placed under the mask, with any other bits outside it, is extracted unchanged |
| Hp3478a.SetModeCommand | pythonequipmentdrivers/multimeter/HP_3478A_AR488.py:84-89 | a mode is accepted iff its upper case is listed, and writes its F code; otherwise ValueError |
| Hp3478a.SetModeIgnoresCase | pythonequipmentdrivers/multimeter/HP_3478A_AR488.py:84-85 | mode names are case-insensitive, and exactly VDC, VAC, ADC, AAC and OHMS are accepted |
| Hp3478a.Hp3478a.SetMode | pythonequipmentdrivers/multimeter/HP_3478A_AR488.py:73-90 | a valid mode becomes the current mode and its code is written; an invalid one leaves both untouched |
| Hp3478a.ResolutionAccepted | pythonequipmentdrivers/multimeter/HP_3478A_AR488.py:102-105 | exactly the numbers 3, 4 and 5 are accepted, an int is written as "N" and the digit; an equal float as "N" and its repr |
| Hp3478a.TriggerIgnoresCase | pythonequipmentdrivers/multimeter/HP_3478A_AR488.py:116-120 | trigger names are case-insensitive, and exactly INTERNAL, EXTERNAL and SINGLE are accepted |
| Hp3478a.DisplayMessageRecovered | pythonequipmentdrivers/multimeter/HP_3478A_AR488.py:156-162 | the message follows the display code unchanged; "D1" is sent iff the message is empty; "D3" iff the message is non-empty and updates are paused |
| Hp3478a.FirstAbove | pythonequipmentdrivers/multimeter/HP_3478A_AR488.py:129-131 | the range chosen is the first whose limit is above the value; None iff none is |
| Hp3478a.RangesAscending | pythonequipmentdrivers/multimeter/HP_3478A_AR488.py:11-19 | every range table ascends |
| Hp3478a.RangeSelection | pythonequipmentdrivers/multimeter/HP_3478A_AR488.py:122-133 | `set_range` raises ValueError iff the value reaches the top range; otherwise it selects the smallest range above the value |
| Hp3478a.Hp3478a.SetRange | pythonequipmentdrivers/multimeter/HP_3478A_AR488.py:122-133 | the range command of the current mode is written, or the error raised with nothing written |
| Hp3478a.ModeCodeReadBack | pythonequipmentdrivers/multimeter/HP_3478A_AR488.py:6-10 | the function code each mode writes is the one the status byte reports for it |
| Hp3478a.FieldsOutput | pythonequipmentdrivers/multimeter/HP_3478A_AR488.py:193-196 | the fields of a byte decode iff every field value is in its table, one entry per field; otherwise KeyError |
| Hp3478a.BitsOutput | pythonequipmentdrivers/multimeter/HP_3478A_AR488.py:197-200 | a bit name is output iff its bit (counted from the top) is set |
| Hp3478a.BitsOutputInOrder | pythonequipmentdrivers/multimeter/HP_3478A_AR488.py:191-199 | the names are output in list order: the output is exactly the front-to-back scan that keeps each name whose bit is set |
| Hp3478a.StatusOutput | pythonequipmentdrivers/multimeter/HP_3478A_AR488.py:187-203 | decoding fails only with KeyError |
| Hp3478a.DecodeStatus | pythonequipmentdrivers/multimeter/HP_3478A_AR488.py:189-203 | the decoding loop builds exactly the specified output list |
| Hp3478a.FirstByteDecoding | pythonequipmentdrivers/multimeter/HP_3478A_AR488.py:22-32 | the first byte decodes iff none of its three fields is zero, into function, range and digits |
| Hp3478a.StatusFailsOnlyOnFirstByte | pythonequipmentdrivers/multimeter/HP_3478A_AR488.py:190-202 | the status decodes iff the first byte does; the other bytes always decode |
| Hp3478a.StatusStartsWithFirstByte | pythonequipmentdrivers/multimeter/HP_3478A_AR488.py:190-202 | the decoded status starts with the first byte's entries |
| Hp3478a.FullStatusEndsWithRawByte | pythonequipmentdrivers/multimeter/HP_3478A_AR488.py:201-202 | with all five bytes, the last entry is the fifth byte itself (the field named at line 39) |
| Hp3478a.StatusExchange | pythonequipmentdrivers/multimeter/HP_3478A_AR488.py:186-187 | `get_status` sends "B" and returns at most the first five bytes of the reply |
| Hp3478a.ModeFromFunctionField | pythonequipmentdrivers/multimeter/HP_3478A_AR488.py:69-71 | `get_mode` reports the function field of the first status byte, and raises KeyError when a field of that byte is zero |
| Hp3478a.EmptyStatusHasNoMode | pythonequipmentdrivers/multimeter/HP_3478A_AR488.py:71 | an empty status reply leaves nothing to take (IndexError) |
| Hp3478a.MeasureGuard | pythonequipmentdrivers/multimeter/HP_3478A_AR488.py:228-231 | in the wrong mode a measurement raises IOError and reads no reading; in the expected mode the next reply is the reading |
| Hp3478a.SetModeThenMeasure | pythonequipmentdrivers/multimeter/HP_3478A_AR488.py:216-231 | a status byte reporting the mode's F code (set by lines 73-90) lets the matching measurement go ahead |
| Hp3478a.Hp3478a.Measure | pythonequipmentdrivers/multimeter/HP_3478A_AR488.py:205-299 | each `measure_*` performs exactly the specified status check and read |
| Hp3478a.ResolutionCommand | pythonequipmentdrivers/multimeter/HP_3478A_AR488.py:92-105 | a refused resolution raises ValueError, the only error it can raise |
| Hp3478a.TriggerCommand | pythonequipmentdrivers/multimeter/HP_3478A_AR488.py:107-120 | a refused trigger name raises ValueError, the only error it can raise |
| Hp3478a.RangeCommand | pythonequipmentdrivers/multimeter/HP_3478A_AR488.py:122-133 | AttributeError before any mode is set, KeyError for a mode without ranges; a range written is one of the current mode's whose limit is above the value |
| Hp3478a.NextBytes | pythonequipmentdrivers/multimeter/HP_3478A_AR488.py:187 | the adapter's next reply, or IOError when none comes |
| Hp3478a.CommandExchange | pythonequipmentdrivers/multimeter/HP_3478A_AR488.py:84-90 | a command is written exactly when it could be built; nothing is read |
| Hp3478a.ModeExchange | pythonequipmentdrivers/multimeter/HP_3478A_AR488.py:69-71 | `get_mode` writes "B", reads one reply when there is one, and fails only with IOError, KeyError or IndexError |
| Hp3478a.MeasureExchange | pythonequipmentdrivers/multimeter/HP_3478A_AR488.py:205-231 | a reading is returned only when the mode read from the status is the expected one, after two replies |
| Hp3478a.Ar488.Write | pythonequipmentdrivers/multimeter/HP_3478A_AR488.py:186 | a write is recorded and reads nothing |
| Hp3478a.Ar488.Read | pythonequipmentdrivers/multimeter/HP_3478A_AR488.py:187 | a read takes the next reply, or gives IOError with nothing consumed |
| Hp3478a.Hp3478a.Perform | pythonequipmentdrivers/multimeter/HP_3478A_AR488.py:84-120 | writes a valid command, or raises its error with nothing written |
| Hp3478a.Hp3478a.SetResolution | pythonequipmentdrivers/multimeter/HP_3478A_AR488.py:92-105 | performs exactly the resolution command's exchange |
| Hp3478a.Hp3478a.SetTrigger | pythonequipmentdrivers/multimeter/HP_3478A_AR488.py:107-120 | performs exactly the trigger command's exchange |
| Hp3478a.Hp3478a.SetAutozero | pythonequipmentdrivers/multimeter/HP_3478A_AR488.py:135-144 | writes "Z1" or "Z0" and reads nothing |
| Hp3478a.Hp3478a.SetDisplay | pythonequipmentdrivers/multimeter/HP_3478A_AR488.py:146-162 | writes the display command and reads nothing |
| Hp3478a.Hp3478a.GetStatus | pythonequipmentdrivers/multimeter/HP_3478A_AR488.py:172-203 | performs exactly the status exchange: "B", one reply, the decoding of its first five bytes |
| Hp3478a.Hp3478a.GetMode | pythonequipmentdrivers/multimeter/HP_3478A_AR488.py:69-71 | performs exactly the mode exchange |
| Fluke45.FindRateGroup | pythonequipmentdrivers/multimeter/Fluke_45.py:146-148 | the rate group found lists the rate; None iff no group does |
| Fluke45.SelectEntries | pythonequipmentdrivers/multimeter/Fluke_45.py:143-148 | None iff no mode group listing the mode has a group for the rate |
| Fluke45.FirstNumbered | pythonequipmentdrivers/multimeter/Fluke_45.py:152-153 | the reverse lookup finds the first entry with the range number; None iff there is none |
| Fluke45.RangeTableWellFormed | pythonequipmentdrivers/multimeter/Fluke_45.py:26-45 | every table group has ascending limits numbered 1, 2, 3, ... |
| Fluke45.RangeRoundTrip | pythonequipmentdrivers/multimeter/Fluke_45.py:140-154 | the limit of the range chosen for a value is above the value, and every smaller range's limit is not |
| Fluke45.OhmsHasNoRangeTable | pythonequipmentdrivers/multimeter/Fluke_45.py:35-51 | `set_mode` names resistance "OHMS" but the table says "OHM", so in that mode no table applies |
| Fluke45.TopResistanceRangeIsSeven | pythonequipmentdrivers/multimeter/Fluke_45.py:38-39 | the table selects range 7 for 10 to 100 MOhm at the slow rate, which `set_range` refuses (line 177) |
| Fluke45.TriggerSourceCommand | pythonequipmentdrivers/multimeter/Fluke_45.py:369-370 | "TRIGGER 2" iff "ext" occurs in the lower-cased name, "TRIGGER 1" otherwise |
| Fluke45.WriteAck | pythonequipmentdrivers/multimeter/Fluke_45.py:76-83 | on serial one prompt line is read after a write and ignored; without one the read times out |
| Fluke45.PromptIgnored | pythonequipmentdrivers/multimeter/Fluke_45.py:76-104 | whatever the prompt says, a command succeeds and a query returns its reply |
| Fluke45.PlainWhenNotSerial | pythonequipmentdrivers/multimeter/Fluke_45.py:76-104 | not on serial, writes and queries are the plain ones |
| Fluke45.Fluke45.constructor | pythonequipmentdrivers/multimeter/Fluke_45.py:53-59 | the session is serial iff "asrl" occurs in the lower-cased address |
| Fluke45.ModeAndRateAccepted | pythonequipmentdrivers/multimeter/Fluke_45.py:207-243 | `set_mode` and `set_rate` accept exactly their names, in any case |
| Fluke45.RateCommand | pythonequipmentdrivers/multimeter/Fluke_45.py:207-211 | "RATE " with the upper-cased rate, or ValueError |
| Fluke45.ModeCommand | pythonequipmentdrivers/multimeter/Fluke_45.py:238-243 | the upper-cased mode itself, or ValueError |
| Fluke45.AutoRangeThenRaises | pythonequipmentdrivers/multimeter/Fluke_45.py:173-180 | with autoranging and no range number, "AUTO" is written (on serial with its prompt read) and then ValueError is raised; on serial without a prompt the read raises VisaIOError |
| Fluke45.RangeNumberOutOfBounds | pythonequipmentdrivers/multimeter/Fluke_45.py:177-180 | a range number outside 0..6 is refused with nothing written |
| Fluke45.SetRangeFromValue | pythonequipmentdrivers/multimeter/Fluke_45.py:140-178 | on either path, a looked-up range is written as "RANGE n" after the mode and rate queries, and a number outside 0..6 raises ValueError after them; on serial each exchange also reads its prompt |
| Fluke45.RStripNoLineEnd | pythonequipmentdrivers/multimeter/Fluke_45.py:223 | stripping leaves a reply without line endings unchanged (the same strip at line 257) |
| Fluke45.ConfigStopsAtFirstFailure | pythonequipmentdrivers/multimeter/Fluke_45.py:400-402 | on both paths: a failing mode sends nothing, a mode write whose prompt never comes sends only the mode, and a failing range leaves the rate unsent |
| Fluke45.MeasureGuard | pythonequipmentdrivers/multimeter/Fluke_45.py:259-359 | on either path, in the wrong mode a measurement raises IOError without asking for a reading; in the right one it returns the reply to "VAL?"; on serial each query also reads its prompt |
| Fluke45.Fluke45.SetRange | pythonequipmentdrivers/multimeter/Fluke_45.py:156-180 | `set_range` performs exactly the specified queries and writes |
| Fluke45.Fluke45.GetRange | pythonequipmentdrivers/multimeter/Fluke_45.py:182-194 | `get_range` reads the range number, then looks up its limit |
| Fluke45.Fluke45.SetLocal | pythonequipmentdrivers/multimeter/Fluke_45.py:127-138 | "LOCS" on serial, the base class's go-to-local otherwise |
| Fluke45.Fluke45.Trigger | pythonequipmentdrivers/multimeter/Fluke_45.py:372-378 | "*TRG" goes straight to the session, so no prompt is read |
| Fluke45.Fluke45.Config | pythonequipmentdrivers/multimeter/Fluke_45.py:380-402 | mode, range and rate, in that order, as specified |
| Fluke45.ModeQuery | pythonequipmentdrivers/multimeter/Fluke_45.py:246-257 | `get_mode` sends "FUNC1?" and reads at most the reply and its prompt |
| Fluke45.StrippedQuery | pythonequipmentdrivers/multimeter/Fluke_45.py:214-223 | `get_rate` sends "RATE?" (`get_mode` sends "FUNC1?" the same way): it succeeds iff the reply, and on serial the prompt after it, is there, giving the reply without its line ending; otherwise the timeout |
| Fluke45.QueryAck | pythonequipmentdrivers/multimeter/Fluke_45.py:85-104 | a query sends only its message; on serial a prompt line is read after the reply |
| Fluke45.RangeWrite | pythonequipmentdrivers/multimeter/Fluke_45.py:177-180 | a range number outside 0..6 raises ValueError with nothing written; success writes "RANGE n" |
| Fluke45.SetRangeExchange | pythonequipmentdrivers/multimeter/Fluke_45.py:156-180 | `set_range` with autoranging writes "AUTO" first; on success the last command written is a "RANGE" command |
| Fluke45.GetRangeExchange | pythonequipmentdrivers/multimeter/Fluke_45.py:182-194 | `get_range` starts with "RANGE1?" and, when it succeeds, has asked for the range, the mode and the rate |
| Fluke45.ConfigExchange | pythonequipmentdrivers/multimeter/Fluke_45.py:380-402 | a successful `config` writes the mode first and the rate command last |
| Fluke45.MeasureExchange | pythonequipmentdrivers/multimeter/Fluke_45.py:259-359 | a measurement asks "FUNC1?" and then "VAL?" at most; a reading comes only when the mode read is the expected one |
| Fluke45.Fluke45.Write | pythonequipmentdrivers/multimeter/Fluke_45.py:62-83 | performs exactly `WriteAck`: the write, then on serial the prompt line |
| Fluke45.Fluke45.Query | pythonequipmentdrivers/multimeter/Fluke_45.py:85-104 | performs exactly `QueryAck`: the query, then on serial the prompt line |
| Fluke45.Fluke45.GetMode | pythonequipmentdrivers/multimeter/Fluke_45.py:246-257 | performs exactly the "FUNC1?" exchange, the reply stripped of its line ending |
| Fluke45.Fluke45.GetRate | pythonequipmentdrivers/multimeter/Fluke_45.py:214-223 | performs exactly the "RATE?" exchange, the reply stripped of its line ending |
| Fluke45.Fluke45.SetRate | pythonequipmentdrivers/multimeter/Fluke_45.py:196-212 | writes the rate command for a valid rate, or raises ValueError with nothing written |
| Fluke45.Fluke45.SetMode | pythonequipmentdrivers/multimeter/Fluke_45.py:225-244 | writes the upper-cased mode for a valid mode, or raises ValueError with nothing written |
| Fluke45.Fluke45.SetTriggerSource | pythonequipmentdrivers/multimeter/Fluke_45.py:361-370 | writes "TRIGGER 2" or "TRIGGER 1" through the prompting write |
| Fluke45.Fluke45.RangeNumber | pythonequipmentdrivers/multimeter/Fluke_45.py:140-154 | asks for the mode and the rate, then looks the value up in their range table |
| Fluke45.Fluke45.RangeLimitOf | pythonequipmentdrivers/multimeter/Fluke_45.py:140-154 | asks for the mode and the rate, then looks the range number up in their range table |
| Fluke45.Fluke45.WriteRange | pythonequipmentdrivers/multimeter/Fluke_45.py:177-180 | performs exactly the range write |
| Fluke45.Fluke45.Measure | pythonequipmentdrivers/multimeter/Fluke_45.py:259-359 | performs exactly the measurement exchange |
| Tektronix.Info | src/pythonequipmentdrivers/oscilloscope/_tektronix_dpo4xxx.py:22-64 | exactly DELAY and PHASE need two waveforms; every type has a command |
| Tektronix.FromName | src/pythonequipmentdrivers/oscilloscope/_tektronix_dpo4xxx.py:621-622 | a name resolves only to the type of that exact name; otherwise KeyError |
| Tektronix.NameRoundTrip | src/pythonequipmentdrivers/oscilloscope/_tektronix_dpo4xxx.py:22-64 | every type's name resolves back to that type (the lookup at lines 621-622) |
| Tektronix.NameLookupIsExact | src/pythonequipmentdrivers/oscilloscope/_tektronix_dpo4xxx.py:56 | lookup (line 622) is case-sensitive and uses the names as spelled ("POSTIVE_WIDTH" resolves, "POSITIVE_WIDTH" does not) |
| Tektronix.ConfigureCommands | src/pythonequipmentdrivers/oscilloscope/_tektronix_dpo4xxx.py:621-627 | configuration fails iff the name is unknown (KeyError) or a dual-waveform type lacks channel 2 (ValueError) |
| Tektronix.ConfigureShape | src/pythonequipmentdrivers/oscilloscope/_tektronix_dpo4xxx.py:629-642 | TYP first, SOU1, SOU2 only for dual-waveform types, STATE ON last, all under the slot prefix |
| Tektronix.SlotsDistinct | src/pythonequipmentdrivers/oscilloscope/_tektronix_dpo4xxx.py:629-631 | two slot numbers share a prefix iff they are equal or both select the immediate measurement |
| Tektronix.Dpo4xxx.ConfigureMeasurement | src/pythonequipmentdrivers/oscilloscope/_tektronix_dpo4xxx.py:599-642 | the specified commands are written, or the error raised with nothing written |
| Tektronix.QueryMatchesSlot | src/pythonequipmentdrivers/oscilloscope/_tektronix_dpo4xxx.py:582-587 | the value query of an index is the slot prefix configured at lines 629-631 plus "VAL?" iff the index is not negative |
| Tektronix.Queries | src/pythonequipmentdrivers/oscilloscope/_tektronix_dpo4xxx.py:580-588 | one value query per index, in order |
| Tektronix.Readings | src/pythonequipmentdrivers/oscilloscope/_tektronix_dpo4xxx.py:588-593 | one reading per reply, NaN for a reply that is not a number |
| Tektronix.Pack | src/pythonequipmentdrivers/oscilloscope/_tektronix_dpo4xxx.py:595-597 | a scalar iff there is exactly one reading, else all of them in order |
| Tektronix.MeasureDataExchange | src/pythonequipmentdrivers/oscilloscope/_tektronix_dpo4xxx.py:561-597 | the data is read iff the scope answers every query; otherwise the VISA timeout |
| Tektronix.Dpo4xxx.GetMeasureData | src/pythonequipmentdrivers/oscilloscope/_tektronix_dpo4xxx.py:579-597 | the query loop performs exactly the specified exchange |
| Tektronix.ConfiguredSlotIsRead | src/pythonequipmentdrivers/oscilloscope/_tektronix_dpo4xxx.py:582-587 | reading a slot configured at lines 629-642 queries that slot's value |
| Tektronix.FloatExchange | src/pythonequipmentdrivers/oscilloscope/_tektronix_dpo4xxx.py:406-407 | a float query succeeds iff there is a reply and it parses; otherwise the timeout or ValueError (likewise at lines 469-470) |
| Tektronix.TriggerPositionCommand | src/pythonequipmentdrivers/oscilloscope/_tektronix_dpo4xxx.py:389-392 | accepted iff a number in [0, 100]; ValueError outside, TypeError for a non-number |
| Tektronix.TriggerModeCommand | src/pythonequipmentdrivers/oscilloscope/_tektronix_dpo4xxx.py:422-425 | accepted iff the upper-cased mode is AUTO, NORM or NORMAL; otherwise ValueError |
| Tektronix.TriggerModeIgnoresCase | src/pythonequipmentdrivers/oscilloscope/_tektronix_dpo4xxx.py:422 | the mode name is case-insensitive |
| Tektronix.NormalizeTriggerMode | src/pythonequipmentdrivers/oscilloscope/_tektronix_dpo4xxx.py:441 | the mode read back has no upper-case letter and no trailing newline |
| Tektronix.TriggerModeReadBack | src/pythonequipmentdrivers/oscilloscope/_tektronix_dpo4xxx.py:422-441 | a mode set and echoed back with a newline reads back as its lower case |
| Tektronix.ZoomReadBack | src/pythonequipmentdrivers/oscilloscope/_tektronix_dpo4xxx.py:484-501 | the state written reads back; "1" is on, "0" off, and "NONE" counts as on because it contains "on" |
| Tektronix.PersistenceCommand | src/pythonequipmentdrivers/oscilloscope/_tektronix_dpo4xxx.py:731-738 | "INFI" for "inf" in any case, the value for a positive number, -1 otherwise, ValueError for anything else |
| Tektronix.PersistenceRejectsNumericText | src/pythonequipmentdrivers/oscilloscope/_tektronix_dpo4xxx.py:731-736 | numeric text such as "5" is refused |
| Tektronix.PersistenceExchange | src/pythonequipmentdrivers/oscilloscope/_tektronix_dpo4xxx.py:750-751 | the persistence read back is never negative |
| Tektronix.PersistenceReadBack | src/pythonequipmentdrivers/oscilloscope/_tektronix_dpo4xxx.py:734-751 | a positive time reads back as set; the -1 sent for non-positive times reads back as 0 |
| Tektronix.AnnotationMessage | src/pythonequipmentdrivers/oscilloscope/_tektronix_dpo4xxx.py:805-809 | the message starts with the SHOW part and ends with "STATE 1" |
| Tektronix.AnnotationBoxIff | src/pythonequipmentdrivers/oscilloscope/_tektronix_dpo4xxx.py:806-807 | the BOX part is present iff both positions are given |
| Tektronix.OpcExchange | src/pythonequipmentdrivers/oscilloscope/_tektronix_dpo4xxx.py:860-878 | the completion query succeeds iff the scope answers |
| Tektronix.SetupAcceptsAnyIndex | src/pythonequipmentdrivers/oscilloscope/_tektronix_dpo4xxx.py:857-878 | the range check never raises, so any index is sent |
| Tektronix.TimeoutAfterRecall | src/pythonequipmentdrivers/oscilloscope/_tektronix_dpo4xxx.py:874-879 | the previous timeout comes back only when the recall completes |
| Tektronix.RecallTimeoutLeftChanged | src/pythonequipmentdrivers/oscilloscope/_tektronix_dpo4xxx.py:874-879 | for every recall, the previous timeout is restored exactly when "*OPC?" is answered; an unanswered query leaves the requested timeout in place |
| Tektronix.Dpo4xxx.RecallSetup | src/pythonequipmentdrivers/oscilloscope/_tektronix_dpo4xxx.py:862-879 | "*RCL n" then "*OPC?" under the requested timeout, and the timeout afterwards as stated above |
| Tektronix.RecordLengthExchange | src/pythonequipmentdrivers/oscilloscope/_tektronix_dpo4xxx.py:716 | the record length is the reply read as an integer |
| Tektronix.RecordLengthRoundTrip | src/pythonequipmentdrivers/oscilloscope/_tektronix_dpo4xxx.py:704-716 | a length written reads back unchanged |
| Tektronix.Dpo4xxx.WriteSlot | src/pythonequipmentdrivers/oscilloscope/_tektronix_dpo4xxx.py:633-642 | the slot's commands are written in order, nothing is read |
| Tektronix.Dpo4xxx.QueryFloat | src/pythonequipmentdrivers/oscilloscope/_tektronix_dpo4xxx.py:404-407 | performs exactly the float exchange of the query |
| Tektronix.Dpo4xxx.TriggerRunStop | src/pythonequipmentdrivers/oscilloscope/_tektronix_dpo4xxx.py:347-356 | writes the run/stop acquisition pair and reads nothing |
| Tektronix.Dpo4xxx.TriggerForce | src/pythonequipmentdrivers/oscilloscope/_tektronix_dpo4xxx.py:358-365 | writes "TRIG FORC" and reads nothing |
| Tektronix.Dpo4xxx.TriggerSingle | src/pythonequipmentdrivers/oscilloscope/_tektronix_dpo4xxx.py:367-375 | writes the single-sequence acquisition pair and reads nothing |
| Tektronix.Dpo4xxx.SetTriggerPosition | src/pythonequipmentdrivers/oscilloscope/_tektronix_dpo4xxx.py:377-392 | writes the position command, or raises TypeError or ValueError with nothing written |
| Tektronix.Dpo4xxx.GetTriggerPosition | src/pythonequipmentdrivers/oscilloscope/_tektronix_dpo4xxx.py:394-407 | performs exactly the "HOR:POS?" float exchange |
| Tektronix.Dpo4xxx.SetTriggerMode | src/pythonequipmentdrivers/oscilloscope/_tektronix_dpo4xxx.py:409-425 | writes the mode command for AUTO, NORM or NORMAL in any case, or raises ValueError with nothing written |
| Tektronix.Dpo4xxx.GetTriggerMode | src/pythonequipmentdrivers/oscilloscope/_tektronix_dpo4xxx.py:427-441 | performs exactly the "TRIG:A:MOD?" exchange and returns the reply normalised |
| Tektronix.Dpo4xxx.SetTriggerLevel | src/pythonequipmentdrivers/oscilloscope/_tektronix_dpo4xxx.py:443-455 | writes the level command and reads nothing |
| Tektronix.Dpo4xxx.GetTriggerLevel | src/pythonequipmentdrivers/oscilloscope/_tektronix_dpo4xxx.py:457-470 | performs exactly the "TRIG:A:LEV?" float exchange |
| Tektronix.Dpo4xxx.SetZoomMode | src/pythonequipmentdrivers/oscilloscope/_tektronix_dpo4xxx.py:472-484 | writes the zoom command, ON for a truthy state, and reads nothing |
| Tektronix.Dpo4xxx.GetZoomMode | src/pythonequipmentdrivers/oscilloscope/_tektronix_dpo4xxx.py:486-501 | performs exactly the "ZOO:MODE?" exchange and returns whether the reply mentions on, true or 1 |
| Tektronix.Dpo4xxx.SetZoomPosition | src/pythonequipmentdrivers/oscilloscope/_tektronix_dpo4xxx.py:503-516 | writes the zoom position command and reads nothing |
| Tektronix.Dpo4xxx.GetZoomPosition | src/pythonequipmentdrivers/oscilloscope/_tektronix_dpo4xxx.py:518-531 | performs exactly the "ZOO:ZOOM:POS?" float exchange |
| Tektronix.Dpo4xxx.SetZoomScale | src/pythonequipmentdrivers/oscilloscope/_tektronix_dpo4xxx.py:533-545 | writes the zoom scale command and reads nothing |
| Tektronix.Dpo4xxx.GetZoomScale | src/pythonequipmentdrivers/oscilloscope/_tektronix_dpo4xxx.py:547-559 | performs exactly the "ZOO:ZOOM:SCA?" float exchange |
| Tektronix.Dpo4xxx.SetPersistenceTime | src/pythonequipmentdrivers/oscilloscope/_tektronix_dpo4xxx.py:718-738 | writes the persistence command, or raises ValueError with nothing written |
| Tektronix.Dpo4xxx.GetPersistenceTime | src/pythonequipmentdrivers/oscilloscope/_tektronix_dpo4xxx.py:740-751 | performs exactly the persistence exchange: the time read, clamped at zero |
| Tektronix.Dpo4xxx.SetAnnotation | src/pythonequipmentdrivers/oscilloscope/_tektronix_dpo4xxx.py:794-809 | writes the one annotation message and reads nothing |
| Tektronix.Dpo4xxx.ClearAnnotation | src/pythonequipmentdrivers/oscilloscope/_tektronix_dpo4xxx.py:811-817 | writes the clear message and reads nothing |
| Tektronix.Dpo4xxx.SetRecordLength | src/pythonequipmentdrivers/oscilloscope/_tektronix_dpo4xxx.py:690-704 | writes "HOR:RECO" and the length, and reads nothing |
| Tektronix.Dpo4xxx.GetRecordLength | src/pythonequipmentdrivers/oscilloscope/_tektronix_dpo4xxx.py:706-716 | performs exactly the record length exchange: `int()` of the reply |
| Tektronix.Dpo4xxx.StoreSetup | src/pythonequipmentdrivers/oscilloscope/_tektronix_dpo4xxx.py:850-860 | writes "*SAV n" for any index, then waits on "*OPC?"; fails only when that goes unanswered |

## Left out

- Discovering and identifying instruments (`get_devices_addresses`, `identify_devices`) and the pyvisa resource manager are I/O. Opening a session is modelled by a given outcome: a fresh session with the replies it will give, or a VisaIOError.
- `Gpib_Interface.group_execute_trigger` is a pass-through to a library call that is not part of this model.
- Reading the JSON configuration file, importing the definition module and constructing the driver class are given by an oracle. The "kwargs" entry only reaches that oracle.
- A configuration entry without "definition", "object" or "address" raises KeyError; the model assumes the entries are complete.
- `__repr__`, `__str__`, `idn`, `cls`, `rst` and the raw-SCPI helpers are formatting or pass-through writes. All printing and logging is left out too.
- Environment.EnvironmentSetup.MakeConnections: device names are assumed distinct from the object's own attributes (`configuration`, `object_mask`, `equipment_json_path`, `dmms`). The source binds each device with `vars(self)[device_name] = inst`, so a device with one of those names replaces that attribute for the rest of the loop and afterwards, and the model, which keeps the bound devices apart, does not represent that.
- Environment.CallableMethods: reading an attribute during the scan is modelled only by its result (callable, not callable, or the error its getter raises); the bus traffic of a property getter such as `idn` (the "*IDN?" query) is not recorded.
- Python's `float()` is a parameter (`toFloat`) wherever a reply is converted. Its values are reals, so it cannot yield inf or nan: a reply such as "inf" to "HOR:POS?", or "nan" to "DIS:PERS?" (where `max([nan, 0.0])` is nan), gives ValueError in the model where the source returns the special value. Readings from the multimeters are returned as the reply text or bytes. The `factor` scaling, NaN arithmetic and the estimate of `set_measure_time` are floating point and are left out.
- Case conversion is ASCII only; Python's Unicode case mapping and `int()`'s acceptance of underscores, non-ASCII digits and non-ASCII whitespace are not modelled.
- Floats written into commands use a given text form (`Values.FloatValue` carries Python's `str` of the number).
- Values.FloatStr: for an int argument the text is its digits followed by ".0", which is Python's `str(float(i))` only while `i` is exactly representable and below 10**16 in magnitude. Larger ints are written in exponent form ("1e+16") or rounded by Python, and beyond the float range `float()` raises OverflowError; the model states neither. Tektronix.PersistenceCommand and Tektronix.Dpo4xxx.SetPersistenceTime inherit this.
- Exceptions are matched by their exact class; subclasses caught by the `except` clauses are not modelled.
- Sleeps (`trigger(wait=True)` on the HP 34401A) are timing only.
- HP 34401A: `get_error`, `get_trigger_delay`, `get_trigger_count`, `init`, `fetch_data`, `abort`, `set_sample_count`, `get_sample_count`, `set_measure_time`, `set_local`, and the constructor's initial queries are left out. They are single writes or queries whose results go through float conversion. `resp_format` is modelled for the `str` conversion only.
- Keysight34461a: the display and label operations are exchange functions without a class method, since each is one write or one query on the inherited connection.
- Hp3478a: `idn`, `cls`, `close` and the adapter's construction are left out. A read with no reply from the AR488 adapter is modelled as IOError, because its behaviour is not part of this model.
- Fluke45: flushing the receive buffer and setting the line terminations in the constructor are not modelled. `fetch_data`'s float conversion and `enable_cmd_emulation_mode` (a single "L2" write through `write`) are left out.
- Tektronix: `get_channel_data` (binary waveform decoding with numpy) is left out. The channel label, bandwidth, scale, offset and position setters and getters, `select_channel`, `set_cursor_vertical_level`, and the horizontal scale setter and getter are left out too. They are single formatted writes or float queries of the same shape as the trigger-level ones that are modelled.
- Tektronix: `get_image`, `load_setup_file` and `save_setup_file` read or write files.
- Tektronix: channel arguments are integers, and `write_resource` and the direct session writes are treated alike.
- Tektronix.Dpo4xxx.SetRecordLength: the length is an integer; `int(length)` truncating a float argument is not modelled.
- Fluke45.RangeWrite: the range number is an optional integer; `n in range(0, 7)` also accepts equal floats and booleans (`3.0`, `True`), which the model does not represent.
- Tektronix.Dpo4xxx.StoreSetup: the timeout is not changed by `store_setup`, so only the exchange is stated.
