/** The equipment environment of pythonequipmentdrivers/__core.py: a
    configuration of named device descriptors, an optional mask naming the
    devices that must be present, one connection attempt per device with a
    failure policy that depends on the mask, optional initialisation
    sequences, and the `Dmms` group of connected multimeters. Importing the
    driver class and constructing it are given by an oracle. */
module Environment {
  import opened Common
  import opened Text
  import opened Dicts

  /** What `getattr(instance, name)` gives for one attribute: something
      callable, something that is not, or the error its getter raises (the
      `idn` property queries "*IDN?", so a silent instrument raises
      VisaIOError here). */
  datatype Read = Callable | NotCallable | Raises(error: Error)

  /** A constructed device object, seen through `__dir__()`: each attribute
      name, in `__dir__()` order, with what reading it gives. */
  datatype Device = Device(id: nat, attributes: seq<(string, Read)>)

  /** One step of an "init" list: a method name and its keyword arguments. */
  datatype Step = Step(command: string, kwargs: seq<(string, string)>)

  /** One configuration entry ("object", "definition", "address", optional
      "init"; "kwargs" only reaches the constructor oracle). */
  datatype Descriptor = Descriptor(object: string, definition: string, address: string, init: Option<seq<Step>>)

  /** What importing the definition module and constructing the class does. */
  datatype Construction = Constructed(device: Device) | Raised(error: Error)

  /** What the outside world does: the construction outcome of each named
      device, and the outcome of calling an init step on it. */
  datatype Oracles = Oracles(connect: string -> Construction, invoke: string -> Step -> Outcome)

  // ------------------------------------------------------ get_callable_methods

  /** `get_callable_methods`: the callable attribute names that do not
      contain "__", in `__dir__()` order. Every attribute is read before the
      dunder filter looks at its name, so the first attribute whose read
      raises ends the scan with that error. */
  function CallableMethods(attributes: seq<(string, Read)>): (r: Result<seq<string>>)
    ensures r.Err? <==> exists i :: 0 <= i < |attributes| && attributes[i].1.Raises?
    ensures r.Err? ==> exists i :: 0 <= i < |attributes| && attributes[i].1 == Raises(r.error)
                         && forall j :: 0 <= j < i ==> !attributes[j].1.Raises?
    decreases |attributes|
  {
    if attributes == [] then Ok([])
    else if attributes[0].1.Raises? then Err(attributes[0].1.error)
    else
      var rest := CallableMethods(attributes[1..]);
      ShiftedAttributes(attributes);
      if rest.Err? then
        var k :| 0 <= k < |attributes[1..]| && attributes[1..][k].1 == Raises(rest.error)
                 && forall j :: 0 <= j < k ==> !attributes[1..][j].1.Raises?;
        assert attributes[k + 1] == attributes[1..][k];
        assert forall j :: 1 <= j < k + 1 ==> attributes[j] == attributes[1..][j - 1];
        Err(rest.error)
      else
        Ok((if attributes[0].1 == Callable && !Contains(attributes[0].0, "__") then [attributes[0].0] else [])
           + rest.value)
  }

  lemma ShiftedAttributes(attributes: seq<(string, Read)>)
    requires attributes != []
    ensures forall i :: 1 <= i < |attributes| ==> attributes[1..][i - 1] == attributes[i]
  {
  }

  /** When the scan succeeds, a name is offered exactly when some attribute
      of that name is callable and the name holds no "__". */
  lemma {:induction false} CallableMethodsMembers(attributes: seq<(string, Read)>, n: string)
    requires CallableMethods(attributes).Ok?
    ensures n in CallableMethods(attributes).value <==>
      (exists i :: 0 <= i < |attributes| && attributes[i] == (n, Callable)) && !Contains(n, "__")
    decreases |attributes|
  {
    if attributes != [] {
      CallableMethodsMembers(attributes[1..], n);
      if (exists i :: 1 <= i < |attributes| && attributes[i] == (n, Callable)) {
        var i :| 1 <= i < |attributes| && attributes[i] == (n, Callable);
        assert attributes[1..][i - 1] == (n, Callable);
      }
      if (exists i :: 0 <= i < |attributes[1..]| && attributes[1..][i] == (n, Callable)) {
        var i :| 0 <= i < |attributes[1..]| && attributes[1..][i] == (n, Callable);
        assert attributes[i + 1] == (n, Callable);
      }
    }
  }

  // ------------------------------------------------------ initiaize_device

  /** The steps of `steps` whose command is one of `valid`, in order. */
  function ValidSteps(valid: seq<string>, steps: seq<Step>): (r: seq<Step>)
    ensures forall s :: s in r ==> s in steps && s.command in valid
    decreases |steps|
  {
    if steps == [] then []
    else (if steps[0].command in valid then [steps[0]] else []) + ValidSteps(valid, steps[1..])
  }

  /** `initiaize_device` with the device's callable methods `valid`: the
      steps actually called, in order, and the outcome. Steps naming no
      callable method are skipped; a TypeError (bad keyword arguments) is
      reported and the next step runs; any other error ends the sequence. */
  function InitRun(valid: seq<string>, steps: seq<Step>, invoke: Step -> Outcome): (seq<Step>, Outcome)
    decreases |steps|
  {
    if steps == [] then ([], Pass)
    else if steps[0].command !in valid then InitRun(valid, steps[1..], invoke)
    else if invoke(steps[0]).Fail? && invoke(steps[0]).error != TypeError then ([steps[0]], invoke(steps[0]))
    else
      var rest := InitRun(valid, steps[1..], invoke);
      ([steps[0]] + rest.0, rest.1)
  }

  /** `initiaize_device`: the attribute scan comes first, and an error it
      raises ends the call before any step runs, whatever the steps are. */
  function Initialize(attributes: seq<(string, Read)>, steps: seq<Step>, invoke: Step -> Outcome): (seq<Step>, Outcome)
  {
    match CallableMethods(attributes)
    case Err(e) => ([], Fail(e))
    case Ok(valid) => InitRun(valid, steps, invoke)
  }

  /** Only listed, callable steps are called, in their order; a failure
      comes from the last call and is not a TypeError. */
  lemma {:induction false} InitCallsValidSteps(valid: seq<string>, steps: seq<Step>, invoke: Step -> Outcome)
    ensures var (called, r) := InitRun(valid, steps, invoke);
      (forall s :: s in called ==> s in steps && s.command in valid) &&
      (r.Fail? ==> |called| > 0 && invoke(called[|called| - 1]) == r && r.error != TypeError)
    decreases |steps|
  {
    if steps != [] {
      InitCallsValidSteps(valid, steps[1..], invoke);
    }
  }

  /** When no called step fails with anything but a TypeError, every valid
      step is called in order and the sequence succeeds. */
  lemma {:induction false} InitRunsAllValid(valid: seq<string>, steps: seq<Step>, invoke: Step -> Outcome)
    requires forall s :: s in steps && s.command in valid ==> invoke(s).Pass? || invoke(s).error == TypeError
    ensures InitRun(valid, steps, invoke) == (ValidSteps(valid, steps), Pass)
    decreases |steps|
  {
    if steps != [] {
      assert steps[0] in steps;
      assert forall s :: s in steps[1..] ==> s in steps;
      InitRunsAllValid(valid, steps[1..], invoke);
      if steps[0].command in valid {
        assert ValidSteps(valid, steps) == [steps[0]] + ValidSteps(valid, steps[1..]);
      } else {
        assert ValidSteps(valid, steps) == ValidSteps(valid, steps[1..]);
      }
    }
  }

  /** The loop of `initiaize_device`. */
  method InitializeDevice(device: Device, steps: seq<Step>, invoke: Step -> Outcome)
    returns (called: seq<Step>, r: Outcome)
    ensures (called, r) == Initialize(device.attributes, steps, invoke)
  {
    var scan := CallableMethods(device.attributes);
    if scan.Err? {
      return [], Fail(scan.error);
    }
    var valid := scan.value;
    called := [];
    var i := 0;
    assert steps[0..] == steps;
    while i < |steps|
      invariant 0 <= i <= |steps|
      invariant InitRun(valid, steps, invoke).0 == called + InitRun(valid, steps[i..], invoke).0
      invariant InitRun(valid, steps, invoke).1 == InitRun(valid, steps[i..], invoke).1
    {
      assert steps[i..][1..] == steps[i + 1..];
      if steps[i].command in valid {
        var outcome := invoke(steps[i]);
        called := called + [steps[i]];
        if outcome.Fail? && outcome.error != TypeError {
          return called, outcome;
        }
      }
      i := i + 1;
    }
    assert steps[i..] == [];
    assert called + [] == called;
    r := Pass;
  }

  // ------------------------------------------------------ the configuration

  /** The entries whose name is in the mask, in order. */
  function Masked(entries: seq<(string, Descriptor)>, mask: set<string>): seq<(string, Descriptor)>
    decreases |entries|
  {
    if entries == [] then []
    else
      Masked(entries[..|entries| - 1], mask)
      + if entries[|entries| - 1].0 in mask then [entries[|entries| - 1]] else []
  }

  /** The filter keeps exactly the entries whose name is in the mask. */
  lemma {:induction false} MaskedMembers(entries: seq<(string, Descriptor)>, mask: set<string>)
    ensures forall e :: e in Masked(entries, mask) <==> e in entries && e.0 in mask
    decreases |entries|
  {
    if entries != [] {
      var init := entries[..|entries| - 1];
      MaskedMembers(init, mask);
      assert entries == init + [entries[|entries| - 1]];
    }
  }

  /** With distinct names, the filtered configuration holds exactly the
      masked names that were present; when the mask is a subset of the
      names, exactly the mask. */
  lemma MaskedKeys(entries: seq<(string, Descriptor)>, mask: set<string>)
    requires mask <= set n | n in Keys(entries)
    ensures (set n | n in Keys(Masked(entries, mask))) == mask
  {
    MaskedMembers(entries, mask);
    forall n | n in mask
      ensures n in Keys(Masked(entries, mask))
    {
      var i :| 0 <= i < |entries| && Keys(entries)[i] == n;
      assert entries[i] in Masked(entries, mask);
    }
    forall n | n in Keys(Masked(entries, mask))
      ensures n in mask
    {
      var j :| 0 <= j < |Masked(entries, mask)| && Keys(Masked(entries, mask))[j] == n;
      assert Masked(entries, mask)[j] in Masked(entries, mask);
    }
  }

  /** Removing one name from a dictionary. */
  function Remove(entries: seq<(string, Descriptor)>, name: string): seq<(string, Descriptor)>
    decreases |entries|
  {
    if entries == [] then []
    else (if entries[0].0 == name then [] else [entries[0]]) + Remove(entries[1..], name)
  }

  lemma {:induction false} RemoveAbsent(entries: seq<(string, Descriptor)>, name: string)
    requires name !in Keys(entries)
    ensures Remove(entries, name) == entries
    decreases |entries|
  {
    if entries != [] {
      assert Keys(entries[1..]) == Keys(entries)[1..];
      RemoveAbsent(entries[1..], name);
    }
  }

  lemma {:induction false} RemoveAppend(a: seq<(string, Descriptor)>, b: seq<(string, Descriptor)>, name: string)
    ensures Remove(a + b, name) == Remove(a, name) + Remove(b, name)
    decreases |a|
  {
    if a == [] {
      assert a + b == b;
    } else {
      assert (a + b)[0] == a[0] && (a + b)[1..] == a[1..] + b;
      RemoveAppend(a[1..], b, name);
    }
  }

  /** The configuration dictionary, shared with the caller when the caller
      passed a dictionary. */
  class Configuration {
    var entries: seq<(string, Descriptor)>

    ghost predicate Valid()
      reads this
    {
      DistinctKeys(entries)
    }

    constructor(entries: seq<(string, Descriptor)>)
      requires DistinctKeys(entries)
      ensures this.entries == entries && Valid()
    {
      this.entries := entries;
    }

    /** `pop(name)`. */
    method Pop(name: string)
      modifies this
      ensures entries == Remove(old(entries), name)
    {
      entries := Remove(entries, name);
    }

    /** The filtering loop of `__make_connections`: every name outside the
        mask is popped, in place. */
    method KeepOnly(mask: set<string>)
      requires Valid()
      modifies this
      ensures entries == Masked(old(entries), mask) && Valid()
    {
      var names := Keys(entries);
      ghost var e0 := entries;
      var i := 0;
      while i < |names|
        invariant 0 <= i <= |names| && names == Keys(e0) && DistinctKeys(e0)
        invariant entries == Masked(e0[..i], mask) + e0[i..]
      {
        assert names[i] == e0[i].0;
        if names[i] !in mask {
          PopStep(e0, i, mask);
          Pop(names[i]);
        } else {
          KeepStep(e0, i, mask);
        }
        i := i + 1;
      }
      assert e0[..|names|] == e0;
      MaskedDistinct(e0, mask);
    }
  }

  lemma KeepStep(e0: seq<(string, Descriptor)>, i: nat, mask: set<string>)
    requires i < |e0| && e0[i].0 in mask
    ensures Masked(e0[..i], mask) + e0[i..] == Masked(e0[..i + 1], mask) + e0[i + 1..]
  {
    assert e0[..i + 1][..i] == e0[..i];
    assert e0[i..] == [e0[i]] + e0[i + 1..];
  }

  /** Popping a name that occurs once, between two parts without it,
      leaves the two parts. */
  lemma RemoveMiddle(m: seq<(string, Descriptor)>, x: (string, Descriptor), rest: seq<(string, Descriptor)>)
    requires x.0 !in Keys(m) && x.0 !in Keys(rest)
    ensures Remove(m + ([x] + rest), x.0) == m + rest
  {
    var name := x.0;
    calc {
      Remove(m + ([x] + rest), name);
    == { RemoveAppend(m, [x] + rest, name); }
      Remove(m, name) + Remove([x] + rest, name);
    == { RemoveAbsent(m, name); RemoveAppend([x], rest, name); }
      m + (Remove([x], name) + Remove(rest, name));
    == { RemoveSingle(x); RemoveAbsent(rest, name); }
      m + ([] + rest);
    == { assert [] + rest == rest; }
      m + rest;
    }
  }

  lemma RemoveSingle(x: (string, Descriptor))
    ensures Remove([x], x.0) == []
  {
    assert [x][1..] == [];
  }

  /** Popping the next unmasked name moves the filter one entry on. */
  lemma PopStep(e0: seq<(string, Descriptor)>, i: nat, mask: set<string>)
    requires DistinctKeys(e0) && i < |e0| && e0[i].0 !in mask
    ensures Remove(Masked(e0[..i], mask) + e0[i..], e0[i].0) == Masked(e0[..i + 1], mask) + e0[i + 1..]
  {
    SkipUnmasked(e0, i, mask);
    NotInEarlierMasked(e0, i, mask);
    NotInLater(e0, i);
    assert e0[i..] == [e0[i]] + e0[i + 1..];
    RemoveMiddle(Masked(e0[..i], mask), e0[i], e0[i + 1..]);
  }

  lemma SkipUnmasked(e0: seq<(string, Descriptor)>, i: nat, mask: set<string>)
    requires i < |e0| && e0[i].0 !in mask
    ensures Masked(e0[..i + 1], mask) == Masked(e0[..i], mask)
  {
    assert e0[..i + 1][..i] == e0[..i];
  }

  lemma NotInEarlierMasked(e0: seq<(string, Descriptor)>, i: nat, mask: set<string>)
    requires DistinctKeys(e0) && i < |e0|
    ensures e0[i].0 !in Keys(Masked(e0[..i], mask))
  {
    var m := Masked(e0[..i], mask);
    MaskedMembers(e0[..i], mask);
    forall j | 0 <= j < |m|
      ensures m[j].0 != e0[i].0
    {
      assert m[j] in m;
      var k :| 0 <= k < i && e0[..i][k] == m[j];
      assert e0[k] == m[j];
    }
  }

  lemma NotInLater(e0: seq<(string, Descriptor)>, i: nat)
    requires DistinctKeys(e0) && i < |e0|
    ensures e0[i].0 !in Keys(e0[i + 1..])
  {
    assert Keys(e0[i + 1..]) == Keys(e0)[i + 1..];
    forall j | i + 1 <= j < |e0|
      ensures Keys(e0)[j] != e0[i].0
    {
    }
  }

  lemma {:induction false} MaskedDistinct(entries: seq<(string, Descriptor)>, mask: set<string>)
    requires DistinctKeys(entries)
    ensures DistinctKeys(Masked(entries, mask))
    decreases |entries|
  {
    if entries != [] {
      var init := entries[..|entries| - 1];
      MaskedDistinct(init, mask);
      var last := entries[|entries| - 1];
      MaskedMembers(init, mask);
      assert entries == init + [last];
      forall e | e in Masked(init, mask)
        ensures e.0 != last.0
      {
        var k :| 0 <= k < |init| && init[k] == e;
      }
    }
  }

  // ------------------------------------------------------ connecting

  /** The errors `__make_connections` catches around one device. */
  predicate Caught(e: Error)
  {
    e == VisaIOError || e == ConnectionError || e == ModuleNotFoundError || e == AttributeError
  }

  /** The state of `__make_connections` after some devices: the bound
      attributes, the multimeter group, the names tried, the init calls
      made and whether an error ended the loop. */
  datatype Progress = Progress(
    bound: seq<(string, Device)>,
    group: seq<(string, Device)>,
    attempted: seq<string>,
    calls: seq<(string, Step)>,
    outcome: Outcome)

  const Start := Progress([], [], [], [], Pass)

  /** A device joins the multimeter group when its definition mentions
      "multimeter"; it joins under its name with every "DMM" removed. */
  predicate IsMultimeter(d: Descriptor)
  {
    Contains(d.definition, "multimeter")
  }

  function GroupName(name: string): string
  {
    ReplaceAll(name, "DMM", "")
  }

  function Tag(name: string, steps: seq<Step>): (r: seq<(string, Step)>)
    ensures |r| == |steps|
  {
    seq(|steps|, i requires 0 <= i < |steps| => (name, steps[i]))
  }

  /** The init sequence run for a constructed device, if any. */
  function InitOf(name: string, d: Descriptor, dev: Device, initDevices: bool, o: Oracles): (seq<Step>, Outcome)
  {
    if d.init.Some? && initDevices then Initialize(dev.attributes, d.init.value, o.invoke(name))
    else ([], Pass)
  }

  /** The error that escapes the body of the `try` for one device, if any:
      from construction, or from the init sequence after binding. */
  function FailureOf(name: string, d: Descriptor, initDevices: bool, o: Oracles): Option<Error>
  {
    var c := o.connect(name);
    if c.Raised? then Some(c.error)
    else
      var run := InitOf(name, d, c.device, initDevices, o);
      if run.1.Fail? then Some(run.1.error) else None
  }

  /** The `except` clauses: a caught error skips the device without a mask
      and becomes a ConnectionError with one; any other error propagates. */
  function OnError(p: Progress, e: Error, masked: bool): Progress
  {
    if !Caught(e) then p.(outcome := Fail(e))
    else if masked then p.(outcome := Fail(ConnectionError))
    else p
  }

  /** Binding the attribute `name` to a constructed device. */
  function Bind(bound: seq<(string, Device)>, name: string, c: Construction): seq<(string, Device)>
  {
    if c.Constructed? then Put(bound, name, c.device) else bound
  }

  /** Adding a constructed multimeter to the group. */
  function Enlist(group: seq<(string, Device)>, name: string, d: Descriptor, c: Construction): seq<(string, Device)>
  {
    if c.Constructed? && IsMultimeter(d) then Put(group, GroupName(name), c.device) else group
  }

  /** One pass of the loop body for the entry (name, d). */
  function Attempt(p: Progress, name: string, d: Descriptor, masked: bool, initDevices: bool, o: Oracles): (r: Progress)
    ensures r.attempted == p.attempted + [name]
    ensures p.outcome.Pass? ==> r.outcome == AttemptOutcome(FailureOf(name, d, initDevices, o), masked)
  {
    var p1 := p.(attempted := p.attempted + [name]);
    var c := o.connect(name);
    if c.Raised? then OnError(p1, c.error, masked)
    else
      var p2 := p1.(bound := Bind(p1.bound, name, c), group := Enlist(p1.group, name, d, c));
      var run := InitOf(name, d, c.device, initDevices, o);
      var p3 := p2.(calls := p2.calls + Tag(name, run.0));
      if run.1.Fail? then OnError(p3, run.1.error, masked) else p3
  }

  /** The loop of `__make_connections` over the (filtered) configuration,
      which stops at the first error that escapes it. */
  function Run(entries: seq<(string, Descriptor)>, masked: bool, initDevices: bool, o: Oracles): (r: Progress)
    ensures |r.attempted| <= |entries|
    ensures r.outcome.Pass? ==> |r.attempted| == |entries|
    ensures r.outcome.Fail? ==> |r.attempted| > 0
    decreases |entries|
  {
    if entries == [] then Start
    else
      var p := Run(entries[..|entries| - 1], masked, initDevices, o);
      if p.outcome.Fail? then p
      else Attempt(p, entries[|entries| - 1].0, entries[|entries| - 1].1, masked, initDevices, o)
  }

  /** The outcome of one pass of the loop body, given the error escaping
      its `try`. */
  function AttemptOutcome(f: Option<Error>, masked: bool): Outcome
  {
    match f
    case None => Pass
    case Some(e) => if !Caught(e) then Fail(e) else if masked then Fail(ConnectionError) else Pass
  }

  /** A device whose attribute scan meets a getter that raises VisaIOError
      (an instrument that never answers "*IDN?") makes no init call, even
      for names it does not have; under a mask this ends the loop with
      ConnectionError, and without one the device is skipped. */
  lemma SilentScanEndsAttempt(name: string, d: Descriptor, o: Oracles, i: nat)
    requires o.connect(name).Constructed? && d.init.Some?
    requires var attrs := o.connect(name).device.attributes;
      i < |attrs| && attrs[i].1 == Raises(VisaIOError) && forall j :: 0 <= j < i ==> !attrs[j].1.Raises?
    ensures InitOf(name, d, o.connect(name).device, true, o) == ([], Fail(VisaIOError))
    ensures AttemptOutcome(FailureOf(name, d, true, o), true) == Fail(ConnectionError)
    ensures AttemptOutcome(FailureOf(name, d, true, o), false) == Pass
  {
    var attrs := o.connect(name).device.attributes;
    var r := CallableMethods(attrs);
    assert r.Err?;
    var k :| 0 <= k < |attrs| && attrs[k].1 == Raises(r.error) && forall j :: 0 <= j < k ==> !attrs[j].1.Raises?;
    assert k == i;
  }

  /** The device of this entry does not end the loop. */
  predicate GetsThrough(entry: (string, Descriptor), masked: bool, initDevices: bool, o: Oracles)
  {
    AttemptOutcome(FailureOf(entry.0, entry.1, initDevices, o), masked).Pass?
  }

  lemma AttemptBindings(p: Progress, name: string, d: Descriptor, masked: bool, initDevices: bool, o: Oracles)
    ensures Attempt(p, name, d, masked, initDevices, o).bound == Bind(p.bound, name, o.connect(name))
    ensures Attempt(p, name, d, masked, initDevices, o).group == Enlist(p.group, name, d, o.connect(name))
  {
  }

  lemma AttemptEffect(p: Progress, name: string, d: Descriptor, masked: bool, initDevices: bool, o: Oracles)
    requires p.outcome.Pass?
    ensures Attempt(p, name, d, masked, initDevices, o).attempted == p.attempted + [name]
    ensures Attempt(p, name, d, masked, initDevices, o).outcome
         == AttemptOutcome(FailureOf(name, d, initDevices, o), masked)
    ensures Attempt(p, name, d, masked, initDevices, o).outcome.Pass? <==> GetsThrough((name, d), masked, initDevices, o)
  {
  }

  lemma RunLast(entries: seq<(string, Descriptor)>, masked: bool, initDevices: bool, o: Oracles)
    requires entries != []
    ensures var p := Run(entries[..|entries| - 1], masked, initDevices, o);
      Run(entries, masked, initDevices, o)
        == if p.outcome.Fail? then p
           else Attempt(p, entries[|entries| - 1].0, entries[|entries| - 1].1, masked, initDevices, o)
  {
  }

  /** Devices are tried in configuration order, each at most once, and the
      loop stops only on an error. */
  lemma {:induction false} RunAttempted(entries: seq<(string, Descriptor)>, masked: bool, initDevices: bool, o: Oracles)
    ensures var p := Run(entries, masked, initDevices, o);
      |p.attempted| <= |entries| && p.attempted == Keys(entries)[..|p.attempted|] &&
      (p.outcome.Pass? ==> p.attempted == Keys(entries)) &&
      (p.outcome.Fail? ==> |p.attempted| > 0)
    decreases |entries|
  {
    if entries != [] {
      var init := entries[..|entries| - 1];
      RunAttempted(init, masked, initDevices, o);
      assert Keys(init) == Keys(entries)[..|entries| - 1];
      var p := Run(init, masked, initDevices, o);
      if p.outcome.Pass? {
        AttemptEffect(p, entries[|entries| - 1].0, entries[|entries| - 1].1, masked, initDevices, o);
        assert Keys(entries) == Keys(init) + [entries[|entries| - 1].0];
      }
    }
  }

  /** Every device tried before the last one (and the last one too when
      the loop completed) either got through or failed with a caught error
      while no mask was set. */
  predicate ThroughBefore(entries: seq<(string, Descriptor)>, masked: bool, initDevices: bool, o: Oracles)
  {
    var p := Run(entries, masked, initDevices, o);
    forall j :: 0 <= j < |entries| && (p.outcome.Pass? || j < |p.attempted| - 1) ==>
      GetsThrough(entries[j], masked, initDevices, o)
  }

  lemma {:induction false} RunSkips(entries: seq<(string, Descriptor)>, masked: bool, initDevices: bool, o: Oracles)
    ensures ThroughBefore(entries, masked, initDevices, o)
    decreases |entries|
  {
    if entries != [] {
      var init := entries[..|entries| - 1];
      RunSkips(init, masked, initDevices, o);
      if Run(init, masked, initDevices, o).outcome.Fail? {
        SkipAfterFail(entries, masked, initDevices, o);
      } else {
        SkipAfterPass(entries, masked, initDevices, o);
      }
    }
  }

  /** A failed run stops: trying more devices changes nothing. */
  lemma SkipAfterFail(entries: seq<(string, Descriptor)>, masked: bool, initDevices: bool, o: Oracles)
    requires entries != []
    requires Run(entries[..|entries| - 1], masked, initDevices, o).outcome.Fail?
    requires ThroughBefore(entries[..|entries| - 1], masked, initDevices, o)
    ensures ThroughBefore(entries, masked, initDevices, o)
  {
    var init := entries[..|entries| - 1];
    RunAttempted(init, masked, initDevices, o);
    RunLast(entries, masked, initDevices, o);
    var q := Run(entries, masked, initDevices, o);
    assert q == Run(init, masked, initDevices, o);
    forall j | 0 <= j < |entries| && j < |q.attempted| - 1
      ensures GetsThrough(entries[j], masked, initDevices, o)
    {
      assert entries[j] == init[j];
    }
  }

  /** After a clean run, the last device is tried next. */
  lemma SkipAfterPass(entries: seq<(string, Descriptor)>, masked: bool, initDevices: bool, o: Oracles)
    requires entries != []
    requires Run(entries[..|entries| - 1], masked, initDevices, o).outcome.Pass?
    requires ThroughBefore(entries[..|entries| - 1], masked, initDevices, o)
    ensures ThroughBefore(entries, masked, initDevices, o)
  {
    var init := entries[..|entries| - 1];
    var last := entries[|entries| - 1];
    assert entries == init + [last];
    assert forall j :: 0 <= j < |init| ==> GetsThrough(init[j], masked, initDevices, o);
    SkipStep(init, last, masked, initDevices, o);
    var q := Run(entries, masked, initDevices, o);
    forall j | 0 <= j < |entries| && (q.outcome.Pass? || j < |q.attempted| - 1)
      ensures GetsThrough(entries[j], masked, initDevices, o)
    {
      if j < |init| {
        assert entries[j] == init[j];
      } else {
        assert entries[j] == last;
      }
    }
  }

  /** After a clean run of the earlier devices, the last one is tried; the
      earlier ones all got through, and so did the last when the loop
      completes. */
  lemma SkipStep(init: seq<(string, Descriptor)>, last: (string, Descriptor), masked: bool, initDevices: bool, o: Oracles)
    requires var p := Run(init, masked, initDevices, o);
      p.outcome.Pass? && |p.attempted| == |init|
    requires forall j :: 0 <= j < |init| ==> GetsThrough(init[j], masked, initDevices, o)
    ensures var q := Run(init + [last], masked, initDevices, o);
      |q.attempted| == |init| + 1 &&
      (q.outcome.Pass? ==> GetsThrough(last, masked, initDevices, o))
  {
    var entries := init + [last];
    assert entries[..|entries| - 1] == init;
    var p := Run(init, masked, initDevices, o);
    RunLast(entries, masked, initDevices, o);
    AttemptEffect(p, last.0, last.1, masked, initDevices, o);
  }

  /** When the loop stops, the last device tried is the one whose error
      ended it: with a mask a caught error becomes ConnectionError, and an
      error outside the caught ones propagates unchanged. */
  predicate StoppedBy(entries: seq<(string, Descriptor)>, masked: bool, initDevices: bool, o: Oracles)
  {
    var p := Run(entries, masked, initDevices, o);
    p.outcome.Fail? ==> (0 < |p.attempted| <= |entries| &&
      p.outcome == AttemptOutcome(FailureOf(entries[|p.attempted| - 1].0, entries[|p.attempted| - 1].1, initDevices, o), masked))
  }

  lemma {:induction false} RunStops(entries: seq<(string, Descriptor)>, masked: bool, initDevices: bool, o: Oracles)
    ensures StoppedBy(entries, masked, initDevices, o)
    decreases |entries|
  {
    if entries != [] {
      var init := entries[..|entries| - 1];
      RunStops(init, masked, initDevices, o);
      if Run(init, masked, initDevices, o).outcome.Fail? {
        StopAfterFail(entries, masked, initDevices, o);
      } else {
        StopAfterPass(entries, masked, initDevices, o);
      }
    }
  }

  /** A failed run keeps the device that ended it. */
  lemma StopAfterFail(entries: seq<(string, Descriptor)>, masked: bool, initDevices: bool, o: Oracles)
    requires entries != []
    requires Run(entries[..|entries| - 1], masked, initDevices, o).outcome.Fail?
    requires StoppedBy(entries[..|entries| - 1], masked, initDevices, o)
    ensures StoppedBy(entries, masked, initDevices, o)
  {
    var init := entries[..|entries| - 1];
    var p := Run(init, masked, initDevices, o);
    RunLast(entries, masked, initDevices, o);
    assert Run(entries, masked, initDevices, o) == p;
    assert entries[|p.attempted| - 1] == init[|p.attempted| - 1];
  }

  /** After a clean run, a failure can only come from the last device. */
  lemma StopAfterPass(entries: seq<(string, Descriptor)>, masked: bool, initDevices: bool, o: Oracles)
    requires entries != []
    requires Run(entries[..|entries| - 1], masked, initDevices, o).outcome.Pass?
    ensures StoppedBy(entries, masked, initDevices, o)
  {
    var init := entries[..|entries| - 1];
    var last := entries[|entries| - 1];
    RunAttempted(init, masked, initDevices, o);
    var p := Run(init, masked, initDevices, o);
    AttemptEffect(p, last.0, last.1, masked, initDevices, o);
    RunLast(entries, masked, initDevices, o);
    assert |Run(entries, masked, initDevices, o).attempted| == |entries|;
  }

  /** Without a mask, caught errors never end the loop: every device is
      tried. With a mask, the first device that fails in a caught way ends
      it with ConnectionError. */
  lemma AbortOnlyUnderMask(f: Option<Error>, masked: bool)
    ensures AttemptOutcome(f, masked).Fail? <==> f.Some? && (masked || !Caught(f.value))
    ensures masked && f.Some? && Caught(f.value) ==> AttemptOutcome(f, masked) == Fail(ConnectionError)
  {
  }

  /** The devices bound as attributes, in configuration order: exactly the
      tried devices whose construction succeeded. */
  function Connected(entries: seq<(string, Descriptor)>, o: Oracles): seq<(string, Device)>
    decreases |entries|
  {
    if entries == [] then []
    else
      var name := entries[|entries| - 1].0;
      var c := o.connect(name);
      Connected(entries[..|entries| - 1], o) + if c.Constructed? then [(name, c.device)] else []
  }

  /** The multimeter group: every tried multimeter under its group name,
      where a later one with the same group name replaces an earlier one. */
  function Grouped(entries: seq<(string, Descriptor)>, o: Oracles): seq<(string, Device)>
    decreases |entries|
  {
    if entries == [] then []
    else
      var (name, d) := entries[|entries| - 1];
      Enlist(Grouped(entries[..|entries| - 1], o), name, d, o.connect(name))
  }

  lemma {:induction false} ConnectedKeys(entries: seq<(string, Descriptor)>, o: Oracles)
    ensures forall n :: n in Keys(Connected(entries, o)) ==> n in Keys(entries)
    decreases |entries|
  {
    if entries != [] {
      var init := entries[..|entries| - 1];
      ConnectedKeys(init, o);
      assert Keys(entries) == Keys(init) + [entries[|entries| - 1].0];
      var c := Connected(init, o);
      var con := o.connect(entries[|entries| - 1].0);
      var last := if con.Constructed? then [(entries[|entries| - 1].0, con.device)] else [];
      assert Keys(c + last) == Keys(c) + Keys(last);
    }
  }

  lemma {:induction false} PutAbsent<V>(d: seq<(string, V)>, k: string, v: V)
    requires k !in Keys(d)
    ensures Put(d, k, v) == d + [(k, v)]
    decreases |d|
  {
    if d != [] {
      assert Keys(d[1..]) == Keys(d)[1..];
      PutAbsent(d[1..], k, v);
    }
  }

  /** With distinct names, the bound attributes are exactly the tried
      devices whose construction succeeded, in configuration order. */
  lemma {:induction false} RunBound(entries: seq<(string, Descriptor)>, masked: bool, initDevices: bool, o: Oracles)
    requires DistinctKeys(entries)
    ensures var p := Run(entries, masked, initDevices, o);
      |p.attempted| <= |entries| && p.bound == Connected(entries[..|p.attempted|], o)
    decreases |entries|
  {
    RunAttempted(entries, masked, initDevices, o);
    if entries != [] {
      var init := entries[..|entries| - 1];
      var (name, d) := entries[|entries| - 1];
      DistinctInit(entries);
      RunBound(init, masked, initDevices, o);
      RunAttempted(init, masked, initDevices, o);
      RunLast(entries, masked, initDevices, o);
      var p := Run(init, masked, initDevices, o);
      if p.outcome.Fail? {
        assert entries[..|p.attempted|] == init[..|p.attempted|];
      } else {
        AttemptEffect(p, name, d, masked, initDevices, o);
        AttemptBindings(p, name, d, masked, initDevices, o);
        assert init[..|init|] == init;
        assert entries[..|entries|] == entries;
        LastNotInInit(entries);
        BindStep(entries, o);
      }
    }
  }

  /** The multimeter group holds the tried multimeters under their group
      names; a later one with the same group name replaces an earlier one. */
  lemma {:induction false} RunGroup(entries: seq<(string, Descriptor)>, masked: bool, initDevices: bool, o: Oracles)
    ensures var p := Run(entries, masked, initDevices, o);
      |p.attempted| <= |entries| && p.group == Grouped(entries[..|p.attempted|], o)
    decreases |entries|
  {
    RunAttempted(entries, masked, initDevices, o);
    if entries != [] {
      var init := entries[..|entries| - 1];
      RunGroup(init, masked, initDevices, o);
      RunAttempted(init, masked, initDevices, o);
      RunLast(entries, masked, initDevices, o);
      var p := Run(init, masked, initDevices, o);
      if p.outcome.Fail? {
        assert entries[..|p.attempted|] == init[..|p.attempted|];
      } else {
        assert init[..|init|] == init;
        GroupStep(entries, masked, initDevices, o);
        assert entries[..|entries|] == entries;
      }
    }
  }

  /** A device tried after a clean run of the earlier ones is tried last
      and enlisted into the group. */
  lemma GroupStep(entries: seq<(string, Descriptor)>, masked: bool, initDevices: bool, o: Oracles)
    requires entries != []
    requires var p := Run(entries[..|entries| - 1], masked, initDevices, o);
      p.outcome.Pass? && |p.attempted| == |entries| - 1 && p.group == Grouped(entries[..|entries| - 1], o)
    ensures var q := Run(entries, masked, initDevices, o);
      |q.attempted| == |entries| && q.group == Grouped(entries, o)
  {
    var init := entries[..|entries| - 1];
    var (name, d) := entries[|entries| - 1];
    var p := Run(init, masked, initDevices, o);
    RunLast(entries, masked, initDevices, o);
    AttemptEffect(p, name, d, masked, initDevices, o);
    AttemptBindings(p, name, d, masked, initDevices, o);
  }

  lemma DistinctInit<V>(entries: seq<(string, V)>)
    requires DistinctKeys(entries) && entries != []
    ensures DistinctKeys(entries[..|entries| - 1])
  {
  }

  /** Binding a new name appends it to the bound attributes. */
  lemma BindStep(entries: seq<(string, Descriptor)>, o: Oracles)
    requires entries != [] && entries[|entries| - 1].0 !in Keys(entries[..|entries| - 1])
    ensures Bind(Connected(entries[..|entries| - 1], o), entries[|entries| - 1].0, o.connect(entries[|entries| - 1].0))
         == Connected(entries, o)
  {
    var init := entries[..|entries| - 1];
    var name := entries[|entries| - 1].0;
    ConnectedKeys(init, o);
    if o.connect(name).Constructed? {
      PutAbsent(Connected(init, o), name, o.connect(name).device);
    }
  }

  lemma LastNotInInit<V>(entries: seq<(string, V)>)
    requires DistinctKeys(entries) && entries != []
    ensures entries[|entries| - 1].0 !in Keys(entries[..|entries| - 1])
  {
    var init := entries[..|entries| - 1];
    forall j | 0 <= j < |init|
      ensures Keys(init)[j] != entries[|entries| - 1].0
    {
      assert init[j] == entries[j];
    }
  }

  /** Once an error has ended the loop, later entries change nothing. */
  lemma {:induction false} RunStaysFailed(entries: seq<(string, Descriptor)>, k: nat, masked: bool, initDevices: bool, o: Oracles)
    requires k <= |entries| && Run(entries[..k], masked, initDevices, o).outcome.Fail?
    ensures Run(entries, masked, initDevices, o) == Run(entries[..k], masked, initDevices, o)
    decreases |entries| - k
  {
    if k < |entries| {
      assert entries[..k + 1][..k] == entries[..k];
      RunStaysFailed(entries, k + 1, masked, initDevices, o);
    } else {
      assert entries[..k] == entries;
    }
  }

  // ------------------------------------------------------ Dmms

  /** The key a member's reading is stored under by `fetch_data`: its
      mapped name, else its own name unless only mapped members are wanted. */
  function NewName(name: string, mapper: seq<(string, string)>, onlyMapped: bool): Option<string>
  {
    match Get(mapper, name)
    case Some(n) => Some(n)
    case None => if onlyMapped then None else Some(name)
  }

  /** `fetch_data` given each member's `fetch_data()` result, by member name:
      the readings dictionary, or the first error. */
  function Fetched(members: seq<(string, Device)>, mapper: seq<(string, string)>, onlyMapped: bool,
                   fetch: string -> Result<string>): Result<seq<(string, string)>>
    decreases |members|
  {
    if members == [] then Ok([])
    else
      var name := members[|members| - 1].0;
      match Fetched(members[..|members| - 1], mapper, onlyMapped, fetch)
      case Err(e) => Err(e)
      case Ok(acc) =>
        match NewName(name, mapper, onlyMapped)
        case None => Ok(acc)
        case Some(k) =>
          match fetch(name)
          case Err(e) => Err(e)
          case Ok(v) => Ok(Put(acc, k, v))
  }

  /** One more member, as the `fetch_data` loop takes it: with no new name
      it is skipped, otherwise its reading is stored or its error ends the
      fetch. */
  lemma FetchedSnoc(members: seq<(string, Device)>, i: nat, mapper: seq<(string, string)>, onlyMapped: bool,
                    fetch: string -> Result<string>, acc: seq<(string, string)>)
    requires i < |members| && Fetched(members[..i], mapper, onlyMapped, fetch) == Ok(acc)
    ensures NewName(members[i].0, mapper, onlyMapped).None? ==>
      Fetched(members[..i + 1], mapper, onlyMapped, fetch) == Ok(acc)
    ensures NewName(members[i].0, mapper, onlyMapped).Some? && fetch(members[i].0).Err? ==>
      Fetched(members[..i + 1], mapper, onlyMapped, fetch) == Err(fetch(members[i].0).error)
    ensures NewName(members[i].0, mapper, onlyMapped).Some? && fetch(members[i].0).Ok? ==>
      Fetched(members[..i + 1], mapper, onlyMapped, fetch)
      == Ok(Put(acc, NewName(members[i].0, mapper, onlyMapped).value, fetch(members[i].0).value))
  {
    assert members[..i + 1][..i] == members[..i];
  }

  /** The keys of the readings are the new names of the fetched members. */
  lemma {:induction false} FetchedKeys(members: seq<(string, Device)>, mapper: seq<(string, string)>, onlyMapped: bool,
                                       fetch: string -> Result<string>, k: string)
    requires Fetched(members, mapper, onlyMapped, fetch).Ok?
    ensures k in Keys(Fetched(members, mapper, onlyMapped, fetch).value) <==> Renamed(members, mapper, onlyMapped, k)
    decreases |members|
  {
    if members != [] {
      var init := members[..|members| - 1];
      FetchedLast(members, mapper, onlyMapped, fetch, k);
      FetchedKeys(init, mapper, onlyMapped, fetch, k);
      RenamedSnoc(members, mapper, onlyMapped, k);
    }
  }

  /** Some member is renamed to `k`. */
  predicate Renamed(members: seq<(string, Device)>, mapper: seq<(string, string)>, onlyMapped: bool, k: string)
  {
    exists i :: 0 <= i < |members| && NewName(members[i].0, mapper, onlyMapped) == Some(k)
  }

  lemma RenamedSnoc(members: seq<(string, Device)>, mapper: seq<(string, string)>, onlyMapped: bool, k: string)
    requires members != []
    ensures Renamed(members, mapper, onlyMapped, k)
        <==> Renamed(members[..|members| - 1], mapper, onlyMapped, k)
             || NewName(members[|members| - 1].0, mapper, onlyMapped) == Some(k)
  {
    var init := members[..|members| - 1];
    if Renamed(init, mapper, onlyMapped, k) {
      var i :| 0 <= i < |init| && NewName(init[i].0, mapper, onlyMapped) == Some(k);
      assert members[i] == init[i];
    }
    if Renamed(members, mapper, onlyMapped, k) {
      var i :| 0 <= i < |members| && NewName(members[i].0, mapper, onlyMapped) == Some(k);
      if i < |init| {
        assert members[i] == init[i];
      }
    }
  }

  /** One more member adds at most its own new name to the keys. */
  lemma FetchedLast(members: seq<(string, Device)>, mapper: seq<(string, string)>, onlyMapped: bool,
                    fetch: string -> Result<string>, k: string)
    requires members != [] && Fetched(members, mapper, onlyMapped, fetch).Ok?
    ensures Fetched(members[..|members| - 1], mapper, onlyMapped, fetch).Ok?
    ensures k in Keys(Fetched(members, mapper, onlyMapped, fetch).value)
        <==> k in Keys(Fetched(members[..|members| - 1], mapper, onlyMapped, fetch).value)
             || NewName(members[|members| - 1].0, mapper, onlyMapped) == Some(k)
  {
  }

  /** With only mapped members wanted, an unmapped member is never fetched:
      its errors cannot surface. */
  lemma {:induction false} FetchedSkipsUnmapped(members: seq<(string, Device)>, mapper: seq<(string, string)>,
                                                fetch: string -> Result<string>)
    requires forall i :: 0 <= i < |members| && members[i].0 in Keys(mapper) ==> fetch(members[i].0).Ok?
    ensures Fetched(members, mapper, true, fetch).Ok?
    decreases |members|
  {
    if members != [] {
      FetchedSkipsUnmapped(members[..|members| - 1], mapper, fetch);
    }
  }

  /** Each member's reading under its own name, in member order. */
  function ByName(members: seq<(string, Device)>, fetch: string -> Result<string>): (r: seq<(string, string)>)
    requires forall i :: 0 <= i < |members| ==> fetch(members[i].0).Ok?
    ensures |r| == |members|
  {
    seq(|members|, i requires 0 <= i < |members| => (members[i].0, fetch(members[i].0).value))
  }

  lemma ByNameSnoc(members: seq<(string, Device)>, fetch: string -> Result<string>)
    requires members != []
    requires forall i :: 0 <= i < |members| ==> fetch(members[i].0).Ok?
    ensures ByName(members, fetch)
         == ByName(members[..|members| - 1], fetch) + [(members[|members| - 1].0, fetch(members[|members| - 1].0).value)]
  {
    var last := |members| - 1;
    var init := members[..last];
    forall i | 0 <= i < last
      ensures fetch(init[i].0).Ok?
    {
      assert init[i] == members[i];
    }
    var whole := ByName(members, fetch);
    var front := ByName(init, fetch);
    var back := front + [(members[last].0, fetch(members[last].0).value)];
    assert |whole| == |back|;
    forall i | 0 <= i < |members|
      ensures whole[i] == back[i]
    {
      if i < last {
        assert init[i] == members[i];
        assert back[i] == front[i];
      }
    }
  }

  /** Without a mapper, the readings are keyed by member name, in member
      order. */
  lemma {:induction false} FetchedByName(members: seq<(string, Device)>, fetch: string -> Result<string>)
    requires DistinctKeys(members)
    requires forall i :: 0 <= i < |members| ==> fetch(members[i].0).Ok?
    ensures Fetched(members, [], false, fetch) == Ok(ByName(members, fetch))
    decreases |members|
  {
    if members != [] {
      var last := |members| - 1;
      var init := members[..last];
      var name := members[last].0;
      var v := fetch(name).value;
      DistinctInit(members);
      forall i | 0 <= i < |init|
        ensures fetch(init[i].0).Ok?
      {
        assert init[i] == members[i];
      }
      FetchedByName(init, fetch);
      var acc := ByName(init, fetch);
      assert Keys(acc) == Keys(init);
      LastNotInInit(members);
      PutAbsent(acc, name, v);
      assert NewName(name, [], false) == Some(name);
      assert Fetched(members, [], false, fetch) == Ok(Put(acc, name, v));
      ByNameSnoc(members, fetch);
    } else {
      assert ByName(members, fetch) == [];
    }
  }

  /** `init`, `reset` and `set_local` of `Dmms`: the call is made on each
      member in order; errors in `swallowed` are ignored and any other one
      ends the loop. The result lists the members called and the outcome. */
  function FanOut(names: seq<string>, call: string -> Outcome, swallowed: set<Error>): (seq<string>, Outcome)
    decreases |names|
  {
    if names == [] then ([], Pass)
    else
      var (called, r) := FanOut(names[..|names| - 1], call, swallowed);
      var last := names[|names| - 1];
      if r.Fail? then (called, r)
      else if call(last).Fail? && call(last).error !in swallowed then (called + [last], call(last))
      else (called + [last], Pass)
  }

  /** The members are called in order until the first error outside
      `swallowed`, which is the outcome; without one, all are called. */
  lemma {:induction false} FanOutOutcome(names: seq<string>, call: string -> Outcome, swallowed: set<Error>)
    ensures var (called, r) := FanOut(names, call, swallowed);
      |called| <= |names| && called == names[..|called|] &&
      (r.Pass? ==> called == names) &&
      (forall j :: 0 <= j < |called| && (r.Pass? || j < |called| - 1) ==>
         call(called[j]).Pass? || call(called[j]).error in swallowed) &&
      (r.Fail? ==> 0 < |called| && r == call(called[|called| - 1]) && r.error !in swallowed)
    decreases |names|
  {
    if names != [] {
      var init := names[..|names| - 1];
      FanOutOutcome(init, call, swallowed);
      assert names == init + [names[|names| - 1]];
    }
  }

  /** The `Dmms` container: the connected multimeters under their group
      names, in insertion order. */
  class Dmms {
    const members: seq<(string, Device)>

    constructor(members: seq<(string, Device)>)
      ensures this.members == members
    {
      this.members := members;
    }

    /** `fetch_data(mapper, only_mapped)`. */
    method FetchData(mapper: Option<seq<(string, string)>>, onlyMapped: bool, fetch: string -> Result<string>)
      returns (r: Result<seq<(string, string)>>)
      ensures r == Fetched(members, if mapper.Some? then mapper.value else [], onlyMapped, fetch)
    {
      var ms := members;
      var m := if mapper.Some? then mapper.value else [];
      var measurements := [];
      var i := 0;
      while i < |ms|
        invariant 0 <= i <= |ms|
        invariant Fetched(ms[..i], m, onlyMapped, fetch) == Ok(measurements)
      {
        FetchedSnoc(ms, i, m, onlyMapped, fetch, measurements);
        var name := ms[i].0;
        var newName := Get(m, name);
        if newName.None? && onlyMapped {
          assert NewName(name, m, onlyMapped).None?;
          i := i + 1;
          continue;
        } else if newName.None? {
          newName := Some(name);
        }
        assert NewName(name, m, onlyMapped) == newName;
        var reading := fetch(name);
        if reading.Err? {
          assert Fetched(ms[..i + 1], m, onlyMapped, fetch).Err?;
          FetchedStaysFailed(ms, i + 1, m, onlyMapped, fetch);
          return Err(reading.error);
        }
        assert Fetched(ms[..i + 1], m, onlyMapped, fetch) == Ok(Put(measurements, newName.value, reading.value));
        measurements := Put(measurements, newName.value, reading.value);
        i := i + 1;
      }
      assert ms[..i] == ms;
      return Ok(measurements);
    }

    /** `init()`: AttributeError (no `init` method) is ignored. */
    method Init(call: string -> Outcome) returns (called: seq<string>, r: Outcome)
      ensures (called, r) == FanOut(Keys(members), call, {AttributeError})
    {
      called, r := Each(Keys(members), call, {AttributeError});
    }

    /** `reset()` and `set_local()`: `call` is the member's own method of
        that name, and every error it raises propagates (each driver's own
        `set_local` already swallows what it expects). */
    method Propagate(call: string -> Outcome) returns (called: seq<string>, r: Outcome)
      ensures (called, r) == FanOut(Keys(members), call, {})
    {
      called, r := Each(Keys(members), call, {});
    }
  }

  lemma {:induction false} FetchedStaysFailed(members: seq<(string, Device)>, k: nat, mapper: seq<(string, string)>,
                                              onlyMapped: bool, fetch: string -> Result<string>)
    requires k <= |members| && Fetched(members[..k], mapper, onlyMapped, fetch).Err?
    ensures Fetched(members, mapper, onlyMapped, fetch) == Fetched(members[..k], mapper, onlyMapped, fetch)
    decreases |members| - k
  {
    if k < |members| {
      assert members[..k + 1][..k] == members[..k];
      FetchedStaysFailed(members, k + 1, mapper, onlyMapped, fetch);
    } else {
      assert members[..k] == members;
    }
  }

  /** The loop shared by `init`, `reset` and `set_local`. */
  method Each(names: seq<string>, call: string -> Outcome, swallowed: set<Error>) returns (called: seq<string>, r: Outcome)
    ensures (called, r) == FanOut(names, call, swallowed)
  {
    called := [];
    var i := 0;
    while i < |names|
      invariant 0 <= i <= |names|
      invariant FanOut(names[..i], call, swallowed) == (called, Pass)
    {
      assert names[..i + 1][..i] == names[..i];
      var outcome := call(names[i]);
      called := called + [names[i]];
      if outcome.Fail? && outcome.error !in swallowed {
        FanOutStaysFailed(names, i + 1, call, swallowed);
        return called, outcome;
      }
      i := i + 1;
    }
    assert names[..i] == names;
    r := Pass;
  }

  lemma {:induction false} FanOutStaysFailed(names: seq<string>, k: nat, call: string -> Outcome, swallowed: set<Error>)
    requires k <= |names| && FanOut(names[..k], call, swallowed).1.Fail?
    ensures FanOut(names, call, swallowed) == FanOut(names[..k], call, swallowed)
    decreases |names| - k
  {
    if k < |names| {
      assert names[..k + 1][..k] == names[..k];
      FanOutStaysFailed(names, k + 1, call, swallowed);
    } else {
      assert names[..k] == names;
    }
  }

  // ------------------------------------------------------ EnvironmentSetup

  /** The `equipment_setup` argument: the parsed contents of a JSON file, a
      dictionary of the caller's (which the environment then shares and
      filters in place), or anything else. */
  datatype Source = JsonFile(parsed: seq<(string, Descriptor)>) | Dictionary(config: Configuration) | OtherSource

  function SourceObjects(source: Source): set<object>
  {
    if source.Dictionary? then {source.config} else {}
  }

  function KeySet<V>(d: seq<(string, V)>): set<string>
  {
    set n | n in Keys(d)
  }

  class EnvironmentSetup {
    var configuration: Configuration?
    var objectMask: Option<set<string>>
    /** The device attributes bound on the environment, in binding order. */
    var bound: seq<(string, Device)>
    var dmms: Dmms?
    /** The names tried and the init calls made, in order. */
    var attempted: seq<string>
    var calls: seq<(string, Step)>

    constructor()
      ensures configuration == null && objectMask == None && bound == [] && dmms == null
      ensures attempted == [] && calls == []
    {
      configuration := null;
      objectMask := None;
      bound := [];
      dmms := null;
      attempted := [];
      calls := [];
    }

    /** `__init__`: take the configuration, check the mask, then connect. */
    method Setup(source: Source, mask: Option<set<string>>, initDevices: bool, o: Oracles) returns (r: Outcome)
      requires source.JsonFile? ==> DistinctKeys(source.parsed)
      requires source.Dictionary? ==> source.config.Valid()
      modifies this, SourceObjects(source)
      ensures objectMask == mask
      ensures source.OtherSource? ==> r == Fail(ValueError) && attempted == [] && bound == [] && dmms == null
      ensures source.Dictionary? ==> configuration == source.config
      ensures source.JsonFile? ==> configuration != null && fresh(configuration)
      ensures !source.OtherSource? ==> (configuration != null && configuration.Valid() &&
        var given := if source.Dictionary? then old(source.config.entries) else source.parsed;
        (mask.Some? && !(mask.value <= KeySet(given)) ==>
           r == Fail(IOError) && configuration.entries == given && attempted == [] && bound == [] && dmms == null) &&
        (mask.None? || mask.value <= KeySet(given) ==>
           configuration.entries == (if mask.Some? then Masked(given, mask.value) else given) &&
           var p := Run(configuration.entries, mask.Some?, initDevices, o);
           bound == p.bound && attempted == p.attempted && calls == p.calls && r == p.outcome &&
           (dmms != null <==> p.outcome.Pass? && p.group != []) &&
           (dmms != null ==> fresh(dmms) && dmms.members == p.group)))
    {
      objectMask := mask;
      attempted, bound, calls, dmms := [], [], [], null;
      if source.OtherSource? {
        return Fail(ValueError);
      }
      if source.JsonFile? {
        configuration := new Configuration(source.parsed);
      } else {
        configuration := source.config;
      }
      if mask.Some? && !(mask.value <= KeySet(configuration.entries)) {
        return Fail(IOError);
      }
      if mask.Some? {
        configuration.KeepOnly(mask.value);
      }
      r := MakeConnections(mask.Some?, initDevices, o);
    }

    /** `__make_connections` after the filtering: one attempt per entry, in
        order, then the `Dmms` group if the loop completed and found any. */
    method MakeConnections(masked: bool, initDevices: bool, o: Oracles) returns (r: Outcome)
      requires configuration != null
      modifies this
      ensures configuration == old(configuration) && objectMask == old(objectMask)
      ensures var p := Run(configuration.entries, masked, initDevices, o);
        bound == p.bound && attempted == p.attempted && calls == p.calls && r == p.outcome &&
        (dmms != null <==> p.outcome.Pass? && p.group != []) &&
        (dmms != null ==> fresh(dmms) && dmms.members == p.group)
    {
      var entries := configuration.entries;
      var group: seq<(string, Device)> := [];
      bound, attempted, calls, dmms := [], [], [], null;
      var i := 0;
      while i < |entries|
        invariant 0 <= i <= |entries| && configuration == old(configuration) && entries == configuration.entries
        invariant objectMask == old(objectMask)
        invariant Run(entries[..i], masked, initDevices, o) == Progress(bound, group, attempted, calls, Pass)
        invariant dmms == null
      {
        RunLast(entries[..i + 1], masked, initDevices, o);
        assert entries[..i + 1][..i] == entries[..i];
        var q := AttemptDevice(Progress(bound, group, attempted, calls, Pass), entries[i].0, entries[i].1,
                               masked, initDevices, o);
        bound, group, attempted, calls := q.bound, q.group, q.attempted, q.calls;
        if q.outcome.Fail? {
          RunStaysFailed(entries, i + 1, masked, initDevices, o);
          return q.outcome;
        }
        i := i + 1;
      }
      assert entries[..i] == entries;
      if group != [] {
        dmms := new Dmms(group);
      }
      r := Pass;
    }
  }

  /** The body of the `try` in `__make_connections` for one entry, with its
      `except` clauses. */
  method AttemptDevice(p: Progress, name: string, d: Descriptor, masked: bool, initDevices: bool, o: Oracles)
    returns (q: Progress)
    requires p.outcome.Pass?
    ensures q == Attempt(p, name, d, masked, initDevices, o)
  {
    var bound, group, attempted, calls := p.bound, p.group, p.attempted + [name], p.calls;
    var c := o.connect(name);
    var failure: Option<Error> := None;
    if c.Raised? {
      failure := Some(c.error);
    } else {
      bound := Put(bound, name, c.device);
      if IsMultimeter(d) {
        group := Put(group, GroupName(name), c.device);
      }
      if d.init.Some? && initDevices {
        var called, res := InitializeDevice(c.device, d.init.value, o.invoke(name));
        calls := calls + Tag(name, called);
        if res.Fail? {
          failure := Some(res.error);
        }
      } else {
        assert calls + Tag(name, []) == calls;
      }
    }
    q := Progress(bound, group, attempted, calls, AttemptOutcome(failure, masked));
  }
}
