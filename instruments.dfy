/** The base instrument of both package layouts (pythonequipmentdrivers/core.py
    and pythonequipmentdrivers/__core.py, which agree on everything modelled
    here except `set_local`): the process-wide registry of serial sessions
    that lets several drivers share one RS-232 port, construction with its
    timeout, identity by address and class name, and the go-to-local call. */
module Instruments {
  import opened Common
  import opened Text
  import opened Visa

  /** What opening a VISA resource would find at an address: nothing (the
      open fails with a VisaIOError) or an instrument that will give these
      replies. */
  datatype Endpoint = Unreachable | Reachable(replies: seq<string>)

  /** An address is a serial port when "ASRL" occurs in its upper-cased form. */
  predicate IsSerial(address: string)
  {
    Contains(Upper(address), "ASRL")
  }

  /** The short form kept in the registry: the text before the first "::",
      with the caller's case. */
  function ShortForm(address: string): (r: string)
    ensures |r| <= |address| && address[..|r|] == r
  {
    PrefixBeforeIsPrefix(address, "::");
    PrefixBefore(address, "::")
  }

  /** The first registry entry whose short form occurs in `key`. */
  function FirstMatch(entries: seq<(string, Transport)>, key: string): (r: Option<nat>)
    ensures r.Some? ==> r.value < |entries| && Contains(key, entries[r.value].0)
    ensures r.Some? ==> forall j :: 0 <= j < r.value ==> !Contains(key, entries[j].0)
    ensures r.None? ==> forall j :: 0 <= j < |entries| ==> !Contains(key, entries[j].0)
    decreases |entries|
  {
    if entries == [] then None
    else if Contains(key, entries[0].0) then Some(0)
    else
      match FirstMatch(entries[1..], key)
      case None => None
      case Some(k) => Some(k + 1)
  }

  /** Registering a port whose short form has no lower-case letter makes the
      same address match from then on; a short form with a lower-case letter
      (say "asrl3::INSTR") never matches its own entry, because the lookup
      upper-cases the address but the registry keeps the caller's case. */
  lemma OwnEntryMatchesIff(address: string)
    ensures Contains(Upper(address), ShortForm(address)) <==> !HasLower(ShortForm(address))
  {
    var s := ShortForm(address);
    if HasLower(s) {
      LowerNeverInUpper(address, s);
    } else {
      UpperPrefix(address, |s|);
      UpperOfNoLower(s);
      assert StartsWith(Upper(address), s);
    }
  }

  /** After the entry of `address` is appended, reopening the same address
      finds an entry exactly when one was already there or the short form
      has no lower-case letter. */
  lemma {:induction false} MatchAfterAppend(entries: seq<(string, Transport)>, address: string, h: Transport)
    ensures FirstMatch(entries + [(ShortForm(address), h)], Upper(address)).Some?
        <==> FirstMatch(entries, Upper(address)).Some? || !HasLower(ShortForm(address))
    decreases |entries|
  {
    OwnEntryMatchesIff(address);
    var key := Upper(address);
    var e := entries + [(ShortForm(address), h)];
    if entries == [] {
      assert e == [(ShortForm(address), h)];
    } else {
      assert e[1..] == entries[1..] + [(ShortForm(address), h)];
      MatchAfterAppend(entries[1..], address, h);
    }
  }

  /** A short form that is a prefix of a longer port name shadows it: an
      entry "ASRL1" is returned for "ASRL10::INSTR". */
  lemma PrefixPortShadows(h: Transport)
    ensures FirstMatch([("ASRL1", h)], Upper("ASRL10::INSTR")) == Some(0)
  {
    assert Upper("ASRL10::INSTR") == "ASRL10::INSTR";
    assert StartsWith("ASRL10::INSTR", "ASRL1");
  }

  /** The class attribute `_serial_instruments`, shared by every instrument
      of the process: (short form, handle) pairs, only ever appended to. */
  class Registry {
    var entries: seq<(string, Transport)>

    /** Each registered handle is registered once. */
    ghost predicate Valid()
      reads this
    {
      forall i, j :: 0 <= i < j < |entries| ==> entries[i].1 != entries[j].1
    }

    ghost function Handles(): set<Transport>
      reads this
    {
      set i | 0 <= i < |entries| :: entries[i].1
    }

    constructor()
      ensures entries == [] && Valid()
    {
      entries := [];
    }

    /** The scan of `open_instrument`: the index of the first entry whose
        short form occurs in the upper-cased address. */
    method Find(address: string) returns (r: Option<nat>)
      ensures r == FirstMatch(entries, Upper(address))
    {
      var key := Upper(address);
      var i := 0;
      while i < |entries|
        invariant 0 <= i <= |entries|
        invariant FirstMatch(entries, key) == (match FirstMatch(entries[i..], key)
                                               case None => None
                                               case Some(k) => Some(k + i))
      {
        assert entries[i..][1..] == entries[i + 1..];
        if Contains(key, entries[i].0) {
          return Some(i);
        }
        i := i + 1;
      }
      return None;
    }

    /** `open_instrument`: a serial address reuses the first registered
        session whose short form it contains; otherwise a new session is
        opened, and registered when the address is serial. */
    method Open(address: string, endpoint: Endpoint) returns (r: Result<Transport>)
      requires Valid()
      modifies this
      ensures Valid()
      ensures |old(entries)| <= |entries| && entries[..|old(entries)|] == old(entries)
      ensures !IsSerial(address) ==> entries == old(entries)
      ensures IsSerial(address) && FirstMatch(old(entries), Upper(address)).Some? ==>
        entries == old(entries) && r == Ok(old(entries)[FirstMatch(old(entries), Upper(address)).value].1)
      ensures (!IsSerial(address) || FirstMatch(old(entries), Upper(address)).None?) ==>
        (r.Ok? <==> endpoint.Reachable?) && (endpoint.Unreachable? ==> r == Err(VisaIOError))
      ensures (!IsSerial(address) || FirstMatch(old(entries), Upper(address)).None?) && r.Ok? ==>
        fresh(r.value) && r.value.sent == [] && r.value.replies == endpoint.replies
      ensures IsSerial(address) && FirstMatch(old(entries), Upper(address)).None? ==>
        entries == old(entries) + (if r.Ok? then [(ShortForm(address), r.value)] else [])
    {
      if IsSerial(address) {
        var k := Find(address);
        if k.Some? {
          return Ok(entries[k.value].1);
        }
      }
      if endpoint.Unreachable? {
        return Err(VisaIOError);
      }
      var t := new Transport(endpoint.replies, 2000.0);
      if IsSerial(address) {
        entries := entries + [(ShortForm(address), t)];
      }
      return Ok(t);
    }
  }

  /** A connected instrument: its class name, the address it was opened
      with, and its VISA session (possibly shared with other instruments on
      the same serial port). */
  class Instrument {
    const className: string
    const address: string
    const handle: Transport

    constructor(className: string, address: string, handle: Transport)
      ensures this.className == className && this.address == address && this.handle == handle
    {
      this.className := className;
      this.address := address;
      this.handle := handle;
    }
  }

  /** The constructor of the base instrument: open (or reuse) the session,
      then set the session's timeout to the `timeout` keyword argument, 1000
      by default. A reused serial session is shared, so its other users see
      the new timeout too. */
  method Connect(registry: Registry, className: string, address: string, endpoint: Endpoint, timeout: Option<real>)
    returns (r: Result<Instrument>)
    requires registry.Valid()
    modifies registry, registry.Handles()
    ensures registry.Valid()
    ensures r.Err? ==> r.error == VisaIOError && registry.entries == old(registry.entries)
    ensures r.Ok? ==> fresh(r.value) && r.value.className == className && r.value.address == address
    ensures r.Ok? ==> r.value.handle.timeout == (if timeout.Some? then timeout.value else 1000.0)
    ensures !IsSerial(address) ==> registry.entries == old(registry.entries)
    ensures IsSerial(address) && FirstMatch(old(registry.entries), Upper(address)).Some? ==>
      registry.entries == old(registry.entries) && r.Ok? &&
      r.value.handle == old(registry.entries)[FirstMatch(old(registry.entries), Upper(address)).value].1
    ensures (!IsSerial(address) || FirstMatch(old(registry.entries), Upper(address)).None?) ==>
      (r.Ok? <==> endpoint.Reachable?)
    ensures (!IsSerial(address) || FirstMatch(old(registry.entries), Upper(address)).None?) && r.Ok? ==>
      fresh(r.value.handle) && r.value.handle.sent == [] && r.value.handle.replies == endpoint.replies
    ensures IsSerial(address) && FirstMatch(old(registry.entries), Upper(address)).None? ==>
      registry.entries == old(registry.entries) + (if r.Ok? then [(ShortForm(address), r.value.handle)] else [])
    ensures forall h :: h in old(registry.Handles()) ==> h.sent == old(h.sent) && h.replies == old(h.replies)
    ensures forall h :: h in old(registry.Handles()) && (r.Err? || h != r.value.handle) ==> unchanged(h)
  {
    var h := registry.Open(address, endpoint);
    if h.Err? {
      return Err(h.error);
    }
    h.value.timeout := if timeout.Some? then timeout.value else 1000.0;
    var inst := new Instrument(className, address, h.value);
    return Ok(inst);
  }

  /** Two drivers opened on the same serial port, whose short form has no
      lower-case letter, share one session: the second reuses the first's,
      and the timeout the second sets is the one the first now sees. */
  method ConnectTwice(registry: Registry, first: string, second: string, address: string, endpoint: Endpoint,
                      t1: Option<real>, t2: Option<real>)
    returns (a: Result<Instrument>, b: Result<Instrument>)
    requires registry.Valid() && IsSerial(address) && !HasLower(ShortForm(address))
    modifies registry, registry.Handles()
    ensures a.Ok? ==> b.Ok? && b.value.handle == a.value.handle
    ensures a.Ok? ==> a.value.handle.timeout == (if t2.Some? then t2.value else 1000.0)
    ensures a.Err? ==> b.Err?
  {
    var e0 := registry.entries;
    var key := Upper(address);
    a := Connect(registry, first, address, endpoint, t1);
    if a.Ok? && FirstMatch(e0, key).None? {
      var e1 := registry.entries;
      MatchAfterAppend(e0, address, a.value.handle);
      var k := FirstMatch(e1, key);
      assert k.Some?;
      assert k.value == |e0|;
    }
    b := Connect(registry, second, address, endpoint, t2);
  }

  /** The argument of `__eq__`: an instrument of any class, or some other
      object. */
  datatype Obj = InstrumentRef(inst: Instrument) | OtherObject

  /** `__eq__`: the other object is an instrument with the same address and
      the same class name; the sessions are not compared. */
  predicate Eq(self: Instrument, obj: Obj)
  {
    obj.InstrumentRef? && self.address == obj.inst.address && self.className == obj.inst.className
  }

  /** `__ne__`, the negation of `__eq__`. */
  predicate Ne(self: Instrument, obj: Obj)
  {
    !Eq(self, obj)
  }

  lemma EqReflexive(a: Instrument)
    ensures Eq(a, InstrumentRef(a))
  {
  }

  lemma EqSymmetric(a: Instrument, b: Instrument)
    ensures Eq(a, InstrumentRef(b)) <==> Eq(b, InstrumentRef(a))
  {
  }

  lemma EqTransitive(a: Instrument, b: Instrument, c: Instrument)
    requires Eq(a, InstrumentRef(b)) && Eq(b, InstrumentRef(c))
    ensures Eq(a, InstrumentRef(c))
  {
  }

  /** Equality is by address and class name only: two instruments over
      different sessions are equal when those agree, and an instrument never
      equals an object that is not an instrument. */
  lemma EqIgnoresHandle(a: Instrument, b: Instrument)
    ensures Eq(a, InstrumentRef(b)) <==> a.address == b.address && a.className == b.className
    ensures !Eq(a, OtherObject) && Ne(a, OtherObject)
  {
  }

  lemma NeIsNotEq(a: Instrument, obj: Obj)
    ensures Ne(a, obj) <==> !Eq(a, obj)
  {
  }

  /** `set_local` of pythonequipmentdrivers/core.py, given what the session's
      `control_ren` call does: AttributeError (no such call) and VisaIOError
      are swallowed, any other error propagates. */
  function SetLocal(ren: Outcome): (r: Outcome)
    ensures r.Pass? <==> ren.Pass? || ren.error == AttributeError || ren.error == VisaIOError
    ensures r.Fail? ==> r == ren
  {
    match ren
    case Pass => Pass
    case Fail(e) => if e == AttributeError || e == VisaIOError then Pass else ren
  }

  /** `set_local` of pythonequipmentdrivers/__core.py, which swallows only
      AttributeError. */
  function SetLocalPrivate(ren: Outcome): (r: Outcome)
    ensures r.Pass? <==> ren.Pass? || ren.error == AttributeError
    ensures r.Fail? ==> r == ren
  {
    match ren
    case Pass => Pass
    case Fail(e) => if e == AttributeError then Pass else ren
  }

  /** The two layouts differ only on a VisaIOError from `control_ren`. */
  lemma SetLocalLayoutsDiffer(ren: Outcome)
    ensures SetLocal(ren) != SetLocalPrivate(ren) <==> ren == Fail(VisaIOError)
  {
  }
}
