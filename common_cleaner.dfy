/**
 * common/resource_cleaner.go: a registry of cleanup callbacks that are run
 * last-in first-out. A callback is modelled by an identity and the outcome
 * running it has (success, an error, or a panic); a `ran` out-parameter
 * lists the callbacks a method invokes, in invocation order. A removed or
 * executed slot holds `None` (the nil the source stores).
 */
module CommonCleaner {
  import opened GoStrings

  datatype Outcome = Succeeds | Fails(msg: string) | Panics(value: string)

  datatype Cleanup = Cleanup(id: nat, outcome: Outcome)

  /** Result of ExecuteNamed / ExecuteNamedKeep. */
  datatype NamedOutcome =
    | NotFound                                  // no name entry
    | AlreadyGone                               // the slot is nil or past the end
    | Ran(cleanup: Cleanup, err: Option<string>)

  /** safeExecute: the callback's error, with a panic turned into an error. */
  function SafeExecute(c: Cleanup): (err: Option<string>)
    ensures err.None? <==> c.outcome.Succeeds?
    ensures c.outcome.Fails? ==> err == Some(c.outcome.msg)
    ensures c.outcome.Panics? ==> err == Some("panic during cleanup: " + c.outcome.value)
  {
    match c.outcome
    case Succeeds => None
    case Fails(m) => Some(m)
    case Panics(v) => Some("panic during cleanup: " + v)
  }

  /** The live callbacks of the slots, last slot first: the order Execute runs them in. */
  function RunOrder(slots: seq<Option<Cleanup>>): seq<Cleanup>
    decreases |slots|
  {
    if |slots| == 0 then []
    else RunOrder(slots[1..]) + (if slots[0].Some? then [slots[0].value] else [])
  }

  /** The errors reported by running `rs` in order. */
  function Errors(rs: seq<Cleanup>): seq<string>
    decreases |rs|
  {
    if |rs| == 0 then []
    else
      var n := |rs| - 1;
      Errors(rs[..n]) + (if SafeExecute(rs[n]).Some? then [SafeExecute(rs[n]).value] else [])
  }

  /** Slot `idx` exists and still holds a callback. */
  predicate Live(slots: seq<Option<Cleanup>>, idx: nat) {
    idx < |slots| && slots[idx].Some?
  }

  class ResourceCleaner {
    var cleanups: seq<Option<Cleanup>>
    var names: map<string, nat>
    /** The name each slot was registered under, if any. */
    ghost var labels: seq<Option<string>>

    /** Every name entry points at a slot registered under that name. */
    ghost predicate Valid()
      reads this
    {
      |labels| == |cleanups|
      && forall n :: n in names ==> names[n] < |cleanups| && labels[names[n]] == Some(n)
    }

    constructor ()
      ensures cleanups == [] && names == map[] && Valid()
    {
      cleanups := [];
      names := map[];
      labels := [];
    }

    /** Add appends one unnamed slot. */
    method Add(c: Cleanup)
      modifies this
      ensures cleanups == old(cleanups) + [Some(c)] && names == old(names)
      ensures old(Valid()) ==> Valid()
    {
      cleanups := cleanups + [Some(c)];
      labels := labels + [None];
    }

    /** AddNamed appends one slot and records its index under the name. */
    method AddNamed(name: string, c: Cleanup)
      modifies this
      ensures cleanups == old(cleanups) + [Some(c)]
      ensures names == old(names)[name := |old(cleanups)|]
      ensures old(Valid()) ==> Valid()
    {
      var idx := |cleanups|;
      cleanups := cleanups + [Some(c)];
      labels := labels + [Some(name)];
      names := names[name := idx];
    }

    /** Remove nils the named slot in place, keeping every other index, and forgets the name. */
    method Remove(name: string) returns (ok: bool)
      modifies this
      ensures ok <==> name in old(names)
      ensures !ok ==> cleanups == old(cleanups) && names == old(names)
      ensures ok && old(names)[name] < |old(cleanups)| ==> cleanups == old(cleanups)[old(names)[name] := None]
      ensures ok && old(names)[name] >= |old(cleanups)| ==> cleanups == old(cleanups)
      ensures names == old(names) - {name}
      ensures old(Valid()) ==> Valid()
    {
      if name !in names {
        return false;
      }
      var idx := names[name];
      if idx < |cleanups| {
        cleanups := cleanups[idx := None];
      }
      names := names - {name};
      ok := true;
    }

    /** RemoveLast as written: drops the last slot but keeps any name entry pointing at it. */
    method RemoveLastAsWritten() returns (ok: bool)
      modifies this
      ensures ok <==> |old(cleanups)| > 0
      ensures ok ==> cleanups == old(cleanups)[..|old(cleanups)| - 1]
      ensures !ok ==> cleanups == old(cleanups)
      ensures names == old(names)
    {
      if |cleanups| == 0 {
        return false;
      }
      cleanups := cleanups[..|cleanups| - 1];
      if |labels| > 0 {
        labels := labels[..|labels| - 1];
      }
      ok := true;
    }

    /** RemoveLast, corrected: also forgets the names of the dropped slot. */
    method RemoveLast() returns (ok: bool)
      modifies this
      ensures ok <==> |old(cleanups)| > 0
      ensures ok ==> cleanups == old(cleanups)[..|old(cleanups)| - 1]
      ensures ok ==> names == map n | n in old(names) && old(names)[n] != |old(cleanups)| - 1 :: old(names)[n]
      ensures !ok ==> cleanups == old(cleanups) && names == old(names)
      ensures old(Valid()) ==> Valid()
    {
      if |cleanups| == 0 {
        return false;
      }
      var last := |cleanups| - 1;
      cleanups := cleanups[..last];
      labels := if last <= |labels| then labels[..last] else labels;
      names := map n | n in names && names[n] != last :: names[n];
      ok := true;
    }

    /** Execute runs the live slots last-first, collects their errors in that order and empties the registry. */
    method Execute() returns (errs: seq<string>, ran: seq<Cleanup>)
      modifies this
      ensures ran == RunOrder(old(cleanups))
      ensures errs == Errors(ran)
      ensures cleanups == [] && names == map[] && Valid()
    {
      errs := [];
      ran := [];
      var i := |cleanups|;
      while i > 0
        invariant 0 <= i <= |cleanups|
        invariant ran == RunOrder(cleanups[i..])
        invariant errs == Errors(ran)
      {
        i := i - 1;
        assert cleanups[i..][1..] == cleanups[i + 1..];
        if cleanups[i].Some? {
          var c := cleanups[i].value;
          var e := SafeExecute(c);
          var ran0 := ran;
          ran := ran + [c];
          assert ran[..|ran| - 1] == ran0;
          if e.Some? {
            errs := errs + [e.value];
          }
        }
      }
      cleanups := [];
      names := map[];
      labels := [];
    }

    /** ExecuteAndClear: Execute, reporting only the first error. */
    method ExecuteAndClear() returns (err: Option<string>, ran: seq<Cleanup>)
      modifies this
      ensures ran == RunOrder(old(cleanups))
      ensures err.None? <==> Errors(ran) == []
      ensures err.Some? ==> err.value == Errors(ran)[0]
      ensures cleanups == [] && names == map[] && Valid()
    {
      var errs;
      errs, ran := Execute();
      err := if |errs| > 0 then Some(errs[0]) else None;
    }

    /** ExecuteNamed runs the named slot once, then nils it and forgets the name. */
    method ExecuteNamed(name: string) returns (r: NamedOutcome)
      modifies this
      ensures name !in old(names) ==> r == NotFound && cleanups == old(cleanups) && names == old(names)
      ensures name in old(names) && !Live(old(cleanups), old(names)[name]) ==>
        r == AlreadyGone && cleanups == old(cleanups) && names == old(names)
      ensures name in old(names) && Live(old(cleanups), old(names)[name]) ==>
        r == Ran(old(cleanups)[old(names)[name]].value, SafeExecute(old(cleanups)[old(names)[name]].value))
        && cleanups == old(cleanups)[old(names)[name] := None]
        && names == old(names) - {name}
      ensures r.Ran? && old(Valid()) ==>
        old(names)[name] < |labels| && labels[old(names)[name]] == Some(name)
      ensures old(Valid()) ==> Valid()
    {
      if name !in names {
        return NotFound;
      }
      var idx := names[name];
      if idx >= |cleanups| || cleanups[idx].None? {
        return AlreadyGone;
      }
      var c := cleanups[idx].value;
      var e := SafeExecute(c);
      cleanups := cleanups[idx := None];
      names := names - {name};
      r := Ran(c, e);
    }

    /** ExecuteNamedKeep runs the named slot and leaves it registered. */
    method ExecuteNamedKeep(name: string) returns (r: NamedOutcome)
      ensures name !in names ==> r == NotFound
      ensures name in names && !Live(cleanups, names[name]) ==> r == AlreadyGone
      ensures name in names && Live(cleanups, names[name]) ==>
        r == Ran(cleanups[names[name]].value, SafeExecute(cleanups[names[name]].value))
    {
      if name !in names {
        return NotFound;
      }
      var idx := names[name];
      if idx >= |cleanups| || cleanups[idx].None? {
        return AlreadyGone;
      }
      var c := cleanups[idx].value;
      r := Ran(c, SafeExecute(c));
    }

    /** Clear empties the registry without running anything. */
    method Clear()
      modifies this
      ensures cleanups == [] && names == map[] && Valid()
    {
      cleanups := [];
      names := map[];
      labels := [];
    }

    /** Count: the number of non-nil slots, which is how many callbacks Execute would run. */
    method Count() returns (count: nat)
      ensures count == |RunOrder(cleanups)|
    {
      count := 0;
      var i := |cleanups|;
      while i > 0
        invariant 0 <= i <= |cleanups|
        invariant count == |RunOrder(cleanups[i..])|
      {
        i := i - 1;
        assert cleanups[i..][1..] == cleanups[i + 1..];
        if cleanups[i] != None {
          count := count + 1;
        }
      }
    }
  }

  /** RunOrder lists exactly the live callbacks, newest first. */
  lemma {:induction false} RunOrderSpec(slots: seq<Option<Cleanup>>)
    ensures forall c :: c in RunOrder(slots) <==> Some(c) in slots
    decreases |slots|
  {
    if |slots| > 0 {
      RunOrderSpec(slots[1..]);
      assert slots == [slots[0]] + slots[1..];
    }
  }

  /** The first error reported comes from the latest-registered callback that fails. */
  lemma {:induction false} FirstErrorIsLatest(slots: seq<Option<Cleanup>>)
    requires Errors(RunOrder(slots)) != []
    ensures exists k :: (0 <= k < |slots| && slots[k].Some?
      && SafeExecute(slots[k].value) == Some(Errors(RunOrder(slots))[0])
      && forall j :: k < j < |slots| && slots[j].Some? ==> SafeExecute(slots[j].value).None?)
    decreases |slots|
  {
    var rest := slots[1..];
    var own := if slots[0].Some? then [slots[0].value] else [];
    ErrorsAppend(RunOrder(rest), own);
    if Errors(RunOrder(rest)) != [] {
      FirstErrorIsLatest(rest);
      var k :| 0 <= k < |rest| && rest[k].Some?
        && SafeExecute(rest[k].value) == Some(Errors(RunOrder(rest))[0])
        && forall j :: k < j < |rest| && rest[j].Some? ==> SafeExecute(rest[j].value).None?;
      assert slots[k + 1] == rest[k];
      assert forall j :: k + 1 < j < |slots| ==> slots[j] == rest[j - 1];
      assert Errors(RunOrder(slots))[0] == Errors(RunOrder(rest))[0];
      assert SafeExecute(slots[k + 1].value) == Some(Errors(RunOrder(slots))[0]);
    } else {
      assert Errors(own) != [];
      assert own == [slots[0].value];
      assert Errors(own) == [SafeExecute(slots[0].value).value];
      NoErrorsSucceed(RunOrder(rest));
      RunOrderSpec(rest);
      forall j | 0 < j < |slots| && slots[j].Some?
        ensures SafeExecute(slots[j].value).None?
      {
        assert rest[j - 1] == slots[j];
        assert slots[j].value in RunOrder(rest);
      }
      assert SafeExecute(slots[0].value) == Some(Errors(RunOrder(slots))[0]);
    }
  }

  lemma {:induction false} ErrorsAppend(a: seq<Cleanup>, b: seq<Cleanup>)
    ensures Errors(a + b) == Errors(a) + Errors(b)
    decreases |b|
  {
    if |b| == 0 {
      assert a + b == a;
    } else {
      var n := |b| - 1;
      ErrorsAppend(a, b[..n]);
      assert (a + b)[..|a + b| - 1] == a + b[..n];
      assert (a + b)[|a + b| - 1] == b[n];
    }
  }

  /** A run that reports no error consists of callbacks that succeed. */
  lemma {:induction false} NoErrorsSucceed(rs: seq<Cleanup>)
    requires Errors(rs) == []
    ensures forall c :: c in rs ==> SafeExecute(c).None?
    decreases |rs|
  {
    if |rs| > 0 {
      var n := |rs| - 1;
      NoErrorsSucceed(rs[..n]);
      assert rs == rs[..n] + [rs[n]];
    }
  }

  /**
   * The stale name left by RemoveLast as written: after `AddNamed("db", f)`,
   * `RemoveLast()` and `Add(g)`, `ExecuteNamed("db")` runs `g`, a callback
   * that was never registered under that name.
   */
  method StaleNameAsWritten(f: Cleanup, g: Cleanup) returns (r: NamedOutcome)
    ensures r == Ran(g, SafeExecute(g))
  {
    var rc := new ResourceCleaner();
    rc.AddNamed("db", f);
    var _ := rc.RemoveLastAsWritten();
    rc.Add(g);
    assert rc.names == map["db" := 0];
    r := rc.ExecuteNamed("db");
  }

  /** The same sequence with the corrected RemoveLast: the name is gone. */
  method StaleNameCorrected(f: Cleanup, g: Cleanup) returns (r: NamedOutcome)
    ensures r == NotFound
  {
    var rc := new ResourceCleaner();
    rc.AddNamed("db", f);
    var _ := rc.RemoveLast();
    rc.Add(g);
    r := rc.ExecuteNamed("db");
  }
}
