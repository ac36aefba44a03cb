/** The `HashInsertTemp` extractor as an object: the `CrateParser` registry
    and matcher, the fields its setters assign in place, the records it
    stores, and the main loop over the lines of a log. Every state change is
    proved to follow the value-level definitions of module Extractor. */
module Parser {
  import opened Wrappers
  import opened Patterns
  import opened Dispatch
  import opened Extractor

  class HashInsertTemp {
    /** `re_funcs`: marker to its callbacks, in registration order. */
    var reFuncs: map<string, seq<Setter>>
    /** The keys of `re_funcs` in the order they were first inserted. */
    var order: seq<string>
    /** The compiled matcher: the literal alternatives of `get_re()`. */
    var matcher: seq<string>

    var pallet: Option<string>
    var name: Option<string>
    var destinationCoordSys: Option<string>
    var startTime: Option<string>
    var stopTime: Option<string>
    var addNumber: Option<string>
    var records: seq<string>

    /** The fields and records as a value. */
    function State(): ParserState
      reads this
    {
      ParserState(pallet, name, destinationCoordSys, startTime, stopTime, addNumber, records)
    }

    /** The registry and matcher as the constructor leaves them. */
    ghost predicate Valid()
      reads this
    {
      reFuncs == Registry() && order == Markers() && matcher == Markers()
    }

    /** The `HashInsertTemp` constructor: the base class's part, its own
        three registrations, and the matcher compiled from `get_re`. */
    constructor ()
      ensures Valid() && State() == Initial()
    {
      new;
      InitCrateParser();
      ghost var r3 := Registration(reFuncs, order);
      AddMatchFunction(StartMarker, StartParse);
      startTime := None;
      ghost var r4 := Registration(reFuncs, order);
      AddMatchFunction(StopMarker, SetAdds);
      addNumber := None;
      ghost var r5 := Registration(reFuncs, order);
      AddMatchFunction(StopMarker, EndParse);
      stopTime := None;
      BuiltRegistry(r3, r4, r5, Registration(reFuncs, order));
      CompileMatcher();
    }

    /** The `CrateParser` constructor: an empty registry, the pallet, name
        and coordinate-system callbacks registered in that order, every
        field unset and no records. */
    method InitCrateParser()
      modifies this`reFuncs, this`order, this`pallet, this`name, this`destinationCoordSys,
               this`startTime, this`stopTime, this`addNumber, this`records
      ensures Registration(reFuncs, order) == BaseRegistrations()
      ensures State() == Initial()
    {
      reFuncs, order := map[], [];
      pallet := None;
      AddMatchFunction(PalletMarker, SetPallet);
      ghost var r1 := Registration(reFuncs, order);
      name := None;
      AddMatchFunction(NameMarker, SetName);
      ghost var r2 := Registration(reFuncs, order);
      destinationCoordSys := None;
      AddMatchFunction(CoordSysMarker, SetCoordSys);
      BaseChain(r1, r2, Registration(reFuncs, order));
      startTime, stopTime, addNumber := None, None, None;
      records := [];
    }

    /** `self.matcher = re.compile(self.get_re())`: the compiled matcher's
        alternatives are exactly the registry's keys, in key order. */
    method CompileMatcher()
      requires order == Markers()
      modifies this`matcher
      ensures matcher == order
      ensures State() == old(State())
    {
      MarkersLiteral();
      CompileGetRe(order);
      matcher := Compile(GetRe(order)).value;
    }

    /** `add_match_function`, on the registry and its key order. */
    method AddMatchFunction(marker: string, f: Setter)
      modifies this`reFuncs, this`order
      ensures State() == old(State()) && matcher == old(matcher)
      ensures Registration(reFuncs, order) == Register(Registration(old(reFuncs), old(order)), marker, f)
    {
      var funcs := if marker in reFuncs then reFuncs[marker] + [f] else [f];
      if marker !in reFuncs {
        order := order + [marker];
      }
      reFuncs := reFuncs[marker := funcs];
    }

    /** `reset_fields`. */
    method ResetFields()
      modifies this`name, this`startTime, this`stopTime, this`addNumber
      ensures State() == Reset(old(State()))
    {
      name, startTime, stopTime, addNumber := None, None, None, None;
    }

    /** `store_record`: appends the record line, then resets. */
    method StoreRecord()
      modifies this`records, this`name, this`startTime, this`stopTime, this`addNumber
      ensures State() == Store(old(State()))
    {
      records := records + [Render(State())];
      ResetFields();
    }

    /** `set_pallet`; `ok` is false where the missing capture raises. */
    method SetPalletField(line: string) returns (ok: bool)
      modifies this`pallet
      ensures ok <==> Apply(old(State()), SetPallet, line).Some?
      ensures ok ==> State() == Apply(old(State()), SetPallet, line).value
    {
      var v := Search(line, PalletMatcher);
      ok := v.Some?;
      if ok {
        pallet := v;
      }
    }

    /** `set_name`: resets first, then reads the destination name. */
    method SetNameField(line: string) returns (ok: bool)
      modifies this`name, this`startTime, this`stopTime, this`addNumber
      ensures ok <==> Apply(old(State()), SetName, line).Some?
      ensures ok ==> State() == Apply(old(State()), SetName, line).value
    {
      ResetFields();
      var v := Search(line, NameMatcher);
      ok := v.Some?;
      if ok {
        name := v;
      }
    }

    /** `set_destination_coord_sys`. */
    method SetDestinationCoordSys(line: string) returns (ok: bool)
      modifies this`destinationCoordSys
      ensures ok <==> Apply(old(State()), SetCoordSys, line).Some?
      ensures ok ==> State() == Apply(old(State()), SetCoordSys, line).value
    {
      var v := Search(line, CoordSysMatcher);
      ok := v.Some?;
      if ok {
        destinationCoordSys := v;
      }
    }

    /** `start_parse`: the line's first time stamp becomes the start time. */
    method StartParseLine(line: string) returns (ok: bool)
      modifies this`startTime
      ensures ok <==> Apply(old(State()), StartParse, line).Some?
      ensures ok ==> State() == Apply(old(State()), StartParse, line).value
    {
      var v := Search(line, TimeMatcher);
      ok := v.Some?;
      if ok {
        startTime := v;
      }
    }

    /** `set_adds`: the digits after `added: ` become the add count. */
    method SetAddsField(line: string) returns (ok: bool)
      modifies this`addNumber
      ensures ok <==> Apply(old(State()), SetAdds, line).Some?
      ensures ok ==> State() == Apply(old(State()), SetAdds, line).value
    {
      var v := Search(line, AddsMatcher);
      ok := v.Some?;
      if ok {
        addNumber := v;
      }
    }

    /** `end_parse`: the line's first time stamp becomes the stop time, then
        the record is stored. */
    method EndParseLine(line: string) returns (ok: bool)
      modifies this`stopTime, this`records, this`name, this`startTime, this`addNumber
      ensures ok <==> Apply(old(State()), EndParse, line).Some?
      ensures ok ==> State() == Apply(old(State()), EndParse, line).value
    {
      var v := Search(line, TimeMatcher);
      ok := v.Some?;
      if ok {
        stopTime := v;
        StoreRecord();
      }
    }

    /** Calls one registered callback on a line. */
    method Invoke(f: Setter, line: string) returns (ok: bool)
      modifies this`pallet, this`name, this`destinationCoordSys, this`startTime,
               this`stopTime, this`addNumber, this`records
      ensures ok <==> Apply(old(State()), f, line).Some?
      ensures ok ==> State() == Apply(old(State()), f, line).value
    {
      match f
      case SetPallet => ok := SetPalletField(line);
      case SetName => ok := SetNameField(line);
      case SetCoordSys => ok := SetDestinationCoordSys(line);
      case StartParse => ok := StartParseLine(line);
      case SetAdds => ok := SetAddsField(line);
      case EndParse => ok := EndParseLine(line);
    }

    /** `call_match_functions`: every callback of the marker, in
        registration order, until one fails. */
    method CallMatchFunctions(marker: string, line: string) returns (ok: bool)
      requires marker in reFuncs
      modifies this`pallet, this`name, this`destinationCoordSys, this`startTime,
               this`stopTime, this`addNumber, this`records
      ensures ok <==> ApplyAll(old(State()), reFuncs[marker], line).Some?
      ensures ok ==> State() == ApplyAll(old(State()), reFuncs[marker], line).value
    {
      var funcs := reFuncs[marker];
      ghost var start := State();
      var i := 0;
      ok := true;
      while i < |funcs|
        invariant 0 <= i <= |funcs|
        invariant ApplyAll(start, funcs[..i], line) == Some(State())
      {
        assert funcs[..i + 1][..i] == funcs[..i];
        ok := Invoke(funcs[i], line);
        if !ok {
          ApplyAllAbort(start, funcs, i + 1, line);
          return;
        }
        i := i + 1;
      }
      assert funcs[..i] == funcs;
    }

    /** One line of the main loop: search the matcher, and when a marker is
        found, call its callbacks. */
    method ProcessLine(line: string) returns (ok: bool)
      requires Valid()
      modifies this`pallet, this`name, this`destinationCoordSys, this`startTime,
               this`stopTime, this`addNumber, this`records
      ensures Valid()
      ensures ok <==> Step(old(State()), line).Some?
      ensures ok ==> State() == Step(old(State()), line).value
    {
      var m := SearchAlternation(line, matcher);
      if m.Some? {
        ok := CallMatchFunctions(m.value, line);
      } else {
        ok := true;
      }
    }
  }

  /** The three registrations of `HashInsertTemp`, made after the base
      class's, build the registry. */
  lemma BuiltRegistry(r3: Registration, r4: Registration, r5: Registration, r6: Registration)
    requires r3 == BaseRegistrations()
    requires r4 == Register(r3, StartMarker, StartParse)
    requires r5 == Register(r4, StopMarker, SetAdds)
    requires r6 == Register(r5, StopMarker, EndParse)
    ensures r6.funcs == Registry() && r6.order == Markers()
  {
    RegistrationsBuildRegistry();
  }

  /** Once a prefix of the callbacks fails, the whole list fails. */
  lemma {:induction false} ApplyAllAbort(st: ParserState, fs: seq<Setter>, n: nat, line: string)
    requires n <= |fs| && ApplyAll(st, fs[..n], line).None?
    ensures ApplyAll(st, fs, line).None?
    decreases |fs| - n
  {
    if n < |fs| {
      assert fs[..n + 1][..n] == fs[..n];
      ApplyAllAbort(st, fs, n + 1, line);
    } else {
      assert fs[..n] == fs;
    }
  }

  lemma SplitAt<T>(xs: seq<T>, i: nat)
    requires i < |xs|
    ensures xs[..i] + [xs[i]] + xs[i + 1..] == xs
  {
  }

  /** The main program on a log given as its lines: the records the extractor
      holds at the end, or `ok == false` (and nothing) when a line aborts. */
  method ParseLog(lines: seq<string>) returns (ok: bool, records: seq<string>)
    ensures ok <==> Scan(Initial(), lines).Some?
    ensures ok ==> records == Scan(Initial(), lines).value.records
    ensures !ok ==> records == []
  {
    var t := new HashInsertTemp();
    var i := 0;
    while i < |lines|
      invariant 0 <= i <= |lines|
      invariant t.Valid()
      invariant Scan(Initial(), lines[..i]) == Some(t.State())
    {
      ScanNext(Initial(), lines, i);
      ok := t.ProcessLine(lines[i]);
      if !ok {
        ScanAbort(Initial(), lines[..i], lines[i], lines[i + 1..]);
        SplitAt(lines, i);
        records := [];
        return;
      }
      i := i + 1;
    }
    assert lines[..i] == lines;
    ok, records := true, t.records;
  }
}
