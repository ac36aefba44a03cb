/** What the `HashInsertTemp` extractor does to its fields, written as
    functions on a value: each setter, the callbacks of one marker in order,
    one dispatched line, and a whole scan. The class in module Parser is
    proved to follow these definitions. */
module Extractor {
  import opened Wrappers
  import opened Patterns
  import opened Dispatch

  const PalletMarker := "lift:   39"
  const NameMarker := "lift:   56"
  const CoordSysMarker := "destination_coordinate_system"
  const StartMarker := "core:  237"
  const StopMarker := "core:  147"

  /** The callbacks registered against markers. */
  datatype Setter = SetPallet | SetName | SetCoordSys | StartParse | SetAdds | EndParse

  /** The registry the extractor's constructors build: the add-count marker and
      the stop marker are the same string, so its list holds both callbacks. */
  function Registry(): map<string, seq<Setter>> {
    map[PalletMarker := [SetPallet], NameMarker := [SetName], CoordSysMarker := [SetCoordSys],
        StartMarker := [StartParse], StopMarker := [SetAdds, EndParse]]
  }

  /** The registry's keys in the order they were first registered. */
  function Markers(): seq<string> {
    [PalletMarker, NameMarker, CoordSysMarker, StartMarker, StopMarker]
  }

  /** A registry together with its keys in insertion order, the order in
      which a Python dict yields its keys. */
  datatype Registration = Registration(funcs: map<string, seq<Setter>>, order: seq<string>)

  /** `add_match_function`: the callback joins the end of the marker's list;
      a marker seen for the first time starts a list of its own and becomes
      the last key. */
  function Register(r: Registration, marker: string, f: Setter): Registration {
    if marker in r.funcs then Registration(r.funcs[marker := r.funcs[marker] + [f]], r.order)
    else Registration(r.funcs[marker := [f]], r.order + [marker])
  }

  /** The key order lists every key of the registry exactly once. */
  ghost predicate KeysInOrder(r: Registration) {
    (forall i, j :: 0 <= i < j < |r.order| ==> r.order[i] != r.order[j])
    && (forall m :: m in r.order <==> m in r.funcs)
  }

  /** Registering keeps the key order exact, puts the callback last in its
      marker's list behind the ones already there, and leaves every other
      marker's list alone. */
  lemma RegisterKeepsOrder(r: Registration, marker: string, f: Setter)
    requires KeysInOrder(r)
    ensures KeysInOrder(Register(r, marker, f))
    ensures var r' := Register(r, marker, f);
      marker in r'.funcs
      && r'.funcs[marker] == (if marker in r.funcs then r.funcs[marker] else []) + [f]
      && (forall m :: m != marker ==> (m in r'.funcs <==> m in r.funcs))
      && (forall m :: m != marker && m in r.funcs ==> r'.funcs[m] == r.funcs[m])
  {
  }

  /** The registrations of the `CrateParser` constructor, in its order:
      pallet, destination name, coordinate system. */
  function BaseRegistrations(): Registration {
    var r0 := Registration(map[], []);
    var r1 := Register(r0, PalletMarker, SetPallet);
    var r2 := Register(r1, NameMarker, SetName);
    Register(r2, CoordSysMarker, SetCoordSys)
  }

  /** Three registrations made one after the other, as the `CrateParser`
      constructor makes them. */
  lemma BaseChain(r1: Registration, r2: Registration, r3: Registration)
    requires r1 == Register(Registration(map[], []), PalletMarker, SetPallet)
    requires r2 == Register(r1, NameMarker, SetName)
    requires r3 == Register(r2, CoordSysMarker, SetCoordSys)
    ensures r3 == BaseRegistrations()
  {
  }

  /** The `HashInsertTemp` constructor's registrations after the base
      class's: start, add count and stop, the last two on the same marker. */
  function Registrations(): Registration {
    var r4 := Register(BaseRegistrations(), StartMarker, StartParse);
    var r5 := Register(r4, StopMarker, SetAdds);
    Register(r5, StopMarker, EndParse)
  }

  /** The constructors build exactly `Registry()`, with the markers as keys
      in the order of `Markers()`. */
  lemma RegistrationsBuildRegistry()
    ensures Registrations() == Registration(Registry(), Markers())
    ensures KeysInOrder(Registrations())
  {
    MarkersDistinct();
    assert [SetAdds] + [EndParse] == [SetAdds, EndParse];
  }

  /** Two strings that differ at an index both reach: neither is a prefix
      of the other. */
  lemma DifferAt(a: string, b: string, k: nat)
    requires k < |a| && k < |b| && a[k] != b[k]
    ensures !IsPrefix(a, b) && !IsPrefix(b, a)
  {
    if |a| <= |b| {
      assert b[..|a|][k] == b[k];
    }
    if |b| <= |a| {
      assert a[..|b|][k] == a[k];
    }
  }

  /** The markers are literal, none is a prefix of another, and they are
      exactly the registry's keys. */
  lemma MarkersWellFormed()
    ensures NoPrefix(Markers())
    ensures forall m :: m in Markers() ==> IsLiteral(m)
    ensures forall m :: m in Markers() <==> m in Registry()
  {
    MarkersNoPrefix();
    MarkersLiteral();
  }

  lemma MarkersNoPrefix()
    ensures NoPrefix(Markers())
  {
    DifferAt(PalletMarker, NameMarker, 8);
    DifferAt(PalletMarker, CoordSysMarker, 0);
    DifferAt(PalletMarker, StartMarker, 0);
    DifferAt(PalletMarker, StopMarker, 0);
    DifferAt(NameMarker, CoordSysMarker, 0);
    DifferAt(NameMarker, StartMarker, 0);
    DifferAt(NameMarker, StopMarker, 0);
    DifferAt(CoordSysMarker, StartMarker, 0);
    DifferAt(CoordSysMarker, StopMarker, 0);
    DifferAt(StartMarker, StopMarker, 7);
  }

  lemma MarkersDistinct()
    ensures PalletMarker != NameMarker && PalletMarker != CoordSysMarker
    ensures PalletMarker != StartMarker && PalletMarker != StopMarker
    ensures NameMarker != CoordSysMarker && NameMarker != StartMarker && NameMarker != StopMarker
    ensures CoordSysMarker != StartMarker && CoordSysMarker != StopMarker
    ensures StartMarker != StopMarker
  {
    MarkersNoPrefix();
  }

  lemma MarkersLiteral()
    ensures forall m :: m in Markers() ==> IsLiteral(m)
  {
    LiftMarkersLiteral();
    CoreMarkersLiteral();
    CoordSysLiteral();
  }

  lemma LiftMarkersLiteral()
    ensures IsLiteral(PalletMarker) && IsLiteral(NameMarker)
  {
  }

  lemma CoreMarkersLiteral()
    ensures IsLiteral(StartMarker) && IsLiteral(StopMarker)
  {
  }

  lemma CoordSysLiteral()
    ensures IsLiteral(CoordSysMarker)
  {
  }

  /** The callbacks registered against each marker. */
  lemma RegistryEntries()
    ensures Registry()[PalletMarker] == [SetPallet] && Registry()[NameMarker] == [SetName]
    ensures Registry()[CoordSysMarker] == [SetCoordSys] && Registry()[StartMarker] == [StartParse]
    ensures Registry()[StopMarker] == [SetAdds, EndParse]
  {
    MarkersDistinct();
  }

  lemma Callbacks(m: string)
    requires m in Registry()
    ensures || (m == PalletMarker && Registry()[m] == [SetPallet])
            || (m == NameMarker && Registry()[m] == [SetName])
            || (m == CoordSysMarker && Registry()[m] == [SetCoordSys])
            || (m == StartMarker && Registry()[m] == [StartParse])
            || (m == StopMarker && Registry()[m] == [SetAdds, EndParse])
  {
    MarkersDistinct();
  }

  /** The extractor's fields (`None` when unset) and its stored records. */
  datatype ParserState = ParserState(
    pallet: Option<string>,
    name: Option<string>,
    destinationCoordSys: Option<string>,
    startTime: Option<string>,
    stopTime: Option<string>,
    addNumber: Option<string>,
    records: seq<string>)

  function Initial(): ParserState {
    ParserState(None, None, None, None, None, None, [])
  }

  /** A field as string formatting shows it: an unset field reads `None`. */
  function Show(o: Option<string>): string {
    match o
    case None => "None"
    case Some(v) => v
  }

  /** The fields in the order of the record line. */
  function Columns(st: ParserState): seq<string> {
    [Show(st.pallet), Show(st.name), Show(st.destinationCoordSys),
     Show(st.startTime), Show(st.stopTime), Show(st.addNumber)]
  }

  /** Joins strings with a comma between each two. */
  function JoinCommas(xs: seq<string>): string
    decreases |xs|
  {
    if |xs| == 0 then ""
    else if |xs| == 1 then xs[0]
    else xs[0] + "," + JoinCommas(xs[1..])
  }

  /** The record line of `__str__`: the six fields, comma-separated. */
  function Render(st: ParserState): string {
    JoinCommas(Columns(st))
  }

  /** `reset_fields`: clears the per-record fields. */
  function Reset(st: ParserState): ParserState {
    st.(name := None, startTime := None, stopTime := None, addNumber := None)
  }

  /** `store_record`: appends exactly one record, the fields as they stand,
      then clears the per-record fields; pallet and coordinate system stay. */
  function Store(st: ParserState): (r: ParserState)
    ensures r.records == st.records + [Render(st)]
    ensures r.name == None && r.startTime == None && r.stopTime == None && r.addNumber == None
    ensures r.pallet == st.pallet && r.destinationCoordSys == st.destinationCoordSys
  {
    Reset(st.(records := st.records + [Render(st)]))
  }

  /** One callback on one line; `None` when the capture it reads is absent
      (where the source raises and the scan stops). */
  function Apply(st: ParserState, f: Setter, line: string): Option<ParserState> {
    match f
    case SetPallet =>
      var v :- Search(line, PalletMatcher);
      Some(st.(pallet := Some(v)))
    case SetName =>
      var v :- Search(line, NameMatcher);
      Some(Reset(st).(name := Some(v)))
    case SetCoordSys =>
      var v :- Search(line, CoordSysMatcher);
      Some(st.(destinationCoordSys := Some(v)))
    case StartParse =>
      var v :- Search(line, TimeMatcher);
      Some(st.(startTime := Some(v)))
    case SetAdds =>
      var v :- Search(line, AddsMatcher);
      Some(st.(addNumber := Some(v)))
    case EndParse =>
      var v :- Search(line, TimeMatcher);
      Some(Store(st.(stopTime := Some(v))))
  }

  /** `call_match_functions`: the callbacks in list order, stopping at the
      first that fails. */
  function ApplyAll(st: ParserState, fs: seq<Setter>, line: string): Option<ParserState>
    decreases |fs|
  {
    if |fs| == 0 then Some(st)
    else
      var s :- ApplyAll(st, fs[..|fs| - 1], line);
      Apply(s, fs[|fs| - 1], line)
  }

  /** The marker the extractor's matcher finds in a line, if any. */
  function Dispatched(line: string): (r: Option<string>)
    ensures r.Some? ==> r.value in Registry()
  {
    MarkersWellFormed();
    SearchAlternation(line, Markers())
  }

  /** One line of the main loop: dispatch the found marker's callbacks, or
      leave everything as it is when the line holds no marker. */
  function Step(st: ParserState, line: string): Option<ParserState> {
    match Dispatched(line)
    case None => Some(st)
    case Some(m) => ApplyAll(st, Registry()[m], line)
  }

  /** The main loop over the lines of a log; `None` once a line aborts it. */
  function Scan(st: ParserState, lines: seq<string>): Option<ParserState>
    decreases |lines|
  {
    if |lines| == 0 then Some(st)
    else
      var s :- Scan(st, lines[..|lines| - 1]);
      Step(s, lines[|lines| - 1])
  }

  /** The number of lines whose dispatched marker is the stop marker. */
  function CountStops(lines: seq<string>): nat
    decreases |lines|
  {
    if |lines| == 0 then 0
    else CountStops(lines[..|lines| - 1]) + (if Dispatched(lines[|lines| - 1]) == Some(StopMarker) then 1 else 0)
  }

  /** The captures the callbacks of marker `m` read are all in the line. */
  predicate CapturesPresent(m: string, line: string) {
    if m == PalletMarker then Search(line, PalletMatcher).Some?
    else if m == NameMarker then Search(line, NameMatcher).Some?
    else if m == CoordSysMarker then Search(line, CoordSysMatcher).Some?
    else if m == StartMarker then Search(line, TimeMatcher).Some?
    else Search(line, AddsMatcher).Some? && Search(line, TimeMatcher).Some?
  }

  // ---------------------------------------------------------------------
  // Properties of one line

  /** The stop marker's callbacks on a stop line: the add count and the stop
      time come from that same line, then the record is stored. */
  lemma ApplyStop(st: ParserState, line: string)
    ensures ApplyAll(st, [SetAdds, EndParse], line) ==
      if Search(line, AddsMatcher).None? || Search(line, TimeMatcher).None? then None
      else Some(Store(st.(addNumber := Search(line, AddsMatcher), stopTime := Search(line, TimeMatcher))))
  {
    assert [SetAdds, EndParse][..1] == [SetAdds];
    assert [SetAdds][..0] == [];
  }

  lemma ApplySingle(st: ParserState, f: Setter, line: string)
    ensures ApplyAll(st, [f], line) == Apply(st, f, line)
  {
    assert [f][..0] == [];
  }

  /** A line aborts the scan exactly when its dispatched marker needs a
      capture the line does not hold. */
  lemma StepFails(st: ParserState, line: string)
    ensures Step(st, line).None? <==>
            Dispatched(line).Some? && !CapturesPresent(Dispatched(line).value, line)
  {
    match Dispatched(line)
    case None =>
    case Some(m) =>
      Callbacks(m);
      if m == StopMarker {
        StepStopFails(st, line);
      } else {
        StepSingle(st, line, Registry()[m][0]);
      }
  }

  /** A line whose marker has the one callback `f` steps as `f` does. */
  lemma StepSingle(st: ParserState, line: string, f: Setter)
    requires Dispatched(line).Some? && Registry()[Dispatched(line).value] == [f]
    ensures Step(st, line) == Apply(st, f, line)
  {
    ApplySingle(st, f, line);
  }

  /** A stop line fails when it lacks the add count or the time stamp. */
  lemma StepStopFails(st: ParserState, line: string)
    requires Dispatched(line) == Some(StopMarker)
    ensures Step(st, line).None? <==> Search(line, AddsMatcher).None? || Search(line, TimeMatcher).None?
  {
    MarkersDistinct();
    ApplyStop(st, line);
  }

  /** A line in which no marker occurs leaves every field and the records as
      they were. */
  lemma StepUnmatched(st: ParserState, line: string)
    requires forall q, m :: m in Markers() ==> !StartsAt(line, m, q)
    ensures Step(st, line) == Some(st)
  {
  }

  /** A stop line appends exactly one record, built from the fields with that
      line's add count and stop time, and then clears the per-record fields
      while pallet and coordinate system stay. */
  lemma StepStop(st: ParserState, line: string)
    requires Dispatched(line) == Some(StopMarker)
    requires Step(st, line).Some?
    ensures var r := Step(st, line).value;
      && r.records == st.records + [Render(st.(addNumber := Search(line, AddsMatcher), stopTime := Search(line, TimeMatcher)))]
      && r.name == None && r.startTime == None && r.stopTime == None && r.addNumber == None
      && r.pallet == st.pallet && r.destinationCoordSys == st.destinationCoordSys
  {
    ApplyStop(st, line);
  }

  /** A destination line first clears start time, stop time and add count, then
      sets the name from the line; nothing else changes. */
  lemma StepName(st: ParserState, line: string)
    requires Dispatched(line) == Some(NameMarker)
    requires Step(st, line).Some?
    ensures var r := Step(st, line).value;
      && r.name == Search(line, NameMatcher) && r.name.Some?
      && r.startTime == None && r.stopTime == None && r.addNumber == None
      && r.pallet == st.pallet && r.destinationCoordSys == st.destinationCoordSys
      && r.records == st.records
  {
    ApplySingle(st, SetName, line);
  }

  /** Records grow only on stop lines, by exactly one, keeping what was there. */
  lemma StepRecords(st: ParserState, line: string)
    requires Step(st, line).Some?
    ensures var r := Step(st, line).value;
      && |r.records| == |st.records| + (if Dispatched(line) == Some(StopMarker) then 1 else 0)
      && r.records[..|st.records|] == st.records
  {
    match Dispatched(line)
    case None =>
    case Some(m) =>
      Callbacks(m);
      if m == StopMarker {
        StepStop(st, line);
      } else {
        var f := Registry()[m][0];
        ApplySingle(st, f, line);
        ApplyKeepsRecords(st, f, line);
      }
  }

  /** Every callback but the stop callback leaves the records alone. */
  lemma ApplyKeepsRecords(st: ParserState, f: Setter, line: string)
    requires f != EndParse && Apply(st, f, line).Some?
    ensures Apply(st, f, line).value.records == st.records
  {
  }

  // ---------------------------------------------------------------------
  // Properties of a whole scan

  /** Scanning two pieces of a log one after the other is scanning the whole. */
  lemma {:induction false} ScanConcat(st: ParserState, a: seq<string>, b: seq<string>)
    ensures Scan(st, a + b) == match Scan(st, a) case None => None case Some(s) => Scan(s, b)
    decreases |b|
  {
    if |b| == 0 {
      assert a + b == a;
    } else {
      var ab := a + b;
      assert ab[..|ab| - 1] == a + b[..|b| - 1];
      assert ab[|ab| - 1] == b[|b| - 1];
      ScanConcat(st, a, b[..|b| - 1]);
    }
  }

  /** Scanning one more line is one more step from where the scan of the
      earlier lines left off. */
  lemma ScanNext(st: ParserState, lines: seq<string>, i: nat)
    requires i < |lines|
    ensures Scan(st, lines[..i + 1])
         == (if Scan(st, lines[..i]).Some? then Step(Scan(st, lines[..i]).value, lines[i]) else None)
  {
    assert lines[..i + 1][..i] == lines[..i];
  }

  /** Once a line aborts the scan, no later line can undo it: nothing is
      output for the log. */
  lemma ScanAbort(st: ParserState, before: seq<string>, bad: string, after: seq<string>)
    requires Scan(st, before).Some? && Step(Scan(st, before).value, bad).None?
    ensures Scan(st, before + [bad] + after) == None
  {
    ScanConcat(st, before, [bad]);
    assert (before + [bad])[..|before|] == before;
    ScanConcat(st, before + [bad], after);
  }

  /** The records of a completed scan are the earlier records followed by
      exactly one new record per stop line. */
  lemma {:induction false} ScanRecords(st: ParserState, lines: seq<string>)
    requires Scan(st, lines).Some?
    ensures var r := Scan(st, lines).value;
      && |r.records| == |st.records| + CountStops(lines)
      && r.records[..|st.records|] == st.records
    decreases |lines|
  {
    if |lines| > 0 {
      var init := lines[..|lines| - 1];
      ScanRecords(st, init);
      var s := Scan(st, init).value;
      StepRecords(s, lines[|lines| - 1]);
      var r := Scan(st, lines).value;
      assert r.records[..|s.records|] == s.records;
      assert r.records[..|st.records|] == r.records[..|s.records|][..|st.records|];
    }
  }

  /** A log without stop lines, such as a start line that is never followed by
      a stop line, stores nothing. */
  lemma ScanUnterminated(st: ParserState, lines: seq<string>)
    requires Scan(st, lines).Some? && CountStops(lines) == 0
    ensures Scan(st, lines).value.records == st.records
  {
    ScanRecords(st, lines);
  }

  // ---------------------------------------------------------------------
  // The record line read back

  /** Splits a string at every comma. */
  function SplitCommas(s: string): (parts: seq<string>)
    ensures 0 < |parts|
    decreases |s|
  {
    if ',' !in s then [s]
    else
      var i := IndexOfComma(s, 0);
      [s[..i]] + SplitCommas(s[i + 1..])
  }

  function IndexOfComma(s: string, i: nat): (j: nat)
    requires i <= |s| && ',' in s[i..]
    ensures i <= j < |s| && s[j] == ',' && forall k :: i <= k < j ==> s[k] != ','
    decreases |s| - i
  {
    if s[i] == ',' then i
    else
      assert s[i..] == [s[i]] + s[i + 1..];
      IndexOfComma(s, i + 1)
  }

  lemma SplitFirst(a: string, b: string)
    requires ',' !in a
    ensures SplitCommas(a + "," + b) == [a] + SplitCommas(b)
  {
    var s := a + "," + b;
    assert s[|a|] == ',';
    assert ',' in s;
    assert s[0..] == s;
    var i := IndexOfComma(s, 0);
    forall k | 0 <= k < |a| ensures s[k] != ',' {
      assert s[k] == a[k];
    }
    assert i == |a|;
    assert s[..i] == a;
    assert s[i + 1..] == b;
  }

  /** Joining and then splitting at commas gives the pieces back, provided
      no piece holds a comma. */
  lemma {:induction false} SplitJoin(xs: seq<string>)
    requires 0 < |xs| && forall x :: x in xs ==> ',' !in x
    ensures SplitCommas(JoinCommas(xs)) == xs
    decreases |xs|
  {
    assert xs[0] in xs;
    if |xs| > 1 {
      forall x | x in xs[1..] ensures ',' !in x {
        assert x in xs;
      }
      SplitFirst(xs[0], JoinCommas(xs[1..]));
      SplitJoin(xs[1..]);
      assert [xs[0]] + xs[1..] == xs;
    }
  }

  /** A record line splits back into its six rendered fields, provided no
      field value holds a comma (the source does not escape them). */
  lemma RenderSplits(st: ParserState)
    requires forall x :: x in Columns(st) ==> ',' !in x
    ensures SplitCommas(Render(st)) == Columns(st)
    ensures |SplitCommas(Render(st))| == 6
  {
    SplitJoin(Columns(st));
  }
}
