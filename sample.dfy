/** The test lines kept (commented out) beside the main program, scanned
    by the model: the scan yields exactly two records. The lines are
    assembled from short pieces; the lemmas before the scan say what the
    matchers find in a line of each shape. */
module Sample {
  import opened Wrappers
  import opened Patterns
  import opened Dispatch
  import opened Extractor

  // ---------------------------------------------------------------------
  // What the matchers find in lines of a known shape

  /** A character in neither part is not in the whole. */
  lemma NotInJoin(c: char, a: string, b: string)
    requires c !in a && c !in b
    ensures c !in a + b
  {
  }

  /** A literal occurs where it was put. */
  lemma StartsAtJoin(a: string, p: string, b: string)
    ensures StartsAt(a + p + b, p, |a|)
  {
    StartsAtSlice(a + p + b, p, |a|);
    assert (a + p + b)[|a|..|a| + |p|] == p;
  }

  /** Every marker begins with one of `l`, `d`, `c`. */
  lemma MarkerInitials()
    ensures forall a :: a in Markers() ==> 0 < |a| && (a[0] == 'l' || a[0] == 'd' || a[0] == 'c')
  {
    assert PalletMarker[0] == 'l' && NameMarker[0] == 'l';
    assert CoordSysMarker[0] == 'd' && StartMarker[0] == 'c' && StopMarker[0] == 'c';
  }

  /** No marker starts at an index whose character begins none of them. */
  lemma NoMarkerAt(s: string, q: nat)
    requires q < |s| ==> s[q] != 'l' && s[q] != 'd' && s[q] != 'c'
    ensures forall a :: a in Markers() ==> !StartsAt(s, a, q)
  {
    MarkerInitials();
  }

  /** Text in which no marker can begin. */
  predicate NoInitials(s: string) {
    'l' !in s && 'd' !in s && 'c' !in s
  }

  lemma NoInitialsJoin(a: string, b: string)
    requires NoInitials(a) && NoInitials(b)
    ensures NoInitials(a + b)
  {
  }

  /** A marker placed after text holding no marker initial is what the
      matcher dispatches. */
  lemma DispatchAfter(head: string, m: string, rest: string)
    requires m in Markers()
    requires NoInitials(head)
    ensures Dispatched(head + m + rest) == Some(m)
  {
    var s := head + m + rest;
    StartsAtJoin(head, m, rest);
    forall q, a | 0 <= q < |head| && a in Markers() ensures !StartsAt(s, a, q) {
      assert s[q] == head[q];
      NoMarkerAt(s, q);
    }
    MarkersNoPrefix();
    SearchIsLeftmost(s, Markers(), m);
  }

  /** A line holding no marker initial dispatches nothing. */
  lemma DispatchNone(s: string)
    requires 'l' !in s && 'd' !in s && 'c' !in s
    ensures Dispatched(s) == None
  {
    forall q: nat, a | a in Markers() ensures !StartsAt(s, a, q) {
      NoMarkerAt(s, q);
    }
  }

  /** A time stamp placed after text with no colon is the first one. */
  lemma ClockAfter(head: string, clock: string, rest: string)
    requires ':' !in head
    requires |clock| == 8 && ClockAt(clock, 0)
    ensures Search(head + clock + rest, TimeMatcher) == Some(clock)
  {
    var s := head + clock + rest;
    var i := |head|;
    forall k | 0 <= k < 8 ensures s[i + k] == clock[k] { }
    assert ClockAt(s, i);
    forall q | 0 <= q < i ensures !ClockAt(s, q) {
      if q + 2 < i {
        assert s[q + 2] == head[q + 2];
      } else {
        assert s[q + 2] == clock[q + 2 - i];
      }
    }
    SearchAt(s, TimeMatcher, i);
    assert s[i..i + 8] == clock;
  }

  /** The run of class characters from `j` ends exactly at `e`. */
  lemma {:induction false} RunUntil(s: string, j: nat, e: nat, cls: CharClass)
    requires j <= e <= |s|
    requires forall k :: j <= k < e ==> InClass(cls, s[k])
    requires e == |s| || !InClass(cls, s[e])
    ensures Run(s, j, cls) == e - j
    decreases e - j
  {
    if j < e {
      RunUntil(s, j + 1, e, cls);
    }
  }

  /** A capture placed right after its prefix, ended by a character outside
      its class or by the end of the line, is what the matcher reads, as
      long as the prefix's first character does not occur earlier. */
  lemma AfterCapture(head: string, p: string, body: string, tail: string, cls: CharClass)
    requires 0 < |p| && p[0] !in head
    requires 0 < |body| && forall c :: c in body ==> InClass(cls, c)
    requires |tail| == 0 || !InClass(cls, tail[0])
    ensures Search(head + p + body + tail, After(p, cls)) == Some(body)
  {
    var s := head + p + body + tail;
    AfterLeftmost(head, p, body, tail, cls);
    SearchAt(s, After(p, cls), |head|);
    AfterGroup(head, p, body, tail, cls);
  }

  lemma AfterLeftmost(head: string, p: string, body: string, tail: string, cls: CharClass)
    requires 0 < |p| && p[0] !in head
    requires 0 < |body| && InClass(cls, body[0])
    ensures LeftmostAt(head + p + body + tail, After(p, cls), |head|)
  {
    var s := head + p + body + tail;
    assert s == head + p + (body + tail);
    StartsAtJoin(head, p, body + tail);
    assert s[|head| + |p|] == body[0];
    forall q | 0 <= q < |head| ensures !MatchesAt(s, After(p, cls), q) {
      assert s[q] == head[q];
    }
  }

  lemma AfterGroup(head: string, p: string, body: string, tail: string, cls: CharClass)
    requires 0 < |body| && forall c :: c in body ==> InClass(cls, c)
    requires |tail| == 0 || !InClass(cls, tail[0])
    requires MatchesAt(head + p + body + tail, After(p, cls), |head|)
    ensures Group(head + p + body + tail, After(p, cls), |head|) == body
  {
    var s := head + p + body + tail;
    var j := |head| + |p|;
    forall k | 0 <= k < |body| ensures s[j + k] == body[k] && InClass(cls, s[j + k]) {
      assert body[k] in body;
    }
    if |tail| > 0 {
      assert s[j + |body|] == tail[0];
    }
    RunUntil(s, j, j + |body|, cls);
    assert s[j..j + |body|] == body;
  }

  // ---------------------------------------------------------------------
  // The test lines

  const DebugDay := "DEBUG   02-08 "
  const InfoDay := "INFO    02-08 "
  const Gap := "       "
  /** The destination the first line names: single backslashes, as the
      doubled ones in the source's string literal denote. */
  const Destination := "C:\\Scheduled" + "\\staging" + "\\economy.gdb" + "\\EnterpriseZones"

  const NameHead := DebugDay + "01:02:11" + Gap
  const NameLine := NameHead + NameMarker + (" {   '" + "destination': '" + Destination + "'")
  const StartHead := InfoDay + "01:01:02" + Gap
  const StartLine := StartHead + StartMarker + " checking for changes..."
  const EmptyLine := "empty"
  const StopHead := DebugDay + "01:01:04" + Gap
  function StopLine(added: string): string {
    StopHead + StopMarker + (" Number of rows to be " + "added: " + added)
  }

  /** No text before the markers of the test lines holds a marker initial. */
  lemma NameHeadPlain()
    ensures NoInitials(NameHead)
  {
    NoInitialsJoin(DebugDay, "01:02:11");
    NoInitialsJoin(DebugDay + "01:02:11", Gap);
  }

  lemma StartHeadPlain()
    ensures NoInitials(StartHead)
  {
    NoInitialsJoin(InfoDay, "01:01:02");
    NoInitialsJoin(InfoDay + "01:01:02", Gap);
  }

  lemma StopHeadPlain()
    ensures NoInitials(StopHead)
  {
    NoInitialsJoin(DebugDay, "01:01:04");
    NoInitialsJoin(DebugDay + "01:01:04", Gap);
  }

  /** The destination holds no quote. */
  lemma DestinationFree()
    ensures '\'' !in Destination
  {
    NotInJoin('\'', "C:\\Scheduled", "\\staging");
    NotInJoin('\'', "C:\\Scheduled" + "\\staging", "\\economy.gdb");
    NotInJoin('\'', "C:\\Scheduled" + "\\staging" + "\\economy.gdb", "\\EnterpriseZones");
  }

  /** Nothing before the name prefix holds its first character. */
  lemma NameHeadFree()
    ensures 'd' !in NameHead + NameMarker + " {   '"
  {
    NameHeadPlain();
    NotInJoin('d', NameHead, NameMarker);
    NotInJoin('d', NameHead + NameMarker, " {   '");
  }

  /** Regroupings of concatenations, stated on variables so that the lines
      built from literals are not unfolded to prove them. */
  lemma Regroup5(x: string, a: string, p: string, b: string, t: string)
    ensures x + (a + p + b + t) == x + a + p + b + t
  {
  }

  lemma Regroup3(x: string, n: string, p: string, b: string)
    ensures x + (n + p + b) == x + n + p + b + ""
  {
  }

  function SampleLines(): seq<string> {
    [NameLine, StartLine, EmptyLine, StopLine("1666"), StartLine, EmptyLine, StopLine("200")]
  }

  lemma NameLineDispatch()
    ensures Dispatched(NameLine) == Some(NameMarker)
  {
    NameHeadPlain();
    DispatchAfter(NameHead, NameMarker, " {   '" + "destination': '" + Destination + "'");
  }

  lemma NameLineCapture()
    ensures Search(NameLine, NameMatcher) == Some(Destination)
  {
    DestinationFree();
    NameHeadFree();
    Regroup5(NameHead + NameMarker, " {   '", "destination': '", Destination, "'");
    AfterCapture(NameHead + NameMarker + " {   '", "destination': '", Destination, "'", Except('\''));
  }

  lemma StartLineDispatch()
    ensures Dispatched(StartLine) == Some(StartMarker)
  {
    StartHeadPlain();
    DispatchAfter(StartHead, StartMarker, " checking for changes...");
  }

  lemma StartLineTime()
    ensures Search(StartLine, TimeMatcher) == Some("01:01:02")
  {
    assert StartLine == InfoDay + "01:01:02" + (Gap + StartMarker + " checking for changes...");
    ClockAfter(InfoDay, "01:01:02", Gap + StartMarker + " checking for changes...");
  }

  lemma StopLineDispatch(added: string)
    ensures Dispatched(StopLine(added)) == Some(StopMarker)
  {
    StopHeadPlain();
    DispatchAfter(StopHead, StopMarker, " Number of rows to be " + "added: " + added);
  }

  lemma StopLineTime(added: string)
    ensures Search(StopLine(added), TimeMatcher) == Some("01:01:04")
  {
    var rest := " Number of rows to be " + "added: " + added;
    assert StopLine(added) == DebugDay + "01:01:04" + (Gap + StopMarker + rest);
    ClockAfter(DebugDay, "01:01:04", Gap + StopMarker + rest);
  }

  lemma StopLineAdds(added: string)
    requires 0 < |added| && forall c :: c in added ==> IsDigit(c)
    ensures Search(StopLine(added), AddsMatcher) == Some(added)
  {
    var head := StopHead + StopMarker + " Number of rows to be ";
    Regroup3(StopHead + StopMarker, " Number of rows to be ", "added: ", added);
    NotInJoin('a', DebugDay, "01:01:04");
    NotInJoin('a', DebugDay + "01:01:04", Gap);
    NotInJoin('a', StopHead, StopMarker);
    NotInJoin('a', StopHead + StopMarker, " Number of rows to be ");
    AfterCapture(head, "added: ", added, "", Digit);
  }

  // ---------------------------------------------------------------------
  // The scan

  lemma JoinSix(a: string, b: string, c: string, d: string, e: string, f: string)
    ensures JoinCommas([a, b, c, d, e, f]) == a + "," + b + "," + c + "," + d + "," + e + "," + f
  {
    var j4 := e + "," + f;
    var j3 := d + "," + j4;
    var j2 := c + "," + j3;
    var j1 := b + "," + j2;
    assert JoinCommas([e, f]) == j4 by {
      assert [e, f][1..] == [f];
    }
    assert JoinCommas([d, e, f]) == j3 by {
      assert [d, e, f][1..] == [e, f];
    }
    assert JoinCommas([c, d, e, f]) == j2 by {
      assert [c, d, e, f][1..] == [d, e, f];
    }
    assert JoinCommas([b, c, d, e, f]) == j1 by {
      assert [b, c, d, e, f][1..] == [c, d, e, f];
    }
    assert JoinCommas([a, b, c, d, e, f]) == a + "," + j1 by {
      assert [a, b, c, d, e, f][1..] == [b, c, d, e, f];
    }
  }

  /** The record a stop line with add count `added` stores after the start
      line, under destination `name`. */
  function SampleRecord(name: string, added: string): string {
    "None" + "," + name + "," + "None" + "," + "01:01:02" + "," + "01:01:04" + "," + added
  }

  function Holding(records: seq<string>): ParserState {
    Initial().(records := records)
  }

  lemma StepWithName(st: ParserState, line: string, v: string)
    requires Dispatched(line) == Some(NameMarker) && Search(line, NameMatcher) == Some(v)
    ensures Step(st, line) == Some(Reset(st).(name := Some(v)))
  {
    RegistryEntries();
    ApplySingle(st, SetName, line);
  }

  lemma StepWithStart(st: ParserState, line: string, t: string)
    requires Dispatched(line) == Some(StartMarker) && Search(line, TimeMatcher) == Some(t)
    ensures Step(st, line) == Some(st.(startTime := Some(t)))
  {
    RegistryEntries();
    ApplySingle(st, StartParse, line);
  }

  lemma StepWithStop(st: ParserState, line: string, t: string, n: string)
    requires Dispatched(line) == Some(StopMarker)
    requires Search(line, TimeMatcher) == Some(t) && Search(line, AddsMatcher) == Some(n)
    ensures Step(st, line) == Some(Store(st.(addNumber := Some(n), stopTime := Some(t))))
  {
    ApplyStop(st, line);
  }

  lemma SampleRender(st: ParserState, added: string)
    requires st.pallet == None && st.destinationCoordSys == None && st.startTime == Some("01:01:02")
    ensures Store(st.(addNumber := Some(added), stopTime := Some("01:01:04")))
         == Holding(st.records + [SampleRecord(Show(st.name), added)])
  {
    var full := st.(addNumber := Some(added), stopTime := Some("01:01:04"));
    JoinSix("None", Show(st.name), "None", "01:01:02", "01:01:04", added);
    assert Columns(full) == ["None", Show(st.name), "None", "01:01:02", "01:01:04", added];
  }

  /** One more line is one more step. */
  lemma ScanSnoc(st: ParserState, lines: seq<string>, line: string, s: ParserState)
    requires Scan(st, lines) == Some(s)
    ensures Scan(st, lines + [line]) == Step(s, line)
  {
    assert (lines + [line])[..|lines|] == lines;
  }

  lemma DigitsSample()
    ensures forall c :: c in "1666" ==> IsDigit(c)
    ensures forall c :: c in "200" ==> IsDigit(c)
  {
    assert "1666" == ['1', '6', '6', '6'];
    assert "200" == ['2', '0', '0'];
  }

  /** A start line, a line without a marker and a stop line, from a state with
      no pallet and no coordinate system: one record is stored. */
  lemma ScanStartStop(st: ParserState, startLine: string, other: string, stop: string, added: string)
    requires st.pallet == None && st.destinationCoordSys == None
    requires Dispatched(startLine) == Some(StartMarker) && Search(startLine, TimeMatcher) == Some("01:01:02")
    requires Dispatched(other) == None
    requires Dispatched(stop) == Some(StopMarker)
    requires Search(stop, TimeMatcher) == Some("01:01:04") && Search(stop, AddsMatcher) == Some(added)
    ensures Scan(st, [startLine, other, stop]) == Some(Holding(st.records + [SampleRecord(Show(st.name), added)]))
  {
    var s1 := st.(startTime := Some("01:01:02"));
    StepWithStart(st, startLine, "01:01:02");
    StepWithStop(s1, stop, "01:01:04", added);
    SampleRender(s1, added);
    ScanThree(st, startLine, other, stop, s1, s1, Store(s1.(addNumber := Some(added), stopTime := Some("01:01:04"))));
  }

  /** Three lines that step from state to state. */
  lemma ScanThree(st: ParserState, a: string, b: string, c: string, s1: ParserState, s2: ParserState, s3: ParserState)
    requires Step(st, a) == Some(s1) && Step(s1, b) == Some(s2) && Step(s2, c) == Some(s3)
    ensures Scan(st, [a, b, c]) == Some(s3)
  {
    ScanSnoc(st, [], a, st);
    assert [] + [a] == [a];
    ScanSnoc(st, [a], b, s1);
    assert [a] + [b] == [a, b];
    ScanSnoc(st, [a, b], c, s2);
    assert [a, b] + [c] == [a, b, c];
  }


  /** The seven test lines as a first line and two blocks of three, stated on
      variables for the same reason as the regroupings above. */
  lemma SevenLines<T>(a: T, b: T, c: T, d: T, e: T, f: T, g: T)
    ensures [a] + ([b, c, d] + [e, f, g]) == [a, b, c, d, e, f, g]
  {
  }

  /** A destination line, scanned first. */
  lemma ScanNameLine(line: string, dest: string)
    requires Dispatched(line) == Some(NameMarker) && Search(line, NameMatcher) == Some(dest)
    ensures Scan(Initial(), [line]) == Some(Initial().(name := Some(dest)))
  {
    StepWithName(Initial(), line, dest);
    ScanOne(Initial(), line, Initial().(name := Some(dest)));
  }

  /** Two blocks of lines scanned one after the other from a state with no
      records, each storing one record. */
  lemma ScanTwoBlocks(st: ParserState, b1: seq<string>, b2: seq<string>, r1: string, r2: string)
    requires st.records == []
    requires Scan(st, b1) == Some(Holding(st.records + [r1]))
    requires Scan(Holding([r1]), b2) == Some(Holding([r1] + [r2]))
    ensures Scan(st, b1 + b2) == Some(Holding([r1, r2]))
  {
    assert st.records + [r1] == [r1] && [r1] + [r2] == [r1, r2];
    ScanConcat(st, b1, b2);
  }


  lemma ScanOne(st: ParserState, a: string, s1: ParserState)
    requires Step(st, a) == Some(s1)
    ensures Scan(st, [a]) == Some(s1)
  {
    ScanSnoc(st, [], a, st);
    assert [] + [a] == [a];
  }

  lemma EmptyLineRead()
    ensures Dispatched(EmptyLine) == None
  {
    DispatchNone(EmptyLine);
  }

  /** The test lines produce exactly two records: a first one naming the
      destination, with the start and stop times and add count of the lines
      after it, and a second one with no destination (the first record's
      reset cleared it), the same times and the second add count; pallet and
      coordinate system stay unset in both. */
  lemma SampleScan()
    ensures Scan(Initial(), SampleLines())
         == Some(Holding([SampleRecord(Destination, "1666"), SampleRecord("None", "200")]))
  {
    NameLineDispatch();
    NameLineCapture();
    StartLineDispatch();
    StartLineTime();
    EmptyLineRead();
    DigitsSample();
    StopLineDispatch("1666");
    StopLineTime("1666");
    StopLineAdds("1666");
    StopLineDispatch("200");
    StopLineTime("200");
    StopLineAdds("200");
    ScanNameLine(NameLine, Destination);
    var b1, b2 := [StartLine, EmptyLine, StopLine("1666")], [StartLine, EmptyLine, StopLine("200")];
    var named := Initial().(name := Some(Destination));
    var r1, r2 := SampleRecord(Destination, "1666"), SampleRecord("None", "200");
    ScanStartStop(named, StartLine, EmptyLine, StopLine("1666"), "1666");
    ScanStartStop(Holding([r1]), StartLine, EmptyLine, StopLine("200"), "200");
    ScanTwoBlocks(named, b1, b2, r1, r2);
    ScanConcat(Initial(), [NameLine], b1 + b2);
    SevenLines(NameLine, StartLine, EmptyLine, StopLine("1666"), StartLine, EmptyLine, StopLine("200"));
  }
}
