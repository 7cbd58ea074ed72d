/** The IPMI sensor sampler (`IpmiMon` in ipmimon.py): the sensor list built
    from the configured record ids, one sampling round over it with its
    error counter and threshold, and the text each sample emits. The pyipmi
    calls are inputs: `fetch` stands for `get_repository_sdr` and a
    `ReadOutcome` for what `get_sensor_reading` and the raw-to-value
    conversion did for one sensor. */
module Monitor {
  import opened Wrappers
  import opened Format

  // ---------------------------------------------------------------------------
  // Sensor data records and sample outcomes

  /** The record formats of section 43 of the IPMI v2.0 specification that the
      sampler tells apart: Full (43.1), Compact (43.2) and every other type. */
  datatype SdrKind = FullSensor | CompactSensor | OtherRecord

  /** The fields of an SDR the sampler uses; `name` is the device id string as
      `%s` renders it. */
  datatype Sdr = Sdr(id: int, number: int, name: string, kind: SdrKind)

  /** A converted reading and its `str()` text. */
  datatype Reading = Reading(value: real, text: string)

  /** What reading one sensor did: returned a (possibly absent) raw value and
      state bits, failed with an IPMI completion code, or raised anything else
      (`name` is the exception's type as printed). */
  datatype ReadOutcome =
    | Read(raw: Option<Reading>, states: Option<int>)
    | CompletionCodeError(cc: int)
    | OtherError(name: string)

  /** What `_sample_sensor` returns: a value, `None` or `False`. */
  datatype SampleResult = Value(v: real) | NoValue | Failed

  /** A line handed to the logger or printed. */
  datatype Emitted = Logged(text: string) | Printed(text: string)

  /** A line a sample emits, as the call that emits it: `emit_sdr_list_entry`
      with its arguments, or one of the two error prints. */
  datatype Line =
    | SdrListEntry(recordId: int, number: Option<int>, idString: string, valueText: string,
                   states: Option<int>)
    | CompletionCodeLine(sdr: Sdr, cc: int)
    | ErrorLine(name: string)

  /** One sample: its result and the line it emitted, if any. */
  datatype Sampled = Sampled(result: SampleResult, line: Option<Line>)

  /** One entry of `get_sensor_descriptions`. */
  datatype Description = Description(name: string, recordId: int, number: int)

  /** The exceptions the sampler raises. */
  datatype MonError =
    | NotConnected          // "ERR: Not connected to the IPMI interface."
    | NoSdrRepository       // "ERR: IPMI does not support 'sdr_repository' function."
    | NoRecords             // "ERR: No device/sensor records requests."
    | NoConnectionObject    // AttributeError: `self.connection` is still None
    | TooManyErrors         // "ERR: Maximum consecutive errors reached."

  datatype Status = Ok | Raised(error: MonError)

  // ---------------------------------------------------------------------------
  // emit_sdr_list_entry

  /** The number column: `str(number)` when truthy, otherwise 'na'. */
  function NumberText(number: Option<int>): (r: string)
    ensures r == "na" <==> number.None? || number.value == 0
    ensures number.Some? && number.value != 0 ==> ParseSigned(r, 10) == number.value
    ensures number.Some? && number.value != 0 ==> IsNumeral(r, number.value, 0, 10)
  {
    if number.Some? && number.value != 0 then
      var r := Decimal(number.value);
      assert r != "na" by { assert r[0] != 'n'; }
      DecimalNumeral(number.value);
      r
    else "na"
  }

  /** The states column: `hex(states)` when truthy, otherwise 'na'. */
  function StatesText(states: Option<int>): (r: string)
    ensures r == "na" <==> states.None? || states.value == 0
    ensures states.Some? && states.value != 0 ==> ParseHex(r) == states.value
    ensures states.Some? && states.value != 0 ==> IsHexText(r, states.value)
  {
    if states.Some? && states.value != 0 then
      HexText(states.value);
      Hex(states.value)
    else "na"
  }

  /** The record id column `0x%04x`: "0x", then the id in at least four
      hexadecimal digits (after a '-' for negatives). */
  function IdCell(recordId: int): (r: string)
    ensures |r| >= 6 && r[..2] == "0x"
    ensures ParseSigned(r[2..], 16) == recordId
    ensures IsNumeral(r[2..], recordId, 4, 16)
  {
    PaddedNumeral(recordId, 4, 16);
    var r := "0x" + Padded(recordId, 4, 16);
    assert r[2..] == Padded(recordId, 4, 16);
    r
  }

  /** Table columns separated by " | ": every cell at its `CellStart`, and
      " | " after every cell but the last (`IsJoin`). */
  function Columns(cells: seq<string>): (r: string)
    ensures cells != [] ==> StartsWith(r, cells[0]) && IsJoin(r, cells)
    decreases |cells|
  {
    if cells == [] then ""
    else if |cells| == 1 then
      assert cells[0][0..|Cell(cells, 0)|] == Cell(cells, 0);
      cells[0]
    else
      var rest := Columns(cells[1..]);
      JoinCons(cells, rest);
      assert (cells[0] + " | " + rest)[..|cells[0]|] == cells[0];
      cells[0] + " | " + rest
  }

  /** Where cell `k` starts once `cells` are joined by " | ". */
  function CellStart(cells: seq<string>, k: nat): nat
    requires k <= |cells|
  {
    if k == 0 then 0 else CellStart(cells, k - 1) + |cells[k - 1]| + 3
  }

  /** Cell `k` of a row; a name of its own, so that the facts about a join
      are used only for the cells a proof talks about. */
  function Cell(cells: seq<string>, k: nat): string
    requires k < |cells|
  {
    cells[k]
  }

  /** `r` is `cells` joined by " | ": every cell in its place, " | " between
      each two, and nothing else. */
  predicate IsJoin(r: string, cells: seq<string>) {
    |cells| >= 1 && JoinLength(r, cells) && CellsPlaced(r, cells) && SeparatorsPlaced(r, cells)
  }

  predicate JoinLength(r: string, cells: seq<string>)
    requires |cells| >= 1
  {
    |r| == CellStart(cells, |cells| - 1) + |cells[|cells| - 1]|
  }

  /** Cell `k` sits at `CellStart(cells, k)`. */
  predicate CellsPlaced(r: string, cells: seq<string>) {
    forall k {:trigger Cell(cells, k)} :: 0 <= k < |cells| ==>
      CellStart(cells, k) + |Cell(cells, k)| <= |r|
      && r[CellStart(cells, k)..CellStart(cells, k) + |Cell(cells, k)|] == Cell(cells, k)
  }

  /** " | " follows every cell but the last. */
  predicate SeparatorsPlaced(r: string, cells: seq<string>) {
    forall k {:trigger Cell(cells, k)} :: 0 <= k < |cells| - 1 ==>
      CellStart(cells, k) + |Cell(cells, k)| + 3 <= |r|
      && r[CellStart(cells, k) + |Cell(cells, k)|..CellStart(cells, k + 1)] == " | "
  }

  /** Past the first cell, the cells of `cells` start where those of
      `cells[1..]` do, shifted by the first cell and its separator. */
  lemma {:induction false} CellStartShift(cells: seq<string>, k: nat)
    requires 1 <= k <= |cells|
    ensures CellStart(cells, k) == |cells[0]| + 3 + CellStart(cells[1..], k - 1)
    decreases k
  {
    if k > 1 {
      CellStartShift(cells, k - 1);
    }
  }

  /** A slice of `t` is the same slice of `p + t`, shifted by `p`. */
  lemma SliceShift(p: string, t: string, i: nat, j: nat)
    requires i <= j <= |t|
    ensures (p + t)[|p| + i..|p| + j] == t[i..j]
  {
    assert forall n :: 0 <= n < j - i ==> (p + t)[|p| + i..|p| + j][n] == t[i..j][n];
  }

  /** Putting a cell and " | " in front of a join of the other cells joins
      them all. */
  lemma JoinCons(cells: seq<string>, t: string)
    requires |cells| >= 2 && IsJoin(t, cells[1..])
    ensures IsJoin(cells[0] + " | " + t, cells)
  {
    CellStartShift(cells, |cells| - 1);
    CellsCons(cells, t);
    SeparatorsCons(cells, t);
  }

  lemma CellsCons(cells: seq<string>, t: string)
    requires |cells| >= 2 && CellsPlaced(t, cells[1..])
    ensures CellsPlaced(cells[0] + " | " + t, cells)
  {
    var rest, p := cells[1..], cells[0] + " | ";
    var r := p + t;
    assert r[..|cells[0]|] == Cell(cells, 0);
    forall k | 1 <= k < |cells|
      ensures CellStart(cells, k) + |Cell(cells, k)| <= |r|
              && r[CellStart(cells, k)..CellStart(cells, k) + |Cell(cells, k)|] == Cell(cells, k)
    {
      CellStartShift(cells, k);
      var x := Cell(rest, k - 1);
      assert Cell(cells, k) == x;
      var i := CellStart(rest, k - 1);
      SliceShift(p, t, i, i + |x|);
    }
  }

  lemma SeparatorsCons(cells: seq<string>, t: string)
    requires |cells| >= 2 && JoinLength(t, cells[1..]) && CellsPlaced(t, cells[1..])
    requires SeparatorsPlaced(t, cells[1..])
    ensures SeparatorsPlaced(cells[0] + " | " + t, cells)
  {
    var rest, p := cells[1..], cells[0] + " | ";
    var r := p + t;
    assert r[|Cell(cells, 0)|..|p|] == " | ";
    forall k | 1 <= k < |cells| - 1
      ensures CellStart(cells, k) + |Cell(cells, k)| + 3 <= |r|
              && r[CellStart(cells, k) + |Cell(cells, k)|..CellStart(cells, k + 1)] == " | "
    {
      CellStartShift(cells, k);
      CellStartShift(cells, k + 1);
      var x := Cell(rest, k - 1);
      assert Cell(cells, k) == x;
      var i := CellStart(rest, k - 1) + |x|;
      SliceShift(p, t, i, CellStart(rest, k));
    }
  }

  /** The logger message `"%d : %s" % (record_id, value)`: the record id in
      decimal, " : ", then the value text. */
  function LogMessage(recordId: int, valueText: string): (r: string)
    ensures var d := Decimal(recordId);
            && |r| == |d| + 3 + |valueText|
            && r[..|d|] == d && ParseSigned(r[..|d|], 10) == recordId
            && r[|d|..|d| + 3] == " : "
            && r[|d| + 3..] == valueText
  {
    PaddedRoundTrip(recordId, 0, 10);
    Joined(Decimal(recordId), " : ", valueText);
    Decimal(recordId) + " : " + valueText
  }

  /** The three parts of `a + sep + b`. */
  lemma Joined(a: string, sep: string, b: string)
    ensures var r := a + sep + b;
            && |r| == |a| + |sep| + |b| && r[..|a|] == a
            && r[|a|..|a| + |sep|] == sep && r[|a| + |sep|..] == b
  {
    var r := a + sep + b;
    assert r[..|a|] == a;
    assert r[|a|..|a| + |sep|] == sep;
    assert r[|a| + |sep|..] == b;
  }

  /** The table row `"0x%04x | %3s | %-18s | %9s | %s"`: the record id cell,
      the number right-justified in 3, the name left-justified in 18, the
      value right-justified in 9 and the states, joined by " | ". */
  function TableRow(recordId: int, number: Option<int>, idString: string, valueText: string,
                    states: Option<int>): (r: string)
    ensures StartsWith(r, IdCell(recordId))
    ensures IsJoin(r, [IdCell(recordId), PadLeft(NumberText(number), 3, ' '), PadRight(idString, 18),
                       PadLeft(valueText, 9, ' '), StatesText(states)])
  {
    var cells := [IdCell(recordId), PadLeft(NumberText(number), 3, ' '), PadRight(idString, 18),
                  PadLeft(valueText, 9, ' '), StatesText(states)];
    Columns(cells)
  }

  /** `emit_sdr_list_entry(record_id, number, id_string, value, states)`, with
      `valueText` the `%s` text of `value`: the record id and the value go to
      the logger when there is one, and the whole table row is printed
      otherwise. */
  function EmitSdrListEntry(hasLogger: bool, recordId: int, number: Option<int>, idString: string,
                            valueText: string, states: Option<int>): (e: Emitted)
    ensures e.Logged? <==> hasLogger
    ensures hasLogger ==> e.text == LogMessage(recordId, valueText)
    ensures !hasLogger ==> e.text == TableRow(recordId, number, idString, valueText, states)
  {
    if hasLogger then Logged(LogMessage(recordId, valueText))
    else Printed(TableRow(recordId, number, idString, valueText, states))
  }

  /** The printed row of any entry starts with its record id, which reads back. */
  lemma RowRecordId(recordId: int, number: Option<int>, idString: string, valueText: string,
                    states: Option<int>)
    ensures var row := EmitSdrListEntry(false, recordId, number, idString, valueText, states).text;
            |row| >= 6 && ParseSigned(row[2..|IdCell(recordId)|], 16) == recordId
  {
    var row := EmitSdrListEntry(false, recordId, number, idString, valueText, states).text;
    var id := IdCell(recordId);
    assert row[..|id|] == id;
    assert row[2..|id|] == id[2..];
  }

  /** The field `ERR: CC=0x{:02x}`: the completion code in at least two
      hexadecimal digits, which read back to it. */
  function CompletionCodeText(cc: int): (r: string)
    ensures |r| >= 12 && r[..10] == "ERR: CC=0x" && ParseSigned(r[10..], 16) == cc
    ensures IsNumeral(r[10..], cc, 2, 16)
  {
    PaddedNumeral(cc, 2, 16);
    var r := "ERR: CC=0x" + Padded(cc, 2, 16);
    assert r[..10] == "ERR: CC=0x" && r[10..] == Padded(cc, 2, 16);
    r
  }

  /** The line `'0x{:04x} | {:3d} | {:18s} | ERR: CC=0x{:02x}'` printed for a
      completion-code error: the record id cell, the number right-justified
      in 3, the name left-justified in 18 and the completion code, joined by
      " | ". */
  function CompletionCodeRow(s: Sdr, cc: int): (r: string)
    ensures StartsWith(r, IdCell(s.id))
    ensures IsJoin(r, [IdCell(s.id), PadLeft(Decimal(s.number), 3, ' '), PadRight(s.name, 18),
                       CompletionCodeText(cc)])
  {
    var cells := [IdCell(s.id), PadLeft(Decimal(s.number), 3, ' '), PadRight(s.name, 18),
                  CompletionCodeText(cc)];
    Columns(cells)
  }

  // ---------------------------------------------------------------------------
  // _sample_sensor

  /** The `%s` text of the sampled value: `str(value)`, or "None". */
  function ValueText(raw: Option<Reading>): string {
    if raw.Some? then raw.value.text else "None"
  }

  /** `_sample_sensor(s)` given what reading `s` did, with the `except:` branch
      able to print (see `SampleSensorAsWritten`). Only Full records are read:
      the Compact test is nested under the Full one, so any other record
      returns `None` without a line. */
  function SampleSensor(s: Sdr, o: ReadOutcome): (r: Sampled)
    ensures s.kind != FullSensor ==> r == Sampled(NoValue, None)
    ensures s.kind == FullSensor ==> r.line.Some?
    ensures s.kind == FullSensor && o.Read? ==>
              && r.result == (if o.raw.Some? then Value(o.raw.value.value) else NoValue)
              && r.line == Some(SdrListEntry(s.id, Some(s.number), s.name, ValueText(o.raw), o.states))
    ensures s.kind == FullSensor && o.CompletionCodeError? ==>
              r == Sampled(Failed, Some(CompletionCodeLine(s, o.cc)))
    ensures s.kind == FullSensor && o.OtherError? ==> r == Sampled(Failed, Some(ErrorLine(o.name)))
  {
    if s.kind != FullSensor then Sampled(NoValue, None)
    else match o
      case Read(raw, states) =>
        Sampled(if raw.Some? then Value(raw.value.value) else NoValue,
                Some(SdrListEntry(s.id, Some(s.number), s.name, ValueText(raw), states)))
      case CompletionCodeError(cc) => Sampled(Failed, Some(CompletionCodeLine(s, cc)))
      case OtherError(name) => Sampled(Failed, Some(ErrorLine(name)))
  }

  /** The text of a line: an SDR list entry goes to the logger when there is
      one and is printed as a table row otherwise; both error lines are
      printed. */
  function Render(hasLogger: bool, l: Line): (e: Emitted)
    ensures e.Logged? <==> hasLogger && l.SdrListEntry?
    ensures l.SdrListEntry? && hasLogger ==> e.text == LogMessage(l.recordId, l.valueText)
    ensures l.SdrListEntry? && !hasLogger ==>
              e.text == TableRow(l.recordId, l.number, l.idString, l.valueText, l.states)
    ensures l.CompletionCodeLine? ==> e.text == CompletionCodeRow(l.sdr, l.cc)
    ensures l.ErrorLine? ==>
              |e.text| == 21 + |l.name| && e.text[..21] == "Sample Sensor Error: "
              && e.text[21..] == l.name
  {
    match l
    case SdrListEntry(recordId, number, idString, valueText, states) =>
      EmitSdrListEntry(hasLogger, recordId, number, idString, valueText, states)
    case CompletionCodeLine(s, cc) => Printed(CompletionCodeRow(s, cc))
    case ErrorLine(name) =>
      Joined("Sample Sensor Error:", " ", name);
      Printed("Sample Sensor Error:" + " " + name)
  }

  /** `_sample_sensor` as written: ipmimon.py does not import `sys`, so the
      `except:` branch raises a NameError of its own and the failure escapes
      instead of returning `False` (`None` here). */
  function SampleSensorAsWritten(s: Sdr, o: ReadOutcome): (r: Option<Sampled>)
    ensures r.None? <==> s.kind == FullSensor && o.OtherError?
    ensures r.Some? ==> r.value == SampleSensor(s, o)
  {
    if s.kind == FullSensor && o.OtherError? then None else Some(SampleSensor(s, o))
  }

  /** A Full record whose conversion raises aborts the caller as written, where
      the handler evidently meant to report it and return `False`. */
  lemma MissingSysImport(hasLogger: bool, s: Sdr, name: string)
    requires s.kind == FullSensor
    ensures SampleSensorAsWritten(s, OtherError(name)).None?
    ensures SampleSensor(s, OtherError(name)) == Sampled(Failed, Some(ErrorLine(name)))
    ensures Render(hasLogger, ErrorLine(name)) == Printed("Sample Sensor Error: " + name)
    ensures IsError(SampleSensor(s, OtherError(name)).result)
  {
  }

  // ---------------------------------------------------------------------------
  // The error counter of _sample_sensors

  /** `self._sample_sensor(s) == False`: `False`, and a value equal to 0, since
      `0 == False` in Python; `None` is not. */
  predicate IsError(r: SampleResult) {
    r.Failed? || (r.Value? && r.v == 0.0)
  }

  /** The number of results that count as errors. */
  function Errors(rs: seq<SampleResult>): (n: nat)
    ensures n <= |rs|
  {
    if rs == [] then 0 else (if IsError(rs[0]) then 1 else 0) + Errors(rs[1..])
  }

  lemma {:induction false} ErrorsSnoc(rs: seq<SampleResult>, r: SampleResult)
    ensures Errors(rs + [r]) == Errors(rs) + (if IsError(r) then 1 else 0)
    decreases |rs|
  {
    if rs != [] {
      assert (rs + [r])[1..] == rs[1..] + [r];
      ErrorsSnoc(rs[1..], r);
    }
  }

  /** Counting the first `k` results is counting the first of them and the
      next `k - 1`. */
  lemma ErrorsPrefix(rs: seq<SampleResult>, k: nat)
    requires 1 <= k <= |rs|
    ensures Errors(rs[..k]) == (if IsError(rs[0]) then 1 else 0) + Errors(rs[1..][..k - 1])
  {
    assert rs[..k][1..] == rs[1..][..k - 1];
  }

  /** How many sensors a round samples when the counter starts at `c`: up to
      and including the first one after which the counter reaches `m`. */
  function Processed(rs: seq<SampleResult>, c: int, m: int): (n: nat)
    ensures n <= |rs| && (rs != [] ==> n >= 1)
  {
    if rs == [] then 0
    else
      var c' := c + (if IsError(rs[0]) then 1 else 0);
      if c' >= m then 1 else 1 + Processed(rs[1..], c', m)
  }

  /** Whether the round raises: whether the counter has reached `m` after
      the last sensor it samples. */
  predicate Raises(rs: seq<SampleResult>, c: int, m: int) {
    rs != [] && c + Errors(rs[..Processed(rs, c, m)]) >= m
  }

  /** Whether a round raises is decided by its first sensor or by the rest
      of the round from the updated counter. */
  lemma RaisesStep(rs: seq<SampleResult>, c: int, m: int)
    requires rs != []
    ensures var c' := c + (if IsError(rs[0]) then 1 else 0);
            && (c' >= m ==> Raises(rs, c, m))
            && (c' < m ==> (Raises(rs, c, m) <==> Raises(rs[1..], c', m)))
  {
    ErrorsPrefix(rs, Processed(rs, c, m));
  }

  /** The round stops at the first sensor that brings the counter to the
      threshold: the counter was below it after every earlier sensor, and a
      round that stops before the last sensor raises. */
  lemma {:induction false} ThresholdStop(rs: seq<SampleResult>, c: int, m: int)
    ensures forall j :: 1 <= j < Processed(rs, c, m) ==> c + Errors(rs[..j]) < m
    ensures !Raises(rs, c, m) ==> Processed(rs, c, m) == |rs|
    decreases |rs|
  {
    if rs != [] {
      var e := if IsError(rs[0]) then 1 else 0;
      var c' := c + e;
      var n := Processed(rs, c, m);
      if c' < m {
        ThresholdStop(rs[1..], c', m);
        ErrorsPrefix(rs, n);
        forall j | 1 <= j < n
          ensures c + Errors(rs[..j]) < m
        {
          ErrorsPrefix(rs, j);
        }
      } else {
        ErrorsPrefix(rs, 1);
      }
    }
  }

  /** Reaching the threshold after any sensor makes the round raise. */
  lemma {:induction false} ReachingRaises(rs: seq<SampleResult>, c: int, m: int, k: nat)
    requires 1 <= k <= |rs| && c + Errors(rs[..k]) >= m
    ensures Raises(rs, c, m)
    decreases |rs|
  {
    var c' := c + (if IsError(rs[0]) then 1 else 0);
    ErrorsPrefix(rs, k);
    RaisesStep(rs, c, m);
    if c' < m && k > 1 {
      ReachingRaises(rs[1..], c', m, k - 1);
    }
  }

  /** With the default of two, the first two failed sensors end the round,
      whatever succeeded between them: the counter counts errors since `run`
      began, not consecutive ones. */
  lemma NonConsecutiveErrors(v: real)
    requires v != 0.0
    ensures Raises([Failed, Value(v), Failed, Value(v)], 0, 2)
    ensures Processed([Failed, Value(v), Failed, Value(v)], 0, 2) == 3
  {
    var rs := [Failed, Value(v), Failed, Value(v)];
    assert rs[1..] == [Value(v), Failed, Value(v)];
    assert rs[1..][1..] == [Failed, Value(v)];
    assert Processed([Failed, Value(v)], 1, 2) == 1;
    assert Processed([Value(v), Failed, Value(v)], 1, 2) == 2;
    assert rs[..3] == [Failed, Value(v), Failed];
    assert Errors(rs[..3]) == 2 by {
      assert [Failed][1..] == [];
      assert Errors([Failed]) == 1;
      assert [Value(v), Failed][1..] == [Failed];
      assert Errors([Value(v), Failed]) == 1;
      assert [Failed, Value(v), Failed][1..] == [Value(v), Failed];
    }
    ReachingRaises(rs, 0, 2, 3);
  }

  /** A failed sensor and a sensor that reads 0 count alike; a `None` does not. */
  lemma ZeroCountsAsError(v: real)
    ensures Raises([Value(0.0), Failed], 0, 2)
    ensures !Raises([NoValue, Failed], 0, 2)
    ensures v != 0.0 ==> !Raises([Value(v), Failed], 0, 2)
  {
    assert [Value(0.0), Failed][1..] == [Failed];
    assert [NoValue, Failed][1..] == [Failed];
    assert [Value(v), Failed][1..] == [Failed];
    assert [Failed][1..] == [];
  }

  /** A round in which nothing counts as an error samples every sensor. */
  lemma {:induction false} NoErrorsNoRaise(rs: seq<SampleResult>, c: int, m: int)
    requires c < m
    requires forall i :: 0 <= i < |rs| ==> !IsError(rs[i])
    ensures !Raises(rs, c, m) && Processed(rs, c, m) == |rs|
    decreases |rs|
  {
    if rs != [] {
      RaisesStep(rs, c, m);
      NoErrorsNoRaise(rs[1..], c, m);
    }
  }

  /** The outcomes a round would have over every sensor. */
  function SampleAll(sensors: seq<Sdr>, outcomes: seq<ReadOutcome>): (r: seq<Sampled>)
    requires |outcomes| == |sensors|
    ensures |r| == |sensors|
    ensures forall i :: 0 <= i < |r| ==> r[i] == SampleSensor(sensors[i], outcomes[i])
  {
    seq(|sensors|, i requires 0 <= i < |sensors| => SampleSensor(sensors[i], outcomes[i]))
  }

  function ResultsOf(xs: seq<Sampled>): (r: seq<SampleResult>)
    ensures |r| == |xs| && forall i :: 0 <= i < |xs| ==> r[i] == xs[i].result
  {
    seq(|xs|, i requires 0 <= i < |xs| => xs[i].result)
  }

  /** The line a sample emitted, as a sequence of none or one. */
  function LineOf(x: Sampled): (r: seq<Line>)
    ensures |r| <= 1
  {
    if x.line.Some? then [x.line.value] else []
  }

  /** The lines emitted by `xs`, in order. */
  function LinesOf(xs: seq<Sampled>): (r: seq<Line>)
    ensures |r| <= |xs|
  {
    if xs == [] then [] else LineOf(xs[0]) + LinesOf(xs[1..])
  }

  /** What a round of `_sample_sensors` leaves: whether it raised, the result
      of each sensor it sampled, the lines they emitted and the counter. */
  datatype RoundOutcome = RoundOutcome(raised: bool, results: seq<SampleResult>, lines: seq<Line>,
                                       counter: int)

  /** The round from sensor `i` on, given the samples of every sensor and the
      counter `c` as it reaches sensor `i`: each sample adds one to the
      counter when it is an error, and the round raises as soon as the
      counter reaches `m`. */
  function RoundFrom(xs: seq<Sampled>, i: nat, c: int, m: int): (r: RoundOutcome)
    requires i <= |xs|
    ensures |r.results| <= |xs| - i
    decreases |xs| - i
  {
    if i == |xs| then RoundOutcome(false, [], [], c)
    else
      var c' := c + (if IsError(xs[i].result) then 1 else 0);
      if c' >= m then RoundOutcome(true, [xs[i].result], LineOf(xs[i]), c')
      else
        var rest := RoundFrom(xs, i + 1, c', m);
        RoundOutcome(rest.raised, [xs[i].result] + rest.results, LineOf(xs[i]) + rest.lines, rest.counter)
  }

  /** A round from sensor `i` is the same round over the samples without the first. */
  lemma {:induction false} RoundShift(xs: seq<Sampled>, i: nat, c: int, m: int)
    requires 1 <= i <= |xs|
    ensures RoundFrom(xs, i, c, m) == RoundFrom(xs[1..], i - 1, c, m)
    decreases |xs| - i
  {
    if i < |xs| {
      assert xs[1..][i - 1] == xs[i];
      var c' := c + (if IsError(xs[i].result) then 1 else 0);
      RoundShift(xs, i + 1, c', m);
    }
  }

  /** The round from sensor `i` on as the loop of `_sample_sensors` runs it,
      with the results and lines of the sensors before `i` accumulated. */
  function RoundLoop(xs: seq<Sampled>, i: nat, c: int, m: int, results: seq<SampleResult>,
                     lines: seq<Line>): (r: RoundOutcome)
    requires i <= |xs|
    decreases |xs| - i
  {
    if i == |xs| then RoundOutcome(false, results, lines, c)
    else
      var c' := c + (if IsError(xs[i].result) then 1 else 0);
      if c' >= m then RoundOutcome(true, results + [xs[i].result], lines + LineOf(xs[i]), c')
      else RoundLoop(xs, i + 1, c', m, results + [xs[i].result], lines + LineOf(xs[i]))
  }

  /** The loop computes the round: what it accumulated, then the rest of the round. */
  lemma {:induction false} RoundLoopIsRound(xs: seq<Sampled>, i: nat, c: int, m: int,
                                            results: seq<SampleResult>, lines: seq<Line>)
    requires i <= |xs|
    ensures var r := RoundFrom(xs, i, c, m);
            RoundLoop(xs, i, c, m, results, lines)
            == RoundOutcome(r.raised, results + r.results, lines + r.lines, r.counter)
    decreases |xs| - i
  {
    if i < |xs| {
      var x := xs[i];
      var c' := c + (if IsError(x.result) then 1 else 0);
      if c' < m {
        var rest := RoundFrom(xs, i + 1, c', m);
        RoundLoopIsRound(xs, i + 1, c', m, results + [x.result], lines + LineOf(x));
        assert (results + [x.result]) + rest.results == results + ([x.result] + rest.results);
        assert (lines + LineOf(x)) + rest.lines == lines + (LineOf(x) + rest.lines);
      }
    } else {
      assert results + [] == results && lines + [] == lines;
    }
  }

  /** The counter a round leaves is the counter it started from plus the
      errors among the results it sampled. */
  lemma {:induction false} RoundCount(xs: seq<Sampled>, i: nat, c: int, m: int)
    requires i <= |xs|
    ensures RoundFrom(xs, i, c, m).counter == c + Errors(RoundFrom(xs, i, c, m).results)
    decreases |xs| - i
  {
    if i < |xs| {
      var r := RoundFrom(xs, i, c, m);
      var c' := c + (if IsError(xs[i].result) then 1 else 0);
      if c' < m {
        RoundCount(xs, i + 1, c', m);
        assert r.results[1..] == RoundFrom(xs, i + 1, c', m).results;
      } else {
        assert r.results[1..] == [];
      }
    }
  }

  /** A round samples the sensors up to the one at which the counter reaches
      the threshold, in order. */
  lemma {:induction false} RoundResults(xs: seq<Sampled>, c: int, m: int)
    ensures RoundFrom(xs, 0, c, m).results == ResultsOf(xs)[..Processed(ResultsOf(xs), c, m)]
    decreases |xs|
  {
    if xs != [] {
      var c' := c + (if IsError(xs[0].result) then 1 else 0);
      if c' < m {
        RoundShift(xs, 1, c', m);
        RoundResults(xs[1..], c', m);
        ResultsStep(xs, c, m);
      }
    }
  }

  /** Below the threshold, the results a round samples are the first one and
      those the rest of the round samples. */
  lemma ResultsStep(xs: seq<Sampled>, c: int, m: int)
    requires xs != [] && c + (if IsError(xs[0].result) then 1 else 0) < m
    ensures var n := Processed(ResultsOf(xs[1..]), c + (if IsError(xs[0].result) then 1 else 0), m);
            && Processed(ResultsOf(xs), c, m) == n + 1
            && ResultsOf(xs)[..n + 1] == [xs[0].result] + ResultsOf(xs[1..])[..n]
  {
    var rs := ResultsOf(xs);
    assert ResultsOf(xs[1..]) == rs[1..];
    var n := Processed(rs[1..], c + (if IsError(xs[0].result) then 1 else 0), m);
    assert rs[..n + 1] == [rs[0]] + rs[1..][..n];
  }

  /** ... and emits the lines of those sensors, in order. */
  lemma {:induction false} RoundLines(xs: seq<Sampled>, c: int, m: int)
    ensures RoundFrom(xs, 0, c, m).lines == LinesOf(xs[..Processed(ResultsOf(xs), c, m)])
    decreases |xs|
  {
    if xs != [] {
      var c' := c + (if IsError(xs[0].result) then 1 else 0);
      if c' >= m {
        assert xs[..1][1..] == [];
      } else {
        RoundShift(xs, 1, c', m);
        RoundLines(xs[1..], c', m);
        LinesStep(xs, c, m);
      }
    }
  }

  /** Below the threshold, the lines of a round are those of the first sample
      and those the rest of the round emits. */
  lemma LinesStep(xs: seq<Sampled>, c: int, m: int)
    requires xs != [] && c + (if IsError(xs[0].result) then 1 else 0) < m
    ensures var n := Processed(ResultsOf(xs[1..]), c + (if IsError(xs[0].result) then 1 else 0), m);
            && Processed(ResultsOf(xs), c, m) == n + 1
            && LinesOf(xs[..n + 1]) == LineOf(xs[0]) + LinesOf(xs[1..][..n])
  {
    assert ResultsOf(xs[1..]) == ResultsOf(xs)[1..];
    var n := Processed(ResultsOf(xs[1..]), c + (if IsError(xs[0].result) then 1 else 0), m);
    assert xs[..n + 1][1..] == xs[1..][..n];
  }

  /** A round raises exactly when the counter has reached the threshold after
      the last sensor it samples. */
  lemma {:induction false} RoundRaises(xs: seq<Sampled>, c: int, m: int)
    ensures RoundFrom(xs, 0, c, m).raised == Raises(ResultsOf(xs), c, m)
    decreases |xs|
  {
    var rs := ResultsOf(xs);
    if xs != [] {
      var c' := c + (if IsError(xs[0].result) then 1 else 0);
      RaisesStep(rs, c, m);
      if c' < m {
        RoundShift(xs, 1, c', m);
        RoundRaises(xs[1..], c', m);
        assert ResultsOf(xs[1..]) == rs[1..];
      }
    }
  }

  /** A round raises exactly when it sampled something and left the counter
      at the threshold or above; a round that does not raise samples every
      sensor. */
  lemma RoundEnds(xs: seq<Sampled>, c: int, m: int)
    ensures var r := RoundFrom(xs, 0, c, m);
            && (r.raised <==> r.results != [] && r.counter >= m)
            && (!r.raised ==> |r.results| == |xs|)
  {
    RoundResults(xs, c, m);
    RoundRaises(xs, c, m);
    RoundCount(xs, 0, c, m);
    ThresholdStop(ResultsOf(xs), c, m);
  }

  /** How a round of `_sample_sensors` ends as written: it finishes, or a
      sample raises a NameError out of it (see `SampleSensorAsWritten`),
      after the results and lines of the sensors before that one, with the
      counter as it stood. */
  datatype AsWrittenRound =
    | Finished(outcome: RoundOutcome)
    | NameError(results: seq<SampleResult>, lines: seq<Line>, counter: int)

  /** The round from sensor `i` on as written, sampling with
      `SampleSensorAsWritten`. */
  function RoundAsWritten(ss: seq<Sdr>, os: seq<ReadOutcome>, i: nat, c: int, m: int): AsWrittenRound
    requires |os| == |ss| && i <= |ss|
    decreases |ss| - i
  {
    if i == |ss| then Finished(RoundOutcome(false, [], [], c))
    else match SampleSensorAsWritten(ss[i], os[i])
      case None => NameError([], [], c)
      case Some(x) =>
        var c' := c + (if IsError(x.result) then 1 else 0);
        if c' >= m then Finished(RoundOutcome(true, [x.result], LineOf(x), c'))
        else match RoundAsWritten(ss, os, i + 1, c', m)
          case Finished(r) =>
            Finished(RoundOutcome(r.raised, [x.result] + r.results, LineOf(x) + r.lines, r.counter))
          case NameError(rs, ls, k) => NameError([x.result] + rs, LineOf(x) + ls, k)
  }

  /** A Full record whose reading fails other than by a completion code. */
  predicate RaisesNameError(s: Sdr, o: ReadOutcome) {
    s.kind == FullSensor && o.OtherError?
  }

  /** Where no Full record from `i` on fails other than by a completion code,
      the round as written is the round of the corrected sampler. */
  lemma {:induction false} AsWrittenAgrees(ss: seq<Sdr>, os: seq<ReadOutcome>, i: nat, c: int, m: int)
    requires |os| == |ss| && i <= |ss|
    requires forall j :: i <= j < |ss| ==> !RaisesNameError(ss[j], os[j])
    ensures RoundAsWritten(ss, os, i, c, m) == Finished(RoundFrom(SampleAll(ss, os), i, c, m))
    decreases |ss| - i
  {
    if i < |ss| {
      var x := SampleSensor(ss[i], os[i]);
      var c' := c + (if IsError(x.result) then 1 else 0);
      if c' < m {
        AsWrittenAgrees(ss, os, i + 1, c', m);
      }
    }
  }

  /** A round that raises the NameError as written sampled the same sensors
      as the corrected round up to there; the corrected round goes on to
      record `False` for the sensor that raised. */
  lemma {:induction false} AsWrittenNameError(ss: seq<Sdr>, os: seq<ReadOutcome>, i: nat, c: int, m: int)
    requires |os| == |ss| && i <= |ss|
    requires RoundAsWritten(ss, os, i, c, m).NameError?
    ensures RoundAsWritten(ss, os, i, c, m).results + [Failed] <= RoundFrom(SampleAll(ss, os), i, c, m).results
    decreases |ss| - i
  {
    var xs := SampleAll(ss, os);
    if RaisesNameError(ss[i], os[i]) {
      assert xs[i].result == Failed;
      assert [] + [Failed] <= RoundFrom(xs, i, c, m).results;
    } else {
      var x := SampleSensor(ss[i], os[i]);
      var c' := c + (if IsError(x.result) then 1 else 0);
      AsWrittenStep(ss, os, i, c, m);
      AsWrittenNameError(ss, os, i + 1, c', m);
      RoundStep(xs, i, c, m);
      PrefixCons(x.result, RoundFrom(xs, i + 1, c', m).results, RoundAsWritten(ss, os, i + 1, c', m).results,
                 Failed);
    }
  }

  /** A sample that does not raise, within a round that raises later. */
  lemma AsWrittenStep(ss: seq<Sdr>, os: seq<ReadOutcome>, i: nat, c: int, m: int)
    requires |os| == |ss| && i < |ss| && !RaisesNameError(ss[i], os[i])
    requires RoundAsWritten(ss, os, i, c, m).NameError?
    ensures var x := SampleSensor(ss[i], os[i]);
            var c' := c + (if IsError(x.result) then 1 else 0);
            && c' < m && RoundAsWritten(ss, os, i + 1, c', m).NameError?
            && RoundAsWritten(ss, os, i, c, m).results == [x.result] + RoundAsWritten(ss, os, i + 1, c', m).results
  {
    assert SampleSensorAsWritten(ss[i], os[i]) == Some(SampleSensor(ss[i], os[i]));
  }

  /** A sample below the threshold, followed by the rest of the round. */
  lemma RoundStep(xs: seq<Sampled>, i: nat, c: int, m: int)
    requires i < |xs| && c + (if IsError(xs[i].result) then 1 else 0) < m
    ensures RoundFrom(xs, i, c, m).results
            == [xs[i].result] + RoundFrom(xs, i + 1, c + (if IsError(xs[i].result) then 1 else 0), m).results
  {
  }

  /** The sensor that raises the NameError is a Full record whose reading
      fails other than by a completion code. */
  lemma {:induction false} AsWrittenNameErrorAt(ss: seq<Sdr>, os: seq<ReadOutcome>, i: nat, c: int, m: int)
    requires |os| == |ss| && i <= |ss|
    requires RoundAsWritten(ss, os, i, c, m).NameError?
    ensures var k := i + |RoundAsWritten(ss, os, i, c, m).results|;
            k < |ss| && RaisesNameError(ss[k], os[k])
    decreases |ss| - i
  {
    if !RaisesNameError(ss[i], os[i]) {
      var x := SampleSensor(ss[i], os[i]);
      var c' := c + (if IsError(x.result) then 1 else 0);
      assert SampleSensorAsWritten(ss[i], os[i]) == Some(x);
      AsWrittenNameErrorAt(ss, os, i + 1, c', m);
      var w := RoundAsWritten(ss, os, i + 1, c', m);
      assert RoundAsWritten(ss, os, i, c, m).results == [x.result] + w.results;
    }
  }

  lemma PrefixCons<T>(h: T, long: seq<T>, short: seq<T>, last: T)
    requires short + [last] <= long
    ensures ([h] + short) + [last] <= [h] + long
  {
    assert ([h] + short) + [last] == [h] + (short + [last]);
  }

  /** A Full record whose conversion raises, before one that reads 5.0: as
      written the NameError escapes before anything is recorded; corrected,
      both sensors are sampled and the counter stands at one. */
  lemma AsWrittenExample(a: Sdr, b: Sdr)
    requires a.kind == FullSensor && b.kind == FullSensor
    ensures var os := [OtherError("ValueError"), Read(Some(Reading(5.0, "5.0")), None)];
            && RoundAsWritten([a, b], os, 0, 0, 3) == NameError([], [], 0)
            && RoundFrom(SampleAll([a, b], os), 0, 0, 3) == RoundOutcome(false, [Failed, Value(5.0)],
                 [ErrorLine("ValueError"), SdrListEntry(b.id, Some(b.number), b.name, "5.0", None)], 1)
  {
    var os := [OtherError("ValueError"), Read(Some(Reading(5.0, "5.0")), None)];
    var xs := SampleAll([a, b], os);
    var e := SdrListEntry(b.id, Some(b.number), b.name, "5.0", None);
    assert xs[0] == Sampled(Failed, Some(ErrorLine("ValueError")));
    assert xs[1] == Sampled(Value(5.0), Some(e));
    assert RoundFrom(xs, 2, 1, 3) == RoundOutcome(false, [], [], 1);
    assert RoundFrom(xs, 1, 1, 3) == RoundOutcome(false, [Value(5.0)], [e], 1);
  }

  /** Descriptions of `sensors`, in order. */
  function Describe(sensors: seq<Sdr>): (r: seq<Description>)
    ensures |r| == |sensors|
    ensures forall i :: 0 <= i < |r| ==>
              r[i] == Description(sensors[i].name, sensors[i].id, sensors[i].number)
  {
    seq(|sensors|, i requires 0 <= i < |sensors| =>
      Description(sensors[i].name, sensors[i].id, sensors[i].number))
  }

  /** The line `"SENSOR: %s %d %d"` that `run` logs for a description:
      "SENSOR: ", the name, then the record id and the number in decimal,
      each after a space (`AnnouncementFields`). */
  function Announcement(d: Description): string {
    "SENSOR: " + d.name + " " + Decimal(d.recordId) + " " + Decimal(d.number)
  }

  /** An announcement carries the name, then the record id and the number,
      which read back. */
  lemma AnnouncementFields(d: Description)
    ensures SpaceSeparated(Announcement(d), "SENSOR: ", d.name, Decimal(d.recordId), Decimal(d.number))
    ensures ParseSigned(Decimal(d.recordId), 10) == d.recordId
    ensures ParseSigned(Decimal(d.number), 10) == d.number
  {
    PaddedRoundTrip(d.recordId, 0, 10);
    PaddedRoundTrip(d.number, 0, 10);
    SpacedFields("SENSOR: ", d.name, Decimal(d.recordId), Decimal(d.number));
  }

  /** The lines `run` logs for `ds`, one `Announcement` each, in order. */
  function Announcements(ds: seq<Description>): (r: seq<string>)
    ensures |r| == |ds|
    ensures forall j :: 0 <= j < |ds| ==> r[j] == Announcement(ds[j])
  {
    Map(Announcement, ds)
  }

  /** `f` applied to every element of `xs`, in order. */
  function Map<A, B>(f: A -> B, xs: seq<A>): (r: seq<B>)
    ensures |r| == |xs|
    ensures forall j :: 0 <= j < |xs| ==> r[j] == f(xs[j])
  {
    if xs == [] then [] else Map(f, xs[..|xs| - 1]) + [f(xs[|xs| - 1])]
  }

  lemma MapSnoc<A, B>(f: A -> B, xs: seq<A>, i: nat)
    requires i < |xs|
    ensures Map(f, xs[..i + 1]) == Map(f, xs[..i]) + [f(xs[i])]
  {
    assert xs[..i + 1][..i] == xs[..i];
  }

  /** `r` is `head`, then `x`, then `y` and `z`, each after one space. */
  predicate SpaceSeparated(r: string, head: string, x: string, y: string, z: string) {
    var a := |head| + |x|;
    var b := a + 1 + |y|;
    && |r| == b + 1 + |z| && r[..|head|] == head && r[|head|..a] == x
    && r[a] == ' ' && r[a + 1..b] == y && r[b] == ' ' && r[b + 1..] == z
  }

  lemma SpacedFields(head: string, x: string, y: string, z: string)
    ensures SpaceSeparated(head + x + " " + y + " " + z, head, x, y, z)
  {
    var r := head + x + " " + y + " " + z;
    var a := |head| + |x|;
    var b := a + 1 + |y|;
    assert r[..|head|] == head;
    assert r[|head|..a] == x;
    assert r[a + 1..b] == y;
    assert r[b + 1..] == z;
  }

  // ---------------------------------------------------------------------------
  // The sampler

  class IpmiMon {
    /** the SDR record ids to sample */
    const records: seq<int>
    const maxConsecErrors: int
    /** whether a logger was given */
    const hasLogger: bool
    /** `self.connection` is set */
    var hasConnection: bool
    var connected: bool
    var consecErrors: int
    var sensors: seq<Sdr>

    ghost predicate Valid()
      reads this
    {
      connected ==> hasConnection
    }

    constructor (records: seq<int>, maxConsecErrors: int, hasLogger: bool)
      ensures Valid()
      ensures this.records == records && this.maxConsecErrors == maxConsecErrors
      ensures this.hasLogger == hasLogger
      ensures !hasConnection && !connected && consecErrors == 0 && sensors == []
    {
      this.records := records;
      this.maxConsecErrors := maxConsecErrors;
      this.hasLogger := hasLogger;
      hasConnection, connected, consecErrors, sensors := false, false, 0, [];
    }

    /** `connect()` once the session is established: the connection object
        exists either way, and the monitor is connected only when the device
        supports the SDR repository. */
    method Connect(supportsSdrRepository: bool) returns (st: Status)
      requires Valid()
      modifies this`hasConnection, this`connected
      ensures Valid() && hasConnection
      ensures st == (if supportsSdrRepository then Ok else Raised(NoSdrRepository))
      ensures connected == (old(connected) || supportsSdrRepository)
    {
      hasConnection := true;
      if !supportsSdrRepository {
        return Raised(NoSdrRepository);
      }
      connected := true;
      st := Ok;
    }

    /** `get_sensors()`: one SDR per configured record id, in order. */
    method GetSensors(fetch: int -> Sdr) returns (st: Status)
      modifies this`sensors
      ensures records == [] ==> st == Raised(NoRecords) && sensors == old(sensors)
      ensures records != [] && !hasConnection ==> st == Raised(NoConnectionObject) && sensors == []
      ensures records != [] && hasConnection ==>
                st == Ok && |sensors| == |records|
                && forall i :: 0 <= i < |records| ==> sensors[i] == fetch(records[i])
    {
      if |records| == 0 {
        return Raised(NoRecords);
      }
      sensors := [];
      if !hasConnection {
        return Raised(NoConnectionObject);
      }
      for i := 0 to |records|
        invariant |sensors| == i
        invariant forall j :: 0 <= j < i ==> sensors[j] == fetch(records[j])
      {
        sensors := sensors + [fetch(records[i])];
      }
      st := Ok;
    }

    /** `get_sensor_descriptions()`: fetches the sensors first when there are
        none, then describes each of them, in order. */
    method GetSensorDescriptions(fetch: int -> Sdr) returns (st: Status, descs: seq<Description>)
      modifies this`sensors
      ensures old(sensors) != [] ==> sensors == old(sensors)
      ensures old(sensors) == [] && records == [] ==>
                st == Raised(NoRecords) && descs == [] && sensors == old(sensors)
      ensures old(sensors) == [] && records != [] && !hasConnection ==>
                st == Raised(NoConnectionObject) && descs == [] && sensors == []
      ensures old(sensors) == [] && records != [] && hasConnection ==>
                |sensors| == |records| && forall i :: 0 <= i < |records| ==> sensors[i] == fetch(records[i])
      ensures st == Ok ==> descs == Describe(sensors)
      ensures st.Ok? <==> old(sensors) != [] || (records != [] && hasConnection)
    {
      if |sensors| == 0 {
        st := GetSensors(fetch);
        if st.Raised? {
          return st, [];
        }
      }
      st := Ok;
      descs := [];
      for i := 0 to |sensors|
        invariant descs == Describe(sensors[..i])
      {
        descs := descs + [Description(sensors[i].name, sensors[i].id, sensors[i].number)];
      }
      assert sensors[..|sensors|] == sensors;
    }

    /** The loop of `run()` that logs one `Announcement` per description. */
    method Announce(descs: seq<Description>) returns (announced: seq<string>)
      ensures announced == Announcements(descs)
    {
      announced := [];
      for i := 0 to |descs|
        invariant announced == Map(Announcement, descs[..i])
      {
        MapSnoc(Announcement, descs, i);
        announced := announced + [Announcement(descs[i])];
      }
      assert descs[..|descs|] == descs;
    }

    /** `run()` up to its polling loop: it raises unless connected, fetches the
        sensors when there are none, announces every sensor to the logger, and
        resets the error counter. `announced` holds the lines logged, in order. */
    method Run(fetch: int -> Sdr) returns (st: Status, announced: seq<string>)
      requires Valid()
      modifies this`sensors, this`consecErrors
      ensures Valid()
      ensures !connected ==>
                st == Raised(NotConnected) && announced == []
                && sensors == old(sensors) && consecErrors == old(consecErrors)
      ensures connected && old(sensors) == [] && records == [] ==>
                st == Raised(NoRecords) && announced == [] && sensors == old(sensors)
                && consecErrors == old(consecErrors)
      ensures connected && old(sensors) != [] ==> sensors == old(sensors)
      ensures connected && old(sensors) == [] && records != [] ==>
                |sensors| == |records| && forall i :: 0 <= i < |records| ==> sensors[i] == fetch(records[i])
      ensures st == Ok <==> connected && (old(sensors) != [] || records != [])
      ensures st == Ok ==> consecErrors == 0
      ensures st == Ok && hasLogger ==> announced == Announcements(Describe(sensors))
      ensures !hasLogger ==> announced == []
    {
      announced := [];
      if !connected {
        return Raised(NotConnected), [];
      }
      if |sensors| == 0 {
        st := GetSensors(fetch);
        if st.Raised? {
          return st, [];
        }
      }
      if hasLogger {
        var descs;
        st, descs := GetSensorDescriptions(fetch);
        announced := Announce(descs);
      }
      consecErrors := 0;
      st := Ok;
    }

    /** One round of `_sample_sensors()` given what reading each sensor does
        (`RoundFrom` over the samples of every sensor, from the current
        counter); `RoundCount`, `RoundResults`, `RoundLines`, `RoundRaises` and `RoundEnds`
        say what that is. */
    method SampleSensors(outcomes: seq<ReadOutcome>) returns (raised: bool, results: seq<SampleResult>,
                                                            lines: seq<Line>)
      requires |outcomes| == |sensors|
      modifies this`consecErrors
      ensures RoundOutcome(raised, results, lines, consecErrors)
              == RoundFrom(SampleAll(sensors, outcomes), 0, old(consecErrors), maxConsecErrors)
    {
      var ss, m := sensors, maxConsecErrors;
      ghost var all := SampleAll(ss, outcomes);
      var count := consecErrors;
      results, lines := [], [];
      RoundLoopIsRound(all, 0, count, m, [], []);
      assert [] + RoundFrom(all, 0, count, m).results == RoundFrom(all, 0, count, m).results;
      assert [] + RoundFrom(all, 0, count, m).lines == RoundFrom(all, 0, count, m).lines;
      ghost var goal := RoundLoop(all, 0, count, m, [], []);
      var i := 0;
      while i < |ss|
        invariant 0 <= i <= |ss| && consecErrors == count
        invariant goal == RoundLoop(all, i, count, m, results, lines)
      {
        var o := SampleSensor(ss[i], outcomes[i]);
        assert o == all[i];
        results := results + [o.result];
        lines := lines + LineOf(o);
        if IsError(o.result) {
          count := count + 1;
        }
        consecErrors := count;
        i := i + 1;
        if count >= m {
          return true, results, lines;
        }
      }
      raised := false;
    }
  }
}
