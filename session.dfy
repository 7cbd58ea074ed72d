/** The capture-session manager (`IpmiSessionManager` in ipmisession.py):
    named sessions that every reading is broadcast into while they are open,
    and that are reduced to energy figures when they are stopped. */
module Session {
  import opened Wrappers
  import opened Format
  import opened Energy

  /** The sensor name `"nvidia-%d" % nv_id` of an accelerator's power draw. */
  function NvidiaName(nvId: int): (s: string)
    ensures StartsWith(s, "nvidia")
  {
    "nvidia-" + Decimal(nvId)
  }

  /** The sensor name `"apu-%02d" % g2` of an APU's power draw. */
  function ApuName(g2: int): (s: string)
    ensures StartsWith(s, "apu")
  {
    "apu-" + Padded(g2, 2, 10)
  }

  /** Distinct accelerators never share a sensor name. */
  lemma NvidiaNameInjective(a: int, b: int)
    requires NvidiaName(a) == NvidiaName(b)
    ensures a == b
  {
    assert NvidiaName(a)[7..] == Decimal(a);
    assert NvidiaName(b)[7..] == Decimal(b);
    DecimalInjective(a, b);
  }

  /** Distinct APUs never share a sensor name, zero padding notwithstanding. */
  lemma ApuNameInjective(a: int, b: int)
    requires ApuName(a) == ApuName(b)
    ensures a == b
  {
    assert ApuName(a)[4..] == Padded(a, 2, 10);
    assert ApuName(b)[4..] == Padded(b, 2, 10);
    PaddedRoundTrip(a, 2, 10);
    PaddedRoundTrip(b, 2, 10);
  }

  /** Readings from accelerators and APUs are reported per sensor but never
      counted in a session's total. */
  lemma DerivedNamesExcluded(nvId: int, g2: int)
    ensures Excluded(Name(NvidiaName(nvId))) && Excluded(Name(ApuName(g2)))
  {
  }

  predicate NoDuplicates<T(==)>(s: seq<T>) {
    forall i, j :: 0 <= i < j < |s| ==> s[i] != s[j]
  }

  /** `self.sensors[sensor_id] = True`: the registry of sensor ids, a dict
      used as an insertion-ordered set. */
  function Register(ids: seq<SensorId>, id: SensorId): (r: seq<SensorId>)
    ensures NoDuplicates(ids) ==> NoDuplicates(r)
    ensures forall x :: x in r <==> x in ids || x == id
    ensures |r| >= |ids| && r[..|ids|] == ids
  {
    if id in ids then ids else ids + [id]
  }

  /** What `stop` reports. */
  datatype StopResult =
    | SessionNotFound
    | AllStats(stats: Stats)
    | TotPower(totPower: real)
    | IntegrationFailed(error: SessionError)

  /** The answer of a stop whose reduction gave `stats`: the whole structure
      when `all_stats` is set, otherwise its total. */
  function StopAnswer(stats: Result<Stats, SessionError>, allStats: bool): (r: StopResult)
    ensures r != SessionNotFound
    ensures r.IntegrationFailed? <==> stats.Failure?
    ensures stats.Success? && allStats ==> r == AllStats(stats.value)
    ensures stats.Success? && !allStats ==> r == TotPower(stats.value.totPower)
  {
    match stats
    case Failure(e) => IntegrationFailed(e)
    case Success(st) => if allStats then AllStats(st) else TotPower(st.totPower)
  }

  class SessionManager {
    /** session id -> start time */
    var started: map<string, int>
    /** session id -> rows `[dt, sensor_id, value]` in arrival order */
    var captureSessions: map<string, seq<Sample>>
    /** every sensor id ever seen, in first-seen order */
    var sensors: seq<SensorId>

    ghost predicate Valid()
      reads this
    {
      started.Keys == captureSessions.Keys && NoDuplicates(sensors)
    }

    constructor ()
      ensures Valid()
      ensures started == map[] && captureSessions == map[] && sensors == []
    {
      started, captureSessions, sensors := map[], map[], [];
    }

    /** Opens session `id` at `dt`, discarding any buffer it already had. */
    method Start(dt: int, id: string)
      requires Valid()
      modifies this
      ensures Valid()
      ensures started == old(started)[id := dt]
      ensures captureSessions == old(captureSessions)[id := []]
      ensures sensors == old(sensors)
    {
      started := started[id := dt];
      captureSessions := captureSessions[id := []];
    }

    /** Closes session `id` at `dt` and reduces its buffer. */
    method Stop(dt: int, id: string, allStats: bool) returns (r: StopResult)
      requires Valid()
      modifies this
      ensures Valid()
      ensures id !in old(captureSessions) ==>
                r == SessionNotFound
                && started == old(started) && captureSessions == old(captureSessions)
                && sensors == old(sensors)
      ensures id in old(captureSessions) ==>
                r == StopAnswer(ComputeSession(old(started)[id], dt, old(captureSessions)[id], old(sensors)),
                                allStats)
                && started == old(started) - {id}
                && captureSessions == old(captureSessions) - {id}
                && sensors == old(sensors)
    {
      if id !in captureSessions {
        return SessionNotFound;
      }
      var stats := ComputeSession(started[id], dt, captureSessions[id], sensors);
      started := started - {id};
      captureSessions := captureSessions - {id};
      r := StopAnswer(stats, allStats);
    }

    /** Registers sensor `id` and appends the row `[dt, id, value]` to every
      open session. */
    method Sensor(dt: int, id: SensorId, value: real)
      requires Valid()
      modifies this
      ensures Valid()
      ensures sensors == Register(old(sensors), id)
      ensures started == old(started)
      ensures captureSessions.Keys == old(captureSessions).Keys
      ensures forall k :: k in captureSessions ==>
                captureSessions[k] == old(captureSessions)[k] + [Sample(dt, id, value)]
    {
      sensors := Register(sensors, id);
      var row := Sample(dt, id, value);
      var pending := captureSessions.Keys;
      while pending != {}
        invariant pending <= captureSessions.Keys == old(captureSessions).Keys
        invariant forall k :: k in captureSessions && k !in pending ==>
                    captureSessions[k] == old(captureSessions)[k] + [row]
        invariant forall k :: k in pending ==> captureSessions[k] == old(captureSessions)[k]
        invariant started == old(started) && sensors == Register(old(sensors), id)
        decreases pending
      {
        var k :| k in pending;
        captureSessions := captureSessions[k := captureSessions[k] + [row]];
        pending := pending - {k};
      }
    }

    /** A power reading of accelerator `nvId`, under the name "nvidia-<nvId>". */
    method NvidiaSensor(dt: int, nvId: int, value: real)
      requires Valid()
      modifies this
      ensures Valid()
      ensures sensors == Register(old(sensors), Name(NvidiaName(nvId)))
      ensures started == old(started)
      ensures captureSessions.Keys == old(captureSessions).Keys
      ensures forall k :: k in captureSessions ==>
                captureSessions[k] == old(captureSessions)[k] + [Sample(dt, Name(NvidiaName(nvId)), value)]
    {
      Sensor(dt, Name(NvidiaName(nvId)), value);
    }

    /** A power reading of APU `g2`, under the name "apu-<g2, two digits>". */
    method G2Sensor(dt: int, g2: int, value: real)
      requires Valid()
      modifies this
      ensures Valid()
      ensures sensors == Register(old(sensors), Name(ApuName(g2)))
      ensures started == old(started)
      ensures captureSessions.Keys == old(captureSessions).Keys
      ensures forall k :: k in captureSessions ==>
                captureSessions[k] == old(captureSessions)[k] + [Sample(dt, Name(ApuName(g2)), value)]
    {
      Sensor(dt, Name(ApuName(g2)), value);
    }
  }

  /** One reading reaches both of two open sessions. */
  method BroadcastExample() returns (a: seq<Sample>, b: seq<Sample>)
    ensures a == b == [Sample(5, Num(18), 3.0)]
  {
    var m := new SessionManager();
    m.Start(0, "A");
    m.Start(1, "B");
    m.Sensor(5, Num(18), 3.0);
    a, b := m.captureSessions["A"], m.captureSessions["B"];
  }

  /** Restarting a session discards what it had captured: of the readings 7.0
      and 3.0 only the one after the restart is integrated, 3.0 over 3 s. */
  method RestartExample() returns (r: StopResult)
    ensures r.TotPower? && r.totPower == 9.0
  {
    var m := new SessionManager();
    m.Start(0, "A");
    m.Sensor(1000000, Num(18), 7.0);
    m.Start(0, "A");
    m.Sensor(1000000, Num(18), 3.0);
    assert m.captureSessions["A"] == [Sample(1000000, Num(18), 3.0)];
    assert m.sensors == [Num(18)];
    ghost var stats := ComputeSession(0, 3000000, [Sample(1000000, Num(18), 3.0)], [Num(18)]);
    assert stats.Success? && stats.value.totPower == 9.0 by {
      SingleReading(0, 3000000, Sample(1000000, Num(18), 3.0));
      SinglePoint(0, 3000000, 1000000, 3.0);
      assert Seconds(3000000, 0) == 3.0 && !Excluded(Num(18));
    }
    r := m.Stop(3000000, "A", false);
    assert r == StopAnswer(stats, false);
  }

  /** Stopping an unknown session reports it and leaves the manager as it was. */
  method UnknownStopExample() returns (r: StopResult, open: set<string>)
    ensures r == SessionNotFound && open == {"A"}
  {
    var m := new SessionManager();
    m.Start(0, "A");
    r := m.Stop(10, "nonexistent", true);
    open := m.captureSessions.Keys;
  }
}
