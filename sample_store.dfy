/** The sample store: an insertion-ordered buffer of hourly observations
    with a retention cap of `maxDaysToRetain * 24` points, evicting the
    oldest first, and a CSV file of a header line and one row per point. */
module SampleStore {
  import opened Forecaster

  const Header: string := "hour,dayOfWeek,outdoorTemp,solarProduction,energyCost"

  /** A line of a data file: a row that reads back as an observation, or
      any other text (the header, a malformed or truncated row). */
  datatype CsvLine = Row(point: HistoricalDataPoint) | Text(text: string)

  /** The files the store reads and writes, by name. Writing a name in
      `unwritable` fails to open the file. */
  class Disk {
    var files: map<string, seq<CsvLine>>
    var unwritable: set<string>

    constructor (files: map<string, seq<CsvLine>>, unwritable: set<string>)
      ensures this.files == files && this.unwritable == unwritable
    {
      this.files := files;
      this.unwritable := unwritable;
    }
  }

  /** The points the cap keeps of `s`. The cap is `maxDaysToRetain * 24`
      converted to size_t, so a negative product means no cap at all. */
  function Retained(s: seq<HistoricalDataPoint>, maxDaysToRetain: int): (r: seq<HistoricalDataPoint>)
    ensures maxDaysToRetain * 24 < 0 ==> r == s
    ensures maxDaysToRetain * 24 >= 0 ==> |r| == if |s| < maxDaysToRetain * 24 then |s| else maxDaysToRetain * 24
    ensures |r| <= |s| && r == s[|s| - |r|..]
  {
    var cap := maxDaysToRetain * 24;
    if cap >= 0 && |s| > cap then s[|s| - cap..] else s
  }

  /** Applying the cap after every insertion keeps exactly what applying it
      once to the whole history keeps: the most recent points, in order. */
  lemma RetainedAppend(s: seq<HistoricalDataPoint>, t: seq<HistoricalDataPoint>, maxDaysToRetain: int)
    ensures Retained(Retained(s, maxDaysToRetain) + t, maxDaysToRetain) == Retained(s + t, maxDaysToRetain)
  {
    var r := Retained(s, maxDaysToRetain);
    var d := |s| - |r|;
    assert r + t == (s + t)[d..];
    RetainedDrop(s + t, d, maxDaysToRetain);
  }

  /** Dropping points from the front that the cap would drop anyway does
      not change what it keeps. */
  lemma RetainedDrop(b: seq<HistoricalDataPoint>, d: nat, maxDaysToRetain: int)
    requires d <= |b|
    requires d == 0 || (maxDaysToRetain * 24 >= 0 && |b| - d >= maxDaysToRetain * 24)
    ensures Retained(b[d..], maxDaysToRetain) == Retained(b, maxDaysToRetain)
  {
    var cap := maxDaysToRetain * 24;
    if d == 0 {
      assert b[d..] == b;
    } else if |b| - d > cap {
      assert b[d..][|b| - d - cap..] == b[|b| - cap..];
    } else {
      assert Retained(b[d..], maxDaysToRetain) == b[d..];
    }
  }

  /** A capped sequence is left alone by the cap. */
  lemma RetainedTwice(s: seq<HistoricalDataPoint>, maxDaysToRetain: int)
    ensures Retained(Retained(s, maxDaysToRetain), maxDaysToRetain) == Retained(s, maxDaysToRetain)
  {
  }

  /** The store after inserting `points` one at a time into `s`. */
  function InsertAll(s: seq<HistoricalDataPoint>, points: seq<HistoricalDataPoint>, maxDaysToRetain: int): seq<HistoricalDataPoint>
    decreases |points|
  {
    if points == [] then s
    else InsertAll(Retained(s + [points[0]], maxDaysToRetain), points[1..], maxDaysToRetain)
  }

  /** Inserting points one at a time, capping after each, keeps what
      capping the whole history once keeps: from an empty store, the last
      min(cap, n) points inserted, oldest first. */
  lemma {:induction false} InsertAllKeepsMostRecent(s: seq<HistoricalDataPoint>, points: seq<HistoricalDataPoint>, maxDaysToRetain: int)
    requires Retained(s, maxDaysToRetain) == s
    ensures InsertAll(s, points, maxDaysToRetain) == Retained(s + points, maxDaysToRetain)
    decreases |points|
  {
    if points == [] {
      assert s + points == s;
    } else {
      var s' := Retained(s + [points[0]], maxDaysToRetain);
      RetainedTwice(s + [points[0]], maxDaysToRetain);
      calc {
        InsertAll(s, points, maxDaysToRetain);
        InsertAll(s', points[1..], maxDaysToRetain);
        { InsertAllKeepsMostRecent(s', points[1..], maxDaysToRetain); }
        Retained(s' + points[1..], maxDaysToRetain);
        { RetainedAppend(s + [points[0]], points[1..], maxDaysToRetain); }
        Retained(s + [points[0]] + points[1..], maxDaysToRetain);
        { assert s + [points[0]] + points[1..] == s + points; }
        Retained(s + points, maxDaysToRetain);
      }
    }
  }

  /** The lines saveToFile writes for `points`. */
  function CsvFile(points: seq<HistoricalDataPoint>): (r: seq<CsvLine>)
    ensures |r| == |points| + 1 && r[0] == Text(Header)
    ensures forall i :: 0 <= i < |points| ==> r[i + 1] == Row(points[i])
  {
    [Text(Header)] + seq(|points|, i requires 0 <= i < |points| => Row(points[i]))
  }

  /** The points of the rows among `lines`, in order; other lines are
      skipped. */
  function Rows(lines: seq<CsvLine>): (r: seq<HistoricalDataPoint>)
    ensures |r| <= |lines|
  {
    if lines == [] then []
    else Rows(lines[..|lines| - 1]) + (if lines[|lines| - 1].Row? then [lines[|lines| - 1].point] else [])
  }

  /** The points loadFromFile reads from a file: the first line is taken
      as the header whatever it holds. */
  function ReadPoints(lines: seq<CsvLine>): seq<HistoricalDataPoint> {
    if lines == [] then [] else Rows(lines[1..])
  }

  /** Reading back a written file gives the written points. */
  lemma {:induction false} CsvRoundTrip(points: seq<HistoricalDataPoint>)
    ensures ReadPoints(CsvFile(points)) == points
  {
    RowsOfRows(points);
    assert CsvFile(points)[1..] == seq(|points|, i requires 0 <= i < |points| => Row(points[i]));
  }

  lemma {:induction false} RowsOfRows(points: seq<HistoricalDataPoint>)
    ensures Rows(seq(|points|, i requires 0 <= i < |points| => Row(points[i]))) == points
  {
    if points != [] {
      var n := |points| - 1;
      var lines := seq(|points|, i requires 0 <= i < |points| => Row(points[i]));
      assert lines[..n] == seq(n, i requires 0 <= i < n => Row(points[..n][i]));
      RowsOfRows(points[..n]);
      assert points == points[..n] + [points[n]];
    }
  }

  class HistoricalDataCollector {
    const maxDaysToRetain: int
    const enablePersistence: bool
    const persistenceFile: string
    const disk: Disk
    var points: seq<HistoricalDataPoint>

    /** The cap holds at all times. */
    ghost predicate Valid()
      reads this
    {
      Retained(points, maxDaysToRetain) == points
    }

    /** With persistence on, the store starts from the configured file when
        it exists (capped); otherwise it starts empty. */
    constructor (maxDaysToRetain: int, enablePersistence: bool, persistenceFile: string, disk: Disk)
      ensures this.maxDaysToRetain == maxDaysToRetain && this.enablePersistence == enablePersistence
      ensures this.persistenceFile == persistenceFile && this.disk == disk
      ensures Valid()
      ensures if enablePersistence && persistenceFile in disk.files
              then points == Retained(ReadPoints(disk.files[persistenceFile]), maxDaysToRetain)
              else points == []
    {
      this.maxDaysToRetain := maxDaysToRetain;
      this.enablePersistence := enablePersistence;
      this.persistenceFile := persistenceFile;
      this.disk := disk;
      points := [];
      new;
      if enablePersistence {
        var _ := LoadFromFile(persistenceFile);
      }
    }

    /** The file a call works on: the given name, or the configured file
        for an empty name. */
    function FileName(filename: string): (file: string)
      reads this
      ensures filename != [] ==> file == filename
      ensures filename == [] ==> file == persistenceFile
    {
      if filename == [] then persistenceFile else filename
    }

    /** addDataPoint: appends, evicts from the front down to the cap, and
        saves to the configured file when persistence is on and the new
        size is a multiple of 24. */
    method AddDataPoint(p: HistoricalDataPoint)
      requires Valid()
      modifies this, disk
      ensures Valid()
      ensures points == Retained(old(points) + [p], maxDaysToRetain)
      ensures enablePersistence && |points| % 24 == 0 && persistenceFile !in old(disk.unwritable)
              ==> disk.files == old(disk.files)[persistenceFile := CsvFile(points)]
      ensures !(enablePersistence && |points| % 24 == 0 && persistenceFile !in old(disk.unwritable))
              ==> disk.files == old(disk.files)
      ensures disk.unwritable == old(disk.unwritable)
    {
      points := points + [p];
      if maxDaysToRetain * 24 >= 0 && |points| > maxDaysToRetain * 24 {
        CleanupOldData();
      }
      if enablePersistence && |points| % 24 == 0 {
        var _ := SaveToFile(persistenceFile);
      }
      RetainedTwice(old(points) + [p], maxDaysToRetain);
    }

    /** recordCurrentState: one point stamped with the supplied clock
        reading (hour of day, day of week), added as addDataPoint adds it,
        autosave included. */
    method RecordCurrentState(outdoorTemp: real, solarProduction: real, energyCost: real, hour: int, dayOfWeek: int)
      requires Valid()
      modifies this, disk
      ensures Valid()
      ensures points == Retained(old(points) + [HistoricalDataPoint(hour, dayOfWeek, outdoorTemp, solarProduction, energyCost)], maxDaysToRetain)
      ensures enablePersistence && |points| % 24 == 0 && persistenceFile !in old(disk.unwritable)
              ==> disk.files == old(disk.files)[persistenceFile := CsvFile(points)]
      ensures !(enablePersistence && |points| % 24 == 0 && persistenceFile !in old(disk.unwritable))
              ==> disk.files == old(disk.files)
      ensures disk.unwritable == old(disk.unwritable)
    {
      AddDataPoint(HistoricalDataPoint(hour, dayOfWeek, outdoorTemp, solarProduction, energyCost));
    }

    method GetAllData() returns (r: seq<HistoricalDataPoint>)
      ensures r == points
    {
      r := points;
    }

    /** getRecentData(numDays): the last numDays*24 points (all of them when
        there are fewer, or when numDays*24 is negative and so converts to
        a huge size_t), oldest first: what the retention cap would keep
        with numDays as its number of days. */
    method GetRecentData(numDays: int) returns (r: seq<HistoricalDataPoint>)
      ensures r == Retained(points, numDays)
    {
      var numPoints := if numDays * 24 < 0 || numDays * 24 > |points| then |points| else numDays * 24;
      if numPoints == 0 {
        return [];
      }
      r := points[|points| - numPoints..];
    }

    method GetDataPointCount() returns (n: nat)
      ensures n == |points|
    {
      n := |points|;
    }

    /** cleanupOldData: drops the oldest points beyond the cap. */
    method CleanupOldData()
      modifies this
      ensures points == Retained(old(points), maxDaysToRetain)
      ensures Valid()
    {
      var maxPoints := maxDaysToRetain * 24;
      if maxPoints >= 0 && |points| > maxPoints {
        var toRemove := |points| - maxPoints;
        points := points[toRemove..];
      }
      RetainedTwice(old(points), maxDaysToRetain);
    }

    /** removeOldDataPoints: the same eviction, reporting how many points
        were dropped. */
    method RemoveOldDataPoints() returns (removed: nat)
      modifies this
      ensures points == Retained(old(points), maxDaysToRetain)
      ensures removed == |old(points)| - |points|
      ensures old(points) == old(points)[..removed] + points
    {
      var maxPoints := maxDaysToRetain * 24;
      var originalSize := |points|;
      if maxPoints >= 0 && |points| > maxPoints {
        points := points[|points| - maxPoints..];
      }
      removed := originalSize - |points|;
    }

    /** saveToFile: the header and one row per point, oldest first; false
        when the file cannot be opened for writing. */
    method SaveToFile(filename: string) returns (ok: bool)
      modifies disk
      ensures ok == (FileName(filename) !in old(disk.unwritable))
      ensures ok ==> disk.files == old(disk.files)[FileName(filename) := CsvFile(points)]
      ensures !ok ==> disk.files == old(disk.files)
      ensures disk.unwritable == old(disk.unwritable)
    {
      var file := if filename == [] then persistenceFile else filename;
      if file in disk.unwritable {
        return false;
      }
      var lines := [Text(Header)];
      var i := 0;
      while i < |points|
        invariant 0 <= i <= |points|
        invariant lines == CsvFile(points[..i])
      {
        lines := lines + [Row(points[i])];
        i := i + 1;
      }
      assert points[..i] == points;
      disk.files := disk.files[file := lines];
      ok := true;
    }

    /** loadFromFile: false and no change when the file does not exist;
        otherwise the contents become the rows after the header line
        (malformed rows skipped), capped. */
    method LoadFromFile(filename: string) returns (ok: bool)
      modifies this
      ensures ok == (FileName(filename) in disk.files)
      ensures !ok ==> points == old(points)
      ensures ok ==> points == Retained(ReadPoints(disk.files[FileName(filename)]), maxDaysToRetain)
      ensures ok ==> Valid()
    {
      var file := if filename == [] then persistenceFile else filename;
      if file !in disk.files {
        return false;
      }
      var lines := disk.files[file];
      points := [];
      if lines != [] {
        var body := lines[1..];
        var i := 0;
        while i < |body|
          invariant 0 <= i <= |body|
          invariant points == Rows(body[..i])
        {
          assert body[..i + 1][..i] == body[..i];
          if body[i].Row? {
            points := points + [body[i].point];
          }
          i := i + 1;
        }
        assert body[..i] == body;
      }
      CleanupOldData();
      ok := true;
    }
  }

  /** Saving and then loading the same file gives back the store's
      contents: the cap already holds, so reloading evicts nothing. */
  lemma SaveLoadRoundTrip(points: seq<HistoricalDataPoint>, maxDaysToRetain: int)
    requires Retained(points, maxDaysToRetain) == points
    ensures Retained(ReadPoints(CsvFile(points)), maxDaysToRetain) == points
  {
    CsvRoundTrip(points);
  }
}
