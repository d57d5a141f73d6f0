/**
 * mini_lat.py: derives a read-ahead size (in KB) for a block device from its rated limits
 * and from the completion latency that fio measures.
 *
 * The rated limits give an IOPS figure with headroom taken off and the smallest request
 * size that reaches full bandwidth at that rate.  fio then measures the latency of
 * sequential writes and reads at that request size (and of random 8 KB ones); the
 * sequential latency gives the queue depth that keeps the device busy, and the read-ahead
 * is that many requests.
 *
 * Python's floats become exact rationals (`real`): 0.87 is 87/100, `math.ceil` is `Ceil`.
 * A division by zero, which Python raises as ZeroDivisionError, is the error `ZeroDivision`.
 */
module MiniLat {
  import opened Wrappers

  /** What ends the script early. */
  datatype Failure =
    | ZeroDivision   // ZeroDivisionError in the arithmetic
    | FioFailed      // fio exited non-zero or printed something that is not JSON
    | MissingField   // the fio report lacks jobs[0][<rw>]["clat_ns"]["mean"]
    | NotANumber     // that mean is not a number

  /* Rounding, as `math.ceil`, `min` and `max` do it. */

  /** `math.ceil`: the least integer not below x. */
  function Ceil(x: real): (c: int)
    ensures c as real - 1.0 < x <= c as real
  {
    -((-x).Floor)
  }

  lemma CeilOfInt(n: int)
    ensures Ceil(n as real) == n
  {
  }

  /** `math.ceil` never decreases. */
  lemma CeilMonotone(x: real, y: real)
    requires x <= y
    ensures Ceil(x) <= Ceil(y)
  {
  }

  function Min(a: int, b: int): (m: int)
    ensures m <= a && m <= b && (m == a || m == b)
  {
    if a <= b then a else b
  }

  function Max(a: int, b: int): (m: int)
    ensures m >= a && m >= b && (m == a || m == b)
  {
    if a >= b then a else b
  }

  /**
   * `min(int, float)`: `Min` again, at type real, since the script compares an integer
   * bound with a float one.  On a tie Python returns the first argument, which has the
   * same value.
   */
  function MinReal(a: real, b: real): (m: real)
    ensures m <= a && m <= b && (m == a || m == b)
  {
    if a <= b then a else b
  }

  lemma ProductZero(a: real, b: real)
    ensures a * b == 0.0 <==> a == 0.0 || b == 0.0
  {
  }

  /* The bounds (mini_lat.py lines 55-73). */

  /** The rated limits of the device: IOPS, bandwidth in MB/s, and `max_hw_sectors_kb`. */
  datatype DeviceLimits = DeviceLimits(
    maxReadIops: int, maxWriteIops: int,
    maxReadBwMbps: int, maxWriteBwMbps: int,
    maxHwSectorsKb: int)

  /** The limits written into the script, for the drive it was tuned on. */
  const Sabrent := DeviceLimits(650000, 700000, 7100, 6600, 2048)

  /** `IOPS_headroom`. */
  const Headroom: real := 0.87

  /** What the script derives before it runs fio. */
  datatype Bounds = Bounds(maxIops: int, maxBw: int, iopsSeqIo: real, rs1: int, rs2: int, rs: int)

  /** c is the ceiling of x. */
  predicate IsCeil(c: int, x: real) {
    c as real - 1.0 < x <= c as real
  }

  /**
   * max_iops, max_bw (KB/s), IOPS_seq_IO and the request sizes RS_min_seq_IO_1,
   * RS_min_seq_IO_2 and RS_min_seq_IO.  `max_bw / IOPS_seq_IO` divides by zero when no
   * IOPS are left after the headroom.
   */
  function DeriveBounds(l: DeviceLimits, headroom: real): (r: Result<Bounds, Failure>)
    ensures r.Err? <==> Min(l.maxReadIops, l.maxWriteIops) == 0 || headroom == 1.0
    ensures r.Err? ==> r.error == ZeroDivision
    ensures r.Ok? ==>
      var b := r.value;
      b.maxIops <= l.maxReadIops && b.maxIops <= l.maxWriteIops &&
      (b.maxIops == l.maxReadIops || b.maxIops == l.maxWriteIops) &&
      b.maxBw == 1024 * Min(l.maxReadBwMbps, l.maxWriteBwMbps) &&
      b.iopsSeqIo == b.maxIops as real * (1.0 - headroom) && b.iopsSeqIo != 0.0 && b.maxIops != 0 &&
      IsCeil(b.rs1, MinReal(l.maxHwSectorsKb as real, b.maxBw as real / b.iopsSeqIo)) &&
      IsCeil(b.rs2, MinReal(l.maxHwSectorsKb as real, b.maxBw as real / b.maxIops as real)) &&
      b.rs >= b.rs1 && b.rs >= b.rs2 && (b.rs == b.rs1 || b.rs == b.rs2)
  {
    var maxIops := Min(l.maxReadIops, l.maxWriteIops);
    var maxBw := Min(l.maxReadBwMbps, l.maxWriteBwMbps) * 1024;
    var iopsSeqIo := maxIops as real * (1.0 - headroom);
    ProductZero(maxIops as real, 1.0 - headroom);
    if iopsSeqIo == 0.0 then Err(ZeroDivision)
    else
      var rs1 := Ceil(MinReal(l.maxHwSectorsKb as real, maxBw as real / iopsSeqIo));
      var rs2 := Ceil(MinReal(l.maxHwSectorsKb as real, maxBw as real / maxIops as real));
      Ok(Bounds(maxIops, maxBw, iopsSeqIo, rs1, rs2, Max(rs1, rs2)))
  }

  /**
   * For a device with positive rates and a positive `max_hw_sectors_kb`, and any headroom
   * but 1, the request size is a whole number of KB between 1 and `max_hw_sectors_kb`.
   */
  lemma RequestSizeRange(l: DeviceLimits, headroom: real)
    requires l.maxReadIops > 0 && l.maxWriteIops > 0 && l.maxReadBwMbps > 0 && l.maxWriteBwMbps > 0
    requires l.maxHwSectorsKb >= 1 && headroom != 1.0
    ensures DeriveBounds(l, headroom).Ok?
    ensures 1 <= DeriveBounds(l, headroom).value.rs <= l.maxHwSectorsKb
  {
    var b := DeriveBounds(l, headroom).value;
    var hw := l.maxHwSectorsKb as real;
    var q2 := b.maxBw as real / b.maxIops as real;
    assert q2 > 0.0;
    assert b.rs2 == Ceil(MinReal(hw, q2));
    CeilMonotone(MinReal(hw, b.maxBw as real / b.iopsSeqIo), hw);
    CeilMonotone(MinReal(hw, q2), hw);
    CeilOfInt(l.maxHwSectorsKb);
  }

  /** With the script's limits: 84500 IOPS after headroom, request sizes 80 and 11, so 80 KB. */
  lemma SabrentBounds()
    ensures DeriveBounds(Sabrent, Headroom) == Ok(Bounds(650000, 6758400, 84500.0, 80, 11, 80))
  {
    var q1 := 6758400.0 / 84500.0;
    assert 79.0 < q1 <= 80.0;
    var q2 := 6758400.0 / 650000.0;
    assert 10.0 < q2 <= 11.0;
  }

  /* The read-ahead (mini_lat.py lines 78-79). */

  datatype Sizing = Sizing(queueDepth: int, readAheadKb: int)

  /**
   * QD_max_seq_BW, the requests in flight that keep `max_bw` KB/s going when each takes
   * `latency` seconds, and read_ahead, that many requests of `rs` KB.
   */
  function ReadAhead(maxBw: int, latency: real, rs: int): (r: Result<Sizing, Failure>)
    ensures r.Err? <==> rs == 0
    ensures r.Err? ==> r.error == ZeroDivision
    ensures r.Ok? ==> r.value.readAheadKb == r.value.queueDepth * rs
  {
    if rs == 0 then Err(ZeroDivision)
    else
      var qd := Ceil(maxBw as real * latency / rs as real);
      CeilOfInt(qd * rs);
      Ok(Sizing(qd, Ceil(qd as real * rs as real)))
  }

  /**
   * The read-ahead is a whole number of requests, covers the KB transferred during one
   * latency, and overshoots it by less than one request.
   */
  lemma ReadAheadCovers(maxBw: int, latency: real, rs: int)
    requires rs > 0
    ensures ReadAhead(maxBw, latency, rs).Ok?
    ensures Covers(ReadAhead(maxBw, latency, rs).value, maxBw, latency, rs)
  {
    var s := ReadAhead(maxBw, latency, rs).value;
    var x := maxBw as real * latency;
    ScaleCeil(x, rs as real, s.queueDepth);
  }

  /**
   * A sizing is right for `maxBw` KB/s, a latency and requests of `rs` KB when its
   * read-ahead is a whole number of requests that covers the KB transferred during one
   * latency and overshoots them by less than one request.
   */
  ghost predicate Covers(s: Sizing, maxBw: int, latency: real, rs: int) {
    s.readAheadKb == s.queueDepth * rs &&
    maxBw as real * latency <= s.readAheadKb as real < maxBw as real * latency + rs as real
  }

  /** Multiplying back by r: if q is the ceiling of x / r, then q * r covers x by less than r. */
  lemma ScaleCeil(x: real, r: real, q: int)
    requires r > 0.0 && q == Ceil(x / r)
    ensures x <= q as real * r < x + r
  {
    ScaleBounds(x / r, r, q as real, x);
  }

  lemma ScaleBounds(d: real, r: real, c: real, x: real)
    requires r > 0.0 && c - 1.0 < d <= c && d * r == x
    ensures x <= c * r
    ensures c * r < x + r
  {
    var e := c - d;
    assert 0.0 <= e < 1.0;
    assert 0.0 <= e * r < r by {
      MulLeq(0.0, e, r);
      MulLt(e, 1.0, r);
    }
    calc {
      c * r;
      (d + e) * r;
      d * r + e * r;
      x + e * r;
    }
  }

  lemma MulLeq(a: real, b: real, r: real)
    requires r > 0.0 && a <= b
    ensures a * r <= b * r
  {
  }

  lemma MulLt(a: real, b: real, r: real)
    requires r > 0.0 && a < b
    ensures a * r < b * r
  {
  }

  /** A longer measured latency never gives a smaller read-ahead. */
  lemma ReadAheadMonotone(maxBw: int, lat1: real, lat2: real, rs: int)
    requires rs > 0 && maxBw >= 0 && lat1 <= lat2
    ensures ReadAhead(maxBw, lat1, rs).Ok? && ReadAhead(maxBw, lat2, rs).Ok?
    ensures ReadAhead(maxBw, lat1, rs).value.readAheadKb <= ReadAhead(maxBw, lat2, rs).value.readAheadKb
  {
    var x1 := maxBw as real * lat1;
    var x2 := maxBw as real * lat2;
    assert x1 <= x2;
    assert x1 / rs as real <= x2 / rs as real;
    CeilMonotone(x1 / rs as real, x2 / rs as real);
  }

  /** At 6758400 KB/s, a 0.5 ms latency and 80 KB requests: 43 requests, 3440 KB. */
  lemma ReadAheadExample()
    ensures ReadAhead(6758400, 0.0005, 80) == Ok(Sizing(43, 3440))
  {
    assert 6758400.0 * 0.0005 / 80.0 == 42.24;
    CeilOfInt(3440);
  }

  /* The fio report (mini_lat.py lines 23, 32 and 35). */

  /** What `json.loads` returns. */
  datatype Json =
    | JNull
    | JBool(b: bool)
    | JNumber(n: real)
    | JString(s: string)
    | JArray(items: seq<Json>)
    | JObject(fields: map<string, Json>)

  /** `j[key]`, failing unless j is an object with that key. */
  function Field(j: Json, key: string): (r: Result<Json, Failure>)
    ensures r.Ok? <==> j.JObject? && key in j.fields
    ensures r.Ok? ==> r.value == j.fields[key]
  {
    if j.JObject? && key in j.fields then Ok(j.fields[key]) else Err(MissingField)
  }

  /** `j[0]`, failing unless j is a non-empty list. */
  function First(j: Json): (r: Result<Json, Failure>)
    ensures r.Ok? <==> j.JArray? && |j.items| > 0
    ensures r.Ok? ==> r.value == j.items[0]
  {
    if j.JArray? && |j.items| > 0 then Ok(j.items[0]) else Err(MissingField)
  }

  /**
   * The value `max` and `/` compute with: a JSON number, or a Python bool, which counts as
   * the int 0 or 1.  Anything else makes them raise TypeError.
   */
  function Number(j: Json): (r: Result<real, Failure>)
    ensures r.Ok? <==> j.JNumber? || j.JBool?
    ensures r.Err? ==> r.error == NotANumber
    ensures j.JNumber? ==> r == Ok(j.n)
    ensures j.JBool? ==> r == Ok(if j.b then 1.0 else 0.0)
  {
    match j
    case JNumber(n) => Ok(n)
    case JBool(b) => Ok(if b then 1.0 else 0.0)
    case _ => Err(NotANumber)
  }

  /** Whether every subscript of `parsed['jobs'][0][rw]['clat_ns']['mean']` succeeds. */
  predicate HasClatMean(parsed: Json, rw: string) {
    parsed.JObject? && "jobs" in parsed.fields &&
    var jobs := parsed.fields["jobs"];
    jobs.JArray? && |jobs.items| > 0 &&
    var job := jobs.items[0];
    job.JObject? && rw in job.fields &&
    var stats := job.fields[rw];
    stats.JObject? && "clat_ns" in stats.fields &&
    var clat := stats.fields["clat_ns"];
    clat.JObject? && "mean" in clat.fields
  }

  /**
   * `parsed['jobs'][0][rw]['clat_ns']['mean']`: whatever value the report holds there.  Its
   * type is not checked here; Python only finds out at `max` and `/`.
   */
  function ClatMean(parsed: Json, rw: string): (r: Result<Json, Failure>)
    ensures r.Ok? ==> parsed.JObject? && "jobs" in parsed.fields
    ensures r.Err? ==> r.error == MissingField
  {
    if HasClatMean(parsed, rw)
    then Ok(parsed.fields["jobs"].items[0].fields[rw].fields["clat_ns"].fields["mean"])
    else Err(MissingField)
  }

  /** The lookup is the five subscripts in turn, the first that fails ending it. */
  lemma ClatMeanSubscripts(parsed: Json, rw: string)
    ensures ClatMean(parsed, rw) ==
      match Field(parsed, "jobs")
      case Err(e) => Err(e)
      case Ok(jobs) =>
        match First(jobs)
        case Err(e) => Err(e)
        case Ok(job) =>
          match Field(job, rw)
          case Err(e) => Err(e)
          case Ok(stats) =>
            match Field(stats, "clat_ns")
            case Err(e) => Err(e)
            case Ok(clat) => Field(clat, "mean")
  {
  }

  /**
   * A report shaped like fio's: a "jobs" list whose first job holds, under `rw`, the
   * completion latency statistics with the given mean, and whatever else fio adds.
   */
  function Report(rw: string, mean: Json, top: map<string, Json>, rest: seq<Json>,
                  job: map<string, Json>, stats: map<string, Json>, clat: map<string, Json>): Json
  {
    var clatNs := JObject(clat["mean" := mean]);
    var rwStats := JObject(stats["clat_ns" := clatNs]);
    JObject(top["jobs" := JArray([JObject(job[rw := rwStats])] + rest)])
  }

  /** The lookup finds the mean a report was built with, whatever other fields it has. */
  lemma ClatMeanOfReport(rw: string, mean: Json, top: map<string, Json>, rest: seq<Json>,
                         job: map<string, Json>, stats: map<string, Json>, clat: map<string, Json>)
    ensures ClatMean(Report(rw, mean, top, rest, job, stats, clat), rw) == Ok(mean)
  {
  }

  /** Conversely, every report the lookup succeeds on is shaped like fio's. */
  lemma ClatMeanIsReport(parsed: Json, rw: string)
    ensures ClatMean(parsed, rw).Ok? ==>
      exists top, rest, job, stats, clat :: parsed == Report(rw, ClatMean(parsed, rw).value, top, rest, job, stats, clat)
  {
    if ClatMean(parsed, rw).Ok? {
      var jobs := parsed.fields["jobs"];
      var job := jobs.items[0];
      var st := job.fields[rw];
      var clat := st.fields["clat_ns"];
      var mean := clat.fields["mean"];
      assert clat == JObject(clat.fields["mean" := mean]);
      assert st == JObject(st.fields["clat_ns" := clat]);
      assert job == JObject(job.fields[rw := st]);
      assert jobs == JArray([job] + jobs.items[1..]);
      assert parsed == Report(rw, mean, parsed.fields, jobs.items[1..], job.fields, st.fields, clat.fields);
    }
  }

  /** A report without the "jobs" key fails the lookup. */
  lemma ClatMeanNeedsJobs(parsed: Json, rw: string)
    requires parsed.JObject? && "jobs" !in parsed.fields
    ensures ClatMean(parsed, rw) == Err(MissingField)
  {
  }

  /** `max(write_clat_mean, read_clat_mean) / 1_000_000_000`: the slower mean, in seconds. */
  function Latency(writeMean: real, readMean: real): (s: real)
    ensures s * 1000000000.0 >= writeMean && s * 1000000000.0 >= readMean
    ensures s * 1000000000.0 == writeMean || s * 1000000000.0 == readMean
  {
    (if writeMean >= readMean then writeMean else readMean) / 1000000000.0
  }

  /* The fio command line (mini_lat.py lines 9-19). */

  function DigitChar(d: int): char
    requires 0 <= d < 10
  {
    "0123456789"[d]
  }

  /** `str(n)` for n >= 0. */
  function NatToString(n: nat): string {
    if n < 10 then [DigitChar(n)] else NatToString(n / 10) + [DigitChar(n % 10)]
  }

  /** `str(n)`, with a minus sign for a negative n: the sign is there exactly when n < 0. */
  function IntToString(n: int): (s: string)
    ensures |s| >= 1 && (s[0] == '-' <==> n < 0)
  {
    if n < 0 then "-" + NatToString(-n)
    else
      NatToStringDigits(n);
      NatToString(n)
  }

  /** The rendering is a non-empty string of decimal digits. */
  lemma {:induction false} NatToStringDigits(n: nat)
    ensures |NatToString(n)| >= 1
    ensures forall i :: 0 <= i < |NatToString(n)| ==> '0' <= NatToString(n)[i] <= '9'
  {
    if n >= 10 {
      NatToStringDigits(n / 10);
    }
  }

  /** The value of a string of decimal digits. */
  function DigitsValue(s: string): int {
    if s == [] then 0 else 10 * DigitsValue(s[..|s| - 1]) + (s[|s| - 1] as int - '0' as int)
  }

  /** `int(str(n)) == n`: the rendering can be read back. */
  lemma {:induction false} NatToStringValue(n: nat)
    ensures DigitsValue(NatToString(n)) == n
  {
    var s := NatToString(n);
    if n >= 10 {
      NatToStringValue(n / 10);
      assert s[..|s| - 1] == NatToString(n / 10);
    }
  }

  lemma NatToStringInjective(a: nat, b: nat)
    requires NatToString(a) == NatToString(b)
    ensures a == b
  {
    NatToStringValue(a);
    NatToStringValue(b);
  }

  /** `str` is one-to-one on integers. */
  lemma IntToStringInjective(a: int, b: int)
    requires IntToString(a) == IntToString(b)
    ensures a == b
  {
    var sa := IntToString(a);
    assert a < 0 <==> b < 0 by {
      assert sa[0] == '-' <==> a < 0;
      assert IntToString(b)[0] == '-' <==> b < 0;
    }
    if a < 0 {
      assert NatToString(-a) == sa[1..] == NatToString(-b);
      NatToStringInjective(-a, -b);
    } else {
      NatToStringInjective(a, b);
    }
  }

  /** One fio run of `measure_latency`: its arguments. */
  datatype FioJob = FioJob(directory: string, iops: int, requestSize: int, rw: string, name: string)

  /** The argument list `measure_latency` hands to fio for a job. */
  function FioCommand(job: FioJob): (cmd: seq<string>)
    ensures |cmd| == 14 && cmd[0] == "fio"
    ensures forall i :: 1 <= i < |cmd| ==> |cmd[i]| > 2 && cmd[i][..2] == "--"
  {
    ["fio", "--direct=1", "--ioengine=libaio", "--iodepth=1",
     "--time_based=0", "--name=" + job.name, "--size=10MB",
     "--output-format=json", "--overwrite=1", "--rw=" + job.rw,
     "--bs=" + IntToString(job.requestSize) + "k", "--number_ios=1000",
     "--rate_iops=" + IntToString(job.iops), "--directory=" + job.directory]
  }

  lemma DropPrefix(p: string, a: string, b: string)
    requires p + a == p + b
    ensures a == b
  {
    assert a == (p + a)[|p|..];
    assert b == (p + b)[|p|..];
  }

  lemma DropSuffix(a: string, b: string, x: string)
    requires a + x == b + x
    ensures a == b
  {
    assert a == (a + x)[..|a|];
    assert b == (b + x)[..|b|];
  }

  /**
   * Different jobs give different command lines: the argument list determines every
   * argument of `measure_latency`, so what fio does can be keyed by the job.
   */
  lemma FioCommandInjective(j1: FioJob, j2: FioJob)
    requires FioCommand(j1) == FioCommand(j2)
    ensures j1 == j2
  {
    var c1 := FioCommand(j1);
    var c2 := FioCommand(j2);
    assert c1[5] == c2[5] && c1[9] == c2[9] && c1[10] == c2[10] && c1[12] == c2[12] && c1[13] == c2[13];
    DropPrefix("--name=", j1.name, j2.name);
    DropPrefix("--rw=", j1.rw, j2.rw);
    assert c1[10] == "--bs=" + (IntToString(j1.requestSize) + "k");
    assert c2[10] == "--bs=" + (IntToString(j2.requestSize) + "k");
    DropPrefix("--bs=", IntToString(j1.requestSize) + "k", IntToString(j2.requestSize) + "k");
    DropSuffix(IntToString(j1.requestSize), IntToString(j2.requestSize), "k");
    IntToStringInjective(j1.requestSize, j2.requestSize);
    DropPrefix("--rate_iops=", IntToString(j1.iops), IntToString(j2.iops));
    IntToStringInjective(j1.iops, j2.iops);
    DropPrefix("--directory=", j1.directory, j2.directory);
  }

  /** The direction fio is asked for: "write"/"read", or "randwrite"/"randread" for a random probe. */
  function Mode(random: bool, op: string): (rw: string)
    ensures rw == (if random then "rand" + op else op)
  {
    (if random then "rand" else "") + op
  }

  /* The file fio leaves behind (mini_lat.py lines 42-48). */

  /** `os.path.join(directory, name)` on POSIX. */
  function Join(directory: string, name: string): (p: string)
    ensures |p| >= |name| && p[|p| - |name|..] == name
  {
    if |name| > 0 && name[0] == '/' then name
    else if directory == [] || directory[|directory| - 1] == '/' then directory + name
    else directory + "/" + name
  }

  /**
   * An absolute name is the path itself; a relative one ends the path, after the
   * directory and exactly one separator between them (none after an empty directory).
   */
  lemma JoinParts(directory: string, name: string)
    ensures |name| > 0 && name[0] == '/' ==> Join(directory, name) == name
    ensures (|name| == 0 || name[0] != '/') ==>
      var p := Join(directory, name);
      |p| >= |name| && p[|p| - |name|..] == name &&
      p[..|p| - |name|] == (if directory == [] || directory[|directory| - 1] == '/' then directory else directory + "/")
  {
  }

  /** The file get_latency removes is `test.0.0` inside the directory fio wrote to. */
  lemma ArtifactPath(directory: string)
    ensures Join(directory, JobFile(JobName)) ==
      (if directory == [] || directory[|directory| - 1] == '/' then directory else directory + "/") + "test.0.0"
  {
    JoinParts(directory, JobFile(JobName));
  }

  /** The job name get_latency gives fio. */
  const JobName := "test"

  /** fio's default file name for job 0, file 0 of a job: `$jobname.$jobnum.$filenum`. */
  function JobFile(jobname: string): string {
    jobname + ".0.0"
  }

  /**
   * What one fio run does: whether it wrote the job's file, and the report `json.loads`
   * makes of its output (`None` when fio exits non-zero or prints something that is not
   * JSON).  A run whose output does not parse may have written the file all the same.
   */
  datatype FioOutcome = FioOutcome(wroteFile: bool, report: Option<Json>)

  /** fio itself: the outcome of the n-th run, given the job its argument list encodes. */
  type Fio = (nat, FioJob) -> FioOutcome

  /**
   * The machine the script runs on: the files that exist, the fio jobs run so far, and
   * fio itself.  What fio does depends on how many runs came before and on its argument
   * list, which `FioCommand` builds one-to-one from the job.
   */
  class Host {
    var files: set<string>
    var runs: seq<FioJob>
    const fio: Fio

    constructor (files0: set<string>, fio: Fio)
      ensures this.files == files0 && runs == [] && this.fio == fio
    {
      this.files := files0;
      this.runs := [];
      this.fio := fio;
    }
  }

  /** The report of the n-th fio run, as `json.loads(subprocess.check_output(FioCommand(job)))`. */
  function FioRun(fio: Fio, n: nat, job: FioJob): (r: Result<Json, Failure>)
    ensures r.Ok? <==> fio(n, job).report.Some?
    ensures r.Err? ==> r.error == FioFailed
  {
    match fio(n, job).report
    case None => Err(FioFailed)
    case Some(j) => Ok(j)
  }

  /** `measure_latency`: runs fio once and parses its report. */
  method MeasureLatency(host: Host, directory: string, iops: int, requestSize: int, rw: string, name: string)
    returns (r: Result<Json, Failure>)
    modifies host
    ensures host.runs == old(host.runs) + [FioJob(directory, iops, requestSize, rw, name)]
    ensures r == FioRun(host.fio, |old(host.runs)|, FioJob(directory, iops, requestSize, rw, name))
    ensures host.files == AfterRun(old(host.files), Join(directory, JobFile(name)),
                                   host.fio(|old(host.runs)|, FioJob(directory, iops, requestSize, rw, name)).wroteFile)
  {
    var job := FioJob(directory, iops, requestSize, rw, name);
    var out := host.fio(|host.runs|, job);
    host.runs := host.runs + [job];
    if out.wroteFile {
      host.files := host.files + {Join(directory, JobFile(name))};
    }
    if out.report.None? {
      return Err(FioFailed);
    }
    r := Ok(out.report.value);
  }

  /** The `try: os.remove(path) except FileNotFoundError: pass` of get_latency. */
  method RemoveIfPresent(host: Host, path: string)
    modifies host`files
    ensures host.files == old(host.files) - {path}
  {
    if path in host.files {
      host.files := host.files - {path};
    }
  }

  /**
   * One probe of get_latency when n fio runs came before it: the n-th run of fio with
   * `rw`, and the value its report holds as the mean under `key`.
   */
  function ProbeMean(fio: Fio, n: nat, directory: string, iops: int, requestSize: int, rw: string, key: string)
    : (r: Result<Json, Failure>)
    ensures var report := fio(n, FioJob(directory, iops, requestSize, rw, JobName)).report;
      (r.Ok? <==> report.Some? && HasClatMean(report.value, key)) &&
      (r.Ok? ==> r == ClatMean(report.value, key)) &&
      (r.Err? ==> r.error == if report.None? then FioFailed else MissingField)
  {
    match FioRun(fio, n, FioJob(directory, iops, requestSize, rw, JobName))
    case Err(e) => Err(e)
    case Ok(parsed) => ClatMean(parsed, key)
  }

  /**
   * What `get_latency` returns when n fio runs came before it: the write probe's mean,
   * then the read probe's, and the slower of the two in seconds.  fio files the statistics
   * of a random probe under "write" and "read" as well, and those are the keys looked up.
   */
  function LatencyOf(fio: Fio, n: nat, directory: string, iops: int, requestSize: int, random: bool)
    : (r: Result<real, Failure>)
    ensures r.Ok? ==>
      ProbeMean(fio, n, directory, iops, requestSize, Mode(random, "write"), "write").Ok? &&
      ProbeMean(fio, n + 1, directory, iops, requestSize, Mode(random, "read"), "read").Ok?
    ensures (r.Err? && ProbeMean(fio, n, directory, iops, requestSize, Mode(random, "write"), "write").Ok? &&
             ProbeMean(fio, n + 1, directory, iops, requestSize, Mode(random, "read"), "read").Ok?) ==>
      r.error == NotANumber
    ensures
      var w := ProbeMean(fio, n, directory, iops, requestSize, Mode(random, "write"), "write");
      var d := ProbeMean(fio, n + 1, directory, iops, requestSize, Mode(random, "read"), "read");
      (r.Ok? <==> w.Ok? && d.Ok? && Number(w.value).Ok? && Number(d.value).Ok?) &&
      (r.Ok? ==> r.value == Latency(Number(w.value).value, Number(d.value).value))
  {
    match ProbeMean(fio, n, directory, iops, requestSize, Mode(random, "write"), "write")
    case Err(e) => Err(e)
    case Ok(writeMean) =>
      match ProbeMean(fio, n + 1, directory, iops, requestSize, Mode(random, "read"), "read")
      case Err(e) => Err(e)
      case Ok(readMean) =>
        if Number(writeMean).Ok? && Number(readMean).Ok? then Ok(Latency(Number(writeMean).value, Number(readMean).value))
        else Err(NotANumber)
  }

  /** The fio jobs get_latency runs: the write probe, and the read probe when the write lookup succeeded. */
  function ProbeJobs(fio: Fio, n: nat, directory: string, iops: int, requestSize: int, random: bool): seq<FioJob> {
    [FioJob(directory, iops, requestSize, Mode(random, "write"), JobName)] +
    if ProbeMean(fio, n, directory, iops, requestSize, Mode(random, "write"), "write").Ok?
    then [FioJob(directory, iops, requestSize, Mode(random, "read"), JobName)] else []
  }

  /** Whether one of the fio runs get_latency makes wrote the job's file. */
  predicate ProbesWrote(fio: Fio, n: nat, directory: string, iops: int, requestSize: int, random: bool) {
    fio(n, FioJob(directory, iops, requestSize, Mode(random, "write"), JobName)).wroteFile ||
    (ProbeMean(fio, n, directory, iops, requestSize, Mode(random, "write"), "write").Ok? &&
     fio(n + 1, FioJob(directory, iops, requestSize, Mode(random, "read"), JobName)).wroteFile)
  }

  /**
   * Whether `max` accepts the two means: both are numbers (a bool counts as one), or both
   * are strings, which it compares letter by letter.
   */
  predicate Comparable(writeMean: Json, readMean: Json): (b: bool)
    ensures b <==> ((writeMean.JNumber? || writeMean.JBool?) && (readMean.JNumber? || readMean.JBool?)) ||
                   (writeMean.JString? && readMean.JString?)
  {
    (Number(writeMean).Ok? && Number(readMean).Ok?) || (writeMean.JString? && readMean.JString?)
  }

  /**
   * Whether get_latency gets as far as `os.remove`: both lookups succeed and `max` accepts
   * their values.  The division after the removal may still fail, on two strings.
   */
  predicate ReachesRemove(fio: Fio, n: nat, directory: string, iops: int, requestSize: int, random: bool) {
    var w := ProbeMean(fio, n, directory, iops, requestSize, Mode(random, "write"), "write");
    var d := ProbeMean(fio, n + 1, directory, iops, requestSize, Mode(random, "read"), "read");
    w.Ok? && d.Ok? && Comparable(w.value, d.value)
  }

  /**
   * The files after get_latency, run by run: what the write run left, then what the read
   * run left when the write lookup succeeded, then the removal when it is reached.
   */
  function LatencyFiles(fio: Fio, n: nat, directory: string, iops: int, requestSize: int, random: bool,
                        files: set<string>): set<string>
  {
    var a := Join(directory, JobFile(JobName));
    var afterWrite := AfterRun(files, a, fio(n, FioJob(directory, iops, requestSize, Mode(random, "write"), JobName)).wroteFile);
    if ProbeMean(fio, n, directory, iops, requestSize, Mode(random, "write"), "write").Err? then afterWrite
    else
      var afterRead := AfterRun(afterWrite, a, fio(n + 1, FioJob(directory, iops, requestSize, Mode(random, "read"), JobName)).wroteFile);
      if ReachesRemove(fio, n, directory, iops, requestSize, random) then afterRead - {a} else afterRead
  }

  /**
   * get_latency leaves the job's file behind exactly when it stops before the removal and
   * one of its runs wrote the file; every other file is as it was.
   */
  lemma LatencyFilesLeft(fio: Fio, n: nat, directory: string, iops: int, requestSize: int, random: bool,
                         files: set<string>)
    ensures LatencyFiles(fio, n, directory, iops, requestSize, random, files) ==
      if ReachesRemove(fio, n, directory, iops, requestSize, random) then files - {Join(directory, JobFile(JobName))}
      else files + (if ProbesWrote(fio, n, directory, iops, requestSize, random) then {Join(directory, JobFile(JobName))} else {})
  {
  }

  /** A successful get_latency has removed the job's file. */
  lemma SuccessRemoves(fio: Fio, n: nat, directory: string, iops: int, requestSize: int, random: bool)
    requires LatencyOf(fio, n, directory, iops, requestSize, random).Ok?
    ensures ReachesRemove(fio, n, directory, iops, requestSize, random)
  {
  }

  /**
   * Two string means pass `max` and the removal, and then fail at the division, with the
   * job's file gone.
   */
  lemma StringMeans(fio: Fio, n: nat, directory: string, iops: int, requestSize: int, random: bool, files: set<string>)
    requires ProbeMean(fio, n, directory, iops, requestSize, Mode(random, "write"), "write").Ok?
    requires ProbeMean(fio, n + 1, directory, iops, requestSize, Mode(random, "read"), "read").Ok?
    requires ProbeMean(fio, n, directory, iops, requestSize, Mode(random, "write"), "write").value.JString?
    requires ProbeMean(fio, n + 1, directory, iops, requestSize, Mode(random, "read"), "read").value.JString?
    ensures LatencyOf(fio, n, directory, iops, requestSize, random) == Err(NotANumber)
    ensures LatencyFiles(fio, n, directory, iops, requestSize, random, files) == files - {Join(directory, JobFile(JobName))}
  {
  }

  /** get_latency succeeds only after running both probes. */
  lemma ProbeJobsOfLatency(fio: Fio, n: nat, directory: string, iops: int, requestSize: int, random: bool)
    requires LatencyOf(fio, n, directory, iops, requestSize, random).Ok?
    ensures ProbeJobs(fio, n, directory, iops, requestSize, random) ==
      [FioJob(directory, iops, requestSize, Mode(random, "write"), JobName),
       FioJob(directory, iops, requestSize, Mode(random, "read"), JobName)]
  {
  }

  lemma AppendAssoc(a: seq<FioJob>, b: seq<FioJob>, c: seq<FioJob>)
    ensures a + b + c == a + (b + c)
  {
  }

  lemma SetRemoveTwice(files: set<string>, a: string)
    ensures files - {a} - {a} == files - {a}
  {
  }

  /** What a fio run leaves behind: the job's file, when the run wrote it. */
  function AfterRun(files: set<string>, path: string, wrote: bool): set<string> {
    if wrote then files + {path} else files
  }

  /** The runs of get_latency, by how far its probes got. */
  lemma ProbeRuns(fio: Fio, n: nat, directory: string, iops: int, requestSize: int, random: bool)
    ensures
      var w := FioJob(directory, iops, requestSize, Mode(random, "write"), JobName);
      var d := FioJob(directory, iops, requestSize, Mode(random, "read"), JobName);
      var a := Join(directory, JobFile(JobName));
      if ProbeMean(fio, n, directory, iops, requestSize, Mode(random, "write"), "write").Err? then
        ProbeJobs(fio, n, directory, iops, requestSize, random) == [w]
      else
        ProbeJobs(fio, n, directory, iops, requestSize, random) == [w, d]
  {
  }

  /**
   * When both probes report numbers, get_latency gives the slower mean in seconds, whatever
   * else each of the two reports holds.
   */
  lemma LatencyOfReports(fio: Fio, n: nat, directory: string, iops: int, requestSize: int, random: bool,
                         w: real, wTop: map<string, Json>, wRest: seq<Json>,
                         wJob: map<string, Json>, wStats: map<string, Json>, wClat: map<string, Json>,
                         d: real, dTop: map<string, Json>, dRest: seq<Json>,
                         dJob: map<string, Json>, dStats: map<string, Json>, dClat: map<string, Json>)
    requires fio(n, FioJob(directory, iops, requestSize, Mode(random, "write"), JobName)).report ==
             Some(Report("write", JNumber(w), wTop, wRest, wJob, wStats, wClat))
    requires fio(n + 1, FioJob(directory, iops, requestSize, Mode(random, "read"), JobName)).report ==
             Some(Report("read", JNumber(d), dTop, dRest, dJob, dStats, dClat))
    ensures LatencyOf(fio, n, directory, iops, requestSize, random) == Ok(Latency(w, d))
  {
    ClatMeanOfReport("write", JNumber(w), wTop, wRest, wJob, wStats, wClat);
    ClatMeanOfReport("read", JNumber(d), dTop, dRest, dJob, dStats, dClat);
  }

  /** A failed write run ends get_latency before the read probe. */
  lemma WriteFailureFirst(fio: Fio, n: nat, directory: string, iops: int, requestSize: int, random: bool)
    requires fio(n, FioJob(directory, iops, requestSize, Mode(random, "write"), JobName)).report.None?
    ensures LatencyOf(fio, n, directory, iops, requestSize, random) == Err(FioFailed)
    ensures ProbeJobs(fio, n, directory, iops, requestSize, random) ==
      [FioJob(directory, iops, requestSize, Mode(random, "write"), JobName)]
  {
  }

  /**
   * A write mean that is not a number does not stop the read probe: fio runs twice, and
   * the error is a failed read run's, or else the TypeError of `max` or `/`.
   */
  lemma NonNumericMean(fio: Fio, n: nat, directory: string, iops: int, requestSize: int, random: bool)
    requires ProbeMean(fio, n, directory, iops, requestSize, Mode(random, "write"), "write").Ok?
    requires Number(ProbeMean(fio, n, directory, iops, requestSize, Mode(random, "write"), "write").value).Err?
    ensures |ProbeJobs(fio, n, directory, iops, requestSize, random)| == 2
    ensures LatencyOf(fio, n, directory, iops, requestSize, random) ==
      match ProbeMean(fio, n + 1, directory, iops, requestSize, Mode(random, "read"), "read")
      case Err(e) => Err(e)
      case Ok(_) => Err(NotANumber)
  {
  }

  /**
   * One probe of `get_latency`: `measure_latency` with `rw`, then the value its report
   * holds as the mean under `key`.
   */
  method Probe(host: Host, directory: string, iops: int, requestSize: int, rw: string, key: string)
    returns (mean: Result<Json, Failure>)
    modifies host
    ensures mean == ProbeMean(host.fio, |old(host.runs)|, directory, iops, requestSize, rw, key)
    ensures host.runs == old(host.runs) + [FioJob(directory, iops, requestSize, rw, JobName)]
    ensures host.files == AfterRun(old(host.files), Join(directory, JobFile(JobName)),
                                   host.fio(|old(host.runs)|, FioJob(directory, iops, requestSize, rw, JobName)).wroteFile)
  {
    var parsed := MeasureLatency(host, directory, iops, requestSize, rw, JobName);
    if parsed.Err? {
      return Err(parsed.error);
    }
    mean := ClatMean(parsed.value, key);
  }

  /**
   * `get_latency`: the write probe, then the read probe, then the slower mean, and the
   * removal of the job's file.  An error before `max` has compared the means ends the
   * script before the removal, so a file either run wrote stays behind.
   */
  method GetLatency(host: Host, directory: string, iops: int, requestSize: int, random: bool)
    returns (r: Result<real, Failure>)
    modifies host
    ensures r == LatencyOf(host.fio, |old(host.runs)|, directory, iops, requestSize, random)
    ensures host.runs == old(host.runs) + ProbeJobs(host.fio, |old(host.runs)|, directory, iops, requestSize, random)
    ensures host.files == LatencyFiles(host.fio, |old(host.runs)|, directory, iops, requestSize, random, old(host.files))
  {
    var write := Mode(random, "write");
    var read := Mode(random, "read");
    var jobname := JobName;
    ghost var n, files0 := |host.runs|, host.files;

    ProbeRuns(host.fio, n, directory, iops, requestSize, random);
    var writeMean := Probe(host, directory, iops, requestSize, write, "write");
    if writeMean.Err? {
      r := Err(writeMean.error);
    } else {
      var readMean := Probe(host, directory, iops, requestSize, read, "read");
      if readMean.Err? {
        r := Err(readMean.error);
      } else {
        r := SlowerMean(host, directory, jobname, writeMean.value, readMean.value);
      }
    }
  }

  /**
   * The end of get_latency, from `max` on: the slower of the two means, the removal of the
   * job's file, and the conversion to seconds.  `max` rejects means it cannot compare
   * before anything is removed; the division rejects two strings after the removal.
   */
  method SlowerMean(host: Host, directory: string, jobname: string, writeMean: Json, readMean: Json)
    returns (r: Result<real, Failure>)
    modifies host`files
    ensures r.Ok? <==> Number(writeMean).Ok? && Number(readMean).Ok?
    ensures r.Ok? ==> r.value == Latency(Number(writeMean).value, Number(readMean).value)
    ensures r.Err? ==> r.error == NotANumber
    ensures host.files == if Comparable(writeMean, readMean) then old(host.files) - {Join(directory, JobFile(jobname))}
                          else old(host.files)
  {
    if !Comparable(writeMean, readMean) {
      return Err(NotANumber);
    }
    var jobFilename := JobFile(jobname);
    RemoveIfPresent(host, Join(directory, jobFilename));
    var w := Number(writeMean);
    var d := Number(readMean);
    if w.Err? || d.Err? {
      return Err(NotANumber);
    }
    var winner := if w.value >= d.value then w.value else d.value;
    r := Ok(winner / 1000000000.0);
  }

  /**
   * What the script computes when n fio runs came before it: the bounds, the sequential
   * probe at the derived request size, the random probe at 8 KB (whose latency is not used
   * further, but whose failure ends the script), and the read-ahead from the sequential
   * latency.
   */
  function ScriptResult(fio: Fio, n: nat, l: DeviceLimits, headroom: real, directory: string)
    : (r: Result<Sizing, Failure>)
    ensures r.Ok? ==>
      DeriveBounds(l, headroom).Ok? &&
      r.value.readAheadKb == r.value.queueDepth * DeriveBounds(l, headroom).value.rs
  {
    match DeriveBounds(l, headroom)
    case Err(e) => Err(e)
    case Ok(b) =>
      match LatencyOf(fio, n, directory, b.maxIops, b.rs, false)
      case Err(e) => Err(e)
      case Ok(latencyMaxBw) =>
        match LatencyOf(fio, n + 2, directory, b.maxIops, 8, true)
        case Err(e) => Err(e)
        case Ok(_) => ReadAhead(b.maxBw, latencyMaxBw, b.rs)
  }

  /** The files after the script's two get_latency calls with bounds b, from `files`. */
  function ScriptFiles(fio: Fio, n: nat, b: Bounds, directory: string, files: set<string>): set<string> {
    var sequential := LatencyFiles(fio, n, directory, b.maxIops, b.rs, false, files);
    if LatencyOf(fio, n, directory, b.maxIops, b.rs, false).Err? then sequential
    else LatencyFiles(fio, n + 2, directory, b.maxIops, 8, true, sequential)
  }

  /** The fio jobs of the script's two get_latency calls with bounds b. */
  function ScriptJobs(fio: Fio, n: nat, b: Bounds, directory: string): seq<FioJob> {
    ProbeJobs(fio, n, directory, b.maxIops, b.rs, false) +
    if LatencyOf(fio, n, directory, b.maxIops, b.rs, false).Ok?
    then ProbeJobs(fio, n + 2, directory, b.maxIops, 8, true) else []
  }

  /** The script's top level, lines 55-79 of mini_lat.py. */
  method DeriveReadAhead(host: Host, l: DeviceLimits, headroom: real, directory: string)
    returns (r: Result<Sizing, Failure>)
    modifies host
    ensures r == ScriptResult(host.fio, |old(host.runs)|, l, headroom, directory)
    ensures DeriveBounds(l, headroom).Err? ==> host.runs == old(host.runs) && host.files == old(host.files)
    ensures DeriveBounds(l, headroom).Ok? ==>
      host.runs == old(host.runs) + ScriptJobs(host.fio, |old(host.runs)|, DeriveBounds(l, headroom).value, directory) &&
      host.files == ScriptFiles(host.fio, |old(host.runs)|, DeriveBounds(l, headroom).value, directory, old(host.files))
    ensures r.Ok? ==>
      DeriveBounds(l, headroom).Ok? &&
      var b := DeriveBounds(l, headroom).value;
      host.runs == old(host.runs) +
        [FioJob(directory, b.maxIops, b.rs, "write", JobName), FioJob(directory, b.maxIops, b.rs, "read", JobName),
         FioJob(directory, b.maxIops, 8, "randwrite", JobName), FioJob(directory, b.maxIops, 8, "randread", JobName)] &&
      host.files == old(host.files) - {Join(directory, JobFile(JobName))}
  {
    var bounds := DeriveBounds(l, headroom);
    if bounds.Err? {
      return Err(bounds.error);
    }
    var b := bounds.value;
    ghost var n := |host.runs|;
    ScriptSteps(host.fio, n, l, headroom, directory, host.files);
    var latencyMaxBw := GetLatency(host, directory, b.maxIops, b.rs, false);
    if latencyMaxBw.Err? {
      return Err(latencyMaxBw.error);
    }
    ProbeJobsOfLatency(host.fio, n, directory, b.maxIops, b.rs, false);
    assert |host.runs| == n + 2;
    var latencyBaseRand := GetLatency(host, directory, b.maxIops, 8, true);
    AppendAssoc(old(host.runs), ProbeJobs(host.fio, n, directory, b.maxIops, b.rs, false),
                ProbeJobs(host.fio, n + 2, directory, b.maxIops, 8, true));
    if latencyBaseRand.Err? {
      return Err(latencyBaseRand.error);
    }
    r := ReadAhead(b.maxBw, latencyMaxBw.value, b.rs);
    if r.Ok? {
      ScriptRuns(host.fio, n, l, headroom, directory, old(host.files));
    }
  }

  /** The script's result, runs and files, step by step after the bounds. */
  lemma ScriptSteps(fio: Fio, n: nat, l: DeviceLimits, headroom: real, directory: string, files: set<string>)
    requires DeriveBounds(l, headroom).Ok?
    ensures
      var b := DeriveBounds(l, headroom).value;
      var a := Join(directory, JobFile(JobName));
      var sequential := LatencyOf(fio, n, directory, b.maxIops, b.rs, false);
      var random := LatencyOf(fio, n + 2, directory, b.maxIops, 8, true);
      if sequential.Err? then
        ScriptResult(fio, n, l, headroom, directory) == Err(sequential.error) &&
        ScriptJobs(fio, n, b, directory) == ProbeJobs(fio, n, directory, b.maxIops, b.rs, false) &&
        ScriptFiles(fio, n, b, directory, files) == LatencyFiles(fio, n, directory, b.maxIops, b.rs, false, files)
      else if random.Err? then
        ScriptResult(fio, n, l, headroom, directory) == Err(random.error) &&
        ScriptJobs(fio, n, b, directory) ==
          ProbeJobs(fio, n, directory, b.maxIops, b.rs, false) + ProbeJobs(fio, n + 2, directory, b.maxIops, 8, true) &&
        ScriptFiles(fio, n, b, directory, files) ==
          LatencyFiles(fio, n + 2, directory, b.maxIops, 8, true, LatencyFiles(fio, n, directory, b.maxIops, b.rs, false, files))
      else
        ScriptResult(fio, n, l, headroom, directory) == ReadAhead(b.maxBw, sequential.value, b.rs) &&
        ScriptJobs(fio, n, b, directory) ==
          ProbeJobs(fio, n, directory, b.maxIops, b.rs, false) + ProbeJobs(fio, n + 2, directory, b.maxIops, 8, true) &&
        ScriptFiles(fio, n, b, directory, files) == files - {a} - {a}
  {
    var b := DeriveBounds(l, headroom).value;
    if LatencyOf(fio, n, directory, b.maxIops, b.rs, false).Ok? {
      SuccessRemoves(fio, n, directory, b.maxIops, b.rs, false);
      if LatencyOf(fio, n + 2, directory, b.maxIops, 8, true).Ok? {
        SuccessRemoves(fio, n + 2, directory, b.maxIops, 8, true);
      }
    }
  }

  /**
   * A successful script run made four fio runs, the sequential write and read at the
   * derived request size and the random write and read at 8 KB, all at `max_iops`, and
   * removed the job's file.
   */
  lemma ScriptRuns(fio: Fio, n: nat, l: DeviceLimits, headroom: real, directory: string, files: set<string>)
    requires ScriptResult(fio, n, l, headroom, directory).Ok?
    ensures DeriveBounds(l, headroom).Ok?
    ensures var b := DeriveBounds(l, headroom).value;
      ScriptJobs(fio, n, b, directory) ==
        [FioJob(directory, b.maxIops, b.rs, "write", JobName), FioJob(directory, b.maxIops, b.rs, "read", JobName),
         FioJob(directory, b.maxIops, 8, "randwrite", JobName), FioJob(directory, b.maxIops, 8, "randread", JobName)] &&
      ScriptFiles(fio, n, b, directory, files) == files - {Join(directory, JobFile(JobName))}
  {
    var b := DeriveBounds(l, headroom).value;
    ScriptSteps(fio, n, l, headroom, directory, files);
    assert LatencyOf(fio, n, directory, b.maxIops, b.rs, false).Ok?;
    assert LatencyOf(fio, n + 2, directory, b.maxIops, 8, true).Ok?;
    ProbeJobsOfLatency(fio, n, directory, b.maxIops, b.rs, false);
    ProbeJobsOfLatency(fio, n + 2, directory, b.maxIops, 8, true);
    assert Mode(true, "write") == "randwrite" && Mode(true, "read") == "randread";
    var sequential := [FioJob(directory, b.maxIops, b.rs, "write", JobName), FioJob(directory, b.maxIops, b.rs, "read", JobName)];
    var random := [FioJob(directory, b.maxIops, 8, "randwrite", JobName), FioJob(directory, b.maxIops, 8, "randread", JobName)];
    assert ScriptJobs(fio, n, b, directory) == sequential + random;
    SetRemoveTwice(files, Join(directory, JobFile(JobName)));
  }

  /**
   * Whenever the script succeeds on a device with positive rates, its read-ahead is a whole
   * number of requests of at most `max_hw_sectors_kb`, and covers the KB the device
   * transfers at full bandwidth during one sequential latency.
   */
  lemma ScriptCovers(fio: Fio, n: nat, l: DeviceLimits, headroom: real, directory: string)
    requires l.maxReadIops > 0 && l.maxWriteIops > 0 && l.maxReadBwMbps > 0 && l.maxWriteBwMbps > 0
    requires l.maxHwSectorsKb >= 1 && headroom != 1.0
    requires ScriptResult(fio, n, l, headroom, directory).Ok?
    ensures
      var b := DeriveBounds(l, headroom).value;
      var latency := LatencyOf(fio, n, directory, b.maxIops, b.rs, false).value;
      1 <= b.rs <= l.maxHwSectorsKb && Covers(ScriptResult(fio, n, l, headroom, directory).value, b.maxBw, latency, b.rs)
  {
    RequestSizeRange(l, headroom);
    ScriptIsReadAhead(fio, n, l, headroom, directory);
    var b := DeriveBounds(l, headroom).value;
    ReadAheadCovers(b.maxBw, LatencyOf(fio, n, directory, b.maxIops, b.rs, false).value, b.rs);
  }

  /** A successful script run is the read-ahead of its sequential latency. */
  lemma ScriptIsReadAhead(fio: Fio, n: nat, l: DeviceLimits, headroom: real, directory: string)
    requires ScriptResult(fio, n, l, headroom, directory).Ok?
    ensures DeriveBounds(l, headroom).Ok?
    ensures LatencyOf(fio, n, directory, DeriveBounds(l, headroom).value.maxIops, DeriveBounds(l, headroom).value.rs, false).Ok?
    ensures LatencyOf(fio, n + 2, directory, DeriveBounds(l, headroom).value.maxIops, 8, true).Ok?
    ensures ScriptResult(fio, n, l, headroom, directory) ==
      ReadAhead(DeriveBounds(l, headroom).value.maxBw,
                LatencyOf(fio, n, directory, DeriveBounds(l, headroom).value.maxIops, DeriveBounds(l, headroom).value.rs, false).value,
                DeriveBounds(l, headroom).value.rs)
  {
  }

  /**
   * With the script's limits, a sequential latency of 0.5 ms gives 43 requests of 80 KB,
   * a read-ahead of 3440 KB, whatever the random probe measured.
   */
  lemma SabrentReadAhead(fio: Fio, n: nat, directory: string)
    requires LatencyOf(fio, n, directory, 650000, 80, false) == Ok(0.0005)
    requires LatencyOf(fio, n + 2, directory, 650000, 8, true).Ok?
    ensures ScriptResult(fio, n, Sabrent, Headroom, directory) == Ok(Sizing(43, 3440))
  {
    SabrentBounds();
    ReadAheadExample();
  }
}
