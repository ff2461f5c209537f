/** The files the builder writes, and the two operations it writes them with:
    `os.makedirs(p, exist_ok=True)` and `open(p, 'w').write(...)`. Any such call
    may raise; which ones do is fixed in advance by a fault schedule keyed by the
    call's position in the run. */
module Store {
  import opened Wrappers
  import opened Paths
  import opened Records
  import opened Templates

  /** A file is a JSON-dumped record or one of the generated bodies. */
  datatype Content = Json(record: Record) | Text(body: Body)

  datatype Op = MakeDirs(dir: Path) | Put(path: Path, content: Content)

  /** The files, the directories created by the run, and the number of calls made. */
  datatype Disk = Disk(files: map<Path, Content>, dirs: set<Path>, attempts: nat)

  /** `faults[n]` is the message of the exception raised by call number `n`. */
  type Faults = map<nat, string>

  datatype Outcome = Outcome(disk: Disk, error: Option<string>)

  /** One call: a faulting call changes nothing but the call count. Partial writes
      are not modelled. */
  function Step(d: Disk, faults: Faults, op: Op): Outcome {
    var next := d.attempts + 1;
    if d.attempts in faults then Outcome(d.(attempts := next), Some(faults[d.attempts]))
    else match op
      case MakeDirs(p) => Outcome(Disk(d.files, d.dirs + {p}, next), None)
      case Put(p, c) => Outcome(Disk(d.files[p := c], d.dirs, next), None)
  }

  /** A straight-line run of calls that stops at the first exception. */
  function Run(d: Disk, faults: Faults, ops: seq<Op>): Outcome
    decreases |ops|
  {
    if ops == [] then Outcome(d, None)
    else
      var s := Step(d, faults, ops[0]);
      if s.error.Some? then s else Run(s.disk, faults, ops[1..])
  }

  /** The contents the calls leave behind: the last write to each path. */
  function Written(ops: seq<Op>): map<Path, Content>
    decreases |ops|
  {
    if ops == [] then map[]
    else WrittenBy(ops[0]) + Written(ops[1..])
  }

  function WrittenBy(op: Op): map<Path, Content> {
    match op case Put(p, c) => map[p := c] case MakeDirs(_) => map[]
  }

  function CreatedBy(op: Op): set<Path> {
    match op case MakeDirs(p) => {p} case Put(_, _) => {}
  }

  lemma UnionEmpty(m: map<Path, Content>)
    ensures map[] + m == m && m + map[] == m
  {
  }

  lemma UnionAssoc(a: map<Path, Content>, b: map<Path, Content>, c: map<Path, Content>)
    ensures a + b + c == a + (b + c)
  {
  }

  /** Making directories writes no file. */
  lemma {:induction false} WrittenOnlyDirs(ops: seq<Op>)
    requires forall i :: 0 <= i < |ops| ==> ops[i].MakeDirs?
    ensures Written(ops) == map[]
    decreases |ops|
  {
    if ops != [] {
      assert forall i :: 0 <= i < |ops[1..]| ==> ops[1..][i] == ops[i + 1];
      WrittenOnlyDirs(ops[1..]);
      assert WrittenBy(ops[0]) == map[];
    }
  }

  /** Splitting off the first call of a prefix of a run. */
  lemma PrefixCons(ops: seq<Op>, k: nat)
    requires 0 < k <= |ops|
    ensures Written(ops[..k]) == WrittenBy(ops[0]) + Written(ops[1..][..k - 1])
    ensures Created(ops[..k]) == CreatedBy(ops[0]) + Created(ops[1..][..k - 1])
  {
    assert ops[..k][0] == ops[0];
    assert ops[..k][1..] == ops[1..][..k - 1];
  }

  function Created(ops: seq<Op>): set<Path>
    decreases |ops|
  {
    if ops == [] then {} else CreatedBy(ops[0]) + Created(ops[1..])
  }

  function PutPaths(ops: seq<Op>): set<Path>
    decreases |ops|
  {
    if ops == [] then {} else (match ops[0] case Put(p, _) => {p} case MakeDirs(_) => {}) + PutPaths(ops[1..])
  }

  /** No call numbered from `from` to before `to` raises. */
  predicate NoFaults(faults: Faults, from: nat, to: nat) {
    forall n :: from <= n < to ==> n !in faults
  }

  /** A call with no fault takes effect and counts. */
  lemma StepFaultFree(d: Disk, faults: Faults, op: Op)
    requires d.attempts !in faults
    ensures Step(d, faults, op)
      == Outcome(Disk(d.files + WrittenBy(op), d.dirs + CreatedBy(op), d.attempts + 1), None)
  {
    match op
    case MakeDirs(p) =>
      assert d.files + map[] == d.files;
    case Put(p, c) =>
      assert d.files[p := c] == d.files + map[p := c];
      assert d.dirs + {} == d.dirs;
  }

  /** With no fault scheduled, a run succeeds and leaves its last writes. */
  lemma {:induction false} RunFaultFree(d: Disk, faults: Faults, ops: seq<Op>)
    requires NoFaults(faults, d.attempts, d.attempts + |ops|)
    ensures Run(d, faults, ops)
      == Outcome(Disk(d.files + Written(ops), d.dirs + Created(ops), d.attempts + |ops|), None)
    decreases |ops|
  {
    if ops == [] {
      assert d.files + map[] == d.files;
      assert d.dirs + {} == d.dirs;
    } else {
      assert d.attempts !in faults;
      StepFaultFree(d, faults, ops[0]);
      var s := Step(d, faults, ops[0]);
      assert NoFaults(faults, s.disk.attempts, s.disk.attempts + |ops[1..]|);
      RunFaultFree(s.disk, faults, ops[1..]);
      UnionAssoc(d.files, WrittenBy(ops[0]), Written(ops[1..]));
      assert d.dirs + CreatedBy(ops[0]) + Created(ops[1..]) == d.dirs + Created(ops);
    }
  }

  lemma RunFaultFirst(d: Disk, faults: Faults, ops: seq<Op>)
    requires ops != [] && d.attempts in faults
    ensures Run(d, faults, ops)
      == Outcome(Disk(d.files + Written(ops[..0]), d.dirs + Created(ops[..0]), d.attempts + 1),
                 Some(faults[d.attempts]))
  {
    assert ops[..0] == [];
    assert d.files + map[] == d.files;
    assert d.dirs + {} == d.dirs;
  }

  /** When call `k` of the run is the first to raise, the calls before it take
      effect, the run stops there and reports that call's message. */
  lemma {:induction false} RunFaultAt(d: Disk, faults: Faults, ops: seq<Op>, k: nat)
    requires k < |ops| && d.attempts + k in faults
    requires NoFaults(faults, d.attempts, d.attempts + k)
    ensures Run(d, faults, ops)
      == Outcome(Disk(d.files + Written(ops[..k]), d.dirs + Created(ops[..k]), d.attempts + k + 1),
                 Some(faults[d.attempts + k]))
    decreases k
  {
    if k == 0 {
      RunFaultFirst(d, faults, ops);
    } else {
      assert d.attempts !in faults;
      StepFaultFree(d, faults, ops[0]);
      var s := Step(d, faults, ops[0]);
      assert Run(d, faults, ops) == Run(s.disk, faults, ops[1..]);
      assert NoFaults(faults, s.disk.attempts, s.disk.attempts + (k - 1));
      RunFaultAt(s.disk, faults, ops[1..], k - 1);
      PrefixCons(ops, k);
      UnionAssoc(d.files, WrittenBy(ops[0]), Written(ops[1..][..k - 1]));
      assert d.dirs + CreatedBy(ops[0]) + Created(ops[1..][..k - 1]) == d.dirs + Created(ops[..k]);
    }
  }

  /** Two runs one after the other are the run of the concatenation. */
  lemma {:induction false} RunAppend(d: Disk, faults: Faults, a: seq<Op>, b: seq<Op>)
    ensures Run(d, faults, a + b)
      == var r := Run(d, faults, a); if r.error.Some? then r else Run(r.disk, faults, b)
    decreases |a|
  {
    if a == [] {
      assert a + b == b;
    } else {
      assert (a + b)[0] == a[0];
      assert (a + b)[1..] == a[1..] + b;
      var s := Step(d, faults, a[0]);
      if s.error.None? {
        RunAppend(s.disk, faults, a[1..], b);
      }
    }
  }

  /** A run that has not failed, extended by one call. */
  lemma RunSnoc(d: Disk, faults: Faults, done: seq<Op>, op: Op)
    requires Run(d, faults, done).error.None?
    ensures Run(d, faults, done + [op]) == Step(Run(d, faults, done).disk, faults, op)
  {
    RunAppend(d, faults, done, [op]);
    assert [op][1..] == [];
  }

  /** A run that failed stops: calls after it are never made. */
  lemma RunStops(d: Disk, faults: Faults, done: seq<Op>, rest: seq<Op>)
    requires Run(d, faults, done).error.Some?
    ensures Run(d, faults, done + rest) == Run(d, faults, done)
  {
    RunAppend(d, faults, done, rest);
  }

  /** The run of the first `k + 1` calls, from the run of the first `k`. */
  lemma RunPrefixStep(d: Disk, faults: Faults, ops: seq<Op>, k: nat)
    requires k < |ops|
    requires Run(d, faults, ops[..k]).error.None?
    ensures Run(d, faults, ops[..k + 1]) == Step(Run(d, faults, ops[..k]).disk, faults, ops[k])
    ensures k == 0 ==> Run(d, faults, ops[..k]).disk == d
  {
    assert ops[..k + 1] == ops[..k] + [ops[k]];
    assert ops[..0] == [];
    RunSnoc(d, faults, ops[..k], ops[k]);
  }

  /** Once the first `k` calls failed, the whole run is that failure. */
  lemma RunPrefixStops(d: Disk, faults: Faults, ops: seq<Op>, k: nat)
    requires k <= |ops|
    requires Run(d, faults, ops[..k]).error.Some?
    ensures Run(d, faults, ops) == Run(d, faults, ops[..k])
  {
    assert ops[..k] + ops[k..] == ops;
    RunStops(d, faults, ops[..k], ops[k..]);
  }

  /** A run of calls: the rest is made only when the first did not raise. */
  lemma RunCons(d: Disk, faults: Faults, a: Op, rest: seq<Op>)
    ensures Run(d, faults, [a] + rest)
      == var s := Step(d, faults, a); if s.error.Some? then s else Run(s.disk, faults, rest)
  {
    assert ([a] + rest)[1..] == rest;
  }

  /** A run of two calls: the second is made only when the first did not raise. */
  lemma RunTwo(d: Disk, faults: Faults, a: Op, b: Op)
    ensures Run(d, faults, [a, b])
      == var s := Step(d, faults, a); if s.error.Some? then s else Step(s.disk, faults, b)
  {
    var s := Step(d, faults, a);
    assert [a, b] == [a] + [b];
    RunCons(d, faults, a, [b]);
    if s.error.None? {
      assert [b] == [b] + [];
      RunCons(s.disk, faults, b, []);
    }
  }

  /** A path no call writes keeps its contents, whatever faults occur. */
  lemma {:induction false} RunKeepsOtherFiles(d: Disk, faults: Faults, ops: seq<Op>, p: Path)
    requires p !in PutPaths(ops)
    ensures var files := Run(d, faults, ops).disk.files;
      (p in files <==> p in d.files) && (p in d.files ==> files[p] == d.files[p])
    decreases |ops|
  {
    if ops != [] {
      var s := Step(d, faults, ops[0]);
      if s.error.None? {
        RunKeepsOtherFiles(s.disk, faults, ops[1..], p);
      }
    }
  }

  /** Every written path is one of the run's paths. */
  lemma {:induction false} WrittenDomain(ops: seq<Op>)
    ensures Written(ops).Keys == PutPaths(ops)
    decreases |ops|
  {
    if ops != [] {
      WrittenDomain(ops[1..]);
    }
  }

  lemma {:induction false} WrittenAppend(a: seq<Op>, b: seq<Op>)
    ensures Written(a + b) == Written(a) + Written(b)
    decreases |a|
  {
    if a == [] {
      assert a + b == b;
      assert map[] + Written(b) == Written(b);
    } else {
      assert (a + b)[0] == a[0] && (a + b)[1..] == a[1..] + b;
      WrittenAppend(a[1..], b);
      UnionAssoc(WrittenBy(a[0]), Written(a[1..]), Written(b));
    }
  }

  lemma WrittenSinglePut(p: Path, c: Content)
    ensures Written([Put(p, c)]) == map[p := c]
  {
    assert [Put(p, c)][1..] == [];
    UnionEmpty(map[p := c]);
  }

  /** A prefix of a run writes no path the whole run does not. */
  lemma WrittenPrefixKeys(ops: seq<Op>, k: nat)
    requires k <= |ops|
    ensures Written(ops[..k]).Keys <= Written(ops).Keys
  {
    assert ops[..k] + ops[k..] == ops;
    WrittenAppend(ops[..k], ops[k..]);
  }

  /** Rerunning a fault-free run changes no file: each path ends with the same
      last write, whatever the first run left. */
  lemma RerunSameFiles(files: map<Path, Content>, ops: seq<Op>)
    ensures files + Written(ops) + Written(ops) == files + Written(ops)
  {
    var w := Written(ops);
    assert files + w + w == files + w;
  }

  /** The file system as a mutable object: the three fields a run changes, and the
      fault schedule, which it does not. */
  class FileSystem {
    var files: map<Path, Content>
    var dirs: set<Path>
    var attempts: nat
    const faults: Faults

    constructor(files0: map<Path, Content>, faults0: Faults)
      ensures files == files0 && dirs == {} && attempts == 0 && faults == faults0
    {
      files := files0;
      dirs := {};
      attempts := 0;
      faults := faults0;
    }

    function State(): Disk
      reads this
    {
      Disk(files, dirs, attempts)
    }

    /** `os.path.exists` for a file. */
    predicate Exists(p: Path)
      reads this
    {
      p in files
    }

    /** `os.makedirs(p, exist_ok=True)`. */
    method MakeDirs(p: Path) returns (err: Option<string>)
      modifies this
      ensures Outcome(State(), err) == Step(old(State()), faults, Op.MakeDirs(p))
    {
      if attempts in faults {
        err := Some(faults[attempts]);
      } else {
        dirs := dirs + {p};
        err := None;
      }
      attempts := attempts + 1;
    }

    /** `with open(p, 'w') as f: f.write(c)` (or `json.dump`). */
    method Write(p: Path, c: Content) returns (err: Option<string>)
      modifies this
      ensures Outcome(State(), err) == Step(old(State()), faults, Put(p, c))
    {
      if attempts in faults {
        err := Some(faults[attempts]);
      } else {
        files := files[p := c];
        err := None;
      }
      attempts := attempts + 1;
    }

    /** `open(p).read()` of a file known to exist; reading does not fail here. */
    method Read(p: Path) returns (c: Content)
      requires Exists(p)
      ensures c == files[p]
    {
      c := files[p];
    }
  }
}
