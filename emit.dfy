/**
 * The emission part of the proto server generator: once the schema walk has
 * built the services and the models, the generator checks the service
 * directory, writes the models file and then, per service, the service,
 * business-logic and data-access files, each subject to the conflict rule of
 * `writeFile`.
 *
 * The file system is a map from file paths to contents plus a set of
 * directory paths. Template rendering is a set of functions given as
 * parameters: each turns a value into bytes or fails with an error.
 */
module Emit {
  import opened Wrappers
  import opened Naming
  import opened Domain
  import opened Biz
  import opened Walk

  /** The command-line configuration of the generator. */
  datatype Config = Config(
    targetDir: string,
    bizDir: string,
    dataDir: string,
    modelFile: string,
    modelComment: string,
    overWrite: bool,
    noBiz: bool,
    noBizModel: bool,
    noService: bool,
    noData: bool)

  /** The configuration when no flag is given. */
  function Defaults(): Config
  {
    Config("internal/service", "internal/biz", "internal/data", "models.go", "gratos::model",
           false, false, false, false, false)
  }

  /** The four renderers: the models file, and the service, business-logic
      and data-access files of a service. */
  datatype Renderers = Renderers(
    models: Models -> Result<Bytes, string>,
    service: ServiceView -> Result<Bytes, string>,
    biz: ServiceView -> Result<Bytes, string>,
    data: ServiceView -> Result<Bytes, string>)

  // ---------------------------------------------------------------------
  // Paths
  // ---------------------------------------------------------------------

  /** ASCII lower-casing of one character. */
  function Lower(c: char): char
  {
    if 'A' <= c <= 'Z' then (c as int + 32) as char else c
  }

  function ToLower(s: string): string
  {
    seq(|s|, i requires 0 <= i < |s| => Lower(s[i]))
  }

  /** Joining a directory and a name with a separator. */
  function Join(dir: string, name: string): string
  {
    dir + "/" + name
  }

  /** The file generated for a service in directory `dir`. */
  function FileFor(dir: string, service: string): string
  {
    Join(dir, ToLower(service) + ".go")
  }

  /** Two services of one directory share a file exactly when their
      lower-cased names agree. */
  lemma FileForInjective(dir: string, a: string, b: string)
    ensures FileFor(dir, a) == FileFor(dir, b) <==> ToLower(a) == ToLower(b)
  {
    var pa, pb := FileFor(dir, a), FileFor(dir, b);
    if pa == pb {
      assert pa == (dir + "/") + ToLower(a) + ".go";
      assert pb == (dir + "/") + ToLower(b) + ".go";
      assert pa[|dir| + 1..|pa| - 3] == ToLower(a);
      assert pb[|dir| + 1..|pb| - 3] == ToLower(b);
    }
  }

  /** The models file: in the `biz` sibling of the service directory. */
  function ModelPath(cfg: Config): string
  {
    Join(Join(cfg.targetDir, "../biz"), cfg.modelFile)
  }

  // ---------------------------------------------------------------------
  // The file system and `writeFile`
  // ---------------------------------------------------------------------

  datatype FS = FS(files: map<string, Bytes>, dirs: set<string>)

  /** What `os.Stat` reports as present: a file or a directory. */
  predicate Exists(fs: FS, p: string)
  {
    p in fs.files || p in fs.dirs
  }

  /** `Written` and `Refused` are the two results of `writeFile`; `Failed`
      is a write the operating system rejects, on which the generator
      exits. */
  datatype WriteOutcome = Written | Refused(err: string) | Failed

  datatype WriteResult = WriteResult(fs: FS, outcome: WriteOutcome)

  /** `after` is `before` with `data` stored at `to` and nothing else
      changed. */
  predicate Stored(before: FS, after: FS, to: string, data: Bytes)
  {
    after.dirs == before.dirs && after.files.Keys == before.files.Keys + {to} &&
    after.files[to] == data &&
    forall p :: p in before.files && p != to ==> after.files[p] == before.files[p]
  }

  /** `writeFile`: a path that does not exist is written; an existing path
      is refused with an error unless overwriting is on, in which case a
      file is replaced and a directory makes the write fail. */
  function Write(fs: FS, to: string, data: Bytes, overWrite: bool): (r: WriteResult)
    ensures r.outcome == Written <==> !Exists(fs, to) || (overWrite && to !in fs.dirs)
    ensures r.outcome == Written ==> Stored(fs, r.fs, to, data)
    ensures r.outcome.Refused? <==> Exists(fs, to) && !overWrite
    ensures r.outcome.Refused? ==> r.outcome.err == "file already exists: " + to
    ensures r.outcome == Failed <==> overWrite && to in fs.dirs
    ensures r.outcome != Written ==> r.fs == fs
  {
    if Exists(fs, to) && !overWrite then WriteResult(fs, Refused("file already exists: " + to))
    else if to in fs.dirs then WriteResult(fs, Failed)
    else WriteResult(FS(fs.files[to := data], fs.dirs), Written)
  }

  // ---------------------------------------------------------------------
  // The emission plan
  // ---------------------------------------------------------------------

  /** One file the generator renders and writes. */
  datatype Step = Step(path: string, content: Result<Bytes, string>)

  function Optional(on: bool, s: Step): seq<Step>
  {
    if on then [s] else []
  }

  /** The service file of a record, rendered from the record as the walk
      built it. */
  function ServiceFileSteps(cfg: Config, rs: Renderers, v: ServiceView): seq<Step>
  {
    Optional(!cfg.noService, Step(FileFor(cfg.targetDir, v.service), rs.service(v)))
  }

  /** The business-logic file of a record, rendered after the flag pass. */
  function BizFileSteps(cfg: Config, rs: Renderers, v: ServiceView): seq<Step>
  {
    Optional(!cfg.noBiz, Step(FileFor(cfg.bizDir, v.service), rs.biz(BizFlags(v))))
  }

  /** The data-access file of a record, rendered from the record as it
      stands when the file is written. */
  function DataFileSteps(cfg: Config, rs: Renderers, v: ServiceView): seq<Step>
  {
    Optional(!cfg.noData, Step(FileFor(cfg.dataDir, v.service), rs.data(v)))
  }

  /** The files of one service, in order: the service file, the
      business-logic file, and the data-access file, which carries the
      flags only when the business-logic step ran. */
  function ServiceSteps(cfg: Config, rs: Renderers, v: ServiceView): seq<Step>
  {
    ServiceFileSteps(cfg, rs, v) + BizFileSteps(cfg, rs, v) +
    DataFileSteps(cfg, rs, if cfg.noBiz then v else BizFlags(v))
  }

  /** A service contributes one file per enabled kind, each at that
      service's path in the kind's directory. */
  lemma ServiceStepsPaths(cfg: Config, rs: Renderers, v: ServiceView)
    ensures |ServiceSteps(cfg, rs, v)| == (if cfg.noService then 0 else 1) + (if cfg.noBiz then 0 else 1) + (if cfg.noData then 0 else 1)
    ensures forall k :: 0 <= k < |ServiceSteps(cfg, rs, v)| ==>
      ServiceSteps(cfg, rs, v)[k].path in {FileFor(cfg.targetDir, v.service), FileFor(cfg.bizDir, v.service), FileFor(cfg.dataDir, v.service)}
    ensures !cfg.noService ==> Step(FileFor(cfg.targetDir, v.service), rs.service(v)) in ServiceSteps(cfg, rs, v)
    ensures !cfg.noBiz ==> Step(FileFor(cfg.bizDir, v.service), rs.biz(BizFlags(v))) in ServiceSteps(cfg, rs, v)
    ensures !cfg.noData ==>
      Step(FileFor(cfg.dataDir, v.service), rs.data(if cfg.noBiz then v else BizFlags(v))) in ServiceSteps(cfg, rs, v)
  {
    assert BizFlags(v).service == v.service;
  }

  /** The files of all services, service by service. */
  function ServicesSteps(cfg: Config, rs: Renderers, vs: seq<ServiceView>): seq<Step>
  {
    if vs == [] then [] else ServicesSteps(cfg, rs, vs[..|vs| - 1]) + ServiceSteps(cfg, rs, vs[|vs| - 1])
  }

  /** Every file the generator writes, in order: the models file, then the
      files of each service. */
  function Plan(cfg: Config, rs: Renderers, models: Models, vs: seq<ServiceView>): seq<Step>
  {
    Optional(!cfg.noBizModel, Step(ModelPath(cfg), rs.models(models))) + ServicesSteps(cfg, rs, vs)
  }

  // ---------------------------------------------------------------------
  // Carrying out the plan
  // ---------------------------------------------------------------------

  /** How a run ends: normally, because the service directory is missing,
      or by exiting on a rendering error or a failed write. */
  datatype Status = Completed | TargetMissing | RenderFailed(err: string) | WriteFailed(path: string)

  datatype Outcome = Outcome(fs: FS, status: Status)

  /** One step: a rendering error ends the run; otherwise the file is
      written, and a refused write lets the run go on. */
  function Perform(fs: FS, s: Step, overWrite: bool): (r: Outcome)
    ensures r.fs.dirs == fs.dirs && fs.files.Keys <= r.fs.files.Keys
    ensures r.status == Completed <==> s.content.Ok? && !(overWrite && s.path in fs.dirs)
    ensures r.status != Completed ==> r.fs == fs
    ensures s.content.Err? ==> r.status == RenderFailed(s.content.error)
    ensures r.status.WriteFailed? ==> r.status.path == s.path
  {
    match s.content
    case Err(e) => Outcome(fs, RenderFailed(e))
    case Ok(data) =>
      var w := Write(fs, s.path, data, overWrite);
      if w.outcome == Failed then Outcome(fs, WriteFailed(s.path)) else Outcome(w.fs, Completed)
  }

  /** The steps in order, up to the first one that ends the run. */
  function Apply(fs: FS, steps: seq<Step>, overWrite: bool): (r: Outcome)
    ensures r.fs.dirs == fs.dirs && fs.files.Keys <= r.fs.files.Keys
    ensures r.status != TargetMissing
  {
    if steps == [] then Outcome(fs, Completed)
    else
      var prev := Apply(fs, steps[..|steps| - 1], overWrite);
      if prev.status != Completed then prev else Perform(prev.fs, steps[|steps| - 1], overWrite)
  }

  /** The emission part of `run`: nothing happens when the service directory
      is missing; otherwise the plan is carried out. */
  function Emission(cfg: Config, rs: Renderers, models: Models, vs: seq<ServiceView>, fs: FS): (r: Outcome)
    ensures r.fs.dirs == fs.dirs && fs.files.Keys <= r.fs.files.Keys
    ensures r.status == TargetMissing <==> !Exists(fs, cfg.targetDir)
    ensures r.status == TargetMissing ==> r.fs == fs
  {
    if !Exists(fs, cfg.targetDir) then Outcome(fs, TargetMissing)
    else Apply(fs, Plan(cfg, rs, models, vs), cfg.overWrite)
  }

  // ---------------------------------------------------------------------
  // Properties of a run
  // ---------------------------------------------------------------------

  /** A run completes exactly when every file renders and, with
      overwriting on, no planned path is a directory; in particular,
      without overwriting a refused file never stops the run. */
  lemma {:induction false} ApplyCompletes(fs: FS, steps: seq<Step>, overWrite: bool)
    ensures Apply(fs, steps, overWrite).status == Completed <==>
      forall i :: 0 <= i < |steps| ==> steps[i].content.Ok? && !(overWrite && steps[i].path in fs.dirs)
  {
    if steps != [] {
      var n := |steps| - 1;
      ApplyCompletes(fs, steps[..n], overWrite);
      assert forall i :: 0 <= i < n ==> steps[..n][i] == steps[i];
    }
  }

  /** Carrying out `a + b` is carrying out `a` and, if the run goes on,
      then `b`. */
  lemma {:induction false} ApplyConcat(fs: FS, a: seq<Step>, b: seq<Step>, overWrite: bool)
    ensures Apply(fs, a + b, overWrite) ==
      var r := Apply(fs, a, overWrite); if r.status != Completed then r else Apply(r.fs, b, overWrite)
  {
    if b == [] {
      assert a + b == a;
    } else {
      var n := |b| - 1;
      ApplyConcat(fs, a, b[..n], overWrite);
      assert (a + b)[..|a + b| - 1] == a + b[..n];
    }
  }

  /** Once a prefix of the plan ends the run, the rest of the plan is not
      carried out. */
  lemma ApplyStopsAt(fs: FS, a: seq<Step>, full: seq<Step>, overWrite: bool)
    requires a <= full && Apply(fs, a, overWrite).status != Completed
    ensures Apply(fs, full, overWrite) == Apply(fs, a, overWrite)
  {
    assert full == a + full[|a|..];
    ApplyConcat(fs, a, full[|a|..], overWrite);
  }

  /** A path no step names keeps its contents, or stays absent. */
  lemma {:induction false} ApplyUntouched(fs: FS, steps: seq<Step>, overWrite: bool, p: string)
    requires forall i :: 0 <= i < |steps| ==> steps[i].path != p
    ensures var r := Apply(fs, steps, overWrite);
      (p in r.fs.files <==> p in fs.files) && (p in fs.files ==> r.fs.files[p] == fs.files[p])
  {
    if steps != [] {
      var n := |steps| - 1;
      assert forall i :: 0 <= i < n ==> steps[..n][i] == steps[i];
      ApplyUntouched(fs, steps[..n], overWrite, p);
    }
  }

  /** Without overwriting, an existing file is never changed. */
  lemma {:induction false} ApplyKeepsExisting(fs: FS, steps: seq<Step>, p: string)
    requires p in fs.files
    ensures Apply(fs, steps, false).fs.files[p] == fs.files[p]
  {
    if steps != [] {
      ApplyKeepsExisting(fs, steps[..|steps| - 1], p);
    }
  }

  /** After a completed run every planned path exists. */
  lemma {:induction false} ApplyPathsExist(fs: FS, steps: seq<Step>, overWrite: bool)
    requires Apply(fs, steps, overWrite).status == Completed
    ensures forall i :: 0 <= i < |steps| ==> Exists(Apply(fs, steps, overWrite).fs, steps[i].path)
  {
    if steps != [] {
      var n := |steps| - 1;
      assert forall i :: 0 <= i < n ==> steps[..n][i] == steps[i];
      ApplyPathsExist(fs, steps[..n], overWrite);
    }
  }

  /** No step names `steps[i].path` before `i`. */
  predicate FirstFor(steps: seq<Step>, i: int)
    requires 0 <= i < |steps|
  {
    forall j :: 0 <= j < i ==> steps[j].path != steps[i].path
  }

  /** No step names `steps[i].path` after `i`. */
  predicate LastFor(steps: seq<Step>, i: int)
    requires 0 <= i < |steps|
  {
    forall j :: i < j < |steps| ==> steps[j].path != steps[i].path
  }

  /** Without overwriting, a path that did not exist holds what the first
      step naming it rendered. */
  lemma {:induction false} FirstWriteWins(fs: FS, steps: seq<Step>, i: int)
    requires Apply(fs, steps, false).status == Completed
    requires 0 <= i < |steps| && FirstFor(steps, i) && !Exists(fs, steps[i].path)
    ensures steps[i].content.Ok?
    ensures var r := Apply(fs, steps, false);
      steps[i].path in r.fs.files && r.fs.files[steps[i].path] == steps[i].content.value
  {
    ApplyCompletes(fs, steps, false);
    var n := |steps| - 1;
    var init := steps[..n];
    var p := steps[i].path;
    assert forall j :: 0 <= j < n ==> init[j] == steps[j];
    ApplyCompletes(fs, init, false);
    if i < n {
      FirstWriteWins(fs, init, i);
    } else {
      ApplyUntouched(fs, init, false, p);
    }
  }

  /** With overwriting, a path holds what the last step naming it
      rendered. */
  lemma {:induction false} LastWriteWins(fs: FS, steps: seq<Step>, i: int)
    requires Apply(fs, steps, true).status == Completed
    requires 0 <= i < |steps| && LastFor(steps, i)
    ensures steps[i].content.Ok?
    ensures var r := Apply(fs, steps, true);
      steps[i].path in r.fs.files && r.fs.files[steps[i].path] == steps[i].content.value
  {
    ApplyCompletes(fs, steps, true);
    var n := |steps| - 1;
    var init := steps[..n];
    assert forall j :: 0 <= j < n ==> init[j] == steps[j];
    ApplyCompletes(fs, init, true);
    if i < n {
      LastWriteWins(fs, init, i);
    }
  }

  /** The last step naming a path that some step names. */
  lemma {:induction false} LastIndex(steps: seq<Step>, p: string) returns (i: int)
    requires exists j :: 0 <= j < |steps| && steps[j].path == p
    ensures 0 <= i < |steps| && steps[i].path == p && LastFor(steps, i)
  {
    var n := |steps| - 1;
    if steps[n].path == p {
      i := n;
    } else {
      var init := steps[..n];
      assert forall j :: 0 <= j < n ==> init[j] == steps[j];
      var j :| 0 <= j < |steps| && steps[j].path == p;
      assert init[j].path == p;
      i := LastIndex(init, p);
    }
  }

  /** Without overwriting, a run in which every path already exists
      changes nothing. */
  lemma {:induction false} ApplyAllExisting(fs: FS, steps: seq<Step>)
    requires forall i :: 0 <= i < |steps| ==> steps[i].content.Ok? && Exists(fs, steps[i].path)
    ensures Apply(fs, steps, false) == Outcome(fs, Completed)
  {
    if steps != [] {
      var n := |steps| - 1;
      assert forall i :: 0 <= i < n ==> steps[..n][i] == steps[i];
      ApplyAllExisting(fs, steps[..n]);
    }
  }

  /** Re-running a completed run without overwriting writes nothing. */
  lemma RerunWithoutOverwrite(fs: FS, steps: seq<Step>)
    requires Apply(fs, steps, false).status == Completed
    ensures var r := Apply(fs, steps, false); Apply(r.fs, steps, false) == Outcome(r.fs, Completed)
  {
    ApplyCompletes(fs, steps, false);
    ApplyPathsExist(fs, steps, false);
    ApplyAllExisting(Apply(fs, steps, false).fs, steps);
  }

  /** Re-running a completed run with overwriting gives the same files. */
  lemma RerunWithOverwrite(fs: FS, steps: seq<Step>)
    requires Apply(fs, steps, true).status == Completed
    ensures var r := Apply(fs, steps, true); Apply(r.fs, steps, true) == r
  {
    var r := Apply(fs, steps, true);
    ApplyCompletes(fs, steps, true);
    ApplyCompletes(r.fs, steps, true);
    var r2 := Apply(r.fs, steps, true);
    forall p | p in r.fs.files || p in r2.fs.files
      ensures p in r.fs.files && p in r2.fs.files && r2.fs.files[p] == r.fs.files[p]
    {
      if exists j :: 0 <= j < |steps| && steps[j].path == p {
        var i := LastIndex(steps, p);
        LastWriteWins(fs, steps, i);
        LastWriteWins(r.fs, steps, i);
      } else {
        ApplyUntouched(r.fs, steps, true, p);
      }
    }
    assert r2.fs.files == r.fs.files;
  }

  /** Re-running a completed emission, with or without overwriting, leaves
      the files as the first run left them. */
  lemma EmissionRerun(cfg: Config, rs: Renderers, models: Models, vs: seq<ServiceView>, fs: FS)
    requires Emission(cfg, rs, models, vs, fs).status == Completed
    ensures var r := Emission(cfg, rs, models, vs, fs); Emission(cfg, rs, models, vs, r.fs) == r
  {
    var steps := Plan(cfg, rs, models, vs);
    if cfg.overWrite {
      RerunWithOverwrite(fs, steps);
    } else {
      RerunWithoutOverwrite(fs, steps);
    }
  }

  /** With every kind of file enabled, each service contributes its service,
      business-logic and data-access files, in that order. */
  lemma {:induction false} ServicesStepsShape(cfg: Config, rs: Renderers, vs: seq<ServiceView>)
    requires !cfg.noService && !cfg.noBiz && !cfg.noData
    ensures |ServicesSteps(cfg, rs, vs)| == 3 * |vs|
    ensures forall k :: 0 <= k < |vs| ==>
      ServicesSteps(cfg, rs, vs)[3 * k] == Step(FileFor(cfg.targetDir, vs[k].service), rs.service(vs[k])) &&
      ServicesSteps(cfg, rs, vs)[3 * k + 1] == Step(FileFor(cfg.bizDir, vs[k].service), rs.biz(BizFlags(vs[k]))) &&
      ServicesSteps(cfg, rs, vs)[3 * k + 2] == Step(FileFor(cfg.dataDir, vs[k].service), rs.data(BizFlags(vs[k])))
  {
    if vs != [] {
      var n := |vs| - 1;
      ServicesStepsShape(cfg, rs, vs[..n]);
      assert forall k :: 0 <= k < n ==> vs[..n][k] == vs[k];
    }
  }

  // ---------------------------------------------------------------------
  // Emission as the source runs it
  // ---------------------------------------------------------------------

  /** The file system the generator writes to. */
  class FileSystem {
    var files: map<string, Bytes>
    var dirs: set<string>

    function View(): FS
      reads this
    {
      FS(files, dirs)
    }

    /** `writeFile`. */
    method WriteFile(to: string, data: Bytes, overWrite: bool) returns (r: WriteOutcome)
      modifies this
      ensures View() == Write(old(View()), to, data, overWrite).fs
      ensures r == Write(old(View()), to, data, overWrite).outcome
    {
      if to in files || to in dirs {
        if !overWrite {
          return Refused("file already exists: " + to);
        }
      }
      if to in dirs {
        return Failed;
      }
      files := files[to := data];
      r := Written;
    }
  }

  /** Rendering one file and writing it: a rendering error or a failed write
      ends the run, a refused write does not. */
  method WriteStep(fs: FileSystem, path: string, content: Result<Bytes, string>, overWrite: bool) returns (status: Status)
    modifies fs
    ensures Outcome(fs.View(), status) == Perform(old(fs.View()), Step(path, content), overWrite)
  {
    match content
    case Err(e) =>
      status := RenderFailed(e);
    case Ok(data) =>
      var w := fs.WriteFile(path, data, overWrite);
      status := if w == Failed then WriteFailed(path) else Completed;
  }

  /** The service file of one service (the first write of the loop body). */
  method ServiceFile(cfg: Config, rs: Renderers, s: Service, fs: FileSystem) returns (status: Status)
    modifies fs
    ensures Outcome(fs.View(), status) ==
      Apply(old(fs.View()), ServiceFileSteps(cfg, rs, s.View()), cfg.overWrite)
  {
    status := Completed;
    if !cfg.noService {
      var svcFile := FileFor(cfg.targetDir, s.service);
      var svcBytes := rs.service(s.View());
      status := WriteStep(fs, svcFile, svcBytes, cfg.overWrite);
    }
  }

  /** The biz file of one service: `executeBiz` raises the record's flags
      and renders the biz template. */
  method BizFile(cfg: Config, rs: Renderers, s: Service, fs: FileSystem) returns (status: Status)
    modifies s, fs
    ensures Outcome(fs.View(), status) ==
      Apply(old(fs.View()), BizFileSteps(cfg, rs, old(s.View())), cfg.overWrite)
    ensures s.View() == if cfg.noBiz then old(s.View()) else BizFlags(old(s.View()))
  {
    status := Completed;
    if !cfg.noBiz {
      var bizBytes := s.ExecuteBiz(rs.biz);
      var bizFile := FileFor(cfg.bizDir, s.service);
      status := WriteStep(fs, bizFile, bizBytes, cfg.overWrite);
    }
  }

  /** The data file of one service, rendered from the record as it stands
      after the biz file. */
  method DataFile(cfg: Config, rs: Renderers, s: Service, fs: FileSystem) returns (status: Status)
    modifies fs
    ensures Outcome(fs.View(), status) ==
      Apply(old(fs.View()), DataFileSteps(cfg, rs, s.View()), cfg.overWrite)
  {
    status := Completed;
    if !cfg.noData {
      var dataBytes := rs.data(s.View());
      var dataFile := FileFor(cfg.dataDir, s.service);
      status := WriteStep(fs, dataFile, dataBytes, cfg.overWrite);
    }
  }

  /** Carrying out three plans one after the other. */
  lemma ApplyThree(fs: FS, a: seq<Step>, b: seq<Step>, c: seq<Step>, overWrite: bool)
    ensures Apply(fs, a + b + c, overWrite) ==
      var ra := Apply(fs, a, overWrite);
      if ra.status != Completed then ra else
      var rb := Apply(ra.fs, b, overWrite);
      if rb.status != Completed then rb else Apply(rb.fs, c, overWrite)
  {
    ApplyConcat(fs, a + b, c, overWrite);
    ApplyConcat(fs, a, b, overWrite);
  }

  /** The body of the emission loop for one service. */
  method EmitService(cfg: Config, rs: Renderers, s: Service, fs: FileSystem) returns (status: Status)
    modifies s, fs
    ensures Outcome(fs.View(), status) == Apply(old(fs.View()), ServiceSteps(cfg, rs, old(s.View())), cfg.overWrite)
    ensures status == Completed ==> s.View() == if cfg.noBiz then old(s.View()) else BizFlags(old(s.View()))
  {
    ghost var v := s.View();
    ApplyThree(fs.View(), ServiceFileSteps(cfg, rs, v), BizFileSteps(cfg, rs, v),
      DataFileSteps(cfg, rs, if cfg.noBiz then v else BizFlags(v)), cfg.overWrite);
    status := ServiceFile(cfg, rs, s, fs);
    if status != Completed {
      return;
    }
    status := BizFile(cfg, rs, s, fs);
    if status != Completed {
      return;
    }
    status := DataFile(cfg, rs, s, fs);
  }

  /** The emission part of `run`: the directory check, the models file and
      the loop over the services. `services` are the records the walk built,
      each appearing once. */
  method Emit(cfg: Config, rs: Renderers, services: seq<Service>, models: Models, fs: FileSystem) returns (status: Status)
    requires forall i, j :: 0 <= i < j < |services| ==> services[i] != services[j]
    modifies fs, services
    ensures Outcome(fs.View(), status) == Emission(cfg, rs, models, old(Views(services)), old(fs.View()))
  {
    ghost var vs, fs0 := Views(services), fs.View();
    if !(cfg.targetDir in fs.files || cfg.targetDir in fs.dirs) {
      return TargetMissing;
    }
    status := Completed;
    if !cfg.noBizModel {
      var modelTo := ModelPath(cfg);
      var modelBytes := rs.models(models);
      status := WriteStep(fs, modelTo, modelBytes, cfg.overWrite);
    }
    ghost var mid := Outcome(fs.View(), status);
    if status != Completed {
      EmissionParts(cfg, rs, models, vs, fs0, mid, mid);
      return;
    }
    status := EmitServices(cfg, rs, services, fs);
    EmissionParts(cfg, rs, models, vs, fs0, mid, Outcome(fs.View(), status));
  }

  /** An emission in a present directory is the models step and, if the run
      goes on, the steps of the services. */
  lemma EmissionParts(cfg: Config, rs: Renderers, models: Models, vs: seq<ServiceView>, fs0: FS, mid: Outcome, last: Outcome)
    requires Exists(fs0, cfg.targetDir)
    requires mid == if cfg.noBizModel then Outcome(fs0, Completed)
                    else Perform(fs0, Step(ModelPath(cfg), rs.models(models)), cfg.overWrite)
    requires mid.status == Completed ==> Apply(mid.fs, ServicesSteps(cfg, rs, vs), cfg.overWrite) == last
    ensures Emission(cfg, rs, models, vs, fs0) == if mid.status == Completed then last else mid
  {
    var m := Optional(!cfg.noBizModel, Step(ModelPath(cfg), rs.models(models)));
    ApplyConcat(fs0, m, ServicesSteps(cfg, rs, vs), cfg.overWrite);
    ApplyConcat(fs0, [], m, cfg.overWrite);
  }

  /** The loop over the services: each service's files in turn, until a
      step ends the run. */
  method EmitServices(cfg: Config, rs: Renderers, services: seq<Service>, fs: FileSystem) returns (status: Status)
    requires forall i, j :: 0 <= i < j < |services| ==> services[i] != services[j]
    modifies fs, services
    ensures Outcome(fs.View(), status) == Apply(old(fs.View()), ServicesSteps(cfg, rs, old(Views(services))), cfg.overWrite)
  {
    ghost var vs, fs0 := Views(services), fs.View();
    status := Completed;
    for i := 0 to |services|
      invariant Apply(fs0, ServicesSteps(cfg, rs, vs[..i]), cfg.overWrite) == Outcome(fs.View(), Completed)
      invariant status == Completed
      invariant forall k :: i <= k < |services| ==> services[k].View() == vs[k]
    {
      ghost var before := fs.View();
      assert forall k :: i < k < |services| ==> services[k] != services[i];
      status := EmitService(cfg, rs, services[i], fs);
      ApplyNextService(fs0, cfg, rs, vs, i, before, Outcome(fs.View(), status));
      if status != Completed {
        return;
      }
    }
    assert vs[..|services|] == vs;
  }

  /** One more service's files: the run so far, then that service's steps;
      if they end the run, the remaining services are not emitted. */
  lemma ApplyNextService(fs0: FS, cfg: Config, rs: Renderers, vs: seq<ServiceView>, i: int, before: FS, after: Outcome)
    requires 0 <= i < |vs|
    requires Apply(fs0, ServicesSteps(cfg, rs, vs[..i]), cfg.overWrite) == Outcome(before, Completed)
    requires Apply(before, ServiceSteps(cfg, rs, vs[i]), cfg.overWrite) == after
    ensures Apply(fs0, ServicesSteps(cfg, rs, vs[..i + 1]), cfg.overWrite) == after
    ensures after.status != Completed ==> Apply(fs0, ServicesSteps(cfg, rs, vs), cfg.overWrite) == after
  {
    assert vs[..i + 1][..i] == vs[..i];
    ApplyConcat(fs0, ServicesSteps(cfg, rs, vs[..i]), ServiceSteps(cfg, rs, vs[i]), cfg.overWrite);
    if after.status != Completed {
      ServicesStepsPrefix(cfg, rs, vs, i + 1);
      ApplyStopsAt(fs0, ServicesSteps(cfg, rs, vs[..i + 1]), ServicesSteps(cfg, rs, vs), cfg.overWrite);
    }
  }

  /** The steps of the first services come first. */
  lemma {:induction false} ServicesStepsPrefix(cfg: Config, rs: Renderers, vs: seq<ServiceView>, n: int)
    requires 0 <= n <= |vs|
    ensures ServicesSteps(cfg, rs, vs[..n]) <= ServicesSteps(cfg, rs, vs)
    decreases |vs|
  {
    if n < |vs| {
      var m := |vs| - 1;
      assert vs[..m][..n] == vs[..n];
      ServicesStepsPrefix(cfg, rs, vs[..m], n);
      PrefixExtends(ServicesSteps(cfg, rs, vs[..n]), ServicesSteps(cfg, rs, vs[..m]), ServiceSteps(cfg, rs, vs[m]));
    } else {
      assert vs[..n] == vs;
    }
  }

  lemma PrefixExtends(a: seq<Step>, b: seq<Step>, c: seq<Step>)
    requires a <= b
    ensures a <= b + c
  {
    assert (b + c)[..|a|] == b[..|a|];
  }

  /** `run` from the parsed schema on: the walk, then the emission. */
  method Run(cfg: Config, rs: Renderers, tree: seq<Element>, fs: FileSystem) returns (status: Status)
    modifies fs
    ensures var w := Walked(tree, Initial, cfg.modelComment);
      Outcome(fs.View(), status) == Emission(cfg, rs, Models(w.models), w.services, old(fs.View()))
  {
    var services, models := Build(tree, cfg.modelComment);
    status := Emit(cfg, rs, services, models, fs);
  }

  // ---------------------------------------------------------------------
  // A complete scenario
  // ---------------------------------------------------------------------

  /** A schema declaring service `Greeter` with one unary RPC
      `SayHello(HelloRequest) returns (HelloReply)`. */
  const GreeterSchema := [ServiceDecl("Greeter", [Rpc("SayHello", "HelloRequest", "HelloReply", false, false)])]

  /** The record the walk builds for it: no `go_package` option, so empty
      project and package. */
  const GreeterView := ServiceView("", "", "Greeter", [Method("Greeter", "SayHello", "HelloRequest", "HelloReply", Unary)],
                                   false, false, false)

  /** The walk of a schema with one service of one unary RPC, all names
      already normalised and dot-free. */
  lemma WalkOneService(name: string, rpc: string, request: string, reply: string, marker: string)
    requires IsNormalized(name) && IsNormalized(rpc) && '.' !in request && '.' !in reply
    ensures Walked([ServiceDecl(name, [Rpc(rpc, request, reply, false, false)])], Initial, marker) ==
      State("", [ServiceView("", "", name, [Method(name, rpc, request, reply, Unary)], false, false, false)], [])
  {
    NormalizedIsFixed(name);
    NormalizedIsFixed(rpc);
    ReplaceAllSplit(request, [], '.', '_');
    ReplaceAllSplit(reply, [], '.', '_');
    var r := Rpc(rpc, request, reply, false, false);
    var e := ServiceDecl(name, [r]);
    var m := Method(name, rpc, request, reply, Unary);
    assert MethodFor(name, r) == m;
    assert MethodsOf(name, [r]) == [m] by {
      assert [r][..0] == [];
    }
    var st1 := Initial.(services := [ServiceOf("", name, [r])]);
    assert ServiceOf("", name, [r]) == ServiceView("", "", name, [m], false, false, false);
    assert Visit(e, Initial, marker) == st1;
    assert Walked([r], st1, marker) == st1 by {
      assert [r][..0] == [];
    }
    assert WalkedElement(e, Initial, marker) == st1;
    assert [e][..0] == [];
  }

  /** The Greeter schema's names are already in normal form. */
  lemma GreeterNames()
    ensures IsNormalized("Greeter") && IsNormalized("SayHello")
    ensures '.' !in "HelloRequest" && '.' !in "HelloReply"
  {
    NormalizedWord("Greeter");
    NormalizedWord("SayHello");
  }

  /** A word of letters that begins with an upper-case letter is in normal
      form. */
  lemma NormalizedWord(w: string)
    requires |w| > 0 && 'A' <= w[0] <= 'Z'
    requires forall i :: 1 <= i < |w| ==> 'a' <= w[i] <= 'z' || 'A' <= w[i] <= 'Z'
    ensures IsNormalized(w)
  {
    CapitalisedWord(w);
  }

  /** The walk of the greeter schema builds one service and no model. */
  lemma GreeterWalk()
    ensures Walked(GreeterSchema, Initial, Defaults().modelComment) == State("", [GreeterView], [])
  {
    GreeterNames();
    WalkOneService("Greeter", "SayHello", "HelloRequest", "HelloReply", Defaults().modelComment);
  }

  /** `strings.ToLower("Greeter")`. */
  lemma GreeterLower()
    ensures ToLower("Greeter") == "greeter"
  {
    assert Lower('G') == 'g';
  }

  /** One service with every kind of file enabled, without overwriting,
      into directories that hold no files: the run completes and writes
      exactly the models file and the service's three files. */
  lemma EmitOneService(cfg: Config, rs: Renderers, models: Models, v: ServiceView, fs: FS)
    requires !cfg.noBizModel && !cfg.noService && !cfg.noBiz && !cfg.noData && !cfg.overWrite
    requires rs.models(models).Ok? && rs.service(v).Ok? && rs.biz(BizFlags(v)).Ok? && rs.data(BizFlags(v)).Ok?
    requires fs.files == map[] && cfg.targetDir in fs.dirs
    requires ModelPath(cfg) !in fs.dirs && FileFor(cfg.targetDir, v.service) !in fs.dirs
    requires FileFor(cfg.bizDir, v.service) !in fs.dirs && FileFor(cfg.dataDir, v.service) !in fs.dirs
    ensures var r := Emission(cfg, rs, models, [v], fs);
      r.status == Completed &&
      r.fs.files.Keys == {ModelPath(cfg), FileFor(cfg.targetDir, v.service), FileFor(cfg.bizDir, v.service),
                          FileFor(cfg.dataDir, v.service)}
  {
    var a, b, c, d := ModelPath(cfg), FileFor(cfg.targetDir, v.service), FileFor(cfg.bizDir, v.service),
                      FileFor(cfg.dataDir, v.service);
    var plan := Plan(cfg, rs, models, [v]);
    ServicesStepsShape(cfg, rs, [v]);
    assert plan == [Step(a, rs.models(models)), Step(b, rs.service(v)), Step(c, rs.biz(BizFlags(v))),
                    Step(d, rs.data(BizFlags(v)))];
    ApplyCompletes(fs, plan, false);
    ApplyPathsExist(fs, plan, false);
    var r := Apply(fs, plan, false);
    assert Exists(r.fs, plan[0].path) && Exists(r.fs, plan[1].path);
    assert Exists(r.fs, plan[2].path) && Exists(r.fs, plan[3].path);
    forall p | p in r.fs.files ensures p == a || p == b || p == c || p == d {
      if !(p == a || p == b || p == c || p == d) {
        ApplyUntouched(fs, plan, false, p);
      }
    }
  }

  /** The directories of the default flags, holding no files. */
  const EmptyDirs := FS(map[], {"internal/service", "internal/biz", "internal/data"})

  /** The greeter record with the default flags, into empty directories:
      the run completes and writes exactly four files, the models file
      included. */
  lemma GreeterEmission(rs: Renderers)
    requires rs.models(Models([])).Ok? && rs.service(GreeterView).Ok?
    requires rs.biz(BizFlags(GreeterView)).Ok? && rs.data(BizFlags(GreeterView)).Ok?
    ensures var r := Emission(Defaults(), rs, Models([]), [GreeterView], EmptyDirs);
      r.status == Completed &&
      r.fs.files.Keys == {"internal/service/../biz/models.go", "internal/service/greeter.go",
                          "internal/biz/greeter.go", "internal/data/greeter.go"}
  {
    GreeterLower();
    var v := GreeterView;
    assert FileFor("internal/service", v.service) == "internal/service/greeter.go";
    assert FileFor("internal/biz", v.service) == "internal/biz/greeter.go";
    assert FileFor("internal/data", v.service) == "internal/data/greeter.go";
    assert ModelPath(Defaults()) == "internal/service/../biz/models.go";
    EmitOneService(Defaults(), rs, Models([]), v, EmptyDirs);
  }

  /** The business-logic file of the greeter is rendered with the context
      flag only. */
  lemma GreeterFlags()
    ensures BizFlags(GreeterView).useContext && !BizFlags(GreeterView).useIO && !BizFlags(GreeterView).googleEmpty
  {
    var v := GreeterView;
    ScanFlagsSpec(v.methods, v);
    assert !NeedsEmpty(v.methods[0]) && !NeedsIO(v.methods[0]) && NeedsContext(v.methods[0]);
  }
}
