/**
 * One audit run: launch the browser, run the audit engine, persist the raw
 * report, read it back, extract the metrics, post the payload, and kill the
 * browser on every path once it has been launched.
 */
module Pipeline {
  import opened Wrappers
  import opened Naming
  import opened Metrics

  /** A file-system path as its list of components; `path.join(p, name)` is `p + [name]`. */
  type Path = seq<string>

  /** The body posted to the webhook. */
  datatype Payload = Payload(
    performance: CategoryMetric,
    accessibility: CategoryMetric,
    bestPractices: CategoryMetric,
    seo: CategoryMetric,
    folderName: string,
    auditJsonFile: string)

  /** The payload object literal: the four records, the folder name and the report text. */
  function Assemble(m: Metrics, folderName: string, auditJsonFile: string): Payload {
    Payload(m.performance, m.accessibility, m.bestPractices, m.seo, folderName, auditJsonFile)
  }

  /**
   * The posted payload is one snapshot tied to its folder: every record
   * carries the run's `url` and `timestamp`, the folder name is built from
   * the performance record's own `url` and `timestamp`, its timestamp part is
   * that timestamp made safe, the report file sits in that folder, and the
   * embedded report text is the text given.
   */
  lemma PayloadSnapshot(scriptDir: Path, report: Report, url: string, now: string, json: string)
    requires Extract(report, url, now).Success?
    ensures var p := Assemble(Extract(report, url, now).value, FolderName(url, now), json);
      && (forall c: Category :: Extract(report, url, now).value.Of(c).url == url
                              && Extract(report, url, now).value.Of(c).timestamp == now
                              && Extract(report, url, now).value.Of(c).optimal == OPTIMAL)
      && p.folderName == FolderName(p.performance.url, p.performance.timestamp)
      && p.folderName[|url| + 1..] == SafeTimestamp(p.seo.timestamp)
      && ReportFile(scriptDir, url, now) == ReportsRoot(scriptDir) + [p.folderName, "audit.json"]
      && p.auditJsonFile == json
  {
    forall c: Category
      ensures Extract(report, url, now).value.Of(c).url == url
      ensures Extract(report, url, now).value.Of(c).timestamp == now
      ensures Extract(report, url, now).value.Of(c).optimal == OPTIMAL
    {
      ExtractSnapshot(report, url, now, c);
    }
    var m := Extract(report, url, now).value;
    ExtractSnapshot(report, url, now, Seo);
    assert m.seo == m.Of(Seo);
    ExtractSnapshot(report, url, now, Performance);
    assert m.performance == m.Of(Performance);
    FolderNameSplits(url, now);
  }

  /** The errors the synchronous file-system calls throw. */
  datatype FsError =
    | NoEntry(path: Path)        // ENOENT: a missing parent directory or file
    | NotADirectory(path: Path)  // ENOTDIR / EEXIST: a file stands where a directory is needed
    | IsADirectory(path: Path)   // EISDIR: a directory stands where a file is needed
    | IoFailure(path: Path)      // permission, space and other device errors

  /**
   * How the file system fails on a path: it refuses to create it, or (for a
   * file) it truncates the file on opening and fails after writing the first
   * `written` characters.
   */
  datatype Fault = Refused | Interrupted(written: nat)

  /** An error thrown inside the `try` block, which the `catch` logs. */
  datatype RunError =
    | EngineFailed(message: string)
    | PersistFailed(cause: FsError)
    | ExtractFailed(missing: ExtractError)

  /**
   * How the run's promise settles: rejected when the browser does not launch
   * (that call is outside the `try`), otherwise resolved, with the error the
   * `catch` logged if there was one.
   */
  datatype RunOutcome = LaunchRejected | Settled(caught: Option<RunError>)

  /**
   * What the world outside the model answers during one run: whether Chrome
   * launches, what the audit engine returns or throws, the clock's ISO time,
   * how the file system fails on which paths, which files cannot be read,
   * and whether the webhook answers the post with a success response.
   */
  datatype Environment = Environment(
    launches: bool,
    engine: Result<Report, string>,
    now: string,
    faults: map<Path, Fault>,
    unreadable: set<Path>,
    delivers: bool)

  /** `path.join(__dirname, "audit-reports")`. */
  function ReportsRoot(scriptDir: Path): Path {
    scriptDir + ["audit-reports"]
  }

  /** The directory of one run's report. */
  function RunFolder(scriptDir: Path, url: string, now: string): Path {
    ReportsRoot(scriptDir) + [FolderName(url, now)]
  }

  /** The path of one run's `audit.json`. */
  function ReportFile(scriptDir: Path, url: string, now: string): Path {
    RunFolder(scriptDir, url, now) + ["audit.json"]
  }

  /** The first `n` non-empty ancestors of `p`, shortest first. */
  function Prefixes(p: Path, n: nat): set<Path>
    requires n <= |p|
  {
    set i | 1 <= i <= n :: p[..i]
  }

  /** `p` and all its non-empty ancestors. */
  function Ancestry(p: Path): set<Path> {
    Prefixes(p, |p|)
  }

  /** Taking one more ancestor adds exactly that one. */
  lemma PrefixesGrow(p: Path, n: nat)
    requires n < |p|
    ensures Prefixes(p, n + 1) == Prefixes(p, n) + {p[..n + 1]}
  {
  }

  /** The first `n` ancestors are no longer than `n`. */
  lemma PrefixesShorter(p: Path, n: nat, a: Path)
    requires n <= |p| && a in Prefixes(p, n)
    ensures 1 <= |a| <= n
  {
  }

  /** Extending a path by one component adds exactly that path to its ancestry. */
  lemma AncestryExtend(p: Path, name: string)
    ensures Ancestry(p + [name]) == Ancestry(p) + {p + [name]}
  {
    var q := p + [name];
    assert Prefixes(q, |p|) == Prefixes(p, |p|) by {
      forall i | 1 <= i <= |p| ensures q[..i] == p[..i] { }
    }
    PrefixesGrow(q, |p|);
    assert q[..|p| + 1] == q;
  }

  /** The prefix of `content` a write interrupted after `written` characters leaves behind. */
  function Truncated(content: string, written: nat): (r: string)
    ensures r <= content
    ensures |r| == if written < |content| then written else |content|
  {
    if written < |content| then content[..written] else content
  }

  /**
   * Whether recursive mkdir stops at `q`: a file stands there, or `q` has
   * to be created and the file system refuses.
   */
  predicate Blocks(q: Path, dirs: set<Path>, files: map<Path, string>, faults: map<Path, Fault>) {
    q in files || (q !in dirs && q in faults)
  }

  /** Whether `mkdirSync(p, { recursive: true })` succeeds: no ancestor of `p` blocks it. */
  predicate MkdirSucceeds(p: Path, dirs: set<Path>, files: map<Path, string>, faults: map<Path, Fault>) {
    forall i :: 1 <= i <= |p| ==> !Blocks(p[..i], dirs, files, faults)
  }

  /** Whether `writeFileSync` can open `p`: its directory exists and `p` is not a directory. */
  predicate Opens(p: Path, dirs: set<Path>) {
    |p| > 0 && p[..|p| - 1] in dirs && p !in dirs
  }

  /** The browser handle `chromeLauncher.launch` returns. */
  class Chrome {
    var alive: bool
    var kills: nat

    constructor Launch()
      ensures alive && kills == 0
    {
      alive := true;
      kills := 0;
    }

    /** `chrome.kill()`. */
    method Kill()
      modifies this
      ensures !alive && kills == old(kills) + 1
    {
      alive := false;
      kills := kills + 1;
    }
  }

  /**
   * The process the script runs in: the directory holding the script, the
   * file system it writes to, the payloads the webhook acknowledged with a
   * success response, and the browser it launched last.
   */
  class Host {
    const scriptDir: Path
    var dirs: set<Path>
    var files: map<Path, string>
    var sent: seq<Payload>
    var browser: Chrome?

    /** Every file sits in an existing directory and is not itself a directory. */
    ghost predicate Valid()
      reads this
    {
      forall p :: p in files ==> p !in dirs && |p| > 0 && p[..|p| - 1] in dirs
    }

    /**
     * Whether the file system lets one run save its report: both recursive
     * mkdir calls get through, and `audit.json` opens and is written whole.
     */
    ghost predicate CanSave(url: string, now: string, faults: map<Path, Fault>)
      reads this
    {
      var root := ReportsRoot(scriptDir);
      var file := ReportFile(scriptDir, url, now);
      && MkdirSucceeds(root, dirs, files, faults)
      && MkdirSucceeds(RunFolder(scriptDir, url, now), dirs + Ancestry(root), files, faults)
      && file !in dirs && file !in faults
    }

    /** Whether the report is saved and read back. */
    ghost predicate CanPersist(url: string, now: string, faults: map<Path, Fault>, unreadable: set<Path>)
      reads this
    {
      CanSave(url, now, faults) && ReportFile(scriptDir, url, now) !in unreadable
    }

    constructor (scriptDir: Path)
      ensures Valid()
      ensures this.scriptDir == scriptDir
      ensures dirs == {} && files == map[] && sent == [] && browser == null
    {
      this.scriptDir := scriptDir;
      dirs, files, sent, browser := {}, map[], [], null;
    }

    /**
     * `mkdirSync(p, { recursive: true })`: creates the missing ancestors of
     * `p`, shortest first, and stops at the first that a file occupies or the
     * file system refuses, keeping the ones made before it.
     */
    method MakeDirectory(p: Path, faults: map<Path, Fault>) returns (r: Result<(), FsError>)
      requires Valid()
      modifies this`dirs
      ensures Valid()
      ensures r.Success? <==> MkdirSucceeds(p, old(dirs), files, faults)
      ensures r.Success? ==> dirs == old(dirs) + Ancestry(p)
      ensures r.Failure? ==> exists k ::
        && 1 <= k <= |p|
        && Blocks(p[..k], old(dirs), files, faults)
        && (forall j :: 1 <= j < k ==> !Blocks(p[..j], old(dirs), files, faults))
        && dirs == old(dirs) + Prefixes(p, k - 1)
      ensures old(dirs) <= dirs <= old(dirs) + Ancestry(p)
    {
      var i := 1;
      while i <= |p|
        invariant 1 <= i <= |p| + 1
        invariant dirs == old(dirs) + Prefixes(p, i - 1)
        invariant forall j :: 1 <= j < i ==> !Blocks(p[..j], old(dirs), files, faults)
        invariant Valid()
      {
        var q := p[..i];
        PrefixesGrow(p, i - 1);
        if q in files {
          r := Failure(NotADirectory(q));
          return;
        }
        if q !in dirs {
          if q in faults {
            r := Failure(IoFailure(q));
            return;
          }
          dirs := dirs + {q};
        }
        i := i + 1;
      }
      return Success(());
    }

    /**
     * `writeFileSync(p, content)`: creates or overwrites a file in an existing
     * directory. A refused open changes nothing; an interrupted write leaves
     * the file truncated to the characters written before the fault.
     */
    method WriteFile(p: Path, content: string, faults: map<Path, Fault>) returns (r: Result<(), FsError>)
      requires Valid()
      modifies this`files
      ensures Valid()
      ensures r.Success? <==> Opens(p, dirs) && p !in faults
      ensures r.Success? ==> files == old(files)[p := content]
      ensures r.Failure? ==>
        files == (if Opens(p, dirs) && p in faults && faults[p].Interrupted?
                  then old(files)[p := Truncated(content, faults[p].written)]
                  else old(files))
    {
      if |p| == 0 || p[..|p| - 1] !in dirs {
        return Failure(NoEntry(p));
      }
      if p in dirs {
        return Failure(IsADirectory(p));
      }
      if p in faults {
        if faults[p].Interrupted? {
          files := files[p := Truncated(content, faults[p].written)];
        }
        return Failure(IoFailure(p));
      }
      files := files[p := content];
      return Success(());
    }

    /** `readFileSync(p, "utf8")`: the content of an existing, readable file. */
    method ReadFile(p: Path, unreadable: set<Path>) returns (r: Result<string, FsError>)
      requires Valid()
      ensures r.Success? <==> p in files && p !in unreadable
      ensures r.Success? ==> r.value == files[p]
      ensures p in dirs ==> r == Failure(IsADirectory(p))
      ensures p !in dirs && p !in files ==> r == Failure(NoEntry(p))
    {
      if p in files {
        if p in unreadable {
          return Failure(IoFailure(p));
        }
        return Success(files[p]);
      }
      if p in dirs {
        return Failure(IsADirectory(p));
      }
      return Failure(NoEntry(p));
    }

    /**
     * `sendToMake`: posts the payload; a failed post is logged and never
     * thrown. `sent` records the posts answered with a success response.
     */
    method SendToMake(payload: Payload, delivers: bool)
      modifies this`sent
      ensures sent == if delivers then old(sent) + [payload] else old(sent)
    {
      if delivers {
        sent := sent + [payload];
      }
    }

    /**
     * The persistence steps of the `try` block: make the reports root, make
     * the run folder, write `audit.json` into it. The first error thrown ends
     * them; the written file's path is returned.
     */
    method SaveReport(url: string, now: string, faults: map<Path, Fault>, json: string) returns (r: Result<Path, FsError>)
      requires Valid()
      modifies this`dirs, this`files
      ensures Valid()
      ensures r.Success? <==> old(CanSave(url, now, faults))
      ensures old(dirs) <= dirs <= old(dirs) + Ancestry(RunFolder(scriptDir, url, now))
      ensures var file := ReportFile(scriptDir, url, now);
        files - {file} == old(files) - {file}
      ensures r.Success? ==>
        && r.value == ReportFile(scriptDir, url, now)
        && dirs == old(dirs) + Ancestry(RunFolder(scriptDir, url, now))
        && files == old(files)[r.value := json]
      ensures r.Failure? ==> var file := ReportFile(scriptDir, url, now);
        || files == old(files)
        || (&& dirs == old(dirs) + Ancestry(RunFolder(scriptDir, url, now))
            && file in faults && faults[file].Interrupted?
            && files == old(files)[file := Truncated(json, faults[file].written)])
    {
      var root := ReportsRoot(scriptDir);
      var folderName := FolderName(url, now);
      var folder := root + [folderName];
      var file := folder + ["audit.json"];
      AncestryExtend(root, folderName);
      AncestryExtend(folder, "audit.json");
      assert file[..|file| - 1] == folder;
      var made := MakeDirectory(root, faults);
      if made.Failure? {
        return Failure(made.error);
      }
      made := MakeDirectory(folder, faults);
      if made.Failure? {
        return Failure(made.error);
      }
      assert file !in Ancestry(folder) by {
        if file in Ancestry(folder) {
          PrefixesShorter(folder, |folder|, file);
        }
      }
      var written := WriteFile(file, json, faults);
      if written.Failure? {
        return Failure(written.error);
      }
      return Success(file);
    }

    /**
     * The `try` block of `runLighthouse`: the first error thrown ends it and
     * is returned; a payload is posted only once every earlier step succeeded.
     */
    method AuditAndDeliver(url: string, env: Environment, stringify: Report -> string) returns (caught: Option<RunError>)
      requires Valid()
      modifies this`dirs, this`files, this`sent
      ensures Valid()
      ensures env.engine.Failure? ==>
        caught == Some(EngineFailed(env.engine.error)) && dirs == old(dirs) && files == old(files)
      ensures old(dirs) <= dirs <= old(dirs) + Ancestry(RunFolder(scriptDir, url, env.now))
      ensures var file := ReportFile(scriptDir, url, env.now);
        && files - {file} == old(files) - {file}
        && (file in files && (file !in old(files) || files[file] != old(files)[file])
            ==> env.engine.Success? && files[file] <= stringify(env.engine.value))
      ensures env.engine.Success? ==>
        (caught.Some? && caught.value.PersistFailed? <==> !old(CanPersist(url, env.now, env.faults, env.unreadable)))
      ensures env.engine.Success? && old(CanSave(url, env.now, env.faults)) ==>
        && dirs == old(dirs) + Ancestry(RunFolder(scriptDir, url, env.now))
        && files == old(files)[ReportFile(scriptDir, url, env.now) := stringify(env.engine.value)]
      ensures env.engine.Success? && old(CanPersist(url, env.now, env.faults, env.unreadable)) ==>
        && (caught.None? <==> Extract(env.engine.value, url, env.now).Success?)
        && (caught.Some? ==> caught == Some(ExtractFailed(Extract(env.engine.value, url, env.now).error)))
      ensures caught.Some? ==> sent == old(sent)
      ensures caught.None? ==>
        var file := ReportFile(scriptDir, url, env.now);
        && env.engine.Success?
        && file in files
        && sent == old(sent) + if env.delivers
           then [Assemble(Extract(env.engine.value, url, env.now).value, FolderName(url, env.now), files[file])]
           else []
    {
      if env.engine.Failure? {
        return Some(EngineFailed(env.engine.error));
      }
      var lhr := env.engine.value;
      var saved := SaveReport(url, env.now, env.faults, stringify(lhr));
      if saved.Failure? {
        return Some(PersistFailed(saved.error));
      }
      var file := saved.value;

      var content := ReadFile(file, env.unreadable);
      if content.Failure? {
        return Some(PersistFailed(content.error));
      }
      var auditJson := content.value;

      var metrics := Extract(lhr, url, env.now);
      if metrics.Failure? {
        return Some(ExtractFailed(metrics.error));
      }
      var payload := Assemble(metrics.value, FolderName(url, env.now), auditJson);
      SendToMake(payload, env.delivers);
      return None;
    }

    /**
     * `runLighthouse(url)`: launch Chrome (a failure rejects the run before
     * anything else happens), run the `try` block, log whatever it threw, and
     * kill Chrome in the `finally` block.
     */
    method RunLighthouse(url: string, env: Environment, stringify: Report -> string) returns (outcome: RunOutcome)
      requires Valid()
      modifies this
      ensures Valid()
      ensures !env.launches ==>
        && outcome == LaunchRejected
        && browser == old(browser) && dirs == old(dirs) && files == old(files) && sent == old(sent)
      ensures env.launches ==>
        && outcome.Settled?
        && browser != null && fresh(browser)
        && !browser.alive && browser.kills == 1
      ensures env.launches && env.engine.Failure? ==>
        outcome == Settled(Some(EngineFailed(env.engine.error))) && dirs == old(dirs) && files == old(files)
      ensures old(dirs) <= dirs <= old(dirs) + Ancestry(RunFolder(scriptDir, url, env.now))
      ensures var file := ReportFile(scriptDir, url, env.now);
        && files - {file} == old(files) - {file}
        && (file in files && (file !in old(files) || files[file] != old(files)[file])
            ==> env.engine.Success? && files[file] <= stringify(env.engine.value))
      ensures env.launches && env.engine.Success? ==>
        ((outcome.caught.Some? && outcome.caught.value.PersistFailed?) <==>
          !old(CanPersist(url, env.now, env.faults, env.unreadable)))
      ensures env.launches && env.engine.Success? && old(CanSave(url, env.now, env.faults)) ==>
        && dirs == old(dirs) + Ancestry(RunFolder(scriptDir, url, env.now))
        && files == old(files)[ReportFile(scriptDir, url, env.now) := stringify(env.engine.value)]
      ensures outcome == Settled(None) <==>
        && env.launches
        && env.engine.Success?
        && old(CanPersist(url, env.now, env.faults, env.unreadable))
        && Extract(env.engine.value, url, env.now).Success?
      ensures outcome != Settled(None) ==> sent == old(sent)
      ensures outcome == Settled(None) ==>
        var file := ReportFile(scriptDir, url, env.now);
        && file in files
        && files[file] == stringify(env.engine.value)
        && sent == old(sent) + if env.delivers
           then [Assemble(Extract(env.engine.value, url, env.now).value, FolderName(url, env.now), files[file])]
           else []
    {
      if !env.launches {
        return LaunchRejected;
      }
      var chrome := new Chrome.Launch();
      browser := chrome;
      var caught := AuditAndDeliver(url, env, stringify);
      chrome.Kill();
      return Settled(caught);
    }
  }
}
