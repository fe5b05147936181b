/** `processTemplates` and `renameFilesInDirectory`: the two passes that
    change the output tree. Each is a method with a loop over the listing
    `glob` returned, specified by a left fold of one step function over that
    listing; the lemmas below are about the folds. */
module TemplateParser {
  import opened Wrappers
  import opened Text
  import opened Paths
  import opened Placeholders
  import opened Renaming
  import opened FsModel

  /** What `fs.stat` and `fs.readFile` find at a path of the template tree:
      a file with its text, a directory, or a file whose read fails with a
      message. A path that is absent from the tree fails `fs.stat`. */
  datatype SourceEntry = Regular(content: string) | Directory | Unreadable(message: string)

  type Tree = map<string, SourceEntry>

  /** The arrow in the "renamed" log lines. */
  const Arrow: string := " \U{2192} "

  /*** processTemplates ***/

  /** The state of a copy run: the output tree, the lines logged so far, and
      the error that ended the run, if one did. */
  datatype CopyState = CopyState(disk: Disk, log: seq<string>, failure: Option<string>)

  /** The output name of a template file: renamed when there are rules. */
  function TargetName(file: string, rules: seq<Rule>): string
  {
    if |rules| > 0 then RenamePath(file, rules) else file
  }

  /** Reading the template file and writing its substituted text to the
      target path, once the target's directory exists. Neither a read nor a
      write error ends the run: it is logged. */
  function WriteStage(d1: Disk, log1: seq<string>, file: string, target: string,
                      targetPath: string, entry: SourceEntry, config: Config): CopyState
    requires !entry.Directory?
  {
    if entry.Unreadable? then
      CopyState(d1, log1 + ["Error processing file " + file + ": " + entry.message], None)
    else
      match WriteOn(d1, targetPath, Subst(entry.content, config))
      case Err(m) => CopyState(d1, log1 + ["Error processing file " + file + ": " + m], None)
      case Ok(d2) => CopyState(d2, log1 + ["Processed: " + target], None)
  }

  /** One iteration of the copy loop. A failed run stays as it is. A file
      that cannot be stat'ed, or is a directory, is logged and skipped. A
      failure to create the target's directory ends the run; a failure to
      read or write the file is logged and the run goes on. */
  function CopyStep(st: CopyState, tree: Tree, outputDir: string, config: Config,
                    rules: seq<Rule>, file: string): CopyState
  {
    if st.failure.Some? then st
    else if file !in tree then
      st.(log := st.log + ["Error checking file " + file + ": " + ENOENT])
    else if tree[file].Directory? then
      st.(log := st.log + ["Skipping directory: " + file])
    else
      var target := TargetName(file, rules);
      var log1 := if target != file then st.log + ["File renamed: " + file + Arrow + target] else st.log;
      var targetPath := Join(outputDir, target);
      match EnsureDirOn(st.disk, Dirname(targetPath))
      case Err(m) => CopyState(st.disk, log1, Some(m))
      case Ok(d1) => WriteStage(d1, log1, file, target, targetPath, tree[file], config)
  }

  /** What one copy step may change: the log only grows, directories are
      only added, the tree stays well formed, and the only file that can
      appear or change is the one at the step's target path. */
  lemma CopyStepFrame(st: CopyState, tree: Tree, outputDir: string, config: Config,
                      rules: seq<Rule>, file: string)
    ensures var r := CopyStep(st, tree, outputDir, config, rules, file);
      var t := Join(outputDir, TargetName(file, rules));
      && (st.failure.Some? ==> r == st)
      && st.log <= r.log && st.disk.dirs <= r.disk.dirs
      && st.disk.files.Keys <= r.disk.files.Keys
      && r.disk.files.Keys <= st.disk.files.Keys + {t}
      && (forall q :: q in st.disk.files && q != t ==> r.disk.files[q] == st.disk.files[q])
      && (ValidDisk(st.disk) ==> ValidDisk(r.disk))
  {
    if st.failure.None? && file in tree && !tree[file].Directory? {
      var target := TargetName(file, rules);
      var t := Join(outputDir, target);
      var log1 := if target != file then st.log + ["File renamed: " + file + Arrow + target] else st.log;
      var e := EnsureDirOn(st.disk, Dirname(t));
      EnsureDirFacts(st.disk, Dirname(t));
      if e.Ok? {
        var entry := tree[file];
        if entry.Regular? {
          WriteFacts(e.value, t, Subst(entry.content, config));
        }
      }
    }
  }

  /** The step that copies a readable file, when it does not end the run and
      its target is no directory, leaves the substituted text at the target
      path and logs "Processed". */
  lemma CopyStepWrites(st: CopyState, tree: Tree, outputDir: string, config: Config,
                       rules: seq<Rule>, file: string, c: string)
    requires st.failure.None? && file in tree && tree[file] == Regular(c)
    requires CopyStep(st, tree, outputDir, config, rules, file).failure.None?
    requires Join(outputDir, TargetName(file, rules)) !in CopyStep(st, tree, outputDir, config, rules, file).disk.dirs
    ensures var r := CopyStep(st, tree, outputDir, config, rules, file);
      var t := Join(outputDir, TargetName(file, rules));
      && t in r.disk.files && r.disk.files[t] == Subst(c, config)
      && "Processed: " + TargetName(file, rules) in r.log
  {
    var target := TargetName(file, rules);
    var t := Join(outputDir, target);
    var e := EnsureDirOn(st.disk, Dirname(t));
    EnsureDirFacts(st.disk, Dirname(t));
    assert e.Ok?;
    WriteFacts(e.value, t, Subst(c, config));
    assert WriteOn(e.value, t, Subst(c, config)).Ok?;
  }

  /** Only creating the target's directory can end the copy run: a step
      fails exactly when the file was found, is no directory, and its
      target's directory cannot be created; it then fails with that error
      and leaves the tree as it was. */
  lemma CopyStepFailsOnlyOnEnsureDir(st: CopyState, tree: Tree, outputDir: string, config: Config,
                                     rules: seq<Rule>, file: string)
    requires st.failure.None?
    ensures var r := CopyStep(st, tree, outputDir, config, rules, file);
      var e := EnsureDirOn(st.disk, Dirname(Join(outputDir, TargetName(file, rules))));
      && (r.failure.Some? <==> file in tree && !tree[file].Directory? && e.Err?)
      && (r.failure.Some? ==> r.failure.value == e.error && r.disk == st.disk)
  {
  }

  /** A listed path that cannot be stat'ed, or that is a directory, is
      logged and skipped: the run goes on and the tree is unchanged. */
  lemma CopyStepSkips(st: CopyState, tree: Tree, outputDir: string, config: Config,
                      rules: seq<Rule>, file: string)
    requires st.failure.None? && (file !in tree || tree[file].Directory?)
    ensures var r := CopyStep(st, tree, outputDir, config, rules, file);
      && r.failure.None? && r.disk == st.disk
      && (file !in tree ==> r.log == st.log + ["Error checking file " + file + ": " + ENOENT])
      && (file in tree ==> r.log == st.log + ["Skipping directory: " + file])
  {
  }

  /** A read or write error is caught: once the target's directory exists,
      a file that cannot be read, or whose target cannot be written, ends
      its step with an "Error processing file" line and the run goes on. */
  lemma CopyStepCatches(st: CopyState, tree: Tree, outputDir: string, config: Config,
                        rules: seq<Rule>, file: string, d1: Disk, m: string)
    requires st.failure.None? && file in tree
    requires EnsureDirOn(st.disk, Dirname(Join(outputDir, TargetName(file, rules)))) == Ok(d1)
    requires || tree[file] == Unreadable(m)
             || (tree[file].Regular?
                 && WriteOn(d1, Join(outputDir, TargetName(file, rules)),
                            Subst(tree[file].content, config)) == Err(m))
    ensures var r := CopyStep(st, tree, outputDir, config, rules, file);
      && r.failure.None? && r.disk == d1 && st.log < r.log
      && r.log[|r.log| - 1] == "Error processing file " + file + ": " + m
  {
  }

  /** The copy loop over `files`, from `start`. */
  function CopyRun(start: CopyState, tree: Tree, outputDir: string, config: Config,
                   rules: seq<Rule>, files: seq<string>): CopyState
  {
    if files == [] then start
    else
      CopyStep(CopyRun(start, tree, outputDir, config, rules, files[..|files| - 1]),
               tree, outputDir, config, rules, files[|files| - 1])
  }

  /** The rules `processTemplates` renames with: none unless renaming is
      enabled. */
  function CopyRules(config: Config, enable: bool): seq<Rule>
  {
    if enable then ExtractRules(config) else []
  }

  /** The lines logged before the copy loop starts. */
  function CopyPreamble(files: seq<string>, config: Config, enable: bool): seq<string>
  {
    var found := ["Found " + NatToString(|files|) + " files to process"];
    if enable then found + ["Found " + NatToString(|ExtractRules(config)|) + " file renaming rules"]
    else found
  }

  /** `processTemplates` once the output directory exists and the listing
      is known: the copy loop, then the closing line unless it failed. */
  function CopyListed(d0: Disk, tree: Tree, files: seq<string>, outputDir: string,
                      config: Config, enable: bool): CopyState
  {
    var st := CopyRun(CopyState(d0, CopyPreamble(files, config, enable), None),
                      tree, outputDir, config, CopyRules(config, enable), files);
    if st.failure.Some? then st
    else st.(log := st.log + ["Template processing complete"])
  }

  /** `processTemplates(templateDir, outputDir, config, logger, enable)` on
      the output tree `disk`, where `listing` is what `glob` returned for the
      template tree. Creating the output directory and listing the templates
      come first; a failure of either ends the run before anything is
      logged. */
  function ProcessTemplatesSpec(disk: Disk, tree: Tree, listing: Result<seq<string>>,
                                outputDir: string, config: Config, enable: bool): CopyState
  {
    match EnsureDirOn(disk, outputDir)
    case Err(m) => CopyState(disk, [], Some(m))
    case Ok(d0) =>
      match listing
      case Err(m) => CopyState(d0, [], Some(m))
      case Ok(files) => CopyListed(d0, tree, files, outputDir, config, enable)
  }

  /** The body of the copy loop for one listed file, on a run that has not
      failed; `renameRules` is empty unless renaming is enabled. */
  method ProcessFile(fs: FileSystem, log: seq<string>, tree: Tree, outputDir: string,
                     config: Config, renameRules: seq<Rule>, file: string)
    returns (log': seq<string>, failure: Option<string>)
    modifies fs
    ensures CopyState(fs.State(), log', failure)
         == CopyStep(CopyState(old(fs.State()), log, None), tree, outputDir, config, renameRules, file)
  {
    log' := log;
    failure := None;
    if file !in tree {
      log' := log' + ["Error checking file " + file + ": " + ENOENT];
      return;
    }
    if tree[file].Directory? {
      log' := log' + ["Skipping directory: " + file];
      return;
    }
    var targetFileName := file;
    if |renameRules| > 0 {
      var newPath := ApplyFileRenaming(file, renameRules, "");
      if newPath != file {
        targetFileName := newPath;
        log' := log' + ["File renamed: " + file + Arrow + targetFileName];
      }
    }
    var targetPath := Join(outputDir, targetFileName);
    failure := fs.EnsureDir(Dirname(targetPath));
    if failure.Some? {
      return;
    }
    var entry := tree[file];
    if entry.Unreadable? {
      log' := log' + ["Error processing file " + file + ": " + entry.message];
    } else {
      var processedContent := Subst(entry.content, config);
      var err := fs.WriteFile(targetPath, processedContent);
      if err.Some? {
        log' := log' + ["Error processing file " + file + ": " + err.value];
      } else {
        log' := log' + ["Processed: " + targetFileName];
      }
    }
  }

  /** The copy loop of `processTemplates`, from the lines `log0`. */
  method CopyFiles(fs: FileSystem, log0: seq<string>, tree: Tree, files: seq<string>,
                   outputDir: string, config: Config, renameRules: seq<Rule>)
    returns (log: seq<string>, failure: Option<string>)
    modifies fs
    ensures CopyState(fs.State(), log, failure)
         == CopyRun(CopyState(old(fs.State()), log0, None), tree, outputDir, config, renameRules, files)
  {
    log := log0;
    failure := None;
    ghost var start := CopyState(fs.State(), log, None);
    var i := 0;
    while i < |files| && failure.None?
      invariant 0 <= i <= |files|
      invariant CopyRun(start, tree, outputDir, config, renameRules, files[..i]) == CopyState(fs.State(), log, failure)
    {
      assert files[..i + 1][..i] == files[..i];
      ghost var before := CopyState(fs.State(), log, None);
      log, failure := ProcessFile(fs, log, tree, outputDir, config, renameRules, files[i]);
      assert CopyRun(start, tree, outputDir, config, renameRules, files[..i + 1])
          == CopyStep(before, tree, outputDir, config, renameRules, files[i]);
      i := i + 1;
    }
    if failure.Some? {
      CopyAbortStays(start, tree, outputDir, config, renameRules, files, i, |files|);
    }
    assert files[..|files|] == files;
  }

  /** The part of `processTemplates` after the listing: the counts, the
      copy loop and the closing line. */
  method CopyListedFiles(fs: FileSystem, tree: Tree, files: seq<string>, outputDir: string,
                         config: Config, enableFileRenaming: bool)
    returns (log: seq<string>, failure: Option<string>)
    modifies fs
    ensures CopyState(fs.State(), log, failure)
         == CopyListed(old(fs.State()), tree, files, outputDir, config, enableFileRenaming)
  {
    log := ["Found " + NatToString(|files|) + " files to process"];
    var renameRules: seq<Rule> := [];
    if enableFileRenaming {
      renameRules := ExtractRules(config);
      log := log + ["Found " + NatToString(|renameRules|) + " file renaming rules"];
    }
    log, failure := CopyFiles(fs, log, tree, files, outputDir, config, renameRules);
    if failure.None? {
      log := log + ["Template processing complete"];
    }
  }

  /** `processTemplates`: the output tree is changed in place; the lines
      logged and the error that ended the run, if any, are returned. */
  method ProcessTemplates(fs: FileSystem, tree: Tree, listing: Result<seq<string>>,
                          outputDir: string, config: Config, enableFileRenaming: bool)
    returns (log: seq<string>, failure: Option<string>)
    modifies fs
    ensures var r := ProcessTemplatesSpec(old(fs.State()), tree, listing, outputDir, config, enableFileRenaming);
      fs.State() == r.disk && log == r.log && failure == r.failure
  {
    log := [];
    failure := fs.EnsureDir(outputDir);
    if failure.Some? {
      return;
    }
    if listing.Err? {
      failure := Some(listing.error);
      return;
    }
    log, failure := CopyListedFiles(fs, tree, listing.value, outputDir, config, enableFileRenaming);
  }

  /** Once the copy run has failed, the remaining files change nothing. */
  lemma {:induction false} CopyAbortStays(start: CopyState, tree: Tree, outputDir: string,
                                          config: Config, rules: seq<Rule>, files: seq<string>,
                                          i: nat, j: nat)
    requires i <= j <= |files|
    requires CopyRun(start, tree, outputDir, config, rules, files[..i]).failure.Some?
    ensures CopyRun(start, tree, outputDir, config, rules, files[..j])
         == CopyRun(start, tree, outputDir, config, rules, files[..i])
    decreases j
  {
    if j > i {
      CopyAbortStays(start, tree, outputDir, config, rules, files, i, j - 1);
      var prev := CopyRun(start, tree, outputDir, config, rules, files[..j - 1]);
      assert files[..j][..j - 1] == files[..j - 1];
      assert CopyRun(start, tree, outputDir, config, rules, files[..j])
          == CopyStep(prev, tree, outputDir, config, rules, files[j - 1]);
    }
  }

  /** A run that ends without failure never failed on the way. */
  lemma CopyNoFailureBefore(start: CopyState, tree: Tree, outputDir: string,
                            config: Config, rules: seq<Rule>, files: seq<string>, i: nat)
    requires i <= |files|
    requires CopyRun(start, tree, outputDir, config, rules, files).failure.None?
    ensures CopyRun(start, tree, outputDir, config, rules, files[..i]).failure.None?
  {
    if CopyRun(start, tree, outputDir, config, rules, files[..i]).failure.Some? {
      CopyAbortStays(start, tree, outputDir, config, rules, files, i, |files|);
      assert files[..|files|] == files;
    }
  }

  /** The copy run never removes a file or a directory and only appends to
      the log. */
  lemma {:induction false} CopyRunGrows(start: CopyState, tree: Tree, outputDir: string,
                                        config: Config, rules: seq<Rule>, files: seq<string>)
    ensures var r := CopyRun(start, tree, outputDir, config, rules, files);
      && start.disk.dirs <= r.disk.dirs
      && start.disk.files.Keys <= r.disk.files.Keys
      && start.log <= r.log
  {
    if files != [] {
      var prefix := files[..|files| - 1];
      CopyRunGrows(start, tree, outputDir, config, rules, prefix);
      CopyStepFrame(CopyRun(start, tree, outputDir, config, rules, prefix),
                    tree, outputDir, config, rules, files[|files| - 1]);
    }
  }

  /** The copy run keeps the output tree well formed. */
  lemma {:induction false} CopyRunKeepsValid(start: CopyState, tree: Tree, outputDir: string,
                                             config: Config, rules: seq<Rule>, files: seq<string>)
    requires ValidDisk(start.disk)
    ensures ValidDisk(CopyRun(start, tree, outputDir, config, rules, files).disk)
  {
    if files != [] {
      var prefix := files[..|files| - 1];
      CopyRunKeepsValid(start, tree, outputDir, config, rules, prefix);
      CopyStepFrame(CopyRun(start, tree, outputDir, config, rules, prefix),
                    tree, outputDir, config, rules, files[|files| - 1]);
    }
  }

  /** The copy run writes nowhere but at target paths: every file of the
      output tree was there before or is the target of a listed file. */
  lemma {:induction false} CopyWritesOnlyTargets(start: CopyState, tree: Tree, outputDir: string,
                                                 config: Config, rules: seq<Rule>,
                                                 files: seq<string>, q: string)
    requires q in CopyRun(start, tree, outputDir, config, rules, files).disk.files
    requires q !in start.disk.files
    ensures exists j :: 0 <= j < |files| && q == Join(outputDir, TargetName(files[j], rules))
  {
    var n := |files|;
    assert n > 0;
    var prefix := files[..n - 1];
    var prev := CopyRun(start, tree, outputDir, config, rules, prefix);
    CopyStepFrame(prev, tree, outputDir, config, rules, files[n - 1]);
    if q in prev.disk.files {
      CopyWritesOnlyTargets(start, tree, outputDir, config, rules, prefix, q);
      var j :| 0 <= j < |prefix| && q == Join(outputDir, TargetName(prefix[j], rules));
      assert prefix[j] == files[j];
    } else {
      assert q == Join(outputDir, TargetName(files[n - 1], rules));
    }
  }

  /** The run over the first `j` files is the run over the first `j - 1`,
      then the step for `files[j - 1]`. */
  lemma CopyRunLast(start: CopyState, tree: Tree, outputDir: string, config: Config,
                    rules: seq<Rule>, files: seq<string>, j: nat)
    requires 0 < j <= |files|
    ensures CopyRun(start, tree, outputDir, config, rules, files[..j])
         == CopyStep(CopyRun(start, tree, outputDir, config, rules, files[..j - 1]),
                     tree, outputDir, config, rules, files[j - 1])
  {
    assert files[..j][..j - 1] == files[..j - 1];
  }

  /** Files written by the run stay written: later files of the listing
      with other targets do not change them. */
  lemma {:induction false} CopyKeepsWritten(start: CopyState, tree: Tree, outputDir: string,
                                            config: Config, rules: seq<Rule>,
                                            files: seq<string>, k: nat, j: nat, q: string)
    requires k <= j <= |files|
    requires q in CopyRun(start, tree, outputDir, config, rules, files[..k]).disk.files
    requires forall m :: k <= m < |files| ==> Join(outputDir, TargetName(files[m], rules)) != q
    ensures var before := CopyRun(start, tree, outputDir, config, rules, files[..k]);
      var after := CopyRun(start, tree, outputDir, config, rules, files[..j]);
      q in after.disk.files && after.disk.files[q] == before.disk.files[q]
    decreases j
  {
    if j > k {
      CopyKeepsWritten(start, tree, outputDir, config, rules, files, k, j - 1, q);
      var prev := CopyRun(start, tree, outputDir, config, rules, files[..j - 1]);
      CopyRunLast(start, tree, outputDir, config, rules, files, j);
      assert Join(outputDir, TargetName(files[j - 1], rules)) != q;
      CopyStepFrame(prev, tree, outputDir, config, rules, files[j - 1]);
      var before := CopyRun(start, tree, outputDir, config, rules, files[..k]);
      var after := CopyStep(prev, tree, outputDir, config, rules, files[j - 1]);
      assert q in prev.disk.files && prev.disk.files[q] == before.disk.files[q];
      assert q in after.disk.files && after.disk.files[q] == prev.disk.files[q];
    }
  }

  /** A line in a log is still there once more lines are appended. */
  lemma InLongerLog(a: seq<string>, b: seq<string>, x: string)
    requires a <= b && x in a
    ensures x in b
  {
    var i :| 0 <= i < |a| && a[i] == x;
    assert b[i] == x;
  }

  /** The step for a readable `files[k]` that leaves the run going, with a
      target that is no directory afterwards, writes the substituted text
      there and logs "Processed". */
  lemma CopyStepAt(start: CopyState, tree: Tree, outputDir: string, config: Config,
                   rules: seq<Rule>, files: seq<string>, k: nat, c: string)
    requires k < |files| && files[k] in tree && tree[files[k]] == Regular(c)
    requires CopyRun(start, tree, outputDir, config, rules, files[..k + 1]).failure.None?
    requires Join(outputDir, TargetName(files[k], rules))
      !in CopyRun(start, tree, outputDir, config, rules, files[..k + 1]).disk.dirs
    ensures var next := CopyRun(start, tree, outputDir, config, rules, files[..k + 1]);
      var t := Join(outputDir, TargetName(files[k], rules));
      && t in next.disk.files && next.disk.files[t] == Subst(c, config)
      && "Processed: " + TargetName(files[k], rules) in next.log
  {
    var prev := CopyRun(start, tree, outputDir, config, rules, files[..k]);
    assert files[..k + 1][..k] == files[..k];
    assert CopyRun(start, tree, outputDir, config, rules, files[..k + 1])
        == CopyStep(prev, tree, outputDir, config, rules, files[k]);
    CopyStepFrame(prev, tree, outputDir, config, rules, files[k]);
    CopyStepWrites(prev, tree, outputDir, config, rules, files[k], c);
  }

  /** A run over `files` is the run over its first `k` files, continued. */
  lemma CopyRunResumes(start: CopyState, tree: Tree, outputDir: string, config: Config,
                       rules: seq<Rule>, files: seq<string>, k: nat)
    requires k <= |files|
    ensures CopyRun(start, tree, outputDir, config, rules, files)
         == CopyRun(CopyRun(start, tree, outputDir, config, rules, files[..k]),
                    tree, outputDir, config, rules, files[k..])
  {
    assert files[..k] + files[k..] == files;
    CopyRunSplit(start, tree, outputDir, config, rules, files[..k], files[k..]);
  }

  /** The copy guarantee: when the run completes, every readable template
      file whose target path is not a directory is in the output tree at its
      target path, holding its text with the placeholders substituted, and
      "Processed" was logged for it — provided no later file of the listing
      has the same target. */
  lemma CopyWritesEveryFile(start: CopyState, tree: Tree, outputDir: string, config: Config,
                            rules: seq<Rule>, files: seq<string>, k: nat, c: string)
    requires k < |files| && files[k] in tree && tree[files[k]] == Regular(c)
    requires forall m :: k < m < |files| ==>
      Join(outputDir, TargetName(files[m], rules)) != Join(outputDir, TargetName(files[k], rules))
    requires CopyRun(start, tree, outputDir, config, rules, files).failure.None?
    requires Join(outputDir, TargetName(files[k], rules))
      !in CopyRun(start, tree, outputDir, config, rules, files).disk.dirs
    ensures var r := CopyRun(start, tree, outputDir, config, rules, files);
      var t := Join(outputDir, TargetName(files[k], rules));
      && t in r.disk.files && r.disk.files[t] == Subst(c, config)
      && "Processed: " + TargetName(files[k], rules) in r.log
  {
    var t := Join(outputDir, TargetName(files[k], rules));
    var next := CopyRun(start, tree, outputDir, config, rules, files[..k + 1]);
    var r := CopyRun(start, tree, outputDir, config, rules, files);
    CopyNoFailureBefore(start, tree, outputDir, config, rules, files, k + 1);
    CopyRunResumes(start, tree, outputDir, config, rules, files, k + 1);
    CopyRunGrows(next, tree, outputDir, config, rules, files[k + 1..]);
    CopyStepAt(start, tree, outputDir, config, rules, files, k, c);
    InLongerLog(next.log, r.log, "Processed: " + TargetName(files[k], rules));
    CopyKeepsWritten(start, tree, outputDir, config, rules, files, k + 1, |files|, t);
    assert files[..|files|] == files;
  }

  /** Only creating a target's directory can end a copy run: a run that
      fails stopped at some listed file `files[j]` that was found, is no
      directory, and whose target's directory could not be created on the
      tree the files before it left; nothing after it changed anything. */
  lemma CopyRunFailsOnlyOnEnsureDir(start: CopyState, tree: Tree, outputDir: string,
                                    config: Config, rules: seq<Rule>,
                                    files: seq<string>) returns (j: nat)
    requires start.failure.None?
    requires CopyRun(start, tree, outputDir, config, rules, files).failure.Some?
    ensures j < |files|
    ensures var before := CopyRun(start, tree, outputDir, config, rules, files[..j]);
      && before.failure.None?
      && files[j] in tree && !tree[files[j]].Directory?
      && EnsureDirOn(before.disk, Dirname(Join(outputDir, TargetName(files[j], rules)))).Err?
    ensures CopyRun(start, tree, outputDir, config, rules, files)
         == CopyRun(start, tree, outputDir, config, rules, files[..j + 1])
  {
    assert files[..|files|] == files;
    assert files[..0] == [];
    j := 0;
    while CopyRun(start, tree, outputDir, config, rules, files[..j + 1]).failure.None?
      invariant j < |files|
      invariant CopyRun(start, tree, outputDir, config, rules, files[..j]).failure.None?
      decreases |files| - j
    {
      j := j + 1;
    }
    var prev := CopyRun(start, tree, outputDir, config, rules, files[..j]);
    assert files[..j + 1][..j] == files[..j];
    assert CopyRun(start, tree, outputDir, config, rules, files[..j + 1])
        == CopyStep(prev, tree, outputDir, config, rules, files[j]);
    CopyStepFailsOnlyOnEnsureDir(prev, tree, outputDir, config, rules, files[j]);
    CopyAbortStays(start, tree, outputDir, config, rules, files, j + 1, |files|);
  }

  /** Running over `a + b` is running over `a`, then over `b`. */
  lemma {:induction false} CopyRunSplit(start: CopyState, tree: Tree, outputDir: string,
                                        config: Config, rules: seq<Rule>,
                                        a: seq<string>, b: seq<string>)
    ensures CopyRun(start, tree, outputDir, config, rules, a + b)
         == CopyRun(CopyRun(start, tree, outputDir, config, rules, a), tree, outputDir, config, rules, b)
    decreases |b|
  {
    if b == [] {
      assert a + b == a;
    } else {
      var b' := b[..|b| - 1];
      assert (a + b)[..|a + b| - 1] == a + b';
      assert (a + b)[|a + b| - 1] == b[|b| - 1];
      CopyRunSplit(start, tree, outputDir, config, rules, a, b');
    }
  }

  /** The lines logged before the loop when no file is listed. */
  lemma NoFilesPreamble(config: Config, enable: bool)
    ensures CopyPreamble([], config, enable)
         == ["Found 0 files to process"]
            + (if enable then ["Found " + NatToString(|ExtractRules(config)|) + " file renaming rules"] else [])
  {
    assert NatToString(0) == "0";
    assert "Found " + NatToString(0) + " files to process" == "Found 0 files to process";
  }

  /** An empty template tree: the output directory is created, only the
      counts and the closing line are logged, no file is written, and the
      pass succeeds. */
  lemma ProcessTemplatesNoFiles(disk: Disk, tree: Tree, outputDir: string, config: Config, enable: bool)
    requires EnsureDirOn(disk, outputDir).Ok?
    ensures var r := ProcessTemplatesSpec(disk, tree, Ok([]), outputDir, config, enable);
      && r.failure.None? && outputDir in r.disk.dirs && r.disk.files == disk.files
      && r.log == ["Found 0 files to process"]
                  + (if enable then ["Found " + NatToString(|ExtractRules(config)|) + " file renaming rules"] else [])
                  + ["Template processing complete"]
  {
    EnsureDirFacts(disk, outputDir);
    NoFilesPreamble(config, enable);
    var d0 := EnsureDirOn(disk, outputDir).value;
    var start := CopyState(d0, CopyPreamble([], config, enable), None);
    assert CopyRun(start, tree, outputDir, config, CopyRules(config, enable), []) == start;
  }

  /** A pass that succeeds has created the output directory, removed
      nothing, opened its log with the number of listed files and closed it
      with the completion line. */
  lemma ProcessTemplatesSucceeds(disk: Disk, tree: Tree, listing: Result<seq<string>>,
                                 outputDir: string, config: Config, enable: bool)
    requires ProcessTemplatesSpec(disk, tree, listing, outputDir, config, enable).failure.None?
    ensures listing.Ok? && EnsureDirOn(disk, outputDir).Ok?
    ensures var r := ProcessTemplatesSpec(disk, tree, listing, outputDir, config, enable);
      && outputDir in r.disk.dirs && disk.dirs <= r.disk.dirs && disk.files.Keys <= r.disk.files.Keys
      && r.log[0] == "Found " + NatToString(|listing.value|) + " files to process"
      && r.log[|r.log| - 1] == "Template processing complete"
  {
    EnsureDirFacts(disk, outputDir);
    var d0 := EnsureDirOn(disk, outputDir).value;
    var files := listing.value;
    var start := CopyState(d0, CopyPreamble(files, config, enable), None);
    CopyRunGrows(start, tree, outputDir, config, CopyRules(config, enable), files);
  }

  /** What `processTemplates` is for: after a pass that succeeds, every
      listed regular template whose target no later file shares, and that
      is not a directory of the output tree, holds its content with the
      placeholders substituted. */
  lemma ProcessTemplatesWrites(disk: Disk, tree: Tree, files: seq<string>, outputDir: string,
                               config: Config, enable: bool, k: nat, c: string)
    requires k < |files| && files[k] in tree && tree[files[k]] == Regular(c)
    requires forall m :: k < m < |files| ==>
      Join(outputDir, TargetName(files[m], CopyRules(config, enable)))
        != Join(outputDir, TargetName(files[k], CopyRules(config, enable)))
    requires ProcessTemplatesSpec(disk, tree, Ok(files), outputDir, config, enable).failure.None?
    requires Join(outputDir, TargetName(files[k], CopyRules(config, enable)))
      !in ProcessTemplatesSpec(disk, tree, Ok(files), outputDir, config, enable).disk.dirs
    ensures var r := ProcessTemplatesSpec(disk, tree, Ok(files), outputDir, config, enable);
      var t := Join(outputDir, TargetName(files[k], CopyRules(config, enable)));
      && t in r.disk.files && r.disk.files[t] == Subst(c, config)
      && "Processed: " + TargetName(files[k], CopyRules(config, enable)) in r.log
  {
    var d0 := EnsureDirOn(disk, outputDir).value;
    var start := CopyState(d0, CopyPreamble(files, config, enable), None);
    var rules := CopyRules(config, enable);
    CopyWritesEveryFile(start, tree, outputDir, config, rules, files, k, c);
    var st := CopyRun(start, tree, outputDir, config, rules, files);
    assert st.log <= st.log + ["Template processing complete"];
  }

  /*** renameFilesInDirectory ***/

  /** The state of a renaming run: the tree, the log, the number of files
      renamed so far, and the error that ended the run, if one did. */
  datatype RenameState = RenameState(disk: Disk, log: seq<string>, count: nat, failure: Option<string>)

  /** The path a file of `directory` is renamed to. */
  function NewFilePath(directory: string, file: string, rules: seq<Rule>): string
  {
    RenamePath(Join(directory, file), rules)
  }

  /** Moving `file` of `directory` from `filePath` to `newFilePath`: the new
      directory is created and the file renamed; neither operation's error
      is caught, so either one ends the run. */
  function MoveStep(st: RenameState, directory: string, file: string,
                    filePath: string, newFilePath: string): RenameState
  {
    match EnsureDirOn(st.disk, Dirname(newFilePath))
    case Err(m) => st.(failure := Some(m))
    case Ok(d1) =>
      match RenameOn(d1, filePath, newFilePath)
      case Err(m) => RenameState(d1, st.log, st.count, Some(m))
      case Ok(d2) =>
        RenameState(d2, st.log + ["Renamed: " + file + Arrow + Relative(directory, newFilePath)],
                    st.count + 1, None)
  }

  /** One iteration of the renaming loop. A failed run stays as it is; a
      file whose path the rules change is moved. */
  function RenameStep(st: RenameState, directory: string, rules: seq<Rule>, file: string): RenameState
  {
    if st.failure.Some? then st
    else
      var filePath := Join(directory, file);
      var newFilePath := NewFilePath(directory, file, rules);
      if newFilePath == filePath then st
      else MoveStep(st, directory, file, filePath, newFilePath)
  }

  /** The renaming loop over `files`, from `start`. */
  function RenameRun(start: RenameState, directory: string, rules: seq<Rule>, files: seq<string>): RenameState
  {
    if files == [] then start
    else RenameStep(RenameRun(start, directory, rules, files[..|files| - 1]), directory, rules, files[|files| - 1])
  }

  /** `renameFilesInDirectory` once the listing is known and rules exist:
      the loop, then the closing line with the count unless it failed. */
  function RenameListed(disk: Disk, log0: seq<string>, files: seq<string>, directory: string,
                        rules: seq<Rule>): RenameState
  {
    var st := RenameRun(RenameState(disk, log0, 0, None), directory, rules, files);
    if st.failure.Some? then st
    else st.(log := st.log + ["Renamed " + NatToString(st.count) + " files based on configuration rules"])
  }

  /** `renameFilesInDirectory(directory, config, logger)` on the tree `disk`,
      where `listing` is what `glob` returned for `directory`. */
  function RenameFilesSpec(disk: Disk, listing: Result<seq<string>>, directory: string,
                           config: Config): RenameState
  {
    match listing
    case Err(m) => RenameState(disk, [], 0, Some(m))
    case Ok(files) =>
      var log0 := ["Checking " + NatToString(|files|) + " files for renaming rules"];
      var rules := ExtractRules(config);
      if |rules| == 0 then
        RenameState(disk, log0 + ["No file renaming rules found in configuration"], 0, None)
      else
        RenameListed(disk, log0 + ["Found " + NatToString(|rules|) + " file renaming rules"],
                     files, directory, rules)
  }

  /** Moving one file whose path the rules change, on a run that has not
      failed. */
  method MoveFile(fs: FileSystem, log: seq<string>, renamedCount: nat, directory: string,
                  file: string, filePath: string, newFilePath: string)
    returns (log': seq<string>, count': nat, failure: Option<string>)
    modifies fs
    ensures RenameState(fs.State(), log', count', failure)
         == MoveStep(RenameState(old(fs.State()), log, renamedCount, None), directory, file, filePath, newFilePath)
  {
    log', count' := log, renamedCount;
    failure := fs.EnsureDir(Dirname(newFilePath));
    if failure.Some? {
      return;
    }
    failure := fs.Rename(filePath, newFilePath);
    if failure.Some? {
      return;
    }
    log' := log' + ["Renamed: " + file + Arrow + Relative(directory, newFilePath)];
    count' := count' + 1;
  }

  /** The body of the renaming loop for one listed file, on a run that has
      not failed. */
  method RenameFile(fs: FileSystem, log: seq<string>, renamedCount: nat, directory: string,
                    renameRules: seq<Rule>, file: string)
    returns (log': seq<string>, count': nat, failure: Option<string>)
    modifies fs
    ensures RenameState(fs.State(), log', count', failure)
         == RenameStep(RenameState(old(fs.State()), log, renamedCount, None), directory, renameRules, file)
  {
    log', count', failure := log, renamedCount, None;
    var filePath := Join(directory, file);
    var newFilePath := ApplyFileRenaming(filePath, renameRules, directory);
    if newFilePath != filePath {
      log', count', failure := MoveFile(fs, log, renamedCount, directory, file, filePath, newFilePath);
    }
  }

  /** The renaming loop and the closing line. */
  method RenameListedFiles(fs: FileSystem, log0: seq<string>, files: seq<string>,
                           directory: string, renameRules: seq<Rule>)
    returns (log: seq<string>, failure: Option<string>)
    modifies fs
    ensures var r := RenameListed(old(fs.State()), log0, files, directory, renameRules);
      fs.State() == r.disk && log == r.log && failure == r.failure
  {
    log := log0;
    failure := None;
    var renamedCount := 0;
    ghost var start := RenameState(fs.State(), log, 0, None);
    var i := 0;
    while i < |files| && failure.None?
      invariant 0 <= i <= |files|
      invariant RenameRun(start, directory, renameRules, files[..i]) == RenameState(fs.State(), log, renamedCount, failure)
    {
      assert files[..i + 1][..i] == files[..i];
      ghost var before := RenameState(fs.State(), log, renamedCount, None);
      log, renamedCount, failure := RenameFile(fs, log, renamedCount, directory, renameRules, files[i]);
      assert RenameRun(start, directory, renameRules, files[..i + 1])
          == RenameStep(before, directory, renameRules, files[i]);
      i := i + 1;
    }
    if failure.Some? {
      RenameAbortStays(start, directory, renameRules, files, i, |files|);
    }
    assert files[..|files|] == files;
    if failure.None? {
      log := log + ["Renamed " + NatToString(renamedCount) + " files based on configuration rules"];
    }
  }

  /** `renameFilesInDirectory`: the tree is changed in place; the lines
      logged and the error that ended the run, if any, are returned. */
  method RenameFilesInDirectory(fs: FileSystem, listing: Result<seq<string>>,
                                directory: string, config: Config)
    returns (log: seq<string>, failure: Option<string>)
    modifies fs
    ensures var r := RenameFilesSpec(old(fs.State()), listing, directory, config);
      fs.State() == r.disk && log == r.log && failure == r.failure
  {
    if listing.Err? {
      log, failure := [], Some(listing.error);
      return;
    }
    var files := listing.value;
    log := ["Checking " + NatToString(|files|) + " files for renaming rules"];
    var renameRules := ExtractRules(config);
    if |renameRules| == 0 {
      log := log + ["No file renaming rules found in configuration"];
      failure := None;
      return;
    }
    log := log + ["Found " + NatToString(|renameRules|) + " file renaming rules"];
    log, failure := RenameListedFiles(fs, log, files, directory, renameRules);
  }

  /** The run over the first `j` files is the run over the first `j - 1`,
      then the step for `files[j - 1]`. */
  lemma RenameRunLast(start: RenameState, directory: string, rules: seq<Rule>, files: seq<string>, j: nat)
    requires 0 < j <= |files|
    ensures RenameRun(start, directory, rules, files[..j])
         == RenameStep(RenameRun(start, directory, rules, files[..j - 1]), directory, rules, files[j - 1])
  {
    assert files[..j][..j - 1] == files[..j - 1];
  }

  /** Once the renaming run has failed, the remaining files change nothing. */
  lemma {:induction false} RenameAbortStays(start: RenameState, directory: string, rules: seq<Rule>,
                                            files: seq<string>, i: nat, j: nat)
    requires i <= j <= |files|
    requires RenameRun(start, directory, rules, files[..i]).failure.Some?
    ensures RenameRun(start, directory, rules, files[..j]) == RenameRun(start, directory, rules, files[..i])
    decreases j
  {
    if j > i {
      RenameAbortStays(start, directory, rules, files, i, j - 1);
      RenameRunLast(start, directory, rules, files, j);
    }
  }

  /** The rules change the path of `file` of `directory`. */
  predicate Moved(directory: string, rules: seq<Rule>, file: string)
  {
    NewFilePath(directory, file, rules) != Join(directory, file)
  }

  /** The number of listed files whose path the rules change. */
  function CountRenamed(directory: string, rules: seq<Rule>, files: seq<string>): (n: nat)
    ensures n <= |files|
  {
    if files == [] then 0
    else
      CountRenamed(directory, rules, files[..|files| - 1])
      + (if Moved(directory, rules, files[|files| - 1]) then 1 else 0)
  }

  /** One step that does not end the run counts its file exactly when the
      rules change the file's path. */
  lemma RenameStepCounts(st: RenameState, directory: string, rules: seq<Rule>, file: string)
    requires RenameStep(st, directory, rules, file).failure.None?
    ensures st.failure.None?
    ensures RenameStep(st, directory, rules, file).count
         == st.count + (if Moved(directory, rules, file) then 1 else 0)
  {
  }

  /** A renaming run that completes renames exactly the files whose path
      the rules change, counting each once. */
  lemma {:induction false} RenameRunCounts(start: RenameState, directory: string, rules: seq<Rule>,
                                           files: seq<string>)
    requires RenameRun(start, directory, rules, files).failure.None?
    ensures RenameRun(start, directory, rules, files).count == start.count + CountRenamed(directory, rules, files)
  {
    if files != [] {
      var prefix := files[..|files| - 1];
      var last := files[|files| - 1];
      RenameStepCounts(RenameRun(start, directory, rules, prefix), directory, rules, last);
      RenameRunCounts(start, directory, rules, prefix);
    }
  }

  /** The closing line of a completed renaming pass reports how many files
      the rules changed. */
  lemma RenameReportsCount(disk: Disk, files: seq<string>, directory: string, config: Config)
    requires ExtractRules(config) != []
    requires RenameFilesSpec(disk, Ok(files), directory, config).failure.None?
    ensures var r := RenameFilesSpec(disk, Ok(files), directory, config);
      && |r.log| > 0
      && r.log[|r.log| - 1] == "Renamed " + NatToString(CountRenamed(directory, ExtractRules(config), files))
                               + " files based on configuration rules"
  {
    var rules := ExtractRules(config);
    var log0 := ["Checking " + NatToString(|files|) + " files for renaming rules"]
      + ["Found " + NatToString(|rules|) + " file renaming rules"];
    var start := RenameState(disk, log0, 0, None);
    RenameRunCounts(start, directory, rules, files);
  }

  /** Without `$$FILE_` keys the renaming pass changes nothing and says that
      it found no rules. */
  lemma NoRulesNoChange(disk: Disk, files: seq<string>, directory: string, config: Config)
    requires forall e :: e in config ==> !StartsWith(e.key, FilePrefix)
    ensures var r := RenameFilesSpec(disk, Ok(files), directory, config);
      && r.disk == disk && r.failure == None
      && r.log == ["Checking " + NatToString(|files|) + " files for renaming rules",
                   "No file renaming rules found in configuration"]
  {
    NoRulesIffNoPrefixedKey(config);
  }

  /** What one renaming step may change: the log only grows, no directory
      disappears, the tree stays well formed, and no file other than the
      step's own source and destination appears, disappears or changes. */
  lemma RenameStepFrame(st: RenameState, directory: string, rules: seq<Rule>, file: string)
    ensures var r := RenameStep(st, directory, rules, file);
      && (st.failure.Some? ==> r == st)
      && st.log <= r.log && st.disk.dirs <= r.disk.dirs
      && (ValidDisk(st.disk) ==> ValidDisk(r.disk))
      && (forall q :: q != Join(directory, file) && q != NewFilePath(directory, file, rules) ==>
            (q in r.disk.files <==> q in st.disk.files)
            && (q in st.disk.files ==> r.disk.files[q] == st.disk.files[q]))
  {
    var newFilePath := NewFilePath(directory, file, rules);
    EnsureDirFacts(st.disk, Dirname(newFilePath));
    var e := EnsureDirOn(st.disk, Dirname(newFilePath));
    if e.Ok? {
      RenameFacts(e.value, Join(directory, file), newFilePath);
    }
  }

  /** The renaming run keeps the tree well formed and never removes a
      directory. */
  lemma {:induction false} RenameRunKeepsValid(start: RenameState, directory: string,
                                               rules: seq<Rule>, files: seq<string>)
    requires ValidDisk(start.disk)
    ensures var r := RenameRun(start, directory, rules, files);
      ValidDisk(r.disk) && start.disk.dirs <= r.disk.dirs && start.log <= r.log
  {
    if files != [] {
      var prefix := files[..|files| - 1];
      RenameRunKeepsValid(start, directory, rules, prefix);
      RenameStepFrame(RenameRun(start, directory, rules, prefix), directory, rules, files[|files| - 1]);
    }
  }

  /** The renaming run touches no file that is neither a listed file's
      path nor the path the rules give it: such a file is present after the
      run exactly when it was before, with the same content. */
  lemma {:induction false} RenameRunKeepsOthers(start: RenameState, directory: string,
                                                rules: seq<Rule>, files: seq<string>, q: string)
    requires forall j :: 0 <= j < |files| ==>
      q != Join(directory, files[j]) && q != NewFilePath(directory, files[j], rules)
    ensures var r := RenameRun(start, directory, rules, files);
      && (q in r.disk.files <==> q in start.disk.files)
      && (q in start.disk.files ==> r.disk.files[q] == start.disk.files[q])
  {
    if files != [] {
      var prefix := files[..|files| - 1];
      forall j | 0 <= j < |prefix|
        ensures q != Join(directory, prefix[j]) && q != NewFilePath(directory, prefix[j], rules)
      {
        assert prefix[j] == files[j];
      }
      RenameRunKeepsOthers(start, directory, rules, prefix, q);
      RenameStepFrame(RenameRun(start, directory, rules, prefix), directory, rules, files[|files| - 1]);
    }
  }

  /** A renaming step ends the run exactly when the rules move its file and
      either creating the new parent directory or the rename itself fails;
      the run then carries that operation's error. */
  lemma RenameStepFails(st: RenameState, directory: string, rules: seq<Rule>, file: string)
    requires st.failure.None?
    ensures var r := RenameStep(st, directory, rules, file);
      var to := NewFilePath(directory, file, rules);
      var e := EnsureDirOn(st.disk, Dirname(to));
      && (r.failure.Some? <==>
            Moved(directory, rules, file)
            && (e.Err? || RenameOn(e.value, Join(directory, file), to).Err?))
      && (r.failure.Some? && e.Err? ==> r.failure.value == e.error && r.disk == st.disk)
      && (r.failure.Some? && e.Ok? ==>
            r.failure.value == RenameOn(e.value, Join(directory, file), to).error && r.disk == e.value)
  {
  }

  /** A file that is renamed is moved: after its step it is gone from its
      old path, its content is at the new path, and the log names the new
      path relative to the directory. */
  lemma RenameStepMoves(st: RenameState, directory: string, rules: seq<Rule>, file: string)
    requires st.failure.None?
    requires NewFilePath(directory, file, rules) != Join(directory, file)
    requires RenameStep(st, directory, rules, file).failure.None?
    ensures var r := RenameStep(st, directory, rules, file);
      && Join(directory, file) in st.disk.files
      && Join(directory, file) !in r.disk.files
      && NewFilePath(directory, file, rules) in r.disk.files
      && r.disk.files[NewFilePath(directory, file, rules)] == st.disk.files[Join(directory, file)]
      && r.log == st.log + ["Renamed: " + file + Arrow + Relative(directory, NewFilePath(directory, file, rules))]
  {
    var newFilePath := NewFilePath(directory, file, rules);
    EnsureDirFacts(st.disk, Dirname(newFilePath));
    RenameFacts(EnsureDirOn(st.disk, Dirname(newFilePath)).value, Join(directory, file), newFilePath);
  }
}
