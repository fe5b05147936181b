# Template processing and pull request creation, modelled in Dafny

This project models the two core utilities of a desktop Git productivity
tool.

`utils/templateParser.js` generates files from templates:

- `processPlaceholders` replaces every `{{ key }}` token whose trimmed key
  is an own key of the JSON configuration with that key's value. Every
  other token is left exactly as written.
- `applyFileRenaming` renames a path by the first configuration rule whose
  pattern equals the path's base name. A rule is a key `$$FILE_<pattern>`
  whose value is the new name.
- `processTemplates` copies every file `glob` lists from the template
  directory to the output directory. On the way it renames the file (when
  renaming is enabled) and substitutes its placeholders.
- `renameFilesInDirectory` renames the files of a directory in place.

`utils/prCreation.js` opens a pull request:

- It tries the GitHub CLI (`gh`) first.
- When that fails and a token is given, it falls back to the REST API. The
  owner and repository are read from the `origin` remote URL when the
  options lack them.
- When that fails and no token is given, it logs manual instructions.

How the model is built:

- Pure code becomes functions on datatypes:
  - placeholder substitution, in `placeholders.dfy`;
  - the renaming rules, in `renaming.dfy`;
  - the remote URL parse, in `remoteurl.dfy`;
  - the parts of `path` and `String.prototype` the code uses, in
    `paths.dfy` and `text.dfy`.
- The output tree that `fs-extra` changes in place is a class,
  `FsModel.FileSystem`. Its methods `ensureDir`, `writeFile` and `rename`
  are specified by functions on a `Disk` value.
- The two passes of `templateParser.js` are methods with loops. Each
  method's postcondition ties its result to a left fold of one step
  function over the listing (`CopyRun`, `RenameRun`). The guarantees are
  proved as lemmas about those folds.
- `PRCreator` is a class whose `log` field receives every logged message.
  Each of its methods is proved against a function of what the
  environment answers: `CliAttempt`, `ApiAttempt`, `DetailsLookup`,
  `ApiFallback` and `CreatePrSpec`.
- The environment is an `Environment` object. It holds the answers `exec`
  and `https` give and records every call made.
- The properties of `createPR` are lemmas about `CreatePrSpec`, in
  `prfacts.dfy`.

## Model

| member | source | states |
|---|---|---|
| Text.Trim | utils/templateParser.js:173 | `trim` removes white space at both ends; its lemmas below say what it keeps |
| Text.TrimIgnoresSurroundingSpace | utils/templateParser.js:172-173 | white space around a key does not change the trimmed key |
| Text.TrimStartKeepsTail | utils/templateParser.js:173 | `trim` stops removing at the first non-space character |
| Paths.LastSlash | utils/templateParser.js:146-147 | the index found is a '/' with no '/' after it; none is found only when the path has no '/' |
| Paths.Basename | utils/templateParser.js:146 | the base name has no '/' and is a suffix of the path |
| Paths.Dirname | utils/templateParser.js:147 | the directory is a proper prefix of a non-empty path |
| Paths.Join | utils/templateParser.js:159 | `path.join` of a directory and a name, an empty side contributing nothing; its lemmas below relate it to `dirname`, `basename` and `relative` |
| Paths.SplitJoin | utils/templateParser.js:146-159 | joining the directory and the base name of a listed path gives the path back |
| Paths.JoinPlainName | utils/templateParser.js:159 | joining a directory with a plain name keeps that directory as parent and that name as base name |
| Paths.DirnameOfJoin | utils/templateParser.js:65-68 | the parent of `join(d, n)` is `d` joined with the parent of `n` |
| Paths.BasenameOfJoin | utils/templateParser.js:120-121 | the base name of `join(d, n)` is the base name of `n` |
| Paths.Ancestors | utils/templateParser.js:68 | the directories `ensureDir` makes sure of include the directory itself and the root, and each of the others is a prefix of the directory that ends just before one of its '/' |
| Paths.AncestorsClosed | utils/templateParser.js:68 | those directories are closed under taking parents |
| Paths.Relative | utils/templateParser.js:60 | `path.relative` of a path at or below its base; `RelativeOfJoin` shows it undoes `Join` |
| Paths.RelativeOfJoin | utils/templateParser.js:60 | `path.relative(base, join(base, q))` is `q` |
| Placeholders.Lookup | utils/templateParser.js:174-175 | a found value is that key's entry; no value means no entry has the key |
| Placeholders.FirstClose | utils/templateParser.js:172 | the index is the first '}' at or after the start, or the end of the text |
| Placeholders.TokenEnd | utils/templateParser.js:172 | a match found starts with `{{`, has at least one character before its closing `}}`, and no '}' before that |
| Placeholders.TokenEndComplete | utils/templateParser.js:172 | the converse: wherever the expression matches at the start of a text, `TokenEnd` finds that match |
| Placeholders.Replacement | utils/templateParser.js:173-178 | the value of an own key equal to the trimmed inner text, or the whole token as written when there is none |
| Placeholders.Subst | utils/templateParser.js:171-180 | the left-to-right global replace; the lemmas below state what it does to tokens and plain text |
| Placeholders.NoTokenUnchanged | utils/templateParser.js:171-180 | text with no `{{…}}` match is returned unchanged |
| Placeholders.LeadingToken | utils/templateParser.js:172-178 | a leading token is replaced as a unit and the scan continues after it |
| Placeholders.PresentKeyReplaced | utils/templateParser.js:173-175 | a token whose trimmed key is present becomes the key's value, which is not scanned again |
| Placeholders.AbsentKeyKept | utils/templateParser.js:177-178 | a token whose key is absent stays as written, braces and spaces included |
| Placeholders.WhitespaceIrrelevant | utils/templateParser.js:172-173 | `{{name}}` and `{{  name  }}` are substituted alike |
| Placeholders.PlainPrefix | utils/templateParser.js:172 | text without '{' is copied and the substitution goes on after it |
| Placeholders.GreetingExample | utils/templateParser.js:171-180 | `Hello {{ k }}!` with `{k: v}` becomes `Hello v!` |
| Placeholders.CloseBraceEndsKey | utils/templateParser.js:172 | a key cannot contain '}': `{{a}b}}` is left as it is |
| Placeholders.UnclosedToken | utils/templateParser.js:172 | `{{x}` followed by '{' is copied up to its '}' |
| Placeholders.EmptyValueJoins | utils/templateParser.js:172-175 | with `a ↦ ""`, `{{x}{{a}}}` becomes `{{x}}` |
| Placeholders.BraceValueJoins | utils/templateParser.js:172-175 | with `a ↦ "{"`, `{{a}}{x}}` becomes `{{x}}`: a value can complete a token with the text after it |
| Placeholders.SecondPassCanDiffer | utils/templateParser.js:171-180 | with `a ↦ "{"` and `x ↦ X`, one pass turns `{{a}}{x}}` into `{{x}}` and a second pass into `X`: the pass is not idempotent |
| Renaming.ExtractRules | utils/templateParser.js:103-108 | every rule comes from an entry whose key is `$$FILE_` followed by its pattern and whose value is its replacement, and every such entry gives a rule |
| Renaming.ExtractRulesAppend | utils/templateParser.js:28-33 | rules keep the order of their configuration entries |
| Renaming.NoRulesIffNoPrefixedKey | utils/templateParser.js:103-113 | there are no rules exactly when no key starts with `$$FILE_` |
| Renaming.FirstMatch | utils/templateParser.js:150-156 | the index found is the first rule whose pattern equals the name; none is found only when no pattern equals it |
| Renaming.RenameName | utils/templateParser.js:150-156 | a name no pattern equals is kept; a changed name is the replacement of a rule whose pattern is the old name |
| Renaming.RenamePath | utils/templateParser.js:145-161 | the directory of the path joined with the renamed base name; `ApplyFileRenaming` is proved to compute it |
| Renaming.ApplyFileRenaming | utils/templateParser.js:145-161 | the new path is the old directory joined with the first matching rule's replacement, or the path itself when no rule matches |
| Renaming.FirstMatchWins | utils/templateParser.js:152-155 | the first matching rule decides, whatever later rules say |
| Renaming.DuplicatePatternFirstWins | utils/templateParser.js:154 | of two rules with one pattern, the later is never used |
| Renaming.NoChaining | utils/templateParser.js:154 | with `a ↦ b` and `b ↦ c`, `a` becomes `b`, not `c` |
| Renaming.NoMatchKeepsPath | utils/templateParser.js:151-160 | a base name equal to no pattern leaves the path unchanged |
| Renaming.ExactMatchOnly | utils/templateParser.js:151-152 | the pattern `a.txt` does not rename `ba.txt` |
| Renaming.RenameKeepsDirectory | utils/templateParser.js:147-159 | a plain replacement renames the file in its own directory |
| Renaming.ReplacementWithSubdirectory | utils/templateParser.js:159 | a replacement holding '/' moves the file below its directory |
| Renaming.ConfigRuleRenames | utils/templateParser.js:28-33 | an entry `$$FILE_p ↦ n` becomes the rule `p ↦ n`, which renames `p` to `n` |
| Renaming.RenamedUnderDirectory | utils/templateParser.js:58-61 | renaming a path under a directory and taking it relative to that directory is renaming the relative path |
| FsModel.EnsureDirOn | utils/templateParser.js:68 | `ensureDir` on a tree value; `EnsureDirFacts` states its failures and effect |
| FsModel.WriteOn | utils/templateParser.js:78 | `writeFile` on a tree value; `WriteFacts` states its failures and effect |
| FsModel.RenameOn | utils/templateParser.js:128 | `rename` on a tree value; `RenameFacts` states its failures and effect |
| FsModel.EnsureDirFacts | utils/templateParser.js:68 | `ensureDir` fails exactly when a file is in the way; otherwise the directory and its parent exist, every directory added is the directory itself or one above it, no directory is removed, no file changes and the tree stays well formed |
| FsModel.WriteFacts | utils/templateParser.js:78 | `writeFile` fails exactly when the path is a directory or has no directory as parent; otherwise only that file changes |
| FsModel.RenameFacts | utils/templateParser.js:128 | `rename` moves the content to the new path and removes the old one; nothing else changes |
| FsModel.FileSystem.EnsureDir | utils/templateParser.js:68 | the tree becomes `EnsureDirOn` of the old tree, or stays and reports the error |
| FsModel.FileSystem.WriteFile | utils/templateParser.js:78 | the tree becomes `WriteOn` of the old tree, or stays and reports the error |
| FsModel.FileSystem.Rename | utils/templateParser.js:128 | the tree becomes `RenameOn` of the old tree, or stays and reports the error |
| TemplateParser.CopyStep | utils/templateParser.js:39-82 | one iteration of the copy loop; `CopyStepFrame`, `CopyStepFailsOnlyOnEnsureDir`, `CopyStepSkips`, `CopyStepCatches` and `CopyStepWrites` state its effect |
| TemplateParser.WriteStage | utils/templateParser.js:70-82 | reading and writing one template, with either error caught and logged |
| TemplateParser.CopyRun | utils/templateParser.js:38-83 | the copy loop as a left fold of `CopyStep`; the lemmas on `CopyRun` below state its effect |
| TemplateParser.CopyListed | utils/templateParser.js:23-85 | the counts, the loop and the closing line |
| TemplateParser.ProcessTemplatesSpec | utils/templateParser.js:16-86 | the whole copy pass, from creating the output directory to the closing line |
| TemplateParser.CopyStepFrame | utils/templateParser.js:38-83 | one copy iteration only appends to the log, only adds directories, keeps the tree well formed, and changes no file but its target |
| TemplateParser.CopyStepWrites | utils/templateParser.js:70-79 | a readable file's iteration leaves its substituted text at the target and logs "Processed" |
| TemplateParser.CopyStepFailsOnlyOnEnsureDir | utils/templateParser.js:38-83 | an iteration ends the pass exactly when the file was found, is no directory, and `ensureDir` rejects its target's directory; the pass then carries that error and the tree is unchanged |
| TemplateParser.CopyStepSkips | utils/templateParser.js:41-51 | a path `stat` cannot find is logged as "Error checking file", a directory as "Skipping directory"; either way the pass goes on and the tree is unchanged |
| TemplateParser.CopyStepCatches | utils/templateParser.js:70-82 | an unreadable file or a failed write is logged as "Error processing file" with its message, and the pass goes on |
| TemplateParser.ProcessFile | utils/templateParser.js:39-82 | one iteration changes the tree, log and failure exactly as `CopyStep` says: skipping, renaming, creating the directory, reading and writing |
| TemplateParser.CopyFiles | utils/templateParser.js:38-83 | the loop gives the state `CopyRun` gives, and stops at the first uncaught error |
| TemplateParser.CopyListedFiles | utils/templateParser.js:23-85 | the counts, the loop and the closing line, as `CopyListed` says |
| TemplateParser.ProcessTemplates | utils/templateParser.js:16-86 | the whole pass changes the output tree and logs exactly as `ProcessTemplatesSpec` says |
| TemplateParser.CopyAbortStays | utils/templateParser.js:68 | once `ensureDir` has rejected, later files change nothing |
| TemplateParser.CopyNoFailureBefore | utils/templateParser.js:38-83 | a run that completes never failed on the way |
| TemplateParser.CopyRunGrows | utils/templateParser.js:38-83 | the copy loop never removes a file or a directory and only appends to the log |
| TemplateParser.CopyRunKeepsValid | utils/templateParser.js:38-83 | the copy loop keeps the output tree well formed |
| TemplateParser.CopyWritesOnlyTargets | utils/templateParser.js:65-78 | every new file of the output tree is the target path of a listed file |
| TemplateParser.CopyKeepsWritten | utils/templateParser.js:78 | a written file is not changed by later files with other targets |
| TemplateParser.CopyStepAt | utils/templateParser.js:70-79 | the iteration for a readable file writes its substituted text |
| TemplateParser.CopyRunResumes | utils/templateParser.js:38 | a run over the listing is its first part continued by the rest |
| TemplateParser.CopyWritesEveryFile | utils/templateParser.js:38-85 | after a completed pass, every readable template whose target is not a directory or a later file's target holds its substituted text there, and "Processed" was logged for it |
| TemplateParser.CopyRunSplit | utils/templateParser.js:38 | running over `a + b` is running over `a`, then over `b` |
| TemplateParser.ProcessTemplatesNoFiles | utils/templateParser.js:16-86 | with no templates the output directory is created, no file is written, the pass succeeds, and only the counts ("Found 0 files to process") and the closing line are logged |
| TemplateParser.ProcessTemplatesSucceeds | utils/templateParser.js:16-86 | a pass that succeeds had its output directory created and its listing; it keeps every directory and file, logs the number of listed files first and the completion line last |
| TemplateParser.ProcessTemplatesWrites | utils/templateParser.js:38-85 | after a pass that succeeds, every listed regular template whose target no later file shares, and that is not a directory, holds its content with placeholders substituted, and "Processed" is logged for it |
| TemplateParser.CopyRunFailsOnlyOnEnsureDir | utils/templateParser.js:38-83 | a failed copy loop stopped at a listed file that was found, is no directory, and whose target's directory `ensureDir` rejected on the tree left by the files before it; the files after it changed nothing |
| TemplateParser.MoveStep | utils/templateParser.js:124-130 | creating the new parent directory and renaming, with either error ending the pass |
| TemplateParser.RenameStep | utils/templateParser.js:120-131 | one iteration of the renaming loop; `RenameStepFrame`, `RenameStepFails`, `RenameStepCounts` and `RenameStepMoves` state its effect |
| TemplateParser.RenameRun | utils/templateParser.js:119-132 | the renaming loop as a left fold of `RenameStep` |
| TemplateParser.RenameListed | utils/templateParser.js:115-134 | the loop and the closing count line |
| TemplateParser.RenameFilesSpec | utils/templateParser.js:96-135 | the whole renaming pass, stopping early without rules |
| TemplateParser.MoveFile | utils/templateParser.js:123-131 | creating the new directory and renaming change the tree and count as `MoveStep` says; either error ends the pass |
| TemplateParser.RenameFile | utils/templateParser.js:120-131 | one iteration changes the tree and count exactly as `RenameStep` says |
| TemplateParser.RenameListedFiles | utils/templateParser.js:117-134 | the loop and the closing count line, as `RenameListed` says |
| TemplateParser.RenameFilesInDirectory | utils/templateParser.js:96-135 | the whole pass changes the tree and logs exactly as `RenameFilesSpec` says, stopping early without rules |
| TemplateParser.RenameAbortStays | utils/templateParser.js:125-128 | once `ensureDir` or `rename` has rejected, later files change nothing |
| TemplateParser.CountRenamed | utils/templateParser.js:118-131 | there are no more renamed files than listed files |
| TemplateParser.RenameStepCounts | utils/templateParser.js:123-130 | an iteration counts its file exactly when the rules change its path |
| TemplateParser.RenameRunCounts | utils/templateParser.js:118-132 | a completed loop counts exactly the files whose path the rules change |
| TemplateParser.RenameReportsCount | utils/templateParser.js:134 | the closing line reports the number of files the rules changed |
| TemplateParser.NoRulesNoChange | utils/templateParser.js:110-113 | without `$$FILE_` keys nothing changes and "no rules" is logged |
| TemplateParser.RenameStepFrame | utils/templateParser.js:119-132 | one renaming iteration only appends to the log, removes no directory, keeps the tree well formed, and leaves every file other than its own source and destination as it was |
| TemplateParser.RenameRunKeepsOthers | utils/templateParser.js:119-132 | a file that is neither a listed path nor the path the rules give one is present after the renaming loop exactly when it was before, with the same content |
| TemplateParser.RenameStepFails | utils/templateParser.js:123-131 | an iteration ends the pass exactly when the rules move its file and `ensureDir` or `rename` rejects, and the pass carries that error |
| TemplateParser.RenameRunKeepsValid | utils/templateParser.js:119-132 | the renaming loop keeps the tree well formed and removes no directory |
| TemplateParser.RenameStepMoves | utils/templateParser.js:123-129 | a renamed file is gone from its old path, its content is at the new one, and the log names the new path relative to the directory |
| RemoteUrl.RunEnd | utils/prCreation.js:195 | the run found has no stop character, and is followed by one or by the end |
| RemoteUrl.MatchAt | utils/prCreation.js:195 | whether the expression matches at a position, with its two groups; `MatchAtSound` and `MatchAtComplete` characterise it |
| RemoteUrl.FirstMatchFrom | utils/prCreation.js:195 | the leftmost match at or after a position; `FirstMatchIsLeftmost` and `NoMatchFrom` characterise it |
| RemoteUrl.ParseRemoteUrl | utils/prCreation.js:194-205 | the owner and repository of the trimmed remote URL, or none; `ParsedShape` and `ParseFindsRepo` characterise it |
| RemoteUrl.MatchAtSound | utils/prCreation.js:195 | a match is "github.com", '/' or ':', a non-empty owner without '/', '/', a non-empty repository without '/' or '.', then nothing or ".git" |
| RemoteUrl.MatchAtComplete | utils/prCreation.js:195 | every such shape is matched, with those groups |
| RemoteUrl.FirstMatchIsLeftmost | utils/prCreation.js:195 | the match found is the leftmost one |
| RemoteUrl.NoMatchFrom | utils/prCreation.js:195 | with no match at any position, the search finds none |
| RemoteUrl.ParsedShape | utils/prCreation.js:194-203 | the owner and repository returned come from the leftmost match of that shape |
| RemoteUrl.ParseFindsRepo | utils/prCreation.js:194-203 | a URL `…github.com/<owner>/<repo>[.git]` yields that owner and repository |
| RemoteUrl.LeftmostAt | utils/prCreation.js:195 | a match at the first "github.com" is the one found |
| RemoteUrl.HttpsRemote | utils/prCreation.js:193-203 | `https://github.com/<owner>/<repo>.git` yields owner and repository |
| RemoteUrl.SshRemote | utils/prCreation.js:194-203 | `git@github.com:<owner>/<repo>.git` yields owner and repository |
| RemoteUrl.RepoIsLastSegment | utils/prCreation.js:195 | the repository is non-empty, has no '.', and is the URL's base name with or without ".git" |
| RemoteUrl.TrailingSlashRejected | utils/prCreation.js:195 | a URL ending in '/' yields nothing |
| RemoteUrl.DottedRepoRejected | utils/prCreation.js:195 | a repository name with a '.' other than the ".git" suffix yields nothing |
| RemoteUrl.HostTestRedundant | utils/prCreation.js:194-196 | the `includes('github.com')` test changes no result: without the host there is no match |
| PrCreation.Classify | utils/prCreation.js:141-171 | a request or parse error rejects, a parsed body resolves; a resolved attempt is an API success or an API failure |
| PrCreation.ReplyLine | utils/prCreation.js:146-169 | the "Successfully created PR" line is logged exactly when the attempt resolves with a success, the "Failed to create PR" line exactly when it resolves with a failure |
| PrCreation.ApiAttempt | utils/prCreation.js:109-176 | one request, carrying the title, body, head and base; the outcome is the classification of its reply and the log is the start line and the reply's line |
| PrCreation.DetailsLookup | utils/prCreation.js:185-210 | one `git remote get-url origin` in the repository; on success the details are exactly what `ParseRemoteUrl` gives for the trimmed output; nothing when the command fails, and a line is logged exactly then |
| PrCreation.ApiFallback | utils/prCreation.js:249-273 | the fallback line comes first; owner and repository given in the options are kept; when either is missing, a successful lookup overwrites both with the details found, and a failed one keeps them and returns the CLI result; it ends either with the CLI result or with an API call as its last call |
| PrCreation.CreatePrSpec | utils/prCreation.js:218-274 | only the API can reject, so a rejection needs a token; without a token the options are not changed |
| PrCreation.CliAttempt | utils/prCreation.js:44-93 | the CLI attempt yields a created pull request or a failure, never anything else |
| PrCreation.Environment.Exec | utils/prCreation.js:3 | the answer is the one the environment gives for the command, and the call is recorded |
| PrCreation.Environment.Request | utils/prCreation.js:134-174 | the reply is the one the environment gives for the request, and the call is recorded |
| PrCreation.PRCreator.IsGitHubCLIAvailable | utils/prCreation.js:24-31 | true exactly when `gh --version` succeeds; that one command is run |
| PrCreation.PRCreator.CreatePRWithCLI | utils/prCreation.js:44-93 | result, log and calls are those of `CliAttempt` |
| PrCreation.PRCreator.CreatePRWithAPI | utils/prCreation.js:109-176 | outcome, log and the single request are those of `ApiAttempt` |
| PrCreation.PRCreator.GetRepoDetails | utils/prCreation.js:185-210 | the details, log and call are those of `DetailsLookup` |
| PrCreation.PRCreator.FallBackToAPI | utils/prCreation.js:249-273 | outcome, log, calls and the new owner and repository are those of `ApiFallback` |
| PrCreation.PRCreator.CreatePR | utils/prCreation.js:218-274 | outcome, log, calls and the options afterwards are those of `CreatePrSpec` |
| PrFacts.ClassifyFacts | utils/prCreation.js:141-171 | success exactly for a 2xx status with a parsed body; rejection exactly for a request or parse error; a failure carries status code and message |
| PrFacts.CliCalls | utils/prCreation.js:50-68 | the CLI attempt runs `gh --version` first and at most the create command after it |
| PrFacts.ProbeFirst | utils/prCreation.js:47-50 | `createPR` logs the CLI attempt and probes for `gh` before anything else |
| PrFacts.CliSuccessReturned | utils/prCreation.js:71-78 | a CLI success is the result, its URL is the trimmed output, and nothing else is called |
| PrFacts.CliUnavailable | utils/prCreation.js:51-63 | without `gh` the error is the fixed message and the create command never runs |
| PrFacts.NoTokenManual | utils/prCreation.js:233-247 | without a token: manual instructions with the CLI error, the web steps logged last, no lookup and no API call |
| PrFacts.ApiCallShape | utils/prCreation.js:249-273 | the API is called at most once and last, only after a CLI failure with a token, for the owner and repository the options end up holding |
| PrFacts.OutcomeFromApi | utils/prCreation.js:161-171 | only the API call can reject, and its reply alone decides the outcome |
| PrFacts.SuccessIff | utils/prCreation.js:218-274 | `createPR` succeeds exactly when the CLI created the pull request or the API accepted it |
| PrFacts.LookupOnlyWhenNeeded | utils/prCreation.js:253-254 | the remote is looked up exactly when the CLI failed, a token is given and owner or repository is missing |
| PrFacts.FallbackCalls | utils/prCreation.js:249-273 | after a failed CLI attempt with a token, the only calls are the remote lookup and API requests |
| PrFacts.LookupFailureKeepsCliResult | utils/prCreation.js:258-261 | a failed lookup returns the CLI result, with no API call and the options unchanged |
| PrFacts.LookupOverwrites | utils/prCreation.js:253-273 | for every lookup that finds details, both owner and repository are overwritten with them, even one that was given, and the single API request goes to that repository with the given token and fields |
| PrFacts.LookupReplacesBoth | utils/prCreation.js:255-257 | an example of `LookupOverwrites`: an `https://github.com/<owner>/<repo>.git` remote, as `git` prints it, overwrites both options and sets the request path |
| PrFacts.AuthHintIff | utils/prCreation.js:82-86 | the authentication help is logged exactly when the create command fails with "auth" or "login" in its message |

## Left out

- Path normalisation is not modelled. Paths are '/'-separated and
  relative to a root "", and `path.join` never resolves "." or "..". A
  replacement holding ".." is therefore not normalised.
- `path.relative` of a path outside its base is not modelled. Node would
  climb out with ".."; the model returns the path as it is.
- Template paths are modelled relative to the template directory.
  `ProcessFile` renames the relative path directly. The source renames the
  joined path and takes it back relative to the template directory;
  `Renaming.RenamedUnderDirectory` shows the two agree.
- Template and output trees are modelled as separate. Overlapping
  directories are not modelled.
- Errors from the file system carry only their code and first words, not
  Node's full message with the path.
- Configuration values are strings. Non-string JSON values, and how they
  are converted when inserted, are not modelled.
- `Placeholders.Lookup` treats every key alike. In the source, a
  configuration with its own key "hasOwnProperty" shadows the method that
  `processPlaceholders` calls (utils/templateParser.js:174), so the first
  token of a text makes it throw; `processTemplates` then logs "Error
  processing file" and writes nothing for that file. The model substitutes
  as for any other key.
- `glob`, `exec` and `https` are parameters:
  - the listing is an input value (`Result<seq<string>>`);
  - `exec` and `https` are the answer functions held by `Environment`.
- The listing's own order and filtering (`nodir`) are not modelled. So is
  the time and order of asynchronous events: each `await` is one step.
- `JSON.stringify` of the request body is left out. The request carries
  the four fields instead, and the `Content-Length` header is not
  modelled.
- `JSON.parse` is an input: a reply carries the parsed body or the parse
  error.
- The default logger `console.log` is not modelled. Each `PRCreator` logs
  to its own `log`, and the passes of `templateParser.js` return their
  lines.
- The log of `PRCreator` holds one `Message` per logger call.
  `PrCreation.LogLine` gives the exact line. Lines are not compared as
  text.
- Shell quoting of the `gh pr create` command is not modelled. The command
  is the string the template literal builds.
- `renameFilesInDirectory` lets an error from `ensureDir` or `rename`
  escape, which ends the pass. The system's documentation says these
  errors are caught per file; the model follows the code.
- The compare URL (`…/compare/<base>...<head>?expand=1`) is what the
  system's separate PR-preparation client returns. That client is not
  part of this model, and `prCreation.js` builds no such URL.
- The system's documentation calls substitution idempotent when values
  hold no tokens. The code is not: `Placeholders.SecondPassCanDiffer`
  gives a counterexample in which no value holds a token and no token is
  nested (`a ↦ "{"`, `x ↦ X`: `{{a}}{x}}`, then `{{x}}`, then `X`).
- `Renaming.ApplyFileRenaming` takes `baseDir`, as the source does, and
  ignores it, as the source does.
