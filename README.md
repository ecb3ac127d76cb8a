# Dependency builder and installer, modelled in Dafny

The tool builds and installs third-party libraries from source into a local
install tree. There are two versions, and both are modelled here:

- third_party/deps.py, the newer one. The command line is split into
  sub-command groups (`add-cmake-lib`, `add-header-lib`, `add-manual-lib`,
  and `rule` inside a manual library). A library object memoises its git
  hash and its CMake build digest. Its hash file holds line 1 = git commit
  and line 2 = build digest, and is read and written line by line.
- libs/install_dependencies.py, the earlier one. Libraries come from
  repeated `--cmake-lib`, `--header-lib` and `--manual-lib` options. The hash
  file holds only the git commit.

Both versions share the same three kinds of library:

- A CMake library is configured, built and installed with cmake in a build
  folder below its sources. Its install folder is replaced by what
  `cmake --install` writes.
- A manual library is a list of copy rules `(pattern, destination)`. Each
  pattern is split at its first wildcard component into a literal glob root
  and a sub-pattern; every match is copied into the destination folder,
  keeping its path relative to the root.
- A header library is a manual library installed below the header folder.

A library whose source folder is missing is skipped. A library whose hash
file says it is up to date is not rebuilt. The first exception ends the
run.

How the model is built:

- The filesystem is a value: a map from a path (its list of components) to
  the file's contents. A directory exists when some file lies below it.
- git, md5, `glob`, cmake and what `cmake --install` produces are
  uninterpreted oracles in `Libraries.Host`.
- `argparse` and `shlex.split` are oracles that return the parsed options,
  or `None` for an error exit.
- Each operation is a function on these values. The source's loops are
  methods with loop invariants, and each is proved equal to its function.
- The memo fields of the newer version are fields of the class
  `Deps.CachedLibrary`.

The glob splitting, the copy rules and the CMake steps are the same code in
both files: install_dependencies.py:208-225, 234-277 and 155-205 are
identical in effect to deps.py:299-362 and 233-289. They are modelled once,
and the rows below cite deps.py.

Where the code and its help texts disagree, the model follows the code:
- The run stops at the first failing library.
- Header and manual libraries are also skipped when their hash is current.
- `--ex` is parsed and then ignored.
- The manual-library example in the help puts a `.dll` under
  `<INSTALL_SUBDIR>/win64/bin`. The code puts it under
  `<INSTALL_SUBDIR>/bin/win64`.
- The build digest covers only the cmake arguments.

## Model

| member | source | states |
|---|---|---|
| Text.PathParts | third_party/deps.py:310 | `Path(s).parts` never yields an empty component, a "." component or one that holds "/" |
| Text.SplitJoin | third_party/deps.py:315 | splitting `"/".join(parts)` on "/" gives the parts back when no part holds "/" |
| Text.JoinInjective | third_party/deps.py:215 | joining with a bar is one-to-one on non-empty lists of items without a bar |
| Text.PathRoundTrip | third_party/deps.py:361 | `str(path)` parsed again as a path gives the same components, and the empty path prints as "." |
| Text.TrimEnd | third_party/deps.py:114 | `rstrip`: the result is a prefix, its last character is kept, everything cut off was dropped |
| Text.StripIdempotent | libs/install_dependencies.py:74-82 | a hash written after `strip()` reads back unchanged by another `strip()` |
| Files.Rebase | third_party/deps.py:349 | every file below `from` reappears below `to` at the same relative path with the same contents, and nothing else is added |
| Files.RebaseAt | third_party/deps.py:349 | a path below `to` is in the copy exactly when the matching path below `from` is in the original |
| Files.RemoveTree | third_party/deps.py:282 | after `rmtree(p)` nothing at or below `p` is left and every other file is unchanged |
| Patterns.FirstWildcard | third_party/deps.py:312-313 | the index of the first component holding `*`, `?` or `[`, or the count when there is none |
| Patterns.SplitPatternRoundTrip | third_party/deps.py:310-317 | the fixed prefix is a wildcard-free leading part of the components; prefix plus the split remainder is the whole pattern, and the remainder starts with a wildcard component |
| Patterns.SplitPatternLiteral | third_party/deps.py:317 | the remainder is "" exactly when no component is a wildcard, and the prefix is then the whole path |
| Patterns.DocExample | third_party/deps.py:306-308 | the docstring example: `redistributable_bin/**/*.dll` splits into `redistributable_bin` and `**/*.dll` |
| Libraries.HeaderLibrary | third_party/deps.py:355-362 | a header library installs below the header folder with one rule per path, in order, each with destination `str(install_subdir)` |
| Libraries.HeaderDestination | third_party/deps.py:361 | every header rule's destination parses back to the install subfolder; an empty subfolder is written "." |
| Copying.MatchActions | third_party/deps.py:337-346 | one action per glob match, in glob's order: a copy to the destination plus the relative path, or a skip when `relative_to` fails |
| Copying.Expand | third_party/deps.py:320-352 | a missing root does nothing; a file root is copied under its own name into the destination; a folder root copies each match; nothing is written outside the destination folder |
| Copying.ExecFrame | third_party/deps.py:337-352 | a path that no copy may write keeps its contents or its absence |
| Copying.LastWriteWins | third_party/deps.py:352 | a file copied to `t` keeps the copied contents when no later copy may write `t` |
| Copying.LaterRulesElsewhere | third_party/deps.py:319-352 | a path outside the destination folders of every later rule keeps what the earlier rules left there, so across rules too the last copy to a path decides it |
| Copying.MissingRootUnchanged | third_party/deps.py:324-326 | a rule whose glob root does not exist changes nothing |
| Copying.FileRootCopied | third_party/deps.py:328-332 | a rule whose glob root is a file copies it to `install_dir/dst/<root name>` |
| Copying.ExecUnderDest | third_party/deps.py:346 | copies that all target the destination folder leave every other path alone |
| Copying.RulesStayInInstallDir | third_party/deps.py:319-352 | a copy library writes nothing outside its install folder |
| Copying.ExecStops | third_party/deps.py:337-352 | once a copy raises, the remaining copies are not made |
| Copying.RulesStop | third_party/deps.py:320-352 | once a rule raises, the remaining rules are not applied |
| Copying.Exec | third_party/deps.py:337-352 | running copies in order raises nothing but `FileNotFoundError` |
| Copying.ApplyRules | third_party/deps.py:319-352 | applying the rules in order raises nothing but `FileNotFoundError` |
| Copying.CopyMatches | third_party/deps.py:337-352 | the match loop equals running the match actions in order |
| Copying.BuildAndInstall | third_party/deps.py:319-352 | the rule loop equals applying the rules in order, each on the files the earlier ones left |
| CMakeBuild.ConfigureCommand | third_party/deps.py:262-268 | five fixed items: cmake, the Release build type, `-DCMAKE_INSTALL_PREFIX=` with the printed install folder, `-DCMAKE_PREFIX_PATH=` with the printed install root, and ".."; then the library's flags followed by the global ones |
| CMakeBuild.BuildAndInstall | third_party/deps.py:233-289 | lock and clear the build folder; configure; build; remove the install folder; install; delete the build folder; a failing cmake raises and ends it |
| CMakeBuild.CMakeRun | third_party/deps.py:262-289 | the build raises only `CalledProcessError`, and returns normally exactly when the configure, build and install invocations of cmake all exit 0 |
| CMakeBuild.CMakeFrame | third_party/deps.py:233-289 | a CMake build touches only its build folder and its install folder |
| CMakeBuild.FailedBuildKeepsInstall | third_party/deps.py:262-270 | a failed configure raises `CalledProcessError` and leaves everything outside the build folder, the old install included, as it was |
| CMakeBuild.InstallReplaced | third_party/deps.py:281-289 | after a successful build the install folder holds exactly what cmake installed, and the build folder is gone |
| CMakeBuild.ConfigureFingerprint | third_party/deps.py:210-217 | the digest input is the configure command's arguments after its five fixed items, joined by a bar |
| CMakeBuild.FingerprintInjective | third_party/deps.py:215 | two argument lists with the same digest input are equal when no argument holds a bar |
| CMakeBuild.ConfigurePrefix | third_party/deps.py:265 | the install prefix handed to cmake parses back to the library's install folder |
| Building.BuildAndInstall | third_party/deps.py:172 | `BuildAndInstall()` dispatched on the library's kind |
| Building.BuildFrame | third_party/deps.py:172 | a build, raising or not, leaves every path outside its install folder and build folder unchanged |
| Orchestration.InstallAll | third_party/deps.py:365-382 | a run that ends in an exception ends with one library's failed `InstallLibrary`: its files and its exception |
| Orchestration.InstallAllStops | third_party/deps.py:373-382 | after the first failing library nothing else is installed |
| Orchestration.InstallAllAppend | libs/install_dependencies.py:440-447 | installing `a + b` is installing `a`, then `b` on the result unless `a` failed |
| Orchestration.MissingSkipped | third_party/deps.py:365-376 | a library whose source folder is missing changes nothing |
| Orchestration.ParseAllSpec | libs/install_dependencies.py:299-318 | parsing succeeds exactly when every group parses, and gives one library per group in order |
| LineFile.ReadLines | third_party/deps.py:106-107 | `readlines()`: the lines concatenate to the text, none is empty, and all but the last end with a newline |
| LineFile.ReadLinesConcat | third_party/deps.py:106-116 | `readlines` after `writelines` gives the same lines back |
| LineFile.TrimLine | third_party/deps.py:126 | `rstrip("\n")` of a line is its body, which holds no newline |
| LineFile.ReadLineAt | third_party/deps.py:119-128 | a value exactly when the file exists and has line `n`; that value is the line without its newline |
| LineFile.Padded | third_party/deps.py:111-114 | max(old count, n) lines; line `n` is the text with one newline; the other old lines are kept; added lines are empty |
| LineFile.Rewrite | third_party/deps.py:111-114 | the padding loop and the assignment give the padded list |
| LineFile.Terminated | third_party/deps.py:106-111 | the corrected step: the last line gets a newline before lines are added after it |
| LineFile.WriteLineAsWritten | third_party/deps.py:102-116 | as written, when line `n` is past the old end, the old text is kept as a prefix and the new lines follow it directly, with no newline added |
| LineFile.WriteLineAt | third_party/deps.py:102-116 | `WriteLineAt` replaces the file with the corrected new contents and changes no other file |
| LineFile.WriteLineLines | third_party/deps.py:102-116 | the written file reads back, line by line, as the padded list, and every line ends with a newline |
| LineFile.ReadAfterWrite | third_party/deps.py:102-128 | reading line `n` after writing it gives the text without trailing newlines |
| LineFile.OtherLinesKept | third_party/deps.py:102-128 | every other line reads as before, and lines added between the old end and `n` read as "" |
| LineFile.LineCount | third_party/deps.py:111-112 | the file ends up with max(old count, n) lines |
| LineFile.AsWrittenAgrees | third_party/deps.py:102-116 | on a file whose last line is ended, the code as written and the corrected write agree |
| LineFile.WriteLine | third_party/deps.py:102-116 | corrected: the file it writes always ends with a newline, so a later write never glues a line onto the last one |
| LineFile.UnendedLastLineMerged | third_party/deps.py:106-116 | as written, writing line 2 of a file holding the unended line "abc" gives "abcx\n", so line 1 becomes "abcx" |
| Deps.HashFile | third_party/deps.py:159-161 | corrected: below the cache root plus the install base when a cache root is given, otherwise in the install folder |
| Deps.Install | third_party/deps.py:156-176 | corrected: an exception means the library was not up to date and leaves the files exactly as the build left them, so no record is written, whatever the layout |
| Deps.CMakeAlwaysRaises | third_party/deps.py:221-231 | as written, `InstallLibrary` of a CMake library always raises |
| Deps.HashFileAsWritten | third_party/deps.py:159-161 | as written: the corrected location when a cache root is given; with an empty `--cache-dir`, `<install base>/hash_<name>.txt` relative to the working folder |
| Deps.InstallAsWritten | third_party/deps.py:156-176 | as written, for a copy library an exception leaves the files as the build left them, with no record written |
| Deps.CopyUnaffected | third_party/deps.py:156-176 | for a copy library the code as written gives the corrected result when a cache root outside the install folder is given and the old hash file, if any, ends with a newline |
| Deps.CopyRecordMisplaced | third_party/deps.py:159-176 | as written, with no cache root a copy library that installs normally is recorded at `<install base>/hash_<name>.txt`, which is not the install folder's hash file |
| Deps.CacheFallbackMissed | third_party/deps.py:159-161 | as written, an empty `--cache-dir` puts the hash file at `<install base>/hash_<name>.txt` relative to the working folder, not in the install folder |
| Deps.InstalledIsRecorded | third_party/deps.py:156-176 | after an install that ran the build and returned normally the library is up to date, when neither hash holds a newline |
| Deps.SkippedWhenUpToDate | third_party/deps.py:163-165 | an up-to-date library is neither built nor recorded again |
| Deps.GitFailureNotUpToDate | third_party/deps.py:141-146 | a failing git lookup is never up to date, and the install then raises |
| Deps.FailureKeepsRecord | third_party/deps.py:172-174 | corollary of Deps.Install for a cache root outside the build's folders: an exception leaves the old hash file as it was |
| Deps.CachedLibrary.constructor | third_party/deps.py:93-99 | both memo fields start empty |
| Deps.CachedLibrary.GetGitHash | third_party/deps.py:133-139 | the stripped `git rev-parse HEAD` output or `CalledProcessError`; a success is memoised |
| Deps.CachedLibrary.GetBuildHash | third_party/deps.py:210-217 | the md5 of the joined arguments, memoised |
| Deps.CachedLibrary.CheckGitHash | third_party/deps.py:141-146 | true exactly when git succeeds and line 1 of the hash file is the commit |
| Deps.CachedLibrary.CheckBuildHash | third_party/deps.py:219-224 | corrected (static line helpers, ended last line): true exactly when line 2 of the hash file is the build digest |
| Deps.CachedLibrary.IsHashRelevant | third_party/deps.py:148-151 | corrected (static line helpers, ended last line): true exactly when the hash file exists, line 1 is the commit and, for CMake, line 2 is the digest |
| Deps.CachedLibrary.WriteHash | third_party/deps.py:153-154 | corrected (static line helpers, ended last line): line 1 gets the commit, then for CMake line 2 gets the digest; a failing git writes nothing |
| Deps.CachedLibrary.InstallLibrary | third_party/deps.py:156-176 | corrected (cache fallback, ended last line, static line helpers): skip when up to date; otherwise build, and record the hashes only when the build returns normally |
| Deps.InstallLibraries | third_party/deps.py:373-382 | the loop over the library objects equals the in-order install, skipping missing sources and stopping at the first exception |
| Grouping.Segments | third_party/deps.py:687-688 | the tokens cut before every command token: pieces are non-empty, only a piece's first token can be a command, and every piece after the first starts with one |
| Grouping.FlattenSegments | third_party/deps.py:687-688 | the groups put back together are the tokens |
| Grouping.Grouped | third_party/deps.py:687-688 | one group per piece, keyed by the command and its running count |
| Grouping.ArgGrouper.KeyOf | third_party/deps.py:656-665 | a command token sets the command and adds one to the count; the first non-command token sets `global` with count 0; other tokens keep the key |
| Grouping.GroupArgs | third_party/deps.py:656-688 | `groupby` with the stateful `groupargs` gives the grouped pieces |
| Grouping.GroupShape | third_party/deps.py:648-665 | group counts strictly increase; every group but a leading `global` one starts with its command |
| Grouping.GlobalGroup | third_party/deps.py:690-694 | there is a leading `global` group exactly when the first token is not a command |
| Grouping.GlobalArgs | third_party/deps.py:690-697 | the global arguments are the tokens before the first command; every other group starts with its command |
| DepsCli.DefaultInstallIsRoot | third_party/deps.py:458-463 | as written, leaving out `--install` makes the install folder the install root itself |
| DepsCli.CMakeLibraryAsWritten | third_party/deps.py:450-463 | as written: a library exactly when the arguments split; source, install and build folders are the parsed `--src`, `--install` and `--build-dir`, and the flags are the split arguments |
| DepsCli.CMakeLibrary | third_party/deps.py:437-463 | corrected: the same library as written whenever `--install` is given; without it the install folder is the source folder |
| DepsCli.DefaultInstallWipesRoot | third_party/deps.py:281-289 | so a successful build then replaces the whole install root, other libraries included, by what this library installs |
| DepsCli.DefaultInstallIsSource | third_party/deps.py:437-440 | corrected: leaving out `--install` installs below the `--src` folder name |
| DepsCli.RuleIndices | third_party/deps.py:576 | the positions of the `rule` tokens: in range, strictly increasing, each a `rule` token, and every `rule` token listed |
| DepsCli.RuleEnd | third_party/deps.py:585 | a rule's arguments end at the next `rule` token or at the end, after its own token |
| DepsCli.ManualRules | third_party/deps.py:572-596 | an error unless the remainder starts with `rule`, otherwise the rules parsed in order, stopping at the first failure |
| DepsCli.ParseEachRule | third_party/deps.py:582-595 | the loop over the rule indices equals parsing the rules in order, stopping at the first failure |
| DepsCli.ParseRulesSpec | third_party/deps.py:582-595 | rule parsing succeeds exactly when every rule's arguments parse, and then gives one `(src, dst)` pair per rule, in order |
| DepsCli.ManualRulesShape | third_party/deps.py:576-582 | with a leading `rule` token every `rule` token starts one rule |
| DepsCli.ExcludeIgnored | third_party/deps.py:590-592 | `--ex` never changes the rules |
| DepsCli.RuleArgsClean | third_party/deps.py:584-586 | a rule's arguments hold no `rule` token |
| DepsCli.RulesPartition | third_party/deps.py:576-586 | the rules with their `rule` markers put back together are the whole remainder |
| DepsCli.CollectLibraries | third_party/deps.py:711-726 | the group loop equals parsing every group in order, stopping at the first one that fails |
| DepsCli.ParseCommandLine | third_party/deps.py:669-726 | corrected (`--install` defaults to `--src`): `main` up to the tests: group, pop the global group, set the globals, split the global cmake arguments, create the libraries |
| DepsCli.CommandLineLibraries | third_party/deps.py:711-726 | on success there is one library per sub-command group, in command-line order, each made from its own group |
| DepsCli.HeaderDefaultSubdir | third_party/deps.py:749-751 | a header command with a one-component `--src` and no `--install-subdir` copies each glob to "." below the header folder, as the built-in test expects |
| Installer.GitHash | libs/install_dependencies.py:69-74 | a value exactly when git succeeds, and that value is already stripped |
| Installer.CheckGitHashMatch | libs/install_dependencies.py:76-85 | true exactly when the hash file exists and git succeeds with the file's stripped contents as the commit; a failing git is a mismatch |
| Installer.RecordedMatches | libs/install_dependencies.py:76-85 | a hash file holding the commit `get_git_hash` returns matches |
| Libraries.HashFolder | libs/install_dependencies.py:108 | the hash file's folder: the cache root plus the install base when `--cache-dir` is non-empty, otherwise the install folder |
| Installer.InstallLibrary | libs/install_dependencies.py:105-126 | skip when the hash file exists and matches; otherwise build, look up git again and write the commit as the whole hash file |
| Installer.Install | libs/install_dependencies.py:105-126 | an exception, from the build or from git afterwards, means the library was not up to date and leaves the files exactly as the build left them, whatever the layout |
| Installer.InstalledIsUpToDate | libs/install_dependencies.py:119-124 | after an install that returns normally the library is up to date |
| Installer.SkippedWhenUpToDate | libs/install_dependencies.py:110-112 | an up-to-date library is neither built nor recorded again |
| Installer.GitFailureRaises | libs/install_dependencies.py:76-85 | a failing git lookup counts as a mismatch, and the install then raises |
| Installer.FailureKeepsRecord | libs/install_dependencies.py:119-124 | corollary of Installer.Install for a `--cache-dir` outside the build's folders: an exception leaves the old hash file as it was |
| Installer.InstallFrame | libs/install_dependencies.py:105-126 | installing changes nothing but the build's folders and the hash file |
| Installer.InstallLibraries | libs/install_dependencies.py:287-296 | the loop equals the in-order install, skipping missing sources and stopping at the first exception |
| Installer.CMakeGroup | libs/install_dependencies.py:302-316 | a library exactly when the group has four items and its arguments split; its folders, build folder and flags come from those items |
| Installer.HeaderGroup | libs/install_dependencies.py:323-332 | a library exactly when the group has at least three items; every item after the second is a header glob |
| Installer.Pairs | libs/install_dependencies.py:346 | half as many pairs as items; pair `k` is items `2k` and `2k+1` |
| Installer.PairsRoundTrip | libs/install_dependencies.py:346 | the pairs, flattened, are the items again |
| Installer.ManualGroup | libs/install_dependencies.py:339-348 | a library exactly when the group has at least four items and an even number after the first two; its rules flatten back to those items |
| Installer.ParseLibs | libs/install_dependencies.py:299-350 | the parse loop equals parsing every group in order, exiting at the first invalid one |
| Installer.ParseAllStops | libs/install_dependencies.py:303-305 | once a group fails to parse, the parse fails |
| Installer.RunMain | libs/install_dependencies.py:431-447 | set the globals, then parse and install the CMake libraries, then the header ones, then the manual ones |
| Installer.MainRun | libs/install_dependencies.py:431-447 | a global cmake argument string that does not split exits at once with nothing changed; a successful exit means every group of every kind parsed |
| Installer.MainOrder | libs/install_dependencies.py:440-447 | when every group parses, the run is one in-order install of the CMake, then header, then manual libraries |
| Installer.LateParseError | libs/install_dependencies.py:443-447 | a malformed `--manual-lib` group fails the run only after every CMake and header library was installed |

## Left out

- Locking: `_AcquireLock` and the fallback to `build-<n>` folders when the lock is held by another process. The model always gets the lock on the first try; concurrency is not modelled.
- Logging, terminal colours and log levels have no effect on files and are not modelled.
- Processes (git, cmake), `glob`, `hashlib.md5`, `argparse` and `shlex.split` are oracles. The real matching rules of `glob` are not modelled, nor is what cmake itself does; `cmake --install` is given as the set of files it writes.
- A missing `git` or `cmake` executable raises `FileNotFoundError`, which `CheckGitHash` and `install_libraries` do not catch, and `shutil.copy2` or `copytree` onto its own source raises `SameFileError`. The oracles in `Libraries.Host` express only a non-zero exit, and Copying.Perform only a vanished source, so neither failure is modelled.
- `platform.system()` appears only inside argparse's default for `--install-dir`, which the options oracle supplies.
- Empty folders are not represented. So `mkdir`, `exist_ok` and the creation of the install folder before a build have no effect in the model, and a failing `mkdir` is not modelled.
- Only relative POSIX paths are modelled: absolute paths, drive letters and Windows separators are not.
- Text.PathParts keeps ".." components, as pathlib does, but Files.Exists, Files.IsFile and Files.IsDir compare components literally and never resolve "..", which the operating system does. So a rule such as `../common/*.h` is copied by the source but falls into Copying.Expand's missing-root case, and a source or install folder reached through ".." is not the same folder in the model.
- LineFile.ReadLines, LineFile.ReadLineAt and Installer.CheckGitHashMatch read files as they are stored: text-mode `open` turns "\r\n" and "\r" into "\n" and raises `UnicodeDecodeError` on bytes that are not UTF-8, and the model does neither. A hash file "h\r\nd\r\n" has line 1 "h" in the source and "h\r" in the model; file contents are strings, so undecodable files are not represented.
- `shutil.copy2` into a target that is an existing folder, and file metadata, are not modelled.
- A folder at the hash-file path is treated as "not up to date" (Deps.Recorded, Installer.UpToDate). The real code would raise `IsADirectoryError` when opening it.
- LineFile.Padded: `WriteLineAt` is modelled for line numbers `n >= 1` only. The source calls it only with 1 and 2.
- The `Path("build")` fallback in the CMake library constructor is dead code, because the `Path` it tests is always truthy. It is not modelled.
- The `if not cmdline` test in deps.py `main` cannot fire, because a group always holds its command token. It is not modelled.
- deps.py `main` runs `run_tests` and has `install_libraries` commented out. The model covers its command-line processing (DepsCli.ParseCommandLine) and separately models `install_libraries` (Deps.InstallLibraries). `run_tests` is represented only by its header-library expectation (DepsCli.HeaderDefaultSubdir).
- The "Nothing to do." / "All libraries installed successfully" messages at the end of `main` are logging only.
- A `sys.exit(1)` and an uncaught exception both end the run unsuccessfully. The model does not distinguish them.

## Findings

| source | as written | input that shows it | evidently intended | confidence | as-written member | corrected member |
|---|---|---|---|---|---|---|
| third_party/deps.py:221-231 | `CheckBuildHash` and the CMake `WriteHash` call `read_line_at` and `write_line_at`, which are not defined (the helpers are the static methods `InstallingLibrary.ReadLineAt` and `WriteLineAt`) | any CMake library: either the up-to-date check or the hash write raises `NameError` | call the static methods, so that a CMake library is checked and recorded on both lines | not executed | Deps.InstallAsWritten, Deps.CMakeAlwaysRaises | Deps.Install, Deps.InstalledIsRecorded |
| third_party/deps.py:102-116 | `WriteLineAt` pads with new lines after a last line that has no newline | a hash file holding "abc" without a newline, then writing "x" as line 2: the file becomes "abcx\n" | end the last line before padding, so that other lines keep their contents | not executed | LineFile.WriteLineAsWritten, LineFile.UnendedLastLineMerged | LineFile.WriteLine, LineFile.OtherLinesKept |
| third_party/deps.py:437-439 | `--install` defaults to "", and `Path("")` is the install root, although the help says the default is the `--src` folder | `add-cmake-lib --src=SDL` without `--install`: the build removes the whole install root and installs SDL there | use `--src` when `--install` is absent | not executed | DepsCli.CMakeLibraryAsWritten, DepsCli.DefaultInstallWipesRoot | DepsCli.CMakeLibrary, DepsCli.DefaultInstallIsSource |
| third_party/deps.py:159-161 | `CACHE_ROOT` is a `Path` (line 701), which is always true, so the fallback to the install folder is never taken | the default empty `--cache-dir`: the hash file goes to `<install base>/hash_<name>.txt` in the working folder | fall back to the install folder, as the `--cache-dir` help says and as the earlier version does | not executed | Deps.HashFileAsWritten, Deps.CacheFallbackMissed, Deps.CopyRecordMisplaced | Deps.HashFile, Deps.InstalledIsRecorded |
