# zb lint, the Go package dependency node, and the upload-pack server response

A Dafny model of three pieces of the `zb` workspace build tool:

- **`Lint`** (`lint.dfy`) models the `zb lint` command. It:
  - discovers the projects;
  - runs the generate target;
  - looks up `gometalinter`;
  - splits the non-vendored packages into those with a cached lint result and those without (`buildLists`);
  - walks the sorted package list, linting each package at the head of the sorted `toRun` queue and replaying the cached result of every other one (`exec`);
  - folds all outcomes into one exit code.

  The walk is specified by a recursive function, `Walk`. `Exec` is a loop proved against it, and lemmas about `Walk` state the merge-walk's guarantees. They are:
  - every package is treated once, in order;
  - exactly the packages without a cached result are linted;
  - the queue is emptied;
  - the exit code is the first outcome that is not OK;
  - an abort carries the error of the oracle that failed.

  `BuildLists` is a nested loop proved against `Candidates`, `NeedsLint` and `SortById`. `SortFilterCommute` shows that sorting the collected `toRun` gives the sorted candidate list filtered by the same test, so `toRun` is a sorted subsequence of `pkgs`.
- **`Dependency`** (`gopackage.dfy`) models a Go package as a node of the dependency graph (`GoPackage`). It covers:
  - building a command with `go build -o` or installing a library with `go install`, stamping the artifact only after the go tool succeeds;
  - the modification time of the artifact;
  - the source-file and in-project-package dependencies;
  - the memoised dependency list: an empty stored list means "not computed yet".
- **`PackProtocol`** (`srvresp.dfy`) models go-git's `ServerResponse`. This is the ACK/NAK reply of the Git upload-pack negotiation, in single-ACK mode only. It covers decoding one reply line, encoding the reply, and the round trip between the two.
- **`Wrappers`** (`wrappers.dfy`) holds `Option` and `Result`. They stand for Go's `error` and `(value, error)` returns.

Every collaborator the code reaches through an interface or a system call is a parameter of the model, as a function value or a result. This covers the result cache, the linter run, the go tool, the file system, package resolution and the pkt-line scanner.

## Model

| member | source | states |
|---|---|---|
| `Lint.FilterMember` | cmd/lint/lint.go:123-137 | a package is in a collected list exactly when it occurs in the input and passes the list's test (not vendored, or no cached result) |
| `Lint.Insert` | cmd/lint/lint.go:141-142 | inserting into a sorted list keeps it sorted, adds one element, and puts the smaller of the new package and the old head in front |
| `Lint.SortById` | cmd/lint/lint.go:141-142 | the sorted list is sorted by the package order and as long as its input |
| `Lint.SortPermutes` | cmd/lint/lint.go:141-142 | sorting only reorders: same packages, same multiplicities |
| `Lint.SortedOrdersAllPairs` | cmd/lint/lint.go:141-142 | in a sorted list every earlier package is no greater than every later one |
| `Lint.SortedPermutationUnique` | cmd/lint/lint.go:141-142 | two sorted arrangements of the same packages with distinct ids are equal, so the order of the sorted lists does not depend on discovery order |
| `Lint.SortByIdIsTheSortedArrangement` | cmd/lint/lint.go:141-142 | any sort by the package order (stable or not) yields exactly `SortById` when the ids are distinct |
| `Lint.FilterSorted` | cmd/lint/lint.go:141-142 | a sub-list of a sorted list, taken in order, is sorted |
| `Lint.SortFilterCommute` | cmd/lint/lint.go:135-142 | sorting the packages without a cached result equals filtering the sorted package list by that test: `toRun` is a sorted subsequence of `pkgs` |
| `Lint.BuildLists` | cmd/lint/lint.go:121-145 | the error is the first cache error among the non-vendored packages, in discovery order; without one, `pkgs` is the sorted non-vendored packages and `toRun` the sorted ones of those the cache has no result for |
| `Lint.Exec` | cmd/lint/lint.go:84-119 | the actions taken are those of the walk; nil exactly when the walk finishes with code OK, an exit error carrying the aggregate code when it finishes with another code, and the oracle's error when it aborts |
| `Lint.WalkFollowsQueue` | cmd/lint/lint.go:87-112 | when `toRun` is the sub-list of `pkgs` passing a test, the k-th action is about the k-th package and is a linter run exactly when the package passes; a finished walk treated every package, linted exactly `toRun` in order and emptied the queue |
| `Lint.WalkKeepsFirstFailure` | cmd/lint/lint.go:98-110 | the final code is the starting code if it is not OK, and otherwise the first linter code or replayed failure that is not OK |
| `Lint.WalkAbortsOnlyOnOracleError` | cmd/lint/lint.go:87-112 | every completed action answers for its package: its cache file was found, and the recorded code is the one the linter returned or the verdict the replay returned; an aborted walk stopped at the next package with the error of the oracle consulted there (the cache file lookup, then the linter when the package heads the remaining queue, the replay otherwise); when no oracle fails, the walk finishes |
| `Lint.Run` | cmd/lint/lint.go:61-82 | the steps run in order and the first error ends the command with that error; after all five steps, the packages are walked in sorted order, linting exactly the sorted packages without a cached result, and the result is nil exactly when no outcome failed, an exit error with the first failing code, or an oracle error at the package where the walk stopped; every completed action carries what its oracles answered, a failure carries the error of the oracle consulted at the package where the walk stopped, and the command does not fail when no oracle does |
| `Dependency.GoPackage.constructor` | lib/dependency/gopackage.go:14-22 | a new node holds its package, context, path, commit and project, and has no dependencies remembered |
| `Dependency.GoPackage.Name` | lib/dependency/gopackage.go:26-28 | the node's name is its artifact path |
| `Dependency.GoPackage.Buildable` | lib/dependency/gopackage.go:124-126 | a package node is always buildable |
| `Dependency.GoPackage.Install` | lib/dependency/gopackage.go:47-57 | runs `go install` with the build flags and the import path; stamps the install path only when the go tool succeeded; returns the go tool's error, or else the stamp's |
| `Dependency.GoPackage.Build` | lib/dependency/gopackage.go:30-45 | a non-command is installed; a command is built with `-o` its name and stamped under its name, again only after the go tool succeeded |
| `Dependency.GoPackage.ModTime` | lib/dependency/gopackage.go:59-66 | the artifact's modification time, or the zero time when it cannot be examined |
| `Dependency.GoPackage.Files` | lib/dependency/gopackage.go:68-91 | one file node per non-test source file, in category order, each joined onto the package directory; as many as the eleven categories hold together |
| `Dependency.GoPackage.ResolveImports` | lib/dependency/gopackage.go:93-122 | succeeds exactly when every import other than `C` resolves, and otherwise fails with the error of an import other than `C`; on success, every result is a package node inside the project directory, named by its object file, coming from an import other than `C`, and there are at most as many as imports |
| `Dependency.GoPackage.KeptImports` | lib/dependency/gopackage.go:98-111 | every import kept is other than `C`, resolves, and lies inside the project directory |
| `Dependency.GoPackage.FirstImportError` | lib/dependency/gopackage.go:98-106 | there is no first import error exactly when every import other than `C` resolves |
| `Dependency.GoPackage.FirstImportErrorIsFirst` | lib/dependency/gopackage.go:98-106 | the reported error is that of an import other than `C` before which every import is `C` or resolves |
| `Dependency.GoPackage.ResolveImportsInOrder` | lib/dependency/gopackage.go:93-122 | resolving fails exactly when some import other than `C` does not resolve, with the first such import's error; otherwise it yields the package node of every import inside the project, one for one and in import order |
| `Dependency.GoPackage.Packages` | lib/dependency/gopackage.go:93-122 | the loop computes `ResolveImports` of the package's imports |
| `Dependency.GoPackage.Dependencies` | lib/dependency/gopackage.go:128-142 | a remembered non-empty list is returned as is; otherwise the packages and then the files are computed, remembered and returned, and an error leaves nothing remembered |
| `Dependency.DependenciesIsIdempotent` | lib/dependency/gopackage.go:128-142 | a non-empty answer is remembered and returned again unchanged; in the fixed environment of the model, an error or an empty answer is recomputed to the same result |
| `PackProtocol.IndexOf` | vendor/srcd.works/go-git.v4/plumbing/protocol/packp/srvresp.go:66 | the first position of the byte, with no earlier occurrence, or -1 exactly when the byte is absent |
| `PackProtocol.ParseACKLine` | vendor/srcd.works/go-git.v4/plumbing/protocol/packp/srvresp.go:61-70 | an ACK line shorter than 44 bytes is malformed; a longer one yields exactly one hash, the 40 bytes after the first space |
| `PackProtocol.ParseLine` | vendor/srcd.works/go-git.v4/plumbing/protocol/packp/srvresp.go:45-59 | an empty payload is an unexpected flush; NAK yields no hash; a long enough ACK yields the hash after the first space and a shorter one is a malformed ACK; any other line is unexpected content |
| `PackProtocol.ServerResponse.constructor` | vendor/srcd.works/go-git.v4/plumbing/protocol/packp/srvresp.go:17-19 | a new response has no ACKs |
| `PackProtocol.ServerResponse.DecodeACKLine` | vendor/srcd.works/go-git.v4/plumbing/protocol/packp/srvresp.go:61-70 | a short line is rejected and the ACKs are unchanged; otherwise its hash is appended |
| `PackProtocol.ServerResponse.DecodeLine` | vendor/srcd.works/go-git.v4/plumbing/protocol/packp/srvresp.go:45-59 | the ACK list grows by what `ParseLine` yields, or stays as it was with `ParseLine`'s error |
| `PackProtocol.ServerResponse.Decode` | vendor/srcd.works/go-git.v4/plumbing/protocol/packp/srvresp.go:23-43 | multi-ACK is refused; with no line the scanner's error is returned; otherwise only the first line is decoded; the ACK list only grows, by at most one |
| `PackProtocol.ServerResponse.Encode` | vendor/srcd.works/go-git.v4/plumbing/protocol/packp/srvresp.go:73-84 | succeeds exactly when there is at most one ACK: `NAK\n` for none, `ACK <hash>\n` for one; the payload decodes back to the same ACK list |

## Left out

- `runLinter` (cmd/lint/lint.go:147-200) is an oracle returning an exit code or an error. The model does not cover the linter process, the pipe, the concurrent drain of its output into the cache file, or the join of the two tasks.
- `CacheFile`, `HaveResult` and `ShowResult` of the result cache are oracles, and the writer `ShowResult` and the linter print to is not modelled. Project discovery, the generate target and the `gometalinter` lookup in `run` are results passed in.
- The package order (`Less` of the project package list) is not part of this model. Each package carries an `id` in a total order. `SortById` is a stable insertion sort, whereas Go's `sort.Sort` is not stable; `SortByIdIsTheSortedArrangement` shows the two agree whenever no two packages share an id.
- The values of `ExitOK` and `ExitFailed` come from a context package that is not part of this model; 0 and 1 are assumed.
- Lint.BuildLists: on a cache error the Go function also returns the partly collected, unsorted lists. `run` discards them, and the contract says nothing about them.
- `exec` compares the queue head with the current package by pointer. The model compares package values, which agree as long as no two distinct packages are equal as values (distinct ids suffice).
- The exit error's message (always empty) is not modelled; only its code is.
- `BuildArgs`, `GoExec`, `Touch`, `InstallPath`, `Import`, `ImportPathToDir`, `filepath.Join` and `os.Stat` are oracles in `Context`. Time is an integer with 0 as the zero time. `IsCommand` follows `go/build`: a package named `main`.
- The `Dependency` interface is a datatype with a package variant and a file variant, not an interface. A package node found by `packages()` is a value holding its import's project, object path and package; its own memo and commit are not represented. The file node is not part of this model beyond its project and path.
- Dependency.GoPackage.Name and Dependency.GoPackage.Buildable: their contracts are the whole of the Go functions, which return a field and a constant.
- The ServerResponse pkt-line framing is not modelled: the length prefix, the flush packet, and the scanner and encoder. The model works on payloads, and the writer `Encode` writes to is replaced by the payload it would write.
- PackProtocol.ServerResponse.Decode: the scan loop breaks after its first line whenever multi-ACK is off, and multi-ACK is refused before the loop, so the model decodes at most one line and never loops.
- `plumbing.NewHash` turns 40 hexadecimal characters into 20 bytes, and `Hash.String` turns them back. The model keeps the 40-character text, so the round trip is stated on text. Invalid hexadecimal, which `NewHash` silently ignores, is not modelled.
- Two inputs make the Go code panic rather than return an error, and both are excluded by preconditions (`Decodable`, `AckSliceInBounds`):
  - a payload of one or two bytes (`line[0:3]`);
  - an ACK line of 44 bytes or more whose first space sits so late that the 40-byte hash slice runs past the end.
- Dependency.DependenciesIsIdempotent: `first == second` in the error and empty cases holds because package resolution and path joining are fixed functions in the model. In Go the second call runs `Import` against the file system again and may see a different answer. Only the remembered non-empty case is independent of that.
- Error messages are constructors of an `Error` datatype rather than formatted strings.
- `cmd/install/install.go` and `cmd/version/cmd.go` are not part of this model.
