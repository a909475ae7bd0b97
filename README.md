# Online C# compiler: result shaping and run sequencing

This project models the core of an online C# compiler service. The service compiles a user's
program with Roslyn, writes the assembly to a temporary file, writes a `runtimeconfig.json`
side-car next to it, and runs it under `dotnet` once per textual input (or once with no input).
It collects one output string per run, and may then delete the assembly and its side-car.

The source has two generations of this pipeline, and they differ in detail. Each is modelled on
its own terms:

- `AssemblyRun` models the first-generation runner (`AssemblyRunner.RunAssemblyAsync`). A null
  or empty input list still gets one run. The output rule is "stderr wins, trimmed". Cleanup is
  two independent best-effort deletes.
- `ServicesAssemblyRunner` models the second-generation runner (`AssemblyRunner.RunAssembly`).
  An empty list gets no run. The output rule is the same. Both deletes sit inside one `try`.
- `ServicesCSharpRunner` models the execution service (`CSharpRunner`). It short-circuits on a
  failed compilation and appends (does not overwrite) the side-car. Each output is standard
  output followed by standard error, untrimmed. It deletes nothing.
- `SdkCompiler` and `ServicesCompiler` model the two compiler facades. They shape
  `CompilationResult` values from the emit outcome and short-circuit execution on failure. They
  adapt single-input, multi-input and no-input calls onto their runner.
- `Compilation` holds the result records and the error-message filter that both facades share.
  `Processes`, `Runs`, `Text`, `Paths`, `RuntimeConfig` and `Platform` hold the shared pieces:
  - the per-run standard-input rule and the output selection;
  - the per-input loop;
  - .NET's `string.Trim` and white-space predicates;
  - the path derivations;
  - the side-car content;
  - the host.

The environment is explicit:

- `Platform.Host` is a class. It holds the files on disk (a map from path to contents), the set
  of locked files (on which `File.Delete` throws), the trace of every process launched, and the
  temporary directory.
- Running an assembly is an oracle `Launch -> Streams`. A `Launch` records the assembly path,
  the assembly image and the side-car contents on disk at the moment of launch, and the
  standard input: a line written and the channel closed, or nothing written. So the order of
  "write the side-car, then run" and a recompile that replaces the image are both visible.
  The program is deterministic in its launch and has no effect on disk.
- Roslyn's `Emit` is an oracle `(assemblyName, code) -> EmitResult(success, diagnostics, image)`.
  Compiling to a path writes that image there, on success and on failure.
- The compiler injected into `CSharpRunner` is an oracle from the code to its `CompilationResult`
  and the image it writes at the location it reports.
- The GUID-based assembly name is a parameter.

Behaviour of the code that the model keeps as it is:

- `Models/CompilationResult.cs` declares `Warnings`, and no code ever sets it, so every
  `CompilationResult` built here leaves it null.
- Nothing stops a loop early: every runner launches every input, whatever an earlier run wrote
  to standard error.
- Exit codes are never read, and no run is classified as a runtime error: the classification
  sketched in the comment at Services/CSharpRunner.cs:16-23 and the unused
  `Models/ExecutionResult.cs` are not implemented.
- `CSharpRunner` concatenates stdout and stderr instead of selecting one of them. It appends the
  config instead of overwriting it, and it never deletes the assembly.
- `CompileAsync` reports `AssemblyLocation` on failure too.

## Model

| member | source | states |
|---|---|---|
| `Text.Trim` | src/CSharp.Compiler.Sdk/AssemblyRun.cs:47 | `string.Trim()`: the result has no white space at either end, is empty exactly when the input is all white space, and is a slice of the input surrounded only by white space |
| `Text.IsWhiteSpace` | src/CSharp.Compiler.Sdk/AssemblyRun.cs:47 | defines `char.IsWhiteSpace` as U+0009..U+000D, U+0020, U+0085, U+00A0, U+1680, U+2000..U+200A, U+2028, U+2029, U+202F, U+205F and U+3000 |
| `Text.IsNullOrEmpty` | src/CSharp.Compiler.Sdk/AssemblyRun.cs:64 | defines `string.IsNullOrEmpty` as null or the empty string |
| `Text.IsNullOrWhiteSpace` | src/CSharp.Compiler.Sdk/AssemblyRun.cs:47 | defines `string.IsNullOrWhiteSpace` as null or white space throughout |
| `Text.TrimUnique` | src/CSharp.Compiler.Sdk/AssemblyRun.cs:75 | trimming white space around a bare string gives back exactly that string |
| `Text.LeadingBlanks` | src/CSharp.Compiler.Sdk/AssemblyRun.cs:47 | the number of leading white-space characters: within bounds, and followed by a non-white-space character unless the string is all white space |
| `Text.TrailingBlanks` | src/CSharp.Compiler.Sdk/AssemblyRun.cs:75 | the number of trailing white-space characters, with the symmetric bounds |
| `Text.LeadingBlanksAreWhiteSpace` | src/CSharp.Compiler.Sdk/AssemblyRun.cs:47 | every character that trimming drops at the start is white space |
| `Text.TrailingBlanksAreWhiteSpace` | src/CSharp.Compiler.Sdk/AssemblyRun.cs:75 | every character that trimming drops at the end is white space |
| `Paths.ExtensionStart` | src/CSharp.Compiler.Sdk/AssemblyRun.cs:23 | the extension begins at the last `.` of the file name, or there is none |
| `Paths.Stem` | src/CSharp.Compiler.Sdk/AssemblyRun.cs:23 | `GetFileNameWithoutExtension`: a prefix of the file name that stops at its last `.`; with no `.` it is the whole name |
| `Paths.DirectoryName` | src/CSharp.Compiler.Sdk/AssemblyRun.cs:22 | defines `Path.GetDirectoryName` as the path's directory part |
| `Paths.Combine` | src/CSharp.Compiler.Sdk/AssemblyRun.cs:26 | defines `Path.Combine` of a directory and a plain file name as the path with those two parts |
| `Paths.TempAssemblyPath` | src/CSharp.Compiler.Sdk/CsharpCompiler.cs:45 | defines the emit target as `<temp>/<name>.dll` |
| `RuntimeConfig.Content` | src/CSharp.Compiler.Sdk/AssemblyRun.cs:7-17 | defines the net8.0 runtime configuration (`tfm` net8.0, framework Microsoft.NETCore.App 8.0.0), the same text in all three runners |
| `RuntimeConfig.SideCarPath` | src/CSharp.Compiler.Sdk/AssemblyRun.cs:22-26 | `<dir>/<stem>.runtimeconfig.json` is in the assembly's directory and is never the assembly itself |
| `RuntimeConfig.SideCarNameIsNotArtifactName` | src/CSharp.Compiler.Sdk/AssemblyRun.cs:79-80 | the side-car's file name always differs from the assembly's, so the two deletes touch two different files |
| `RuntimeConfig.CompiledSideCar` | src/CSharp.Compiler.Sdk/CsharpCompiler.cs:45 | for an assembly compiled to `<temp>/<name>.dll`, the side-car is `<temp>/<name>.runtimeconfig.json` |
| `Processes.StdinFor` | src/CSharp.Compiler.Sdk/AssemblyRun.cs:64-68 | a line is written to standard input (then the channel is closed) exactly when the input is neither null nor empty, and it is the input itself |
| `Processes.SelectOutput` | src/CSharp.Compiler.Sdk/AssemblyRun.cs:47 | "stderr wins, trimmed": the trimmed stderr when it is not blank, and then never empty; otherwise the trimmed stdout; empty exactly when both streams are blank |
| `Processes.PlanPerInput` | src/CSharp.Compiler.Sdk/Services/AssemblyRunner.cs:26-54 | one run per input, in input order, with that input's standard input; none for an empty list |
| `Processes.PlanWithDefaultRun` | src/CSharp.Compiler.Sdk/AssemblyRun.cs:29-77 | a null or empty list gives exactly one run with nothing on stdin; otherwise one run per input, in order |
| `Processes.LaunchesOf` | src/CSharp.Compiler.Sdk/AssemblyRun.cs:51-76 | the launches of one assembly, one per planned standard input, in order |
| `Processes.LaunchedPerInput` | src/CSharp.Compiler.Sdk/Services/AssemblyRunner.cs:26-37 | a trace with one launch per input, in order, is the per-input plan's trace |
| `Platform.Host.WriteAllText` | src/CSharp.Compiler.Sdk/AssemblyRun.cs:25-27 | the file is created or overwritten with the text; no other file changes |
| `Platform.Host.AppendAllText` | src/CSharp.Compiler.Sdk/Services/CSharpExecutionHelper.cs:9-12 | the text is added after whatever the file held (nothing if it was missing); no other file changes |
| `Platform.Host.Delete` | src/CSharp.Compiler.Sdk/AssemblyRun.cs:79 | throws exactly on a file that exists and is locked, and then changes nothing; otherwise the file is gone (deleting a missing file is no error) |
| `Platform.Host.Run` | src/CSharp.Compiler.Sdk/AssemblyRun.cs:53-73 | one launch is recorded, carrying the assembly image and the side-car contents on disk at that moment and the standard input; the streams are what the program answers for that launch |
| `Runs.RunEachInput` | src/CSharp.Compiler.Sdk/Services/AssemblyRunner.cs:26-54 | the per-input loop of all three runners: one launch per input in order, with no early stop, each seeing the image and side-car on disk; the i-th output is what the runner keeps of the i-th input's run |
| `AssemblyRun.IndependentDeletes` | src/CSharp.Compiler.Sdk/AssemblyRun.cs:79-80 | each of the assembly and the side-car survives exactly when it is locked, whatever happens to the other; nothing else changes |
| `AssemblyRun.DeleteIndependently` | src/CSharp.Compiler.Sdk/AssemblyRun.cs:79-80 | the two best-effort deletes leave exactly the files `IndependentDeletes` describes |
| `AssemblyRun.RunAssembly` | src/CSharp.Compiler.Sdk/AssemblyRun.cs:19-83 | launches follow the default-run plan and every one of them sees the config content in the side-car, so the side-car is written before the runs; one selected output per planned run, in order; both paths are then deleted independently |
| `ServicesAssemblyRunner.CombinedDelete` | src/CSharp.Compiler.Sdk/Services/AssemblyRunner.cs:56-64 | the assembly survives exactly when locked; the side-car survives when it or the assembly is locked, because a throwing first delete skips the second; nothing else changes |
| `ServicesAssemblyRunner.DeleteTogether` | src/CSharp.Compiler.Sdk/Services/AssemblyRunner.cs:56-64 | the two deletes in one `try` leave exactly the files `CombinedDelete` describes |
| `ServicesAssemblyRunner.RunAssembly` | src/CSharp.Compiler.Sdk/Services/AssemblyRunner.cs:17-67 | exactly one launch and one selected output per input, in order (an empty list launches nothing); every launch sees the config content in the side-car; the combined delete follows |
| `Compilation.ErrorMessages` | src/CSharp.Compiler.Sdk/CsharpCompiler.cs:29-32 | no more messages than diagnostics, and none exactly when no diagnostic has Error severity |
| `Compilation.ErrorPositions` | src/CSharp.Compiler.Sdk/CsharpCompiler.cs:30 | the positions the error filter keeps, each a valid diagnostic index |
| `Compilation.ErrorPositionsAreTheErrors` | src/CSharp.Compiler.Sdk/CsharpCompiler.cs:29-30 | those positions are exactly the Error-severity diagnostics, each once, in increasing order |
| `Compilation.ErrorMessagesInOrder` | src/CSharp.Compiler.Sdk/CsharpCompiler.cs:29-32 | the error list is exactly the Error-severity diagnostics' texts in diagnostic order: its j-th message is the j-th Error diagnostic's text |
| `Compilation.CheckResult` | src/CSharp.Compiler.Sdk/CsharpCompiler.cs:27-37 | success matches the emit; errors are null exactly on success and are the error messages otherwise; warnings are never set and the location stays empty |
| `Compilation.CompileResult` | src/CSharp.Compiler.Sdk/CsharpCompiler.cs:48-68 | success matches the emit; the location is reported on both outcomes; errors are null exactly on success |
| `Compilation.Failed` | src/CSharp.Compiler.Sdk/CsharpCompiler.cs:77-81 | a failed execution reports `IsSuccess` false with the compile errors, no warnings and no location |
| `Compilation.FirstOrEmpty` | src/CSharp.Compiler.Sdk/CsharpCompiler.cs:85 | `FirstOrDefault() ?? ""`: the first output, or the empty string for no output |
| `Compilation.Succeeded` | src/CSharp.Compiler.Sdk/CsharpCompiler.cs:85 | defines the result of a run after a successful compilation: `IsSuccess` true, no errors, no warnings, no location |
| `ServicesCSharpRunner.Concatenated` | src/CSharp.Compiler.Sdk/Services/CSharpRunner.cs:79-82 | the whole of stdout followed by the whole of stderr, untrimmed |
| `ServicesCSharpRunner.ConcatenationAgreesWithSelection` | src/CSharp.Compiler.Sdk/Services/CSharpRunner.cs:82 | with an empty stderr and an already trimmed stdout, concatenation and "stderr wins" give the same string |
| `ServicesCSharpRunner.ConcatenationKeepsStdout` | src/CSharp.Compiler.Sdk/Services/CSharpRunner.cs:79-82 | when stderr is not blank and stdout is not empty, concatenation and "stderr wins" always differ |
| `ServicesCSharpRunner.RunOnce` | src/CSharp.Compiler.Sdk/Services/CSharpRunner.cs:56-89 | one launch of what is on disk, with a line on stdin only for a non-empty input; the output is the concatenated streams |
| `ServicesCSharpRunner.StartExecution` | src/CSharp.Compiler.Sdk/Services/CSharpRunner.cs:36-54 | the compilation comes back unchanged; every launch sees the side-car holding its earlier text followed by the config, so the append comes before any run; the launches follow the default-run plan, one concatenated output each; nothing is deleted |
| `ServicesCSharpRunner.ExecuteCompiled` | src/CSharp.Compiler.Sdk/Services/CSharpRunner.cs:24-34 | the compilation comes back unchanged; a failed one gives no output, writes no file and launches nothing; a successful one runs as `StartExecution` does |
| `ServicesCSharpRunner.Execute` | src/CSharp.Compiler.Sdk/Services/CSharpRunner.cs:10-14 | the injected compiler's image is written at the location it reports before anything runs; then the compilation-based overload runs on its result, so on success every launch runs that image, and on failure only that file changes and nothing is launched |
| `SdkCompiler.CanCompile` | src/CSharp.Compiler.Sdk/CsharpCompiler.cs:19-38 | success is the emit's; on failure the errors are the Error-severity messages, on success null; no warnings, no location |
| `SdkCompiler.Compiled` | src/CSharp.Compiler.Sdk/CsharpCompiler.cs:40-70 | the location is `<temp>/<name>.dll` on both outcomes, its side-car is `<temp>/<name>.runtimeconfig.json`; success and errors as the emit says |
| `SdkCompiler.Compile` | src/CSharp.Compiler.Sdk/CsharpCompiler.cs:45-46 | the emit writes its image to the reported location and changes no other file |
| `SdkCompiler.ExecuteSingle` | src/CSharp.Compiler.Sdk/CsharpCompiler.cs:72-86 | on compile failure: the errors, `""`, the emitted file left at the temp path and no launch; on success: exactly one launch of the image just emitted, with the config beside it and the input on stdin (when non-empty), its selected output, and the runner's cleanup |
| `SdkCompiler.ExecuteMany` | src/CSharp.Compiler.Sdk/CsharpCompiler.cs:88-102 | on compile failure: the errors, `[]`, the emitted file left and no launch; on success: the runner's outputs for `inputs` as they are, a null list included (one run for a null or empty list), each from a launch of the image just emitted |
| `SdkCompiler.ExecuteNoInput` | src/CSharp.Compiler.Sdk/CsharpCompiler.cs:103-117 | on compile failure: the errors, `""`, the emitted file left and no launch; on success: the empty list becomes one run of the image just emitted with nothing on stdin, and its selected output is returned |
| `ServicesCompiler.CSharpCompiler.CanCompile` | src/CSharp.Compiler.Sdk/Services/CsharpCompiler.cs:9-27 | as the first facade, with the instance's fixed assembly name |
| `ServicesCompiler.CSharpCompiler.Compiled` | src/CSharp.Compiler.Sdk/Services/CsharpCompiler.cs:29-58 | the location is `<temp>/<AssemblyName>.dll` whatever the code, so one instance always targets the same file; success and errors as the emit says |
| `ServicesCompiler.CSharpCompiler.Compile` | src/CSharp.Compiler.Sdk/Services/CsharpCompiler.cs:33-34 | the emit writes its image to the instance's one location, replacing what an earlier compilation left there, and changes no other file |
| `ServicesCompiler.CSharpCompiler.ExecuteSingle` | src/CSharp.Compiler.Sdk/Services/CsharpCompiler.cs:60-74 | on compile failure: the errors, `""`, the emitted file left and no launch; on success: exactly one launch of the image just emitted for `[input]`, its selected output, and the combined cleanup |
| `ServicesCompiler.CSharpCompiler.ExecuteMany` | src/CSharp.Compiler.Sdk/Services/CsharpCompiler.cs:76-90 | on compile failure: the errors, `[]`, the emitted file left and no launch; on success: one selected output per input, in order, each from a launch of the image just emitted, none for an empty list |
| `ServicesCompiler.CSharpCompiler.ExecuteNoInput` | src/CSharp.Compiler.Sdk/Services/CsharpCompiler.cs:92-105 | on compile failure: the errors, `[]`, the emitted file left and no launch; on success: `[null]` gives exactly one run of the image just emitted with nothing on stdin, and the whole one-element list is returned |

## Left out

- Roslyn itself is not modelled. This covers `CreateCompilation`, reference discovery, parsing and code generation. `Emit` is an oracle from (assembly name, code) to a success flag, the diagnostics in order and the image it writes; the image is modelled as text.
- Process I/O is an oracle: `ProcessStartInfo`, the sequential drain of stdout then stderr, `WaitForExit` and the hang possible when standard input is left open.
- Exit codes are never read by the code, so they are not modelled.
- Asynchrony and cancellation tokens are dropped. Every call completes in order.
- The GUID-based assembly name is a parameter of each compilation (first facade) or of the instance (second facade).
- Paths are structured: a directory and a file name. String parsing of separators is not modelled, and neither is `Path.GetDirectoryName` returning null (for a root path or the empty string): the null reaches `Path.Combine` (AssemblyRun.cs:26, Services/CSharpExecutionHelper.cs:10), which throws `ArgumentNullException`. In particular the source throws where `StartExecution` is given a successful `CompilationResult` that keeps the default empty `AssemblyLocation`; the model appends to `Path("", ".runtimeconfig.json")` instead.
- Write failures of `File.WriteAllText` and `File.AppendAllText`, and of the emit's write to the temporary path, are not modelled: a write never fails, even on a locked path (in the source an emit over an assembly an earlier run left locked would throw, which matters most for the second facade, whose compilations all reuse one path). Delete failure is modelled only as "the file is locked".
- A null list passed to the second runner (which would throw), or to the second facade's `ExecuteAsync(code, inputs)` that hands it on, is not modelled. Their `inputs` parameter is a non-null sequence.
- The `ICSharpCompiler` that `CSharpRunner` takes is an oracle from the code to its `CompilationResult` and the image it leaves at the reported location; its write is modelled as one `WriteAllText`, and its own compilation steps are not modelled.
- Logging in `CSharpRunner` is not modelled.
- The HTTP endpoints, dependency-injection registration and request DTOs are not part of this model.
- The running program is deterministic in its launch: a program that reads the clock or random numbers, or writes or deletes files, is not modelled.
