/** What both compiler facades build from one Roslyn `Emit`: the result records and the list
    of error messages. `Emit` itself is an oracle from (assembly name, source code) to a
    success flag, the diagnostics in the order the compiler reports them, and the image it
    writes. */
module Compilation {
  import opened Wrappers
  import opened Paths
  import opened Platform

  /** `DiagnosticSeverity` */
  datatype Severity = Hidden | Info | Warning | Error

  /** One diagnostic: its severity and its `ToString()` text. */
  datatype Diagnostic = Diagnostic(severity: Severity, text: string)

  /** `EmitResult`: `Success` and `Diagnostics`, with the bytes the emit writes to its output
      stream (the assembly image; whatever a failed emit leaves behind). */
  datatype EmitResult = EmitResult(success: bool, diagnostics: seq<Diagnostic>, image: string)

  /** `CreateCompilation(assemblyName, code).Emit(..)`, as a function of its two inputs. */
  type Emitter = (string, string) -> EmitResult

  /** `Models/CompilationResult`. `Errors` and `Warnings` are nullable lists; the location
      defaults to the empty string, which `NoLocation` stands for. */
  datatype CompilationResult = CompilationResult(
    isSuccess: bool,
    errors: Option<seq<string>>,
    warnings: Option<seq<string>>,
    assemblyLocation: Path)

  /** `Models/CompilationResultWithAssembly`: the outcome of compiling to a file on disk. */
  datatype CompilationResultWithAssembly = CompilationResultWithAssembly(
    isSuccess: bool,
    errors: Option<seq<string>>,
    assemblyLocation: Path)

  /** `string.Empty` as a location. */
  const NoLocation: Path := Path("", "")

  /** `Diagnostics.Where(d => d.Severity == Error).Select(d => d.ToString()).ToList()`. */
  function ErrorMessages(ds: seq<Diagnostic>): (r: seq<string>)
    ensures |r| <= |ds|
    ensures r == [] <==> forall i :: 0 <= i < |ds| ==> ds[i].severity != Error
  {
    if ds == [] then []
    else
      var last := ds[|ds| - 1];
      var front := ErrorMessages(ds[..|ds| - 1]);
      assert forall i :: 0 <= i < |ds| - 1 ==> ds[..|ds| - 1][i] == ds[i];
      if last.severity == Error then front + [last.text] else front
  }

  /** The positions of the Error-severity diagnostics, each once, in increasing order. */
  ghost function ErrorPositions(ds: seq<Diagnostic>): (ps: seq<nat>)
    ensures forall j :: 0 <= j < |ps| ==> ps[j] < |ds|
  {
    if ds == [] then []
    else
      var front := ErrorPositions(ds[..|ds| - 1]);
      if ds[|ds| - 1].severity == Error then front + [|ds| - 1] else front
  }

  /** `ErrorPositions` lists exactly the Error-severity diagnostics, each once, in order. */
  lemma {:induction false} ErrorPositionsAreTheErrors(ds: seq<Diagnostic>)
    ensures forall j, k :: 0 <= j < k < |ErrorPositions(ds)| ==> ErrorPositions(ds)[j] < ErrorPositions(ds)[k]
    ensures forall i :: 0 <= i < |ds| ==> (ds[i].severity == Error <==> i in ErrorPositions(ds))
  {
    if ds != [] {
      var front := ds[..|ds| - 1];
      ErrorPositionsAreTheErrors(front);
      assert forall i :: 0 <= i < |front| ==> front[i] == ds[i];
    }
  }

  /** The error list is exactly the Error-severity diagnostics in diagnostic order: its j-th
      message is the text of the j-th Error diagnostic. */
  lemma {:induction false} ErrorMessagesInOrder(ds: seq<Diagnostic>)
    ensures |ErrorMessages(ds)| == |ErrorPositions(ds)|
    ensures forall j :: 0 <= j < |ErrorMessages(ds)| ==> ErrorMessages(ds)[j] == ds[ErrorPositions(ds)[j]].text
  {
    if ds != [] {
      var front := ds[..|ds| - 1];
      ErrorMessagesInOrder(front);
      var messages, positions := ErrorMessages(front), ErrorPositions(front);
      var last := ds[|ds| - 1];
      if last.severity == Error {
        assert ErrorMessages(ds) == messages + [last.text];
        assert ErrorPositions(ds) == positions + [|ds| - 1];
        forall j | 0 <= j < |messages|
          ensures ErrorMessages(ds)[j] == ds[ErrorPositions(ds)[j]].text
        {
          assert ds[positions[j]] == front[positions[j]];
        }
      } else {
        assert ErrorMessages(ds) == messages;
        assert ErrorPositions(ds) == positions;
        forall j | 0 <= j < |messages|
          ensures ErrorMessages(ds)[j] == ds[ErrorPositions(ds)[j]].text
        {
          assert ds[positions[j]] == front[positions[j]];
        }
      }
    }
  }

  /** `CanCompileAsync`'s result for an in-memory emit: failure carries the error messages,
      success carries nothing else; neither sets warnings nor a location. */
  function CheckResult(e: EmitResult): (r: CompilationResult)
    ensures r.isSuccess == e.success
    ensures r.isSuccess <==> r.errors.None?
    ensures !r.isSuccess ==> r.errors.value == ErrorMessages(e.diagnostics)
    ensures r.warnings.None? && r.assemblyLocation == NoLocation
  {
    if !e.success then CompilationResult(false, Some(ErrorMessages(e.diagnostics)), None, NoLocation)
    else CompilationResult(true, None, None, NoLocation)
  }

  /** `CompileAsync`'s result for an emit to `location`: the location is reported whether or
      not the emit succeeded; errors are null exactly on success. */
  function CompileResult(e: EmitResult, location: Path): (r: CompilationResultWithAssembly)
    ensures r.isSuccess == e.success && r.assemblyLocation == location
    ensures r.isSuccess <==> r.errors.None?
    ensures !r.isSuccess ==> r.errors.value == ErrorMessages(e.diagnostics)
  {
    if !e.success then CompilationResultWithAssembly(false, Some(ErrorMessages(e.diagnostics)), location)
    else CompilationResultWithAssembly(true, None, location)
  }

  /** The result every `ExecuteAsync` overload returns when compilation failed: the compile
      errors and nothing else. */
  function Failed(compiled: CompilationResultWithAssembly): (r: CompilationResult)
    ensures !r.isSuccess && r.errors == compiled.errors
    ensures r.warnings.None? && r.assemblyLocation == NoLocation
  {
    CompilationResult(false, compiled.errors, None, NoLocation)
  }

  /** The result every `ExecuteAsync` overload returns after running: success and nothing else. */
  const Succeeded: CompilationResult := CompilationResult(true, None, None, NoLocation)

  /** `outputs.FirstOrDefault() ?? ""` */
  function FirstOrEmpty(outputs: seq<string>): (r: string)
    ensures outputs == [] ==> r == ""
    ensures outputs != [] ==> r == outputs[0]
  {
    if outputs == [] then "" else outputs[0]
  }

  /** What a failed compilation leaves: the emitted file, and no launch. */
  twostate predicate CompileFailed(host: Host, code: string, assemblyName: string, emit: Emitter)
    reads host
  {
    && host.files == old(host.files)[TempAssemblyPath(host.tempDir, assemblyName) := emit(assemblyName, code).image]
    && host.launches == old(host.launches)
  }

  /** The files just before the runner starts: the emitted image at the temporary path. */
  function Emitted(before: map<Path, string>, code: string, assemblyName: string, tempDir: string, emit: Emitter)
    : map<Path, string>
  {
    before[TempAssemblyPath(tempDir, assemblyName) := emit(assemblyName, code).image]
  }
}
