/** The first-generation facade (`CSharpCompiler` in CsharpCompiler.cs). Every compilation gets
    a fresh `InMemoryAssembly_<guid>` name, which the model takes as a parameter; execution goes
    through the first-generation runner (AssemblyRun.cs), which the host wires in as the
    facade's `IAssemblyRunner`. */
module SdkCompiler {
  import opened Wrappers
  import opened Paths
  import opened RuntimeConfig
  import opened Processes
  import opened Platform
  import opened Compilation
  import AssemblyRun

  /** `CanCompileAsync`: emit to memory; failure reports the Error-severity diagnostics. */
  function CanCompile(code: string, assemblyName: string, emit: Emitter): (r: CompilationResult)
    ensures r.isSuccess == emit(assemblyName, code).success
    ensures r.errors == if r.isSuccess then None else Some(ErrorMessages(emit(assemblyName, code).diagnostics))
    ensures r.warnings.None? && r.assemblyLocation == NoLocation
  {
    CheckResult(emit(assemblyName, code))
  }

  /** The result `CompileAsync` returns for an emit to `<temp>/<assemblyName>.dll`. The location
      is reported on both outcomes, and its side-car is `<temp>/<assemblyName>.runtimeconfig.json`. */
  function Compiled(code: string, assemblyName: string, tempDir: string, emit: Emitter)
    : (r: CompilationResultWithAssembly)
    ensures r.assemblyLocation == Path(tempDir, assemblyName + ".dll")
    ensures SideCarPath(r.assemblyLocation) == Path(tempDir, assemblyName + ".runtimeconfig.json")
    ensures r.isSuccess == emit(assemblyName, code).success
    ensures r.errors == if r.isSuccess then None else Some(ErrorMessages(emit(assemblyName, code).diagnostics))
  {
    CompiledSideCar(tempDir, assemblyName);
    CompileResult(emit(assemblyName, code), TempAssemblyPath(tempDir, assemblyName))
  }

  /** `CompileAsync`: the emit writes its image to the temporary path, replacing whatever was
      there, and the result is `Compiled`. */
  method Compile(host: Host, code: string, assemblyName: string, emit: Emitter)
    returns (compiled: CompilationResultWithAssembly)
    modifies host`files
    ensures compiled == Compiled(code, assemblyName, host.tempDir, emit)
    ensures host.files == old(host.files)[compiled.assemblyLocation := emit(assemblyName, code).image]
  {
    var location := TempAssemblyPath(host.tempDir, assemblyName);
    var result := emit(assemblyName, code);
    host.WriteAllText(location, result.image);
    compiled := CompileResult(result, location);
  }

  /** `ExecuteAsync(code, input)`: on failure the compile errors, `""` and no run; otherwise the
      runner gets exactly `[input]`, its one launch runs the image just emitted with the config
      beside it, and the answer is that run's selected output. */
  method ExecuteSingle(host: Host, code: string, input: string, assemblyName: string, emit: Emitter)
    returns (result: CompilationResult, output: string)
    modifies host`files, host`launches
    ensures var compiled := Compiled(code, assemblyName, host.tempDir, emit);
            !compiled.isSuccess ==>
              result == Failed(compiled) && output == "" && CompileFailed(host, code, assemblyName, emit)
    ensures var compiled := Compiled(code, assemblyName, host.tempDir, emit);
            var location := compiled.assemblyLocation;
            var launch := Launch(location, Some(emit(assemblyName, code).image), Some(Content), StdinFor(Some(input)));
            compiled.isSuccess ==>
              && result == Succeeded
              && output == SelectOutput(host.program(launch))
              && host.launches == old(host.launches) + [launch]
              && AssemblyRun.CleanedUp(host, Emitted(old(host.files), code, assemblyName, host.tempDir, emit), location)
  {
    var compiled := Compile(host, code, assemblyName, emit);
    if !compiled.isSuccess {
      return Failed(compiled), "";
    }
    var outputs := AssemblyRun.RunAssembly(host, compiled.assemblyLocation, Some([Some(input)]));
    return Succeeded, FirstOrEmpty(outputs);
  }

  /** `ExecuteAsync(code, inputs)`: on failure the compile errors, `[]` and no run; otherwise the
      runner's list for `inputs` (a null list is passed on as null), as it is. */
  method ExecuteMany(host: Host, code: string, inputs: Option<seq<Input>>, assemblyName: string, emit: Emitter)
    returns (result: CompilationResult, outputs: seq<string>)
    modifies host`files, host`launches
    ensures var compiled := Compiled(code, assemblyName, host.tempDir, emit);
            !compiled.isSuccess ==>
              result == Failed(compiled) && outputs == [] && CompileFailed(host, code, assemblyName, emit)
    ensures var compiled := Compiled(code, assemblyName, host.tempDir, emit);
            var location := compiled.assemblyLocation;
            var image := Some(emit(assemblyName, code).image);
            var plan := PlanWithDefaultRun(inputs);
            compiled.isSuccess ==>
              && result == Succeeded
              && |outputs| == |plan|
              && (forall i :: 0 <= i < |outputs| ==>
                    outputs[i] == SelectOutput(host.program(Launch(location, image, Some(Content), plan[i]))))
              && host.launches == old(host.launches) + LaunchesOf(location, image, Some(Content), plan)
              && AssemblyRun.CleanedUp(host, Emitted(old(host.files), code, assemblyName, host.tempDir, emit), location)
  {
    var compiled := Compile(host, code, assemblyName, emit);
    if !compiled.isSuccess {
      return Failed(compiled), [];
    }
    outputs := AssemblyRun.RunAssembly(host, compiled.assemblyLocation, inputs);
    result := Succeeded;
  }

  /** `ExecuteAsync(code)`: on failure the compile errors, `""` and no run; otherwise the runner
      gets an empty list, which it turns into one run with nothing on standard input. */
  method ExecuteNoInput(host: Host, code: string, assemblyName: string, emit: Emitter)
    returns (result: CompilationResult, output: string)
    modifies host`files, host`launches
    ensures var compiled := Compiled(code, assemblyName, host.tempDir, emit);
            !compiled.isSuccess ==>
              result == Failed(compiled) && output == "" && CompileFailed(host, code, assemblyName, emit)
    ensures var compiled := Compiled(code, assemblyName, host.tempDir, emit);
            var location := compiled.assemblyLocation;
            var launch := Launch(location, Some(emit(assemblyName, code).image), Some(Content), LeftOpen);
            compiled.isSuccess ==>
              && result == Succeeded
              && output == SelectOutput(host.program(launch))
              && host.launches == old(host.launches) + [launch]
              && AssemblyRun.CleanedUp(host, Emitted(old(host.files), code, assemblyName, host.tempDir, emit), location)
  {
    var compiled := Compile(host, code, assemblyName, emit);
    if !compiled.isSuccess {
      return Failed(compiled), "";
    }
    var outputs := AssemblyRun.RunAssembly(host, compiled.assemblyLocation, Some([]));
    return Succeeded, FirstOrEmpty(outputs);
  }
}
