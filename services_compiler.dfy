/** The second-generation facade (`CSharpCompiler` in Services/CsharpCompiler.cs). Its
    `InMemoryAssembly_<guid>` name is drawn once per instance, so every compilation of one
    instance targets the same file; execution goes through the second-generation runner
    (Services/AssemblyRunner.cs). */
module ServicesCompiler {
  import opened Wrappers
  import opened Paths
  import opened RuntimeConfig
  import opened Processes
  import opened Platform
  import opened Compilation
  import ServicesAssemblyRunner

  /** One instance, identified by its fixed `AssemblyName`. */
  datatype CSharpCompiler = CSharpCompiler(assemblyName: string)
  {
    /** `CanCompileAsync`: emit to memory; failure reports the Error-severity diagnostics. */
    function CanCompile(code: string, emit: Emitter): (r: CompilationResult)
      ensures r.isSuccess == emit(assemblyName, code).success
      ensures r.errors == if r.isSuccess then None else Some(ErrorMessages(emit(assemblyName, code).diagnostics))
      ensures r.warnings.None? && r.assemblyLocation == NoLocation
    {
      CheckResult(emit(assemblyName, code))
    }

    /** The result `CompileAsync` returns: the location is `<temp>/<AssemblyName>.dll`, the
        same file whatever the code, and is reported on both outcomes. */
    function Compiled(code: string, tempDir: string, emit: Emitter): (r: CompilationResultWithAssembly)
      ensures r.assemblyLocation == Path(tempDir, assemblyName + ".dll")
      ensures SideCarPath(r.assemblyLocation) == Path(tempDir, assemblyName + ".runtimeconfig.json")
      ensures r.isSuccess == emit(assemblyName, code).success
      ensures r.errors == if r.isSuccess then None else Some(ErrorMessages(emit(assemblyName, code).diagnostics))
    {
      CompiledSideCar(tempDir, assemblyName);
      CompileResult(emit(assemblyName, code), TempAssemblyPath(tempDir, assemblyName))
    }

    /** `CompileAsync`: the emit writes its image to the instance's one temporary path,
        replacing what an earlier compilation of this instance left there. */
    method Compile(host: Host, code: string, emit: Emitter) returns (compiled: CompilationResultWithAssembly)
      modifies host`files
      ensures compiled == Compiled(code, host.tempDir, emit)
      ensures host.files == old(host.files)[compiled.assemblyLocation := emit(assemblyName, code).image]
    {
      var location := TempAssemblyPath(host.tempDir, assemblyName);
      var result := emit(assemblyName, code);
      host.WriteAllText(location, result.image);
      compiled := CompileResult(result, location);
    }

    /** `ExecuteAsync(code, input)`: on failure the compile errors, `""` and no run; otherwise
        the runner gets exactly `[input]`, its one launch runs the image just emitted with the
        config beside it, and the answer is that run's selected output. */
    method ExecuteSingle(host: Host, code: string, input: string, emit: Emitter)
      returns (result: CompilationResult, output: string)
      modifies host`files, host`launches
      ensures var compiled := Compiled(code, host.tempDir, emit);
              !compiled.isSuccess ==>
                result == Failed(compiled) && output == "" && CompileFailed(host, code, assemblyName, emit)
      ensures var compiled := Compiled(code, host.tempDir, emit);
              var location := compiled.assemblyLocation;
              var launch := Launch(location, Some(emit(assemblyName, code).image), Some(Content), StdinFor(Some(input)));
              compiled.isSuccess ==>
                && result == Succeeded
                && output == SelectOutput(host.program(launch))
                && host.launches == old(host.launches) + [launch]
                && ServicesAssemblyRunner.CleanedUp(host, Emitted(old(host.files), code, assemblyName, host.tempDir, emit), location)
    {
      var compiled := Compile(host, code, emit);
      if !compiled.isSuccess {
        return Failed(compiled), "";
      }
      var outputs := ServicesAssemblyRunner.RunAssembly(host, compiled.assemblyLocation, [Some(input)]);
      return Succeeded, FirstOrEmpty(outputs);
    }

    /** `ExecuteAsync(code, inputs)`: on failure the compile errors, `[]` and no run; otherwise
        one selected output per input, in order (none at all for an empty list), each from a
        launch of the image just emitted. */
    method ExecuteMany(host: Host, code: string, inputs: seq<Input>, emit: Emitter)
      returns (result: CompilationResult, outputs: seq<string>)
      modifies host`files, host`launches
      ensures var compiled := Compiled(code, host.tempDir, emit);
              !compiled.isSuccess ==>
                result == Failed(compiled) && outputs == [] && CompileFailed(host, code, assemblyName, emit)
      ensures var compiled := Compiled(code, host.tempDir, emit);
              var location := compiled.assemblyLocation;
              var image := Some(emit(assemblyName, code).image);
              compiled.isSuccess ==>
                && result == Succeeded
                && |outputs| == |inputs|
                && (forall i :: 0 <= i < |inputs| ==>
                      outputs[i] == SelectOutput(host.program(Launch(location, image, Some(Content), StdinFor(inputs[i])))))
                && host.launches == old(host.launches) + LaunchesOf(location, image, Some(Content), PlanPerInput(inputs))
                && ServicesAssemblyRunner.CleanedUp(host, Emitted(old(host.files), code, assemblyName, host.tempDir, emit), location)
    {
      var compiled := Compile(host, code, emit);
      if !compiled.isSuccess {
        return Failed(compiled), [];
      }
      outputs := ServicesAssemblyRunner.RunAssembly(host, compiled.assemblyLocation, inputs);
      result := Succeeded;
    }

    /** `ExecuteAsync(code)`: on failure the compile errors, `[]` and no run; otherwise the
        runner gets `[null]`, so exactly one launch of the image just emitted with nothing on
        standard input, and its whole one-element list comes back. */
    method ExecuteNoInput(host: Host, code: string, emit: Emitter)
      returns (result: CompilationResult, outputs: seq<string>)
      modifies host`files, host`launches
      ensures var compiled := Compiled(code, host.tempDir, emit);
              !compiled.isSuccess ==>
                result == Failed(compiled) && outputs == [] && CompileFailed(host, code, assemblyName, emit)
      ensures var compiled := Compiled(code, host.tempDir, emit);
              var location := compiled.assemblyLocation;
              var launch := Launch(location, Some(emit(assemblyName, code).image), Some(Content), LeftOpen);
              compiled.isSuccess ==>
                && result == Succeeded
                && outputs == [SelectOutput(host.program(launch))]
                && host.launches == old(host.launches) + [launch]
                && ServicesAssemblyRunner.CleanedUp(host, Emitted(old(host.files), code, assemblyName, host.tempDir, emit), location)
    {
      var compiled := Compile(host, code, emit);
      if !compiled.isSuccess {
        return Failed(compiled), [];
      }
      outputs := ServicesAssemblyRunner.RunAssembly(host, compiled.assemblyLocation, [None]);
      result := Succeeded;
    }
  }
}
