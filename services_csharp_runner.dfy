/** The execution service (`CSharpRunner` in Services/CSharpRunner.cs): given a compilation,
    appends the runtime config next to the assembly, runs it once per input (once with no input
    for a null or empty list) and keeps standard output followed by standard error, untrimmed.
    It deletes nothing and hands the compilation back unchanged. */
module ServicesCSharpRunner {
  import opened Wrappers
  import opened Text
  import opened Paths
  import opened RuntimeConfig
  import opened Processes
  import opened Platform
  import opened Compilation
  import opened Runs

  /** `output + error`: the whole standard output, then the whole standard error. */
  function Concatenated(s: Streams): (r: string)
    ensures |r| == |s.stdout| + |s.stderr|
    ensures r[..|s.stdout|] == s.stdout && r[|s.stdout|..] == s.stderr
  {
    s.stdout + s.stderr
  }

  /** Where the two generations agree: a run that writes nothing on standard error and an
      already trimmed standard output gives the same string under both rules. */
  lemma ConcatenationAgreesWithSelection(s: Streams)
    requires s.stderr == "" && Bare(s.stdout)
    ensures Concatenated(s) == SelectOutput(s)
  {
    TrimUnique([], s.stdout, []);
    assert [] + s.stdout + [] == s.stdout;
    assert s.stdout + s.stderr == s.stdout;
  }

  /** Where they part: a run whose standard error holds something other than white space
      keeps its standard output here but drops it under "stderr wins". */
  lemma ConcatenationKeepsStdout(s: Streams)
    requires !AllWhiteSpace(s.stderr) && s.stdout != ""
    ensures Concatenated(s) != SelectOutput(s)
  {
    var r := SelectOutput(s);
    var c := Concatenated(s);
    var k :| Surrounds(s.stderr, k, r);
    assert |r| <= |s.stderr| < |c|;
  }

  /** The effect of `StartExecutionAsync` for the assembly at `location`, started on the files
      `before`: the config is appended to the side-car (created if missing) before any launch,
      the plan's launches happen in order, each seeing that side-car and the assembly as it was
      in `before`, and each output is the concatenation of its run's streams. Nothing is
      deleted. */
  twostate predicate Ran(host: Host, before: map<Path, string>, location: Path, inputs: Option<seq<Input>>, outputs: seq<string>)
    reads host
  {
    var sideCar := SideCarPath(location);
    var config := (if sideCar in before then before[sideCar] else "") + Content;
    var image := if location in before then Some(before[location]) else None;
    var plan := PlanWithDefaultRun(inputs);
    && host.files == before[sideCar := config]
    && host.launches == old(host.launches) + LaunchesOf(location, image, Some(config), plan)
    && |outputs| == |plan|
    && forall i :: 0 <= i < |outputs| ==>
         outputs[i] == Concatenated(host.program(Launch(location, image, Some(config), plan[i])))
  }

  /** `RunAsync`: one launch on what is on disk now, standard input written only for a
      non-empty input. */
  method RunOnce(host: Host, location: Path, input: Input) returns (output: string)
    modifies host`launches
    ensures var launch := Launch(location, host.Contents(location), host.Contents(SideCarPath(location)), StdinFor(input));
            host.launches == old(host.launches) + [launch] && output == Concatenated(host.program(launch))
  {
    var streams := host.Run(location, StdinFor(input));
    output := streams.stdout + streams.stderr;
  }

  /** `StartExecutionAsync`. */
  method StartExecution(host: Host, compilation: CompilationResult, inputs: Option<seq<Input>>)
    returns (result: CompilationResult, outputs: seq<string>)
    modifies host`files, host`launches
    ensures result == compilation
    ensures Ran(host, old(host.files), compilation.assemblyLocation, inputs, outputs)
  {
    var location := compilation.assemblyLocation;
    host.AppendAllText(SideCarPath(location), Content);
    if inputs.None? || |inputs.value| == 0 {
      var output := RunOnce(host, location, None);
      return compilation, [output];
    }
    outputs := RunEachInput(host, location, inputs.value, Concatenated);
    result := compilation;
  }

  /** `ExecuteAsync(CompilationResult, inputs)`: a failed compilation comes back as it is, with
      no output, no file written and no process launched. */
  method ExecuteCompiled(host: Host, compilation: CompilationResult, inputs: Option<seq<Input>>)
    returns (result: CompilationResult, outputs: seq<string>)
    modifies host`files, host`launches
    ensures result == compilation
    ensures !compilation.isSuccess ==>
              outputs == [] && host.files == old(host.files) && host.launches == old(host.launches)
    ensures compilation.isSuccess ==> Ran(host, old(host.files), compilation.assemblyLocation, inputs, outputs)
  {
    if !compilation.isSuccess {
      return compilation, [];
    }
    result, outputs := StartExecution(host, compilation, inputs);
  }

  /** What the injected compiler's `CompileAsync` gives back, and the assembly image it leaves
      at the location it reports (compiling to a path writes the file on either outcome). */
  datatype CompilerOutput = CompilerOutput(compilation: CompilationResult, image: string)

  /** The injected compiler, as a function of the source code. */
  type Compiler = string -> CompilerOutput

  /** `ExecuteAsync(code, inputs)`: the injected compiler writes its image at the reported
      location, then the compilation-based overload runs on that result; so a successful
      compilation's launches all see the image just compiled. */
  method Execute(host: Host, code: string, inputs: Option<seq<Input>>, compile: Compiler)
    returns (result: CompilationResult, outputs: seq<string>)
    modifies host`files, host`launches
    ensures result == compile(code).compilation
    ensures var compiled := old(host.files)[result.assemblyLocation := compile(code).image];
            !result.isSuccess ==>
              outputs == [] && host.files == compiled && host.launches == old(host.launches)
    ensures var compiled := old(host.files)[result.assemblyLocation := compile(code).image];
            result.isSuccess ==> Ran(host, compiled, result.assemblyLocation, inputs, outputs)
    ensures result.isSuccess ==>
              forall i :: |old(host.launches)| <= i < |host.launches| ==> host.launches[i].image == Some(compile(code).image)
  {
    var compiled := compile(code);
    host.WriteAllText(compiled.compilation.assemblyLocation, compiled.image);
    result, outputs := ExecuteCompiled(host, compiled.compilation, inputs);
  }
}
