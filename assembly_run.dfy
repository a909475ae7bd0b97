/** The first-generation runner (`AssemblyRunner.RunAssemblyAsync` in AssemblyRun.cs): writes
    the side-car, runs the assembly once per input (once with no input for a null or empty
    list), keeps "stderr wins, trimmed" per run, then deletes the assembly and the side-car in
    two independent best-effort attempts. */
module AssemblyRun {
  import opened Wrappers
  import opened Paths
  import opened RuntimeConfig
  import opened Processes
  import opened Platform
  import opened Runs

  /** The files left after two separate `try { File.Delete(..) } catch { }` statements: each
      path is gone unless it is there and locked, whatever happened to the other; nothing else
      changes. */
  function IndependentDeletes(fs: map<Path, string>, locked: set<Path>, artifact: Path, sideCar: Path)
    : (r: map<Path, string>)
    ensures artifact in r <==> artifact in fs && artifact in locked
    ensures sideCar in r <==> sideCar in fs && sideCar in locked
    ensures forall p :: p in r ==> p in fs && r[p] == fs[p]
    ensures forall p :: p in fs && p != artifact && p != sideCar ==> p in r
  {
    var afterArtifact := if artifact in fs && artifact in locked then fs else fs - {artifact};
    if sideCar in afterArtifact && sideCar in locked then afterArtifact else afterArtifact - {sideCar}
  }

  /** The two best-effort deletes, each in its own `try`. */
  method DeleteIndependently(host: Host, artifact: Path, sideCar: Path)
    modifies host`files
    ensures host.files == IndependentDeletes(old(host.files), host.locked, artifact, sideCar)
  {
    var _ := host.Delete(artifact);
    var _ := host.Delete(sideCar);
  }

  /** The files after a run of `assembly` that started from `before`: the side-car was
      (over)written with the config, then both deletes were attempted. */
  predicate CleanedUp(host: Host, before: map<Path, string>, assembly: Path)
    reads host
  {
    var sideCar := SideCarPath(assembly);
    host.files == IndependentDeletes(before[sideCar := Content], host.locked, assembly, sideCar)
  }

  /** `RunAssemblyAsync`. The side-car is written before the first launch, so every launch sees
      the config, and the assembly as it was on disk when the call began. */
  method RunAssembly(host: Host, assembly: Path, inputs: Option<seq<Input>>) returns (outputs: seq<string>)
    modifies host`files, host`launches
    ensures var image, plan := old(host.Contents(assembly)), PlanWithDefaultRun(inputs);
            host.launches == old(host.launches) + LaunchesOf(assembly, image, Some(Content), plan)
    ensures |outputs| == |PlanWithDefaultRun(inputs)|
    ensures var image, plan := old(host.Contents(assembly)), PlanWithDefaultRun(inputs);
            forall i :: 0 <= i < |outputs| ==>
              outputs[i] == SelectOutput(host.program(Launch(assembly, image, Some(Content), plan[i])))
    ensures CleanedUp(host, old(host.files), assembly)
  {
    var sideCar := SideCarPath(assembly);
    host.WriteAllText(sideCar, Content);
    if inputs.None? || |inputs.value| == 0 {
      var streams := host.Run(assembly, LeftOpen);
      outputs := [SelectOutput(streams)];
    } else {
      outputs := RunEachInput(host, assembly, inputs.value, SelectOutput);
    }
    DeleteIndependently(host, assembly, sideCar);
  }
}
