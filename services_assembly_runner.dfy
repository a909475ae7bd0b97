/** The second-generation runner (`AssemblyRunner.RunAssembly` in Services/AssemblyRunner.cs):
    writes the side-car, runs the assembly once per entry of the list (no run at all for an
    empty list), keeps "stderr wins, trimmed" per run, then deletes the assembly and the
    side-car inside a single `try`. */
module ServicesAssemblyRunner {
  import opened Wrappers
  import opened Text
  import opened Paths
  import opened RuntimeConfig
  import opened Processes
  import opened Platform
  import opened Runs

  /** The files left after `try { File.Delete(artifact); File.Delete(sideCar); } catch { }`:
      the artifact is gone unless it is there and locked; the side-car is gone only when
      neither it nor the artifact is there and locked, because a throwing first delete skips
      the second; nothing else changes. */
  function CombinedDelete(fs: map<Path, string>, locked: set<Path>, artifact: Path, sideCar: Path)
    : (r: map<Path, string>)
    ensures artifact in r <==> artifact in fs && artifact in locked
    ensures sideCar in r <==> sideCar in fs && (sideCar in locked || (artifact in fs && artifact in locked))
    ensures forall p :: p in r ==> p in fs && r[p] == fs[p]
    ensures forall p :: p in fs && p != artifact && p != sideCar ==> p in r
  {
    if artifact in fs && artifact in locked then fs
    else
      var afterArtifact := fs - {artifact};
      if sideCar in afterArtifact && sideCar in locked then afterArtifact else afterArtifact - {sideCar}
  }

  /** Both deletes in one `try`: the second runs only when the first did not throw. */
  method DeleteTogether(host: Host, artifact: Path, sideCar: Path)
    modifies host`files
    ensures host.files == CombinedDelete(old(host.files), host.locked, artifact, sideCar)
  {
    var thrown := host.Delete(artifact);
    if !thrown {
      thrown := host.Delete(sideCar);
    }
  }

  /** The files after a run of `assembly` that started from `before`: the side-car was
      (over)written with the config, then the combined delete was attempted. */
  predicate CleanedUp(host: Host, before: map<Path, string>, assembly: Path)
    reads host
  {
    var sideCar := SideCarPath(assembly);
    host.files == CombinedDelete(before[sideCar := Content], host.locked, assembly, sideCar)
  }

  /** `RunAssembly`. The side-car is written before the loop, so every launch sees the config,
      and the assembly as it was on disk when the call began. */
  method RunAssembly(host: Host, assembly: Path, inputs: seq<Input>) returns (outputs: seq<string>)
    modifies host`files, host`launches
    ensures var image := old(host.Contents(assembly));
            host.launches == old(host.launches) + LaunchesOf(assembly, image, Some(Content), PlanPerInput(inputs))
    ensures |outputs| == |inputs|
    ensures var image := old(host.Contents(assembly));
            forall i :: 0 <= i < |inputs| ==>
              outputs[i] == SelectOutput(host.program(Launch(assembly, image, Some(Content), StdinFor(inputs[i]))))
    ensures CleanedUp(host, old(host.files), assembly)
  {
    var sideCar := SideCarPath(assembly);
    host.WriteAllText(sideCar, Content);
    outputs := RunEachInput(host, assembly, inputs, SelectOutput);
    DeleteTogether(host, assembly, sideCar);
  }
}
