/** The `foreach (var input in inputs)` loop that all three runners share: one launch per input,
    in input order and with no early stop, standard input written only for a non-empty input,
    and what `keep` makes of each run's streams ("stderr wins, trimmed" in the two assembly
    runners, the concatenation in the execution service). The loop touches no file, so every
    launch sees the same assembly and side-car on disk. */
module Runs {
  import opened Paths
  import opened RuntimeConfig
  import opened Processes
  import opened Platform

  method RunEachInput(host: Host, assembly: Path, inputs: seq<Input>, keep: Streams -> string)
    returns (outputs: seq<string>)
    modifies host`launches
    ensures var image, config := host.Contents(assembly), host.Contents(SideCarPath(assembly));
            host.launches == old(host.launches) + LaunchesOf(assembly, image, config, PlanPerInput(inputs))
    ensures |outputs| == |inputs|
    ensures var image, config := host.Contents(assembly), host.Contents(SideCarPath(assembly));
            forall i :: 0 <= i < |inputs| ==>
              outputs[i] == keep(host.program(Launch(assembly, image, config, StdinFor(inputs[i]))))
  {
    var image, config := host.Contents(assembly), host.Contents(SideCarPath(assembly));
    ghost var before := host.launches;
    ghost var launched: seq<Launch> := [];
    outputs := [];
    for i := 0 to |inputs|
      invariant |outputs| == i && |launched| == i
      invariant forall k :: 0 <= k < i ==>
                  outputs[k] == keep(host.program(Launch(assembly, image, config, StdinFor(inputs[k]))))
      invariant forall k :: 0 <= k < i ==> launched[k] == Launch(assembly, image, config, StdinFor(inputs[k]))
      invariant host.launches == before + launched
    {
      var streams := host.Run(assembly, StdinFor(inputs[i]));
      launched := launched + [Launch(assembly, image, config, StdinFor(inputs[i]))];
      outputs := outputs + [keep(streams)];
    }
    LaunchedPerInput(assembly, image, config, inputs, launched);
  }
}
