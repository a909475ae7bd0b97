/** File-system paths, kept as a directory and a file name, with the `System.IO.Path`
    operations the pipeline uses. */
module Paths {
  datatype Path = Path(directory: string, fileName: string)

  /** Index of the last '.' of `name` (where `Path.GetFileNameWithoutExtension` cuts), or
      `|name|` when it has none. */
  function ExtensionStart(name: string): (k: nat)
    ensures k <= |name|
    ensures k < |name| ==> name[k] == '.'
    ensures forall i :: k < i < |name| ==> name[i] != '.'
    ensures k == |name| ==> forall i :: 0 <= i < |name| ==> name[i] != '.'
  {
    if |name| == 0 then 0
    else if name[|name| - 1] == '.' then |name| - 1
    else
      var k := ExtensionStart(name[..|name| - 1]);
      if k == |name| - 1 then |name| else k
  }

  /** `Path.GetDirectoryName` */
  function DirectoryName(p: Path): string {
    p.directory
  }

  /** `Path.GetFileNameWithoutExtension`: the file name up to, not including, its last '.';
      the whole name when it has no '.'. */
  function Stem(p: Path): (r: string)
    ensures r <= p.fileName
    ensures |r| < |p.fileName| ==> p.fileName[|r|] == '.'
    ensures forall i :: |r| < i < |p.fileName| ==> p.fileName[i] != '.'
    ensures |r| == |p.fileName| ==> forall i :: 0 <= i < |p.fileName| ==> p.fileName[i] != '.'
  {
    p.fileName[..ExtensionStart(p.fileName)]
  }

  /** `Path.Combine` of a directory and a plain file name. */
  function Combine(directory: string, name: string): Path {
    Path(directory, name)
  }

  /** `Path.Combine(Path.GetTempPath(), name + ".dll")`: where a compiler emits assembly `name`. */
  function TempAssemblyPath(tempDir: string, assemblyName: string): Path {
    Combine(tempDir, assemblyName + ".dll")
  }
}

/** The runtime-configuration side-car that lets `dotnet <assembly>` start a bare assembly. */
module RuntimeConfig {
  import opened Paths

  /** The net8.0 configuration every runner writes (the same text in all three runners). */
  const Content: string := "{\n  \"runtimeOptions\": {\n    \"tfm\": \"net8.0\",\n    \"framework\": {\n      \"name\": \"Microsoft.NETCore.App\",\n      \"version\": \"8.0.0\"\n    }\n  }\n}"

  /** `<dir>/<stem>.runtimeconfig.json` beside the assembly. It never coincides with the
      assembly it describes, so writing it cannot overwrite the assembly and deleting one
      never deletes the other. */
  function SideCarPath(assembly: Path): (r: Path)
    ensures r.directory == assembly.directory
    ensures r != assembly
  {
    SideCarNameIsNotArtifactName(assembly);
    Combine(DirectoryName(assembly), Stem(assembly) + ".runtimeconfig.json")
  }

  /** `<stem>.runtimeconfig.json` has a '.' after the stem's end, where the assembly's own
      file name has none, so the two names differ. */
  lemma SideCarNameIsNotArtifactName(assembly: Path)
    ensures Stem(assembly) + ".runtimeconfig.json" != assembly.fileName
  {
    var name := assembly.fileName;
    var stem := Stem(assembly);
    var c := stem + ".runtimeconfig.json";
    if |c| == |name| {
      assert c[|stem| + 14] == '.';
      assert name[|stem| + 14] != '.';
    }
  }

  /** For an assembly a compiler emitted as `<temp>/<name>.dll`, the side-car is
      `<temp>/<name>.runtimeconfig.json`, whatever dots `name` itself holds. */
  lemma CompiledSideCar(tempDir: string, assemblyName: string)
    ensures SideCarPath(TempAssemblyPath(tempDir, assemblyName))
            == Path(tempDir, assemblyName + ".runtimeconfig.json")
  {
    var file := assemblyName + ".dll";
    var n := |assemblyName|;
    var k := ExtensionStart(file);
    assert file[n] == '.' && file[n + 1] == 'd' && file[n + 2] == 'l' && file[n + 3] == 'l';
    assert k == n;
    assert file[..k] == assemblyName;
  }
}
