/** The external commands of the four stages and their argument lists. */
module Commands {
  import opened Wrappers
  import opened Platforms
  import opened Paths
  import opened Manifest

  /** One argument: literal text, or a path passed as an OS string. */
  datatype Arg = Text(s: string) | PathArg(path: Path)

  /** One process invocation. `silenced` is set when the child's standard
      output and error are sent to the null sink. */
  datatype Command = Command(program: string, args: seq<Arg>, silenced: bool)

  const Cargo: string := "cargo"
  const Compiler: string := "candle"
  const Linker: string := "light"
  const SignTool: string := "signtool"

  /** Arguments of the release build. */
  const BuildArgs: seq<Arg> := [Text("build"), Text("--release")]

  /** The preprocessor-variable argument `-d<key>=<value>`. */
  function DefineArg(key: string, value: string): Arg
  {
    Text("-d" + key + "=" + value)
  }

  /** Arguments of the installer compiler: six variables, then the output
      object and the source. */
  function CompilerArgs(info: PackageInfo, p: Platform, wixobj: Path, wxs: Path): (args: seq<Arg>)
    ensures |args| == 9
    ensures args[6..] == [Text("-o"), PathArg(wixobj), PathArg(wxs)]
  {
    [ DefineArg("Version", info.version),
      DefineArg("Platform", Display(p)),
      DefineArg("ProductName", info.name),
      DefineArg("BinaryName", info.binName),
      DefineArg("Description", info.description),
      DefineArg("Author", info.author),
      Text("-o"),
      PathArg(wixobj),
      PathArg(wxs) ]
  }

  /** Arguments of the installer linker: the UI extension, the en-us
      culture, the compiled object, and the installer as output. */
  function LinkerArgs(wixobj: Path, msi: Path): (args: seq<Arg>)
    ensures |args| == 6
    ensures args[3] == PathArg(wixobj) && args[4] == Text("-out") && args[5] == PathArg(msi)
  {
    [Text("-ext"), Text("WixUIExtension"), Text("-cultures:en-us"), PathArg(wixobj), Text("-out"), PathArg(msi)]
  }

  /** Arguments of the signing tool: sign the installer with any available
      certificate. */
  function SignerArgs(msi: Path): (args: seq<Arg>)
    ensures |args| == 3 && args[..2] == [Text("sign"), Text("/a")] && args[2] == PathArg(msi)
  {
    [Text("sign"), Text("/a"), PathArg(msi)]
  }

  // ----- Reading argument lists back, as the external tools do -----

  /** The value the compiler sees for variable `key`: that of the first
      `-d<key>=` argument. */
  function DefinedValue(args: seq<Arg>, key: string): Option<string>
  {
    if args == [] then None
    else
      var prefix := "-d" + key + "=";
      if args[0].Text? && prefix <= args[0].s then Some(args[0].s[|prefix|..])
      else DefinedValue(args[1..], key)
  }

  /** The argument that follows the first occurrence of `flag`. */
  function FlagValue(args: seq<Arg>, flag: string): Option<Arg>
  {
    if |args| < 2 then None
    else if args[0] == Text(flag) then Some(args[1])
    else FlagValue(args[1..], flag)
  }

  /** `-d<key>=` is not a prefix of a different variable's argument: the
      keys differ before either one's '=' is reached, whatever the value. */
  lemma DefineNotShadowed(key: string, other: string, value: string)
    requires key != other
    requires key in DefineKeys && other in DefineKeys
    ensures !("-d" + key + "=" <= "-d" + other + "=" + value)
  {
    var a, b := "-d" + key + "=", "-d" + other + "=" + value;
    // Every pair of keys differs in its first or its second letter.
    assert key[0] != other[0] || key[1] != other[1];
    assert a[2] == key[0] && a[3] == key[1];
    assert b[2] == other[0] && b[3] == other[1];
  }

  /** The variable names the compiler receives. */
  const DefineKeys: seq<string> := ["Version", "Platform", "ProductName", "BinaryName", "Description", "Author"]

  /** The compiler reads back exactly the manifest's strings and the
      platform's short name: no value can hide another one, whatever text
      the values hold. */
  lemma CompilerSeesPackageInfo(info: PackageInfo, p: Platform, wixobj: Path, wxs: Path)
    ensures DefinedValue(CompilerArgs(info, p, wixobj, wxs), "Version") == Some(info.version)
    ensures DefinedValue(CompilerArgs(info, p, wixobj, wxs), "Platform") == Some(Display(p))
    ensures DefinedValue(CompilerArgs(info, p, wixobj, wxs), "ProductName") == Some(info.name)
    ensures DefinedValue(CompilerArgs(info, p, wixobj, wxs), "BinaryName") == Some(info.binName)
    ensures DefinedValue(CompilerArgs(info, p, wixobj, wxs), "Description") == Some(info.description)
    ensures DefinedValue(CompilerArgs(info, p, wixobj, wxs), "Author") == Some(info.author)
  {
    var args := CompilerArgs(info, p, wixobj, wxs);
    var values := [info.version, Display(p), info.name, info.binName, info.description, info.author];
    forall k | 0 <= k < 6
      ensures DefinedValue(args, DefineKeys[k]) == Some(values[k])
    {
      var key := DefineKeys[k];
      forall j | 0 <= j < k
        ensures !("-d" + key + "=" <= "-d" + DefineKeys[j] + "=" + values[j])
      {
        DefineNotShadowed(key, DefineKeys[j], values[j]);
      }
      forall j | 0 <= j < k
        ensures !(args[j].Text? && "-d" + key + "=" <= args[j].s)
      {
        assert args[j].s == "-d" + DefineKeys[j] + "=" + values[j];
      }
      DefinedValueAt(args, key, k, values[k]);
    }
    assert DefineKeys[1] == "Platform" && DefineKeys[2] == "ProductName" && DefineKeys[3] == "BinaryName";
    assert DefineKeys[4] == "Description" && DefineKeys[5] == "Author";
  }

  /** The first matching `-d<key>=` argument, at index `k`, decides the value. */
  lemma {:induction false} DefinedValueAt(args: seq<Arg>, key: string, k: nat, v: string)
    requires k < |args| && args[k] == DefineArg(key, v)
    requires forall j :: 0 <= j < k ==> !(args[j].Text? && "-d" + key + "=" <= args[j].s)
    ensures DefinedValue(args, key) == Some(v)
    decreases k
  {
    var prefix := "-d" + key + "=";
    if k == 0 {
      assert args[0].s == prefix + v;
      assert args[0].s[..|prefix|] == prefix;
      assert args[0].s[|prefix|..] == v;
    } else {
      DefinedValueAt(args[1..], key, k - 1, v);
    }
  }

  /** The artifacts are handed from stage to stage: the compiler's output
      object is the linker's input, and the linker's output is exactly the
      file the signing tool signs. */
  lemma StageArtifactsChain(info: PackageInfo, p: Platform, wixobj: Path, wxs: Path, msi: Path)
    ensures FlagValue(CompilerArgs(info, p, wixobj, wxs), "-o") == Some(PathArg(wixobj))
    ensures FlagValue(LinkerArgs(wixobj, msi), "-out") == Some(PathArg(msi))
  {
    var args := CompilerArgs(info, p, wixobj, wxs);
    forall j | 0 <= j < 6
      ensures args[j] != Text("-o")
    {
      assert args[j].s[1] == 'd';
    }
    FlagValueAt(args, "-o", 6);
    FlagValueAt(LinkerArgs(wixobj, msi), "-out", 4);
  }

  /** Read back as the linker reads them, its arguments load the WiX UI
      extension and select the en-us culture; the signing tool is asked to sign with any certificate. */
  lemma LinkerAndSignerFlags(wixobj: Path, msi: Path)
    ensures FlagValue(LinkerArgs(wixobj, msi), "-ext") == Some(Text("WixUIExtension"))
    ensures Text("-cultures:en-us") in LinkerArgs(wixobj, msi)
    ensures FlagValue(SignerArgs(msi), "sign") == Some(Text("/a"))
  {
    FlagValueAt(LinkerArgs(wixobj, msi), "-ext", 0);
    FlagValueAt(SignerArgs(msi), "sign", 0);
  }

  /** The first occurrence of `flag`, at index `k`, decides what follows it. */
  lemma {:induction false} FlagValueAt(args: seq<Arg>, flag: string, k: nat)
    requires k + 1 < |args| && args[k] == Text(flag)
    requires forall j :: 0 <= j < k ==> args[j] != Text(flag)
    ensures FlagValue(args, flag) == Some(args[k + 1])
    decreases k
  {
    if k > 0 {
      FlagValueAt(args[1..], flag, k - 1);
    }
  }
}
