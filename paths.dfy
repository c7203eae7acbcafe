/** Relative paths as sequences of components, the two path operations the
    packager uses, and the three artifact paths it derives. */
module Paths {
  import opened Platforms

  /** A relative path: its components in order, separators not modelled. */
  type Path = seq<string>

  /** `PathBuf::push` of a relative, single-component name. */
  function Push(p: Path, c: string): (r: Path)
    ensures |r| == |p| + 1 && r[..|p|] == p && r[|p|] == c
  {
    p + [c]
  }

  /** Index of the last '.' in `s`, or -1 when there is none. */
  function LastDot(s: string): (i: int)
    ensures -1 <= i < |s|
    ensures i >= 0 ==> s[i] == '.'
    ensures forall j :: i < j < |s| ==> s[j] != '.'
    decreases |s|
  {
    if s == [] then -1
    else if s[|s| - 1] == '.' then |s| - 1
    else LastDot(s[..|s| - 1])
  }

  /** `Path::file_stem` of a file name: the name up to its last '.', unless
      that '.' is the first character or there is none, when it is the
      whole name. The stem is shorter than the name exactly when the name
      has a '.' after its first character, and then the name's last '.'
      follows the stem directly. */
  function FileStem(name: string): (stem: string)
    ensures stem <= name
    ensures |stem| < |name| <==> exists i :: 0 < i < |name| && name[i] == '.'
    ensures |stem| < |name| ==> name[|stem|] == '.' && '.' !in name[|stem| + 1..]
  {
    var i := LastDot(name);
    if i <= 0 then name else name[..i]
  }

  /** `PathBuf::set_extension`: replaces what follows the stem of the last
      component by `.ext` (or by nothing when `ext` is empty). A path with
      no file name (empty, or ending in "..") is left unchanged. */
  function SetExtension(p: Path, ext: string): (r: Path)
    ensures |r| == |p| && (p != [] ==> r[..|p| - 1] == p[..|p| - 1])
    ensures p != [] && p[|p| - 1] != ".." ==>
              var stem := FileStem(p[|p| - 1]);
              r[|p| - 1] == if ext == "" then stem else stem + "." + ext
  {
    if p == [] || p[|p| - 1] == ".." then p
    else
      var stem := FileStem(p[|p| - 1]);
      p[..|p| - 1] + [if ext == "" then stem else stem + "." + ext]
  }

  /** On a name with no '.', `set_extension` simply appends the extension. */
  lemma SetExtensionOfPlainName(p: Path, name: string, ext: string)
    requires '.' !in name && name != ".." && ext != ""
    ensures SetExtension(p + [name], ext) == p + [name + "." + ext]
  {
  }

  /** The installer definition source. */
  const WxsPath: Path := ["wix", "main.wxs"]

  /** The compiled installer object, inside the build directory. */
  const WixobjPath: Path := ["target", "wix", "build", "main.wixobj"]

  /** The installer's file name, composed literally so that every period
      of the version survives. */
  function MsiName(name: string, version: string, p: Platform): (s: string)
    ensures |s| == |name| + |version| + |Arch(p)| + 6
    ensures s[..|name| + 1] == name + "-"
    ensures s[|name| + 1..|name| + 1 + |version|] == version
    ensures s[|name| + 1 + |version|..] == "-" + Arch(p) + ".msi"
  {
    var s := name + "-" + version + "-" + Arch(p) + ".msi";
    assert s == (name + "-") + version + ("-" + Arch(p) + ".msi");
    s
  }

  /** The installer: directly in `target/wix`, not in its build directory. */
  function MsiPath(name: string, version: string, p: Platform): (r: Path)
    ensures |r| == 3 && r[..2] == ["target", "wix"] && r[2] == MsiName(name, version, p)
    ensures r[2] != WixobjPath[2]
  {
    ["target", "wix", MsiName(name, version, p)]
  }

  /** Building the paths step by step, with pushes and `set_extension`,
      gives the artifact paths. */
  lemma ArtifactPathsFromPushes(name: string, version: string, p: Platform)
    ensures SetExtension(Push(["wix"], "main"), "wxs") == WxsPath
    ensures SetExtension(Push(Push(Push(["target"], "wix"), "build"), "main"), "wixobj") == WixobjPath
    ensures Push(Push(["target"], "wix"), MsiName(name, version, p)) == MsiPath(name, version, p)
  {
    assert '.' !in "main";
    SetExtensionOfPlainName(["wix"], "main", "wxs");
    assert Push(["wix"], "main") == ["wix"] + ["main"];
    assert "main" + "." + "wxs" == "main.wxs";
    SetExtensionOfPlainName(["target", "wix", "build"], "main", "wixobj");
    assert Push(Push(Push(["target"], "wix"), "build"), "main") == ["target", "wix", "build"] + ["main"];
    assert "main" + "." + "wixobj" == "main.wixobj";
  }

  /** Builds the three artifact paths step by step, as the packager does
      before running any tool. */
  method BuildArtifactPaths(name: string, version: string, p: Platform)
    returns (mainWxs: Path, mainWixobj: Path, mainMsi: Path)
    ensures mainWxs == WxsPath && mainWixobj == WixobjPath && mainMsi == MsiPath(name, version, p)
  {
    mainWxs := ["wix"];
    mainWxs := Push(mainWxs, "main");
    mainWxs := SetExtension(mainWxs, "wxs");
    mainWixobj := ["target"];
    mainWixobj := Push(mainWixobj, "wix");
    mainWixobj := Push(mainWixobj, "build");
    mainWixobj := Push(mainWixobj, "main");
    mainWixobj := SetExtension(mainWixobj, "wixobj");
    mainMsi := ["target"];
    mainMsi := Push(mainMsi, "wix");
    mainMsi := Push(mainMsi, MsiName(name, version, p));
    ArtifactPathsFromPushes(name, version, p);
  }

  /** Why the installer name is composed literally: with a version that
      contains a period, `set_extension("msi")` on `name-version-arch` cuts
      the name at the version's last period, dropping the last version part
      and the architecture, and so never gives the installer path. */
  lemma SetExtensionWouldCorruptVersion(name: string, version: string, p: Platform)
    requires '.' in version
    ensures var d := LastDot(version);
            && 0 <= d
            && SetExtension(Push(["target", "wix"], name + "-" + version + "-" + Arch(p)), "msi")
               == ["target", "wix", name + "-" + version[..d] + "." + "msi"]
    ensures SetExtension(Push(["target", "wix"], name + "-" + version + "-" + Arch(p)), "msi")
         != MsiPath(name, version, p)
  {
    var base := name + "-" + version + "-" + Arch(p);
    var stem := name + "-" + version[..LastDot(version)];
    StemOfJoin(name + "-", version, "-", Arch(p));
    SetExtensionOfName(["target", "wix"], base, "msi");
    var r := SetExtension(Push(["target", "wix"], base), "msi");
    assert r == ["target", "wix"] + [stem + "." + "msi"];
    assert |r[2]| < |MsiName(name, version, p)|;
  }

  /** `set_extension` on a pushed name puts the extension after its stem. */
  lemma SetExtensionOfName(dir: Path, name: string, ext: string)
    requires name != ".." && ext != ""
    ensures SetExtension(Push(dir, name), ext) == dir + [FileStem(name) + "." + ext]
  {
    assert (dir + [name])[..|dir|] == dir;
  }

  /** When `v` has a '.' and neither `w1` nor `w2` has one, the stem of
      `u + v + w1 + w2` (with `u` non-empty) ends right before the last '.'
      of `v`. */
  lemma StemOfJoin(u: string, v: string, w1: string, w2: string)
    requires u != [] && '.' in v && '.' !in w1 && '.' !in w2
    ensures 0 <= LastDot(v) && FileStem(u + v + w1 + w2) == u + v[..LastDot(v)]
  {
    var s := u + v + w1 + w2;
    LastDotOfJoin(u, v, w1, w2);
    var i := |u| + LastDot(v);
    assert FileStem(s) == s[..i];
    var t := u + v[..LastDot(v)];
    forall k | 0 <= k < i
      ensures s[k] == t[k]
    {
      if k >= |u| {
        assert s[k] == v[k - |u|];
      }
    }
    assert s[..i] == t;
  }

  /** The last '.' of `u + v + w1 + w2`, when only `v` of the last three
      parts has one, is that of `v`. */
  lemma LastDotOfJoin(u: string, v: string, w1: string, w2: string)
    requires '.' in v && '.' !in w1 && '.' !in w2
    ensures 0 <= LastDot(v) && LastDot(u + v + w1 + w2) == |u| + LastDot(v)
  {
    var s := u + v + w1 + w2;
    var i := |u| + LastDot(v);
    assert s[i] == v[LastDot(v)];
    forall j | i < j < |s|
      ensures s[j] != '.'
    {
      if j < |u| + |v| {
        assert s[j] == v[j - |u|];
      } else if j < |u| + |v| + |w1| {
        assert s[j] == w1[j - |u| - |v|];
      } else {
        assert s[j] == w2[j - |u| - |v| - |w1|];
      }
    }
  }
}
