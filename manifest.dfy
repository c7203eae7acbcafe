/** Extraction of the package metadata from an already parsed manifest. */
module Manifest {
  import opened Wrappers
  import opened Errors

  /** A parsed manifest document: tables, arrays, strings, and every other
      kind of value (numbers, booleans, dates) lumped together. */
  datatype Value =
    | Table(entries: map<string, Value>)
    | Array(items: seq<Value>)
    | Str(s: string)
    | Other

  /** What reading the manifest file produced before any field is looked up. */
  datatype ManifestSource =
    | Unreadable(io: IoCause)       // opening or reading the file failed
    | Unparsable(toml: TomlCause)   // the text is not a valid document
    | Parsed(root: Value)

  /** The strings the rest of the pipeline needs. */
  datatype PackageInfo = PackageInfo(
    version: string,
    name: string,
    description: string,
    author: string,
    binName: string)

  /** Looking a key up in a value: only a table has keys. */
  function Get(v: Value, key: string): Option<Value>
  {
    if v.Table? && key in v.entries then Some(v.entries[key]) else None
  }

  function AsStr(v: Value): Option<string>
  {
    if v.Str? then Some(v.s) else None
  }

  /** `root.package.<key>` as a string, if it is one. */
  function PackageString(root: Value, key: string): Option<string>
  {
    match Get(root, "package")
    case None => None
    case Some(pkg) =>
      match Get(pkg, key)
      case None => None
      case Some(v) => AsStr(v)
  }

  /** The first element of `root.package.authors`, if it is a string. */
  function FirstAuthor(root: Value): Option<string>
  {
    match Get(root, "package")
    case None => None
    case Some(pkg) =>
      match Get(pkg, "authors")
      case Some(Array(items)) => if |items| > 0 then AsStr(items[0]) else None
      case _ => None
  }

  /** `root.bin.name` when `bin` is a table with a string `name`; the
      package name otherwise. */
  function BinName(root: Value, pkgName: string): string
  {
    match Get(root, "bin")
    case None => pkgName
    case Some(bin) =>
      match Get(bin, "name")
      case None => pkgName
      case Some(v) => AsStr(v).UnwrapOr(pkgName)
  }

  /** The required fields in the order in which they are looked up. */
  const RequiredFields: seq<string> := ["version", "name", "description", "authors"]

  /** Reads the required fields in order, failing with the first one that is
      missing or of the wrong type, then the optional binary name. */
  function Extract(root: Value): (r: Result<PackageInfo, Error>)
    ensures r.Err? ==> r.error.Manifest? && r.error.field in RequiredFields
  {
    var version :- PackageString(root, "version").OkOr(Manifest("version"));
    var name :- PackageString(root, "name").OkOr(Manifest("name"));
    var description :- PackageString(root, "description").OkOr(Manifest("description"));
    var author :- FirstAuthor(root).OkOr(Manifest("authors"));
    Ok(PackageInfo(version, name, description, author, BinName(root, name)))
  }

  /** The whole manifest read: file errors become `Io`, parse errors `Toml`,
      and field lookup follows. */
  function Load(src: ManifestSource): (r: Result<PackageInfo, Error>)
    ensures src.Unreadable? ==> r == Err(Io(src.io))
    ensures src.Unparsable? ==> r == Err(Toml(src.toml))
    ensures src.Parsed? ==> r == Extract(src.root)
    ensures r.Err? ==> r.error.Io? || r.error.Toml? || r.error.Manifest?
  {
    match src
    case Unreadable(io) => Err(Io(io))
    case Unparsable(toml) => Err(Toml(toml))
    case Parsed(root) => Extract(root)
  }

  // ----- A declarative account of what a well-formed manifest holds -----

  /** The `package` table of the manifest, when there is one. */
  ghost predicate HasPackageTable(root: Value)
  {
    root.Table? && "package" in root.entries && root.entries["package"].Table?
  }

  /** `package.<key>` is present and is a string. */
  ghost predicate HasPackageString(root: Value, key: string)
  {
    && HasPackageTable(root)
    && key in root.entries["package"].entries
    && root.entries["package"].entries[key].Str?
  }

  /** `package.authors` is a non-empty array whose first element is a string. */
  ghost predicate HasFirstAuthor(root: Value)
  {
    && HasPackageTable(root)
    && "authors" in root.entries["package"].entries
    && root.entries["package"].entries["authors"].Array?
    && |root.entries["package"].entries["authors"].items| > 0
    && root.entries["package"].entries["authors"].items[0].Str?
  }

  /** The required field `f` is usable. */
  ghost predicate Present(root: Value, f: string)
  {
    if f == "authors" then HasFirstAuthor(root) else HasPackageString(root, f)
  }

  /** Extraction fails with `Manifest(f)` exactly for the first required
      field `f` (in lookup order) that is not usable, however many later
      fields are missing too. */
  lemma ExtractReportsFirstMissing(root: Value, i: nat)
    requires i < |RequiredFields|
    ensures Extract(root) == Err(Manifest(RequiredFields[i])) <==>
              && !Present(root, RequiredFields[i])
              && forall j :: 0 <= j < i ==> Present(root, RequiredFields[j])
  {
    PresentMeansFound(root);
  }

  /** Extraction succeeds exactly when every required field is usable, and
      then it yields exactly the manifest's strings. */
  lemma ExtractSucceedsWhenAllPresent(root: Value)
    ensures Extract(root).Ok? <==> forall f :: f in RequiredFields ==> Present(root, f)
    ensures Extract(root).Ok? ==>
              var pkg := root.entries["package"].entries;
              var info := Extract(root).value;
              && info.version == pkg["version"].s
              && info.name == pkg["name"].s
              && info.description == pkg["description"].s
              && info.author == pkg["authors"].items[0].s
              && info.binName == BinName(root, info.name)
  {
    PresentMeansFound(root);
  }

  /** The option-chained lookups agree with the declarative predicates. */
  lemma PresentMeansFound(root: Value)
    ensures forall key :: PackageString(root, key).Some? <==> HasPackageString(root, key)
    ensures FirstAuthor(root).Some? <==> HasFirstAuthor(root)
  {
  }

  /** Without a `package` table, the first field looked up is reported. */
  lemma MissingPackageReportsVersion(root: Value)
    requires !HasPackageTable(root)
    ensures Extract(root) == Err(Manifest("version"))
  {
  }

  /** Only the first author is used: whatever follows it in the list, the
      author extracted is the first one. */
  lemma OnlyFirstAuthorMatters(root: Value, first: string, rest: seq<Value>)
    requires HasPackageTable(root) && "authors" in root.entries["package"].entries
    requires root.entries["package"].entries["authors"] == Array([Str(first)] + rest)
    ensures FirstAuthor(root) == Some(first)
    ensures Extract(root).Ok? ==> Extract(root).value.author == first
  {
  }

  /** `authors` is reported missing when it is an empty array, even though
      the key is present. */
  lemma EmptyAuthorsIsMissing(root: Value)
    requires HasPackageString(root, "version") && HasPackageString(root, "name") && HasPackageString(root, "description")
    requires "authors" in root.entries["package"].entries && root.entries["package"].entries["authors"] == Array([])
    ensures Extract(root) == Err(Manifest("authors"))
  {
  }

  /** The binary name never fails: it is `bin.name` when `bin` is a table
      whose `name` is a string, and the package name in every other case. */
  lemma BinNameFallsBack(root: Value, pkgName: string)
    ensures BinName(root, pkgName) ==
              if root.Table? && "bin" in root.entries && root.entries["bin"].Table?
                 && "name" in root.entries["bin"].entries && root.entries["bin"].entries["name"].Str?
              then root.entries["bin"].entries["name"].s
              else pkgName
  {
  }

  /** A `bin` given as an array of tables (the usual `[[bin]]` form) is
      ignored, and so the package name is used. */
  lemma BinArrayIsIgnored(entries: map<string, Value>, bins: seq<Value>, pkgName: string)
    ensures BinName(Table(entries["bin" := Array(bins)]), pkgName) == pkgName
  {
  }
}
