/** The closed error taxonomy of the packager, with its exit codes,
    short descriptions and display messages. */
module Errors {
  import opened Wrappers

  /** The opaque payload of an I/O failure; only its rendered text is kept. */
  datatype IoCause = IoCause(text: string)

  /** The opaque payload of a manifest parse failure; only its rendered text is kept. */
  datatype TomlCause = TomlCause(text: string)

  datatype Error =
    | Build(msg: string)        // building the release binary failed
    | Compile(msg: string)      // the installer compiler failed
    | Generic(msg: string)      // any other failure, described by its message
    | Io(io: IoCause)           // an I/O operation failed
    | Link(msg: string)         // the installer linker failed
    | Manifest(field: string)   // a required manifest field is missing
    | Sign(msg: string)         // signing the installer failed
    | Toml(toml: TomlCause)     // the manifest could not be parsed

  /** True when both errors are the same variant, whatever they carry. */
  predicate SameVariant(a: Error, b: Error)
  {
    || (a.Build? && b.Build?)
    || (a.Compile? && b.Compile?)
    || (a.Generic? && b.Generic?)
    || (a.Io? && b.Io?)
    || (a.Link? && b.Link?)
    || (a.Manifest? && b.Manifest?)
    || (a.Sign? && b.Sign?)
    || (a.Toml? && b.Toml?)
  }

  /** The exit code of an error: a non-zero value, one per variant. */
  function Code(e: Error): (c: int)
    ensures 1 <= c <= 8
  {
    match e
    case Build(_) => 1
    case Compile(_) => 2
    case Generic(_) => 3
    case Io(_) => 4
    case Link(_) => 5
    case Manifest(_) => 6
    case Sign(_) => 7
    case Toml(_) => 8
  }

  /** Codes are a faithful tag: two errors share a code exactly when they are
      the same variant, so code equality can be used to compare errors. */
  lemma CodeIdentifiesVariant(a: Error, b: Error)
    ensures Code(a) == Code(b) <==> SameVariant(a, b)
  {
  }

  /** The short description of an error: the variant's name. */
  function Description(e: Error): (d: string)
    ensures |d| > 0
  {
    match e
    case Build(_) => "Build"
    case Compile(_) => "Compile"
    case Generic(_) => "Generic"
    case Io(_) => "Io"
    case Link(_) => "Link"
    case Manifest(_) => "Manifest"
    case Sign(_) => "Sign"
    case Toml(_) => "TOML"
  }

  /** Descriptions, like codes, tell the variants apart. */
  lemma DescriptionIdentifiesVariant(a: Error, b: Error)
    ensures Description(a) == Description(b) <==> SameVariant(a, b)
  {
  }

  const ManifestMessagePrefix: string := "No '"
  const ManifestMessageSuffix: string := "' field found in the package's manifest (Cargo.toml)"

  /** The display message of an error. A missing manifest field is named
      between the fixed prefix and suffix; every other variant shows its
      payload's text unchanged. */
  function Message(e: Error): (m: string)
    ensures e.Manifest? ==>
              && |m| == |ManifestMessagePrefix| + |e.field| + |ManifestMessageSuffix|
              && m[..|ManifestMessagePrefix|] == ManifestMessagePrefix
              && m[|ManifestMessagePrefix|..|ManifestMessagePrefix| + |e.field|] == e.field
              && m[|ManifestMessagePrefix| + |e.field|..] == ManifestMessageSuffix
    ensures !e.Manifest? ==> m == Payload(e)
  {
    match e
    case Build(msg) => msg
    case Compile(msg) => msg
    case Generic(msg) => msg
    case Io(err) => err.text
    case Link(msg) => msg
    case Manifest(field) => ManifestMessagePrefix + field + ManifestMessageSuffix
    case Sign(msg) => msg
    case Toml(err) => err.text
  }

  /** The text an error carries, for the variants that carry text. */
  function Payload(e: Error): string
    requires !e.Manifest?
  {
    if e.Io? then e.io.text
    else if e.Toml? then e.toml.text
    else e.msg
  }

  /** The message of a missing-field error determines the field: two
      different missing fields are never reported with the same words. */
  lemma ManifestMessageInjective(a: string, b: string)
    ensures Message(Manifest(a)) == Message(Manifest(b)) <==> a == b
  {
    var ma, mb := Message(Manifest(a)), Message(Manifest(b));
    if ma == mb {
      var p := |ManifestMessagePrefix|;
      assert |a| == |b|;
      assert a == ma[p..p + |a|] == mb[p..p + |b|] == b;
    }
  }

  /** The underlying cause of an error, rendered as text: only the wrapped
      I/O and parse failures have one, and it reads as the error itself. */
  function Cause(e: Error): (c: Option<string>)
    ensures c.Some? <==> Code(e) == 4 || Code(e) == 8
    ensures c.Some? ==> c.value == Message(e)
  {
    match e
    case Io(err) => Some(err.text)
    case Toml(err) => Some(err.text)
    case _ => None
  }
}
