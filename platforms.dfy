/** The target platform of the installer and its two names. */
module Platforms {

  datatype Platform = X86 | X64

  /** The architecture tag used in the installer's file name. It never
      contains a '.', so it cannot be mistaken for a file extension. */
  function Arch(p: Platform): (a: string)
    ensures a == "i686" <==> p == X86
    ensures a == "x86_64" <==> p == X64
    ensures '.' !in a
  {
    match p
    case X86 => "i686"
    case X64 => "x86_64"
  }

  /** The short platform name handed to the installer compiler. */
  function Display(p: Platform): (d: string)
    ensures d == "x86" <==> p == X86
    ensures d == "x64" <==> p == X64
  {
    match p
    case X86 => "x86"
    case X64 => "x64"
  }

  /** Each name identifies the platform, and the two names of a platform
      are never the same string. */
  lemma NamesIdentifyPlatform(p: Platform, q: Platform)
    ensures Arch(p) == Arch(q) <==> p == q
    ensures Display(p) == Display(q) <==> p == q
    ensures Arch(p) != Display(q)
  {
  }

  /** The platform of the host: 64-bit when the host is x86_64, 32-bit
      otherwise. The host architecture is a parameter here. */
  function Default(hostIsX86_64: bool): (p: Platform)
    ensures p == X64 <==> hostIsX86_64
  {
    if hostIsX86_64 then X64 else X86
  }
}
