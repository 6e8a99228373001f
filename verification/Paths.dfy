/** Absolute or root-relative paths as their components, without resolving anything. */
module Paths {
  type Path = seq<string>

  predicate IsPrefix(prefix: Path, path: Path) {
    |prefix| < |path| && path[..|prefix|] == prefix
  }

  predicate IsPrefixOrSame(prefix: Path, path: Path) {
    prefix == path || IsPrefix(prefix, path)
  }

  function Parent(path: Path): Path
    requires path != []
  {
    path[..|path| - 1]
  }
}
