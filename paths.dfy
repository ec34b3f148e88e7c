/** `std::path::PathBuf` as far as the orchestrator uses it: building paths
    by pushing relative components, and `to_str`. */
module Paths {
  import opened Wrappers

  /** One component of a path. Components the orchestrator pushes are text; a
      root read from configuration is an OS path and may hold components that
      are not valid Unicode (`Raw`). */
  datatype Component = Text(text: string) | Raw(bytes: seq<bv8>)

  /** A path: whether it starts at `/`, and its components in order. */
  datatype Path = Path(absolute: bool, parts: seq<Component>)

  /** `PathBuf::push` / `Path::join` with one relative component. The name is
      kept as one component whatever it holds; it agrees with `push` for
      names that are `PlainComponent`s. */
  function Join(p: Path, c: string): Path
  {
    Path(p.absolute, p.parts + [Text(c)])
  }

  /** `to_str` succeeds exactly when every component is text. */
  predicate Representable(p: Path)
  {
    forall i :: 0 <= i < |p.parts| ==> p.parts[i].Text?
  }

  /** `s` holds no separator, so `PathBuf::push` does not split it. */
  predicate SlashFree(s: string)
  {
    forall i :: 0 <= i < |s| ==> s[i] != '/'
  }

  /** A name that `PathBuf::push` adds as exactly one component of its own:
      no separator, not empty, and neither `.` nor `..`. */
  predicate PlainComponent(s: string)
  {
    SlashFree(s) && s != "" && s != "." && s != ".."
  }

  /** The components separated by `/`. */
  function JoinParts(parts: seq<Component>): string
    requires forall i :: 0 <= i < |parts| ==> parts[i].Text?
  {
    if |parts| == 0 then ""
    else if |parts| == 1 then parts[0].text
    else JoinParts(parts[..|parts| - 1]) + "/" + parts[|parts| - 1].text
  }

  /** `Path::to_str`: `None` when some component is not text. */
  function ToStr(p: Path): Option<string>
  {
    if Representable(p) then Some((if p.absolute then "/" else "") + JoinParts(p.parts)) else None
  }

  /** Pushing a text component keeps a path representable, and cannot make an
      unrepresentable one representable. */
  lemma JoinRepresentable(p: Path, c: string)
    ensures Representable(Join(p, c)) <==> Representable(p)
  {
    var q := Join(p, c);
    if Representable(q) {
      forall i | 0 <= i < |p.parts| ensures p.parts[i].Text? {
        assert q.parts[i] == p.parts[i];
      }
    }
  }

  /** Rendering a pushed component appends it after a `/` (none after a bare root). */
  lemma ToStrJoin(p: Path, c: string)
    requires Representable(p)
    ensures Representable(Join(p, c))
    ensures ToStr(Join(p, c)) == Some(ToStr(p).value + (if p.parts == [] then "" else "/") + c)
  {
    JoinRepresentable(p, c);
    var q := Join(p, c);
    var pre := if p.absolute then "/" else "";
    if p.parts == [] {
      assert JoinParts(q.parts) == c;
      assert ToStr(p).value == pre + "" == pre;
      assert ToStr(q).value == pre + c;
    } else {
      assert q.parts[..|q.parts| - 1] == p.parts;
      assert JoinParts(q.parts) == JoinParts(p.parts) + "/" + c;
      assert ToStr(q).value == pre + (JoinParts(p.parts) + "/" + c) == ToStr(p).value + "/" + c;
    }
  }
}
