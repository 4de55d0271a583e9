/** Slash-separated path helpers standing in for Go's filepath.Dir and
    filepath.Join on a Unix-like system, without the lexical clean-up those apply. */
module Paths {
  import opened Wrappers
  import opened Text

  /** All but the last element: "." when there is no slash, "/" for a root-level name. */
  function Dir(p: string): (d: string)
    ensures d != ""
    ensures d == "." || d == "/" || d < p
  {
    match LastIndex(p, '/')
    case None => "."
    case Some(i) => if i == 0 then "/" else p[..i]
  }

  /** `name` appended to `dir` with one separator between them. */
  function Join(dir: string, name: string): (p: string)
    ensures dir == "" ==> p == name
    ensures dir != "" ==> dir <= p
  {
    if dir == "" then name
    else if dir[|dir| - 1] == '/' then dir + name
    else dir + "/" + name
  }

  predicate IsName(s: string) {
    s != [] && forall j :: 0 <= j < |s| ==> s[j] != '/'
  }

  /** Dir undoes Join for a single name under a directory without a trailing slash. */
  lemma DirOfJoin(dir: string, name: string)
    requires dir != "" && dir[|dir| - 1] != '/' && IsName(name)
    ensures Dir(Join(dir, name)) == dir
  {
    assert Join(dir, name) == dir + ['/'] + name;
    LastIndexAtJoint(dir, '/', name);
    assert (dir + ['/'] + name)[..|dir|] == dir;
  }
}
