/** The repository record returned by the code-hosting API and the list
    primitives (`findIndex`, `slice`) the showcase loader builds on. */
module Repos {

  datatype Option<T> = None | Some(value: T)

  /** One repository as the loader reads it (`GithubRepo`): the fields the
      page consumes. `stars` is `stargazers_count`, never negative. */
  datatype Repo = Repo(
    id: int,
    name: string,
    html_url: string,
    description: Option<string>,
    language: Option<string>,
    stars: nat)

  function Min(a: int, b: int): int {
    if a <= b then a else b
  }

  /** `i` is the first index of `s` whose record is called `name`. */
  predicate FirstNamed(s: seq<Repo>, name: string, i: int) {
    0 <= i < |s| && s[i].name == name && forall j :: 0 <= j < i ==> s[j].name != name
  }

  /** No record of `s` is called `name`. */
  predicate Lacks(s: seq<Repo>, name: string) {
    forall j :: 0 <= j < |s| ==> s[j].name != name
  }

  /** `s.findIndex((repo) => repo.name === name)`: the first index whose
      record has that name, or -1 when there is none. */
  function IndexOfName(s: seq<Repo>, name: string): (i: int)
    ensures -1 <= i < |s|
    ensures i == -1 <==> Lacks(s, name)
    ensures i != -1 ==> FirstNamed(s, name, i)
  {
    if s == [] then -1
    else if s[0].name == name then 0
    else
      var i := IndexOfName(s[1..], name);
      if i == -1 then -1 else i + 1
  }

  /** `s.slice(from, to)` for non-negative bounds: both bounds are clamped to
      the length, and an empty range gives the empty sequence. */
  function Slice<T>(s: seq<T>, from: nat, to: nat): (r: seq<T>)
    ensures |r| == if Min(to, |s|) <= from then 0 else Min(to, |s|) - from
    ensures forall i :: 0 <= i < |r| ==> r[i] == s[from + i]
  {
    var hi := Min(to, |s|);
    if hi <= from then [] else s[from..hi]
  }
}
