/** The repository showcase loader (`loadRepos`): three requests settle,
    then the user's list is ranked, cut to six and rewritten by the merge
    rules in a local array, and the result is either a list to publish or
    the error flag. The requests themselves are inputs: each is what its
    `fetch` settled to. */
module Showcase {
  import opened Repos
  import opened Ranking
  import opened MergeRules

  /** How one request settled: the `fetch` promise rejected (no response),
      or a response with its `ok` status and its body, which is `None` when
      `response.json()` rejects. */
  datatype Fetch<T> = Rejected | Response(ok: bool, json: Option<T>)

  /** What the loader hands to the page: the list for `setRepos`, or
      `setReposError(true)`. */
  datatype Outcome = Ready(repos: seq<Repo>) | Errored

  /** The record an auxiliary request contributes: its body when the
      response is ok and decodes, nothing otherwise. */
  function Auxiliary(f: Fetch<Repo>): (r: Option<Repo>)
    ensures r.Some? <==> f.Response? && f.ok && f.json.Some?
    ensures r.Some? ==> r == f.json
  {
    if f.Response? && f.ok then f.json else None
  }

  /** The outcome of `loadRepos` for the three settled requests. Every
      failure ends in the same `catch`, so the order in which the code
      meets them does not matter:
      - any rejected request makes `Promise.all` reject;
      - a primary response that is not ok throws;
      - a body that does not decode (the primary's, or an ok auxiliary's)
        makes its `json()` reject.
      An auxiliary response that is not ok only skips its substitution. */
  function Load(primary: Fetch<seq<Repo>>, library: Fetch<Repo>, substrateConnect: Fetch<Repo>): (r: Outcome)
    ensures primary.Rejected? || library.Rejected? || substrateConnect.Rejected? ==> r == Errored
    ensures primary.Response? && !primary.ok ==> r == Errored
    ensures r.Ready? <==>
      && primary.Response? && primary.ok && primary.json.Some?
      && library.Response? && (library.ok ==> library.json.Some?)
      && substrateConnect.Response? && (substrateConnect.ok ==> substrateConnect.json.Some?)
    ensures r.Ready? ==> |r.repos| == Min(TopCount, |primary.json.value|) <= TopCount
  {
    if primary.Rejected? || library.Rejected? || substrateConnect.Rejected? then Errored
    else if !primary.ok || primary.json.None? then Errored
    else if library.ok && library.json.None? then Errored
    else if substrateConnect.ok && substrateConnect.json.None? then Errored
    else Ready(Merge(TopRepos(primary.json.value), Auxiliary(library), Auxiliary(substrateConnect)))
  }

  /** `topRepos.findIndex((repo) => repo.name === name)` on the working
      array. */
  method FindIndex(a: array<Repo>, name: string) returns (i: int)
    ensures i == IndexOfName(a[..], name)
  {
    i := 0;
    while i < a.Length
      invariant 0 <= i <= a.Length
      invariant Lacks(a[..i], name)
    {
      if a[i].name == name {
        assert FirstNamed(a[..], name, i);
        return;
      }
      i := i + 1;
    }
    assert a[..i] == a[..];
    i := -1;
  }

  /** `topRepos[index] = record` at the first entry called `sentinel`, when
      a record was fetched and such an entry exists. */
  method SubstituteInPlace(topRepos: array<Repo>, sentinel: string, replacement: Option<Repo>)
    modifies topRepos
    ensures topRepos[..] == Substitute(old(topRepos[..]), sentinel, replacement)
  {
    if replacement.Some? {
      var index := FindIndex(topRepos, sentinel);
      if index != -1 {
        topRepos[index] := replacement.value;
      }
    }
  }

  /** The destructuring swap of the first `library` and the first
      `substrate-connect` entries, when both exist. */
  method SwapInPlace(topRepos: array<Repo>)
    modifies topRepos
    ensures topRepos[..] == SwapNamed(old(topRepos[..]), LibraryName, SubstrateConnectName)
  {
    var libraryIndex := FindIndex(topRepos, LibraryName);
    var substrateConnectIndex := FindIndex(topRepos, SubstrateConnectName);
    if libraryIndex != -1 && substrateConnectIndex != -1 {
      topRepos[libraryIndex], topRepos[substrateConnectIndex] :=
        topRepos[substrateConnectIndex], topRepos[libraryIndex];
    }
  }

  /** The field write on the entry `find` returns for `dashboard`. */
  method OverrideDashboardInPlace(topRepos: array<Repo>)
    modifies topRepos
    ensures topRepos[..] == OverrideDashboard(old(topRepos[..]))
  {
    var dashboardIndex := FindIndex(topRepos, DashboardName);
    if dashboardIndex != -1 {
      topRepos[dashboardIndex] := topRepos[dashboardIndex].(html_url := DashboardUrl);
    }
  }

  /** The body of `loadRepos` up to publication: the working list lives in
      a fresh array that the rules update in place. */
  method ComputeShowcase(primary: Fetch<seq<Repo>>, library: Fetch<Repo>, substrateConnect: Fetch<Repo>)
    returns (outcome: Outcome)
    ensures outcome == Load(primary, library, substrateConnect)
  {
    if primary.Rejected? || library.Rejected? || substrateConnect.Rejected? {
      return Errored;
    }
    if !primary.ok || primary.json.None? {
      return Errored;
    }
    var data := primary.json.value;
    var sorted := SortByStars(data);
    var w := Slice(sorted, 0, TopCount);
    var topRepos := new Repo[|w|](k requires 0 <= k < |w| => w[k]);
    assert topRepos[..] == TopRepos(data);
    if library.ok && library.json.None? {
      return Errored;
    }
    SubstituteInPlace(topRepos, LibrarySentinel, Auxiliary(library));
    if substrateConnect.ok && substrateConnect.json.None? {
      return Errored;
    }
    SubstituteInPlace(topRepos, ParachainSentinel, Auxiliary(substrateConnect));
    SwapInPlace(topRepos);
    OverrideDashboardInPlace(topRepos);
    outcome := Ready(topRepos[..]);
  }

  /** An auxiliary response that is not ok is never fatal, and the slot its
      record would have taken keeps the user's own record. */
  lemma LibraryNotOkKeepsSentinel(data: seq<Repo>, library: Fetch<Repo>, substrateConnect: Fetch<Repo>, i: int)
    requires library.Response? && !library.ok
    requires substrateConnect.Response? && (substrateConnect.ok ==> substrateConnect.json.Some?)
    requires 0 <= i < |TopRepos(data)| && TopRepos(data)[i].name == LibrarySentinel
    ensures Load(Response(true, Some(data)), library, substrateConnect).Ready?
    ensures Load(Response(true, Some(data)), library, substrateConnect).repos[i] == TopRepos(data)[i]
  {
    MergeKeepsSlot(TopRepos(data), Auxiliary(library), Auxiliary(substrateConnect), i);
  }

  /** The same for the substrate-connect response and `sc-parachain-demo`. */
  lemma SubstrateConnectNotOkKeepsSentinel(data: seq<Repo>, library: Fetch<Repo>, substrateConnect: Fetch<Repo>, i: int)
    requires library.Response? && (library.ok ==> library.json.Some?)
    requires substrateConnect.Response? && !substrateConnect.ok
    requires 0 <= i < |TopRepos(data)| && TopRepos(data)[i].name == ParachainSentinel
    ensures Load(Response(true, Some(data)), library, substrateConnect).Ready?
    ensures Load(Response(true, Some(data)), library, substrateConnect).repos[i] == TopRepos(data)[i]
  {
    MergeKeepsSlot(TopRepos(data), Auxiliary(library), Auxiliary(substrateConnect), i);
  }
}
