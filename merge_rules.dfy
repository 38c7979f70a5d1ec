/** The name-keyed rules the showcase applies to its working list once it is
    ranked: two substitutions by auxiliary records, a swap of the `library`
    and `substrate-connect` entries, and the dashboard link override. Each
    rule is a function of the list it receives; `Merge` runs them in the
    loader's order. */
module MergeRules {
  import opened Repos

  /** The entry the `polkadot-ui/library` record replaces. */
  const LibrarySentinel := "sc-simple-demo"
  /** The entry the `paritytech/substrate-connect` record replaces. */
  const ParachainSentinel := "sc-parachain-demo"
  const LibraryName := "library"
  const SubstrateConnectName := "substrate-connect"
  const DashboardName := "dashboard"
  const DashboardUrl := "https://github.com/polkadot-fellows/dashboard"

  /** When an auxiliary record was fetched, it takes the slot of the first
      entry called `sentinel` wholesale; with no record, or no such entry,
      the list is left as it is. */
  function Substitute(s: seq<Repo>, sentinel: string, replacement: Option<Repo>): (r: seq<Repo>)
    ensures |r| == |s|
    ensures replacement.None? || Lacks(s, sentinel) ==> r == s
    ensures forall i :: FirstNamed(s, sentinel, i) && replacement.Some? ==> r == s[i := replacement.value]
  {
    if replacement.None? then s
    else
      var i := IndexOfName(s, sentinel);
      if i == -1 then s else s[i := replacement.value]
  }

  /** When both names occur, the first entry called `first` and the first
      called `second` trade places; otherwise nothing moves. */
  function SwapNamed(s: seq<Repo>, first: string, second: string): (r: seq<Repo>)
    ensures |r| == |s|
    ensures multiset(r) == multiset(s)
    ensures Lacks(s, first) || Lacks(s, second) ==> r == s
    ensures forall i, j :: FirstNamed(s, first, i) && FirstNamed(s, second, j) ==> r == s[i := s[j]][j := s[i]]
  {
    var i, j := IndexOfName(s, first), IndexOfName(s, second);
    if i == -1 || j == -1 then s
    else
      MultisetSwap(s, i, j);
      s[i := s[j]][j := s[i]]
  }

  /** Exchanging two entries keeps the same records. */
  lemma MultisetSwap(s: seq<Repo>, i: nat, j: nat)
    requires i < |s| && j < |s|
    ensures multiset(s[i := s[j]][j := s[i]]) == multiset(s)
  {
  }

  /** `dashboardRepo.html_url = ...` on the first entry called `dashboard`:
      that entry gets the fellowship dashboard's link and keeps every other
      field; no other entry changes. */
  function OverrideDashboard(s: seq<Repo>): (r: seq<Repo>)
    ensures |r| == |s|
    ensures forall i :: 0 <= i < |s| ==> r[i].(html_url := s[i].html_url) == s[i]
    ensures Lacks(s, DashboardName) ==> r == s
    ensures forall i :: FirstNamed(s, DashboardName, i) ==> r == s[i := s[i].(html_url := DashboardUrl)]
  {
    var i := IndexOfName(s, DashboardName);
    if i == -1 then s else s[i := s[i].(html_url := DashboardUrl)]
  }

  /** The rules in the loader's order: each search sees the list the
      previous rule produced. */
  function Merge(w: seq<Repo>, library: Option<Repo>, substrateConnect: Option<Repo>): (r: seq<Repo>)
    ensures |r| == |w|
  {
    var withLibrary := Substitute(w, LibrarySentinel, library);
    var withSubstrateConnect := Substitute(withLibrary, ParachainSentinel, substrateConnect);
    var swapped := SwapNamed(withSubstrateConnect, LibraryName, SubstrateConnectName);
    OverrideDashboard(swapped)
  }

  /** A slot whose record no rule looks for keeps that record: neither an
      unmatched sentinel (its auxiliary fetch failed) nor any other record
      without one of the special names is moved or changed. */
  lemma MergeKeepsSlot(w: seq<Repo>, library: Option<Repo>, substrateConnect: Option<Repo>, i: int)
    requires 0 <= i < |w|
    requires w[i].name != LibraryName && w[i].name != SubstrateConnectName && w[i].name != DashboardName
    requires library.None? || w[i].name != LibrarySentinel
    requires substrateConnect.None? || w[i].name != ParachainSentinel
    ensures Merge(w, library, substrateConnect)[i] == w[i]
  {
  }
}
