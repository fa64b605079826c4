/** The server list page: a name/id search over the user's servers and
    the choice between loading placeholders, a full-page error, the grid of
    cards, and the two "nothing to show" notices. */
module VpsList {
  import opened Common

  datatype VpsInstance = VpsInstance(id: string, name: string, status: string)

  function Searched(instances: seq<VpsInstance>, term: string): (r: seq<VpsInstance>)
    ensures IsSubseq(r, instances)
    ensures forall i :: 0 <= i < |r| ==> MatchesTerm(r[i].name, term) || MatchesTerm(r[i].id, term)
    ensures forall i ::
      (0 <= i < |instances| && (MatchesTerm(instances[i].name, term) || MatchesTerm(instances[i].id, term)))
      ==> instances[i] in r && multiset(r)[instances[i]] == multiset(instances)[instances[i]]
    ensures multiset(r) <= multiset(instances)
  {
    var keep := (v: VpsInstance) => MatchesTerm(v.name, term) || MatchesTerm(v.id, term);
    FilterIsSubseq(instances, keep);
    Filter(instances, keep)
  }

  /** An empty search lists every server, in order. */
  lemma EmptySearchListsAll(instances: seq<VpsInstance>)
    ensures Searched(instances, "") == instances
  {
    var keep := (v: VpsInstance) => MatchesTerm(v.name, "") || MatchesTerm(v.id, "");
    forall i | 0 <= i < |instances|
      ensures keep(instances[i])
    {
      EmptyTermMatches(instances[i].name);
    }
    FilterKeepsAll(instances, keep);
  }

  /** An error message counts only when it is not empty. */
  predicate HasError(error: Option<string>)
  {
    error.Some? && error.value != ""
  }

  datatype MainArea = Placeholders | FullPageError | Grid(cards: seq<VpsInstance>)

  datatype Notice = NoMatch | NoInstances

  /** What the page shows: an error banner, the main area, and at most one
      notice. */
  datatype View = View(banner: Option<string>, main: MainArea, notice: Option<Notice>)

  function PageView(loading: bool, error: Option<string>, instances: seq<VpsInstance>, term: string): (r: View)
    ensures r.banner.Some? <==> HasError(error)
    ensures loading ==> r.main == Placeholders && r.notice == None
    ensures r.main.Grid? ==> r.main.cards == Searched(instances, term)
  {
    var shown := Searched(instances, term);
    View(
      if HasError(error) then error else None,
      if loading then Placeholders
      else if HasError(error) && |instances| == 0 then FullPageError
      else Grid(shown),
      if !loading && !HasError(error) && |shown| == 0 && |instances| > 0 then Some(NoMatch)
      else if !loading && !HasError(error) && |instances| == 0 then Some(NoInstances)
      else None)
  }

  /** The full-page error replaces the grid only when nothing was ever
      loaded; servers loaded before an error stay listed under the banner. */
  lemma ErrorKeepsLoadedServers(error: Option<string>, instances: seq<VpsInstance>, term: string)
    requires HasError(error)
    ensures PageView(false, error, instances, term).banner == error
    ensures PageView(false, error, instances, term).main.FullPageError? <==> instances == []
    ensures PageView(false, error, instances, term).notice == None
  {
  }

  /** A notice appears only when loading is over without error, and then
      it tells the truth: no server at all, or none matching the search. */
  lemma NoticesAreTruthful(loading: bool, error: Option<string>, instances: seq<VpsInstance>, term: string)
    ensures var v := PageView(loading, error, instances, term);
      (v.notice.Some? ==> !loading && !HasError(error) && v.main == Grid([]))
      && (v.notice == Some(NoInstances) <==> !loading && !HasError(error) && instances == [])
      && (v.notice == Some(NoMatch) <==> !loading && !HasError(error) && instances != [] && Searched(instances, term) == [])
  {
    var shown := Searched(instances, term);
    if instances == [] {
      assert shown == [] by { assert |shown| <= |instances| by { SubseqShorter(shown, instances); } }
    }
  }}
