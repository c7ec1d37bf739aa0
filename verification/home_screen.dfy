/** The home screen: the workspace list and its search box. */
module HomeScreen {

  import opened Seqs
  import opened Strings

  datatype Workspace = Workspace(id: string, name: string, lastUpdated: string)

  /** The stand-in workspace list the screen shows and searches. */
  const MockWorkspaces: seq<Workspace> := [
    Workspace("1", "Design Team", "2h ago"),
    Workspace("2", "Marketing Project", "3h ago"),
    Workspace("3", "Client A Workspace", "3h ago"),
    Workspace("4", "Development", "3h ago"),
    Workspace("5", "Research", "day ago")
  ]

  /** The search callback: the lower-cased name contains the lower-cased
      query, which is not trimmed. */
  function MatchesQuery(query: string): Workspace -> bool {
    (w: Workspace) => Includes(ToLower(w.name), ToLower(query))
  }

  /** The list shown for `query`: everything for a blank query; otherwise
      exactly the workspaces whose name contains the query without regard
      to ASCII case, in list order. */
  function SearchResult(query: string): (r: seq<Workspace>)
    ensures IsBlank(query) ==> r == MockWorkspaces
    ensures !IsBlank(query) ==>
              forall w :: w in r <==> w in MockWorkspaces && exists i :: OccursAt(ToLower(w.name), ToLower(query), i)
    ensures SubseqOf(r, MockWorkspaces)
  {
    if IsBlank(query) then
      SubseqOfSelf(MockWorkspaces);
      MockWorkspaces
    else
      Filter(MockWorkspaces, MatchesQuery(query))
  }

  /** The search does not see the case of the query: a query and its
      lower-cased form match the same workspaces. */
  lemma MatchesQueryIgnoresCase(query: string, w: Workspace)
    ensures MatchesQuery(query)(w) == MatchesQuery(ToLower(query))(w)
  {
    ToLowerIdempotent(query);
  }

  /** Typing the query in another case shows the same list. */
  lemma SearchIgnoresCase(query: string)
    ensures SearchResult(query) == SearchResult(ToLower(query))
  {
    ToLowerKeepsBlank(query);
    ToLowerIdempotent(query);
    FilterSame(MockWorkspaces, MatchesQuery(query), MatchesQuery(ToLower(query)));
  }

  class HomeScreen {
    var searchQuery: string
    var workspaces: seq<Workspace>

    /** No query, and the whole list. */
    constructor ()
      ensures searchQuery == "" && workspaces == MockWorkspaces
    {
      searchQuery := "";
      workspaces := MockWorkspaces;
    }

    /** `onChangeSearch(query)`: the raw query is kept, and the list is
        recomputed from the full list, so it depends on this query alone. */
    method OnChangeSearch(query: string)
      modifies this
      ensures searchQuery == query && workspaces == SearchResult(query)
    {
      searchQuery := query;
      if Trim(query) == "" {
        workspaces := MockWorkspaces;
      } else {
        workspaces := Filter(MockWorkspaces, MatchesQuery(query));
      }
    }
  }
}
