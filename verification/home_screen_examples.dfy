/** Searches of the home screen's workspace list. */
module HomeScreenExamples {

  import opened Seqs
  import opened Strings
  import opened HomeScreen

  /** A query of whitespace only shows the whole list. */
  lemma WhitespaceShowsEverything(query: string)
    requires AllWhitespace(query)
    ensures SearchResult(query) == MockWorkspaces
  {
    BlankIffAllWhitespace(query);
  }

  lemma DesignTeamMatches()
    ensures MatchesQuery("Design")(MockWorkspaces[0])
  {
    ToLowerAppend("Design", " Team");
    assert "Design Team" == "Design" + " Team";
    assert OccursAt(ToLower("Design Team"), ToLower("Design"), 0);
  }

  /** A name without the letter `g` in either case cannot contain
      "design". */
  lemma WithoutG(name: string)
    requires 'g' !in name && 'G' !in name
    ensures !Includes(ToLower(name), ToLower("Design"))
  {
    assert ToLower("Design")[4] == 'g';
    AbsentCharBlocks(ToLower(name), ToLower("Design"), 'g');
  }

  /** A name without the letter `d` in either case cannot contain
      "design". */
  lemma WithoutD(name: string)
    requires 'd' !in name && 'D' !in name
    ensures !Includes(ToLower(name), ToLower("Design"))
  {
    assert ToLower("Design")[0] == 'd';
    AbsentCharBlocks(ToLower(name), ToLower("Design"), 'd');
  }

  lemma MarketingMissesDesign()
    ensures !MatchesQuery("Design")(MockWorkspaces[1])
  {
    assert MockWorkspaces[1].name == "Marketing Project";
    assert 'd' !in "Marketing Project" && 'D' !in "Marketing Project";
    WithoutD(MockWorkspaces[1].name);
  }

  lemma ClientMissesDesign()
    ensures !MatchesQuery("Design")(MockWorkspaces[2])
  {
    assert MockWorkspaces[2].name == "Client A Workspace";
    assert 'g' !in "Client A Workspace" && 'G' !in "Client A Workspace";
    WithoutG(MockWorkspaces[2].name);
  }

  /** "Development" shares its first three letters with "Design" and is
      not found by it. */
  lemma DevelopmentMissesDesign()
    ensures !MatchesQuery("Design")(MockWorkspaces[3])
  {
    assert MockWorkspaces[3].name == "Development";
    assert 'g' !in "Development" && 'G' !in "Development";
    WithoutG(MockWorkspaces[3].name);
  }

  lemma ResearchMissesDesign()
    ensures !MatchesQuery("Design")(MockWorkspaces[4])
  {
    assert MockWorkspaces[4].name == "Research";
    assert 'g' !in "Research" && 'G' !in "Research";
    WithoutG(MockWorkspaces[4].name);
  }

  /** Filtering five elements of which only the first passes keeps that
      one. */
  lemma {:induction false} FilterFirstOfFive<T(!new)>(s: seq<T>, p: T -> bool)
    requires |s| == 5
    requires p(s[0]) && !p(s[1]) && !p(s[2]) && !p(s[3]) && !p(s[4])
    ensures Filter(s, p) == [s[0]]
  {
    assert Filter(s[4..], p) == [] by {
      assert s[4..][1..] == [];
    }
    assert Filter(s[3..], p) == [] by {
      assert s[3..][1..] == s[4..];
    }
    assert Filter(s[2..], p) == [] by {
      assert s[2..][1..] == s[3..];
    }
    assert Filter(s[1..], p) == [] by {
      assert s[1..][1..] == s[2..];
    }
  }

  lemma DesignNotBlank()
    ensures !IsBlank("Design")
  {
    var q := "Design";
    assert q[0] == 'D';
    SolidStartNotBlank(q);
  }

  /** Searching for "Design" finds "Design Team" only. */
  lemma SearchDesign()
    ensures SearchResult("Design") == [MockWorkspaces[0]]
  {
    var q := "Design";
    DesignNotBlank();
    DesignTeamMatches();
    MarketingMissesDesign();
    ClientMissesDesign();
    DevelopmentMissesDesign();
    ResearchMissesDesign();
    FilterFirstOfFive(MockWorkspaces, MatchesQuery(q));
  }
}
