/** The listing of the file table at the root and inside
    `/src/components`. */
module FileBrowserExamples {

  import opened Seqs
  import opened Strings
  import opened FileBrowser

  /** The first entry, `/src`, is the one child of the root. */
  lemma SrcAtRoot()
    ensures IsListed("/", MockFiles[0])
  {
    assert MockFiles[0] == FileItem("src", ChildPath("/", "src"), Directory);
    ChildIsListed("/", "src", Directory);
  }

  /** Every entry after the first has a second slash at index 4. */
  lemma NotAtRoot1()
    ensures !IsListed("/", MockFiles[1])
  {
    TwoSlashesNotAtRoot(MockFiles[1], 0, 4);
  }

  lemma NotAtRoot2()
    ensures !IsListed("/", MockFiles[2])
  {
    TwoSlashesNotAtRoot(MockFiles[2], 0, 4);
  }

  lemma NotAtRoot3()
    ensures !IsListed("/", MockFiles[3])
  {
    TwoSlashesNotAtRoot(MockFiles[3], 0, 4);
  }

  lemma NotAtRoot4()
    ensures !IsListed("/", MockFiles[4])
  {
    TwoSlashesNotAtRoot(MockFiles[4], 0, 4);
  }

  lemma NotAtRoot5()
    ensures !IsListed("/", MockFiles[5])
  {
    TwoSlashesNotAtRoot(MockFiles[5], 0, 4);
  }

  lemma NotAtRoot6()
    ensures !IsListed("/", MockFiles[6])
  {
    TwoSlashesNotAtRoot(MockFiles[6], 0, 4);
  }

  /** At the root only `/src` is listed: every other entry of the table
      sits one level deeper. */
  lemma RootListing()
    ensures Listing(MockFiles, "/") == [MockFiles[0]]
  {
    var p := ListedIn("/");
    assert Filter(MockFiles[6..], p) == [] by {
      NotAtRoot6();
      assert MockFiles[6..][1..] == [];
    }
    assert Filter(MockFiles[5..], p) == [] by {
      NotAtRoot5();
      assert MockFiles[5..][1..] == MockFiles[6..];
    }
    assert Filter(MockFiles[4..], p) == [] by {
      NotAtRoot4();
      assert MockFiles[4..][1..] == MockFiles[5..];
    }
    assert Filter(MockFiles[3..], p) == [] by {
      NotAtRoot3();
      assert MockFiles[3..][1..] == MockFiles[4..];
    }
    assert Filter(MockFiles[2..], p) == [] by {
      NotAtRoot2();
      assert MockFiles[2..][1..] == MockFiles[3..];
    }
    assert Filter(MockFiles[1..], p) == [] by {
      NotAtRoot1();
      assert MockFiles[1..][1..] == MockFiles[2..];
    }
    SrcAtRoot();
  }

  /** The three files of `/src/components` are its children. */
  lemma ButtonInComponents()
    ensures IsListed("/src/components", MockFiles[2])
  {
    assert MockFiles[2] == FileItem("Button.js", ChildPath("/src/components", "Button.js"), File);
    ChildIsListed("/src/components", "Button.js", File);
  }

  lemma HeaderInComponents()
    ensures IsListed("/src/components", MockFiles[3])
  {
    assert MockFiles[3] == FileItem("Header.js", ChildPath("/src/components", "Header.js"), File);
    ChildIsListed("/src/components", "Header.js", File);
  }

  lemma IndexInComponents()
    ensures IsListed("/src/components", MockFiles[4])
  {
    assert MockFiles[4] == FileItem("index.js", ChildPath("/src/components", "index.js"), File);
    ChildIsListed("/src/components", "index.js", File);
  }

  /** `/src` is shorter than `/src/components`, so it is not listed
      there. */
  lemma SrcNotInComponents()
    ensures !IsListed("/src/components", MockFiles[0])
  {
  }

  /** A directory has no extra part over itself. */
  lemma ComponentsNotInComponents()
    ensures !IsListed("/src/components", MockFiles[1])
  {
    assert MockFiles[1].path == "/src/components";
  }

  /** `/src/utils` leaves the prefix at index 5. */
  lemma UtilsNotInComponents()
    ensures !IsListed("/src/components", MockFiles[5])
  {
    assert "/src/components"[5] == 'c' && MockFiles[5].path[5] == 'u';
  }

  /** `/src/App.js` leaves the prefix at index 5. */
  lemma AppNotInComponents()
    ensures !IsListed("/src/components", MockFiles[6])
  {
    assert "/src/components"[5] == 'c' && MockFiles[6].path[5] == 'A';
  }

  /** Filtering seven elements of which only the middle three pass keeps
      those three, in order. */
  lemma {:induction false} FilterMiddleThree<T(!new)>(s: seq<T>, p: T -> bool)
    requires |s| == 7
    requires !p(s[0]) && !p(s[1]) && p(s[2]) && p(s[3]) && p(s[4]) && !p(s[5]) && !p(s[6])
    ensures Filter(s, p) == [s[2], s[3], s[4]]
  {
    assert Filter(s[6..], p) == [] by {
      assert s[6..][1..] == [];
    }
    assert Filter(s[5..], p) == [] by {
      assert s[5..][1..] == s[6..];
    }
    assert Filter(s[4..], p) == [s[4]] by {
      assert s[4..][1..] == s[5..];
    }
    assert Filter(s[3..], p) == [s[3], s[4]] by {
      assert s[3..][1..] == s[4..];
    }
    assert Filter(s[2..], p) == [s[2], s[3], s[4]] by {
      assert s[2..][1..] == s[3..];
    }
    assert Filter(s[1..], p) == [s[2], s[3], s[4]] by {
      assert s[1..][1..] == s[2..];
    }
  }

  /** Inside `/src/components` its three files are listed, in table
      order. */
  lemma ComponentsListing()
    ensures Listing(MockFiles, "/src/components") == [MockFiles[2], MockFiles[3], MockFiles[4]]
  {
    SrcNotInComponents();
    ComponentsNotInComponents();
    ButtonInComponents();
    HeaderInComponents();
    IndexInComponents();
    UtilsNotInComponents();
    AppNotInComponents();
    FilterMiddleThree(MockFiles, ListedIn("/src/components"));
  }
}
