/** The file browser screen: a listing of a fixed file table filtered by the
    current path, moving into a directory, back to its parent, and to a
    breadcrumb. */
module FileBrowser {

  import opened Wrappers
  import opened Seqs
  import opened Strings

  datatype ItemType = File | Directory

  datatype FileItem = FileItem(name: string, path: string, itemType: ItemType)

  /** The stand-in file table the screen lists from. */
  const MockFiles: seq<FileItem> := [
    FileItem("src", "/src", Directory),
    FileItem("components", "/src/components", Directory),
    FileItem("Button.js", "/src/components/Button.js", File),
    FileItem("Header.js", "/src/components/Header.js", File),
    FileItem("index.js", "/src/components/index.js", File),
    FileItem("utils", "/src/utils", Directory),
    FileItem("App.js", "/src/App.js", File)
  ]

  /** The stand-in content shown for every selected file. */
  const MockFileContent: string :=
    "import React from 'react';\nimport PropTypes from 'prop-types';\n\n"
    + "const Button = (props) => {\n  return (\n    <button>\n      {props.children}\n    </button>\n  );\n}\n\n"
    + "Button.propTypes = {\n  children: PropTypes.node\n}\n\nexport default Button;\n"

  /** The listing filter: at `/`, the entries whose path splits on `/` into
      exactly two parts; elsewhere, the entries with one more part than the
      current path that start with it as a string. */
  predicate IsListed(currentPath: string, file: FileItem) {
    if currentPath == "/" then
      |Split(file.path, '/')| == 2 && file.path != "/"
    else
      |Split(file.path, '/')| == |Split(currentPath, '/')| + 1 && StartsWith(file.path, currentPath)
  }

  /** The filter's callback for `currentPath`. */
  function ListedIn(currentPath: string): FileItem -> bool {
    (f: FileItem) => IsListed(currentPath, f)
  }

  /** The listing of `table` for `currentPath`: exactly the table entries
      the filter accepts, in table order. */
  function Listing(table: seq<FileItem>, currentPath: string): (r: seq<FileItem>)
    ensures forall f :: f in r <==> f in table && IsListed(currentPath, f)
    ensures SubseqOf(r, table)
  {
    Filter(table, ListedIn(currentPath))
  }

  /** The path of the entry called `name` inside the directory `dir`. */
  function ChildPath(dir: string, name: string): string {
    if dir == "/" then "/" + name else dir + "/" + name
  }

  /** Where going back leads: `/` stays put; otherwise the last `/`-part is
      dropped and an empty result becomes `/`. */
  function Parent(path: string): (p: string)
    ensures p != ""
  {
    if path == "/" then "/"
    else
      var parts := Split(path, '/');
      var joined := Join(parts[..|parts| - 1], '/');
      if joined == "" then "/" else joined
  }

  /** Breadcrumbs a path can have: non-empty, and free of `/`. */
  predicate ValidCrumbs(crumbs: seq<string>) {
    forall k :: 0 <= k < |crumbs| ==> crumbs[k] != "" && '/' !in crumbs[k]
  }

  /** The path a breadcrumb list names: always absolute. */
  function CrumbPath(crumbs: seq<string>): (path: string)
    ensures |path| >= 1 && path[0] == '/'
  {
    "/" + Join(crumbs, '/')
  }

  /** The root path has no breadcrumbs. */
  lemma RootHasNoCrumbs()
    ensures NonEmptyParts("/", '/') == []
  {
    assert "/" == [] + ['/'] + [];
    SplitAppend([], [], '/');
  }

  class FileBrowserScreen {
    /** The file table the screen lists from, `MockFiles` once mounted. */
    const table: seq<FileItem>
    var currentPath: string
    var files: seq<FileItem>
    var selectedFile: Option<FileItem>
    var fileContent: string
    var breadcrumbs: seq<string>

    /** The breadcrumbs are the non-empty parts of the current path. */
    predicate CrumbsMatchPath()
      reads this
    {
      breadcrumbs == NonEmptyParts(currentPath, '/')
    }

    /** The files shown are the listing of the current path. */
    predicate ListingShown()
      reads this
    {
      files == Listing(table, currentPath)
    }

    /** The mounted screen: at `/`, with the listing effect run once on
        mount, nothing selected, and a single `src` breadcrumb, which does
        not match the path. */
    constructor ()
      ensures table == MockFiles
      ensures currentPath == "/" && ListingShown() && selectedFile == None
      ensures fileContent == "" && breadcrumbs == ["src"]
      ensures ValidCrumbs(breadcrumbs) && !CrumbsMatchPath()
    {
      table := MockFiles;
      currentPath := "/";
      files := [];
      selectedFile := None;
      fileContent := "";
      breadcrumbs := ["src"];
      new;
      RefreshListing();
      RootHasNoCrumbs();
    }

    /** The listing effect: show the listing of the current path. */
    method RefreshListing()
      modifies this
      ensures ListingShown()
      ensures currentPath == old(currentPath) && selectedFile == old(selectedFile)
      ensures fileContent == old(fileContent) && breadcrumbs == old(breadcrumbs)
    {
      files := Listing(table, currentPath);
    }

    /** `setCurrentPath(path)` with the listing effect that depends on it:
        the effect runs only when the path actually changes, and then shows
        the listing of the new path; an unchanged path keeps the files. */
    method SetCurrentPath(path: string)
      modifies this
      ensures currentPath == path
      ensures path != old(currentPath) ==> files == Listing(table, path)
      ensures path == old(currentPath) ==> files == old(files)
      ensures old(ListingShown()) ==> ListingShown()
      ensures selectedFile == old(selectedFile) && fileContent == old(fileContent)
      ensures breadcrumbs == old(breadcrumbs)
    {
      if path != currentPath {
        currentPath := path;
        RefreshListing();
      }
    }

    /** `fetchFileContent(file)`: show the stand-in content for `file`. */
    method FetchFileContent(file: FileItem)
      modifies this
      ensures fileContent == MockFileContent && selectedFile == Some(file)
      ensures currentPath == old(currentPath) && files == old(files) && breadcrumbs == old(breadcrumbs)
    {
      fileContent := MockFileContent;
      selectedFile := Some(file);
    }

    /** `handleSelectItem(item)`: a directory becomes the current path, with
        its non-empty parts as breadcrumbs and, once the path has moved, its
        listing shown; a file is opened and the path and files stay. */
    method HandleSelectItem(item: FileItem)
      modifies this
      ensures item.itemType == Directory ==>
                currentPath == item.path && CrumbsMatchPath() && ValidCrumbs(breadcrumbs)
                && selectedFile == old(selectedFile) && fileContent == old(fileContent)
      ensures item.itemType == Directory && item.path != old(currentPath) ==> ListingShown()
      ensures item.itemType == Directory && item.path == old(currentPath) ==> files == old(files)
      ensures item.itemType == File ==>
                currentPath == old(currentPath) && breadcrumbs == old(breadcrumbs)
                && selectedFile == Some(item) && fileContent == MockFileContent
                && files == old(files)
      ensures old(ListingShown()) ==> ListingShown()
    {
      if item.itemType == Directory {
        SetCurrentPath(item.path);
        breadcrumbs := NonEmptyParts(item.path, '/');
      } else {
        FetchFileContent(item);
      }
    }

    /** `handleGoBack()`: nothing at `/`; otherwise pop the last part of the
        path, fall back to `/` when nothing is left, and rebuild the
        breadcrumbs from the new path; a path that moved has its listing
        shown. */
    method HandleGoBack()
      modifies this
      ensures currentPath == Parent(old(currentPath))
      ensures old(currentPath) == "/" ==> breadcrumbs == old(breadcrumbs) && files == old(files)
      ensures old(currentPath) != "/" ==> CrumbsMatchPath() && ValidCrumbs(breadcrumbs)
      ensures currentPath != old(currentPath) ==> ListingShown()
      ensures old(ListingShown()) ==> ListingShown()
      ensures selectedFile == old(selectedFile) && fileContent == old(fileContent)
    {
      if currentPath == "/" {
        return;
      }
      var pathParts := Split(currentPath, '/');
      pathParts := pathParts[..|pathParts| - 1];
      var newPath := Join(pathParts, '/');
      if newPath == "" {
        newPath := "/";
      }
      SetCurrentPath(newPath);
      breadcrumbs := NonEmptyParts(newPath, '/');
    }

    /** `navigateToBreadcrumb(index)`: a negative index goes to `/` with no
        breadcrumbs; otherwise the breadcrumbs are cut after `index` (as
        `slice` does, clamped to their length) and name the new path. From
        valid breadcrumbs the result again matches the path; a path that
        moved has its listing shown. */
    method NavigateToBreadcrumb(index: int)
      modifies this
      ensures index < 0 ==> currentPath == "/" && breadcrumbs == []
      ensures index >= 0 ==>
                breadcrumbs == SliceTo(old(breadcrumbs), index + 1)
                && currentPath == CrumbPath(breadcrumbs)
      ensures old(ValidCrumbs(breadcrumbs)) ==> CrumbsMatchPath() && ValidCrumbs(breadcrumbs)
      ensures currentPath != old(currentPath) ==> ListingShown()
      ensures currentPath == old(currentPath) ==> files == old(files)
      ensures old(ListingShown()) ==> ListingShown()
      ensures selectedFile == old(selectedFile) && fileContent == old(fileContent)
    {
      if index < 0 {
        SetCurrentPath("/");
        breadcrumbs := [];
        CrumbsOfCrumbPath([]);
        return;
      }
      var kept := SliceTo(breadcrumbs, index + 1);
      if ValidCrumbs(breadcrumbs) {
        CrumbsOfCrumbPath(kept);
      }
      SetCurrentPath(CrumbPath(kept));
      breadcrumbs := kept;
    }
  }

  /** A path named by breadcrumbs splits into an empty part for the
      leading `/` followed by the breadcrumbs. */
  lemma SplitCrumbPath(crumbs: seq<string>)
    requires ValidCrumbs(crumbs)
    ensures Split(CrumbPath(crumbs), '/') == [""] + (if crumbs == [] then [""] else crumbs)
  {
    assert CrumbPath(crumbs) == [] + ['/'] + Join(crumbs, '/');
    SplitAppend([], Join(crumbs, '/'), '/');
    if crumbs != [] {
      SplitJoin(crumbs, '/');
    }
  }

  /** The breadcrumbs of the path that a breadcrumb list names are that list
      again. */
  lemma CrumbsOfCrumbPath(crumbs: seq<string>)
    requires ValidCrumbs(crumbs)
    ensures NonEmptyParts(CrumbPath(crumbs), '/') == crumbs
  {
    SplitCrumbPath(crumbs);
    var nonEmpty := (p: string) => p != "";
    if crumbs == [] {
      assert Filter([""], nonEmpty) == [];
    } else {
      assert Filter([""] + crumbs, nonEmpty) == Filter(crumbs, nonEmpty) by {
        assert ([""] + crumbs)[1..] == crumbs;
      }
      FilterAll(crumbs, nonEmpty);
    }
  }

  /** Going back from an entry of directory `dir` leads to `dir` again. */
  lemma ParentOfChild(dir: string, name: string)
    requires dir != "" && '/' !in name
    ensures Parent(ChildPath(dir, name)) == dir
  {
    var path := ChildPath(dir, name);
    if dir == "/" {
      if name != "" {
        assert path == [] + ['/'] + name;
        SplitAppend([], name, '/');
        SplitNoSep(name, '/');
        assert Split(path, '/') == ["", name];
      }
    } else {
      assert path == dir + ['/'] + name;
      SplitAppend(dir, name, '/');
      SplitNoSep(name, '/');
      var parts := Split(path, '/');
      assert parts[..|parts| - 1] == Split(dir, '/');
      JoinSplit(dir, '/');
    }
  }

  /** Every entry directly inside `dir` passes the listing filter for
      `dir`. */
  lemma ChildIsListed(dir: string, name: string, t: ItemType)
    requires dir != "" && name != "" && '/' !in name
    ensures IsListed(dir, FileItem(name, ChildPath(dir, name), t))
  {
    var path := ChildPath(dir, name);
    SplitNoSep(name, '/');
    if dir == "/" {
      assert path == [] + ['/'] + name;
      SplitAppend([], name, '/');
    } else {
      assert path == dir + ['/'] + name;
      SplitAppend(dir, name, '/');
    }
  }

  /** At the root, an entry is listed exactly when its path holds a single
      `/` and is not `/` itself. */
  lemma RootListsOneSlash(f: FileItem)
    ensures IsListed("/", f) <==> multiset(f.path)['/'] == 1 && f.path != "/"
  {
    SplitCount(f.path, '/');
  }

  /** A string with the separator in it splits into at least two parts. */
  lemma SplitAtSep(s: string, k: nat)
    requires k < |s| && s[k] == '/'
    ensures |Split(s, '/')| >= 2
  {
    assert s == s[..k] + ['/'] + s[k + 1..];
    SplitAppend(s[..k], s[k + 1..], '/');
  }

  /** A path with two slashes splits into at least three parts, so it is
      never listed at the root. */
  lemma TwoSlashesNotAtRoot(f: FileItem, i: nat, j: nat)
    requires i < j < |f.path| && f.path[i] == '/' && f.path[j] == '/'
    ensures |Split(f.path, '/')| >= 3
    ensures !IsListed("/", f)
  {
    var s := f.path;
    assert s == s[..i] + ['/'] + s[i + 1..];
    SplitAppend(s[..i], s[i + 1..], '/');
    SplitAtSep(s[i + 1..], j - i - 1);
  }
}
