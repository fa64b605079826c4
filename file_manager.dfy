/** The file browser: a fixed listing of the current directory, a name
    search, a multi-selection toggled file by file, bulk actions on the
    selection, and the breadcrumb of the current path. */
module FileManager {
  import opened Common

  datatype ItemKind = Folder | File

  datatype FileItem = FileItem(
    name: string,
    kind: ItemKind,
    size: Option<string>,
    modified: string,
    permissions: string,
    extension: Option<string>)

  const HomePath := "/home/admin"

  function Listing(): (r: seq<FileItem>)
    ensures |r| == 10
  {
    [FileItem("..", Folder, None, "", "drwxr-xr-x", None),
     FileItem("documents", Folder, None, "2024-01-15 14:30", "drwxr-xr-x", None),
     FileItem("scripts", Folder, None, "2024-01-14 09:15", "drwxr-xr-x", None),
     FileItem("logs", Folder, None, "2024-01-16 11:22", "drwxr-xr-x", None),
     FileItem("config.json", File, Some("2.4 KB"), "2024-01-16 16:45", "-rw-r--r--", Some("json")),
     FileItem("server.log", File, Some("15.2 MB"), "2024-01-16 17:30", "-rw-r--r--", Some("log")),
     FileItem("backup.tar.gz", File, Some("1.2 GB"), "2024-01-15 02:00", "-rw-r--r--", Some("tar.gz")),
     FileItem("index.html", File, Some("5.1 KB"), "2024-01-16 14:20", "-rw-r--r--", Some("html")),
     FileItem("app.js", File, Some("12.8 KB"), "2024-01-16 15:10", "-rw-r--r--", Some("js")),
     FileItem("screenshot.png", File, Some("890 KB"), "2024-01-14 10:30", "-rw-r--r--", Some("png"))]
  }

  datatype Icon = FolderIcon | ImageIcon | CodeIcon | ArchiveIcon | TextIcon | GenericIcon

  /** The icon of an item: folders first, otherwise by the lower-cased
      extension; a file without one gets the generic icon. */
  function IconOf(item: FileItem): (r: Icon)
    ensures item.kind == Folder <==> r == FolderIcon
    ensures item.kind == File && item.extension.None? ==> r == GenericIcon
  {
    if item.kind == Folder then FolderIcon
    else if item.extension.None? then GenericIcon
    else
      var ext := ToLower(item.extension.value);
      if ext == "png" || ext == "jpg" || ext == "jpeg" || ext == "gif" then ImageIcon
      else if ext == "js" || ext == "ts" || ext == "html" || ext == "css" || ext == "json" then CodeIcon
      else if ext == "tar.gz" || ext == "zip" || ext == "rar" then ArchiveIcon
      else if ext == "log" || ext == "txt" then TextIcon
      else GenericIcon
  }

  /** The extension's case does not matter: "PNG" is an image. */
  lemma IconIgnoresCase(item: FileItem)
    requires item.kind == File && item.extension == Some("PNG")
    ensures IconOf(item) == ImageIcon
  {
    assert ToLower("PNG") == "png";
  }

  /** The home directory has the segments "home" and "admin". */
  lemma HomeSegments()
    ensures PathSegments(HomePath) == ["home", "admin"]
  {
    assert HomePath == "/" + Join(["home", "admin"], '/');
    PathSegmentsRoundTrip(["home", "admin"]);
  }

  /** The items whose name contains the search term, ignoring case. */
  function Search(files: seq<FileItem>, term: string): (r: seq<FileItem>)
    ensures IsSubseq(r, files)
    ensures forall i :: 0 <= i < |r| ==> MatchesTerm(r[i].name, term)
    ensures forall i :: 0 <= i < |files| && MatchesTerm(files[i].name, term) ==> files[i] in r && multiset(r)[files[i]] == multiset(files)[files[i]]
    ensures multiset(r) <= multiset(files)
  {
    var keep := (f: FileItem) => MatchesTerm(f.name, term);
    FilterIsSubseq(files, keep);
    Filter(files, keep)
  }

  /** An empty search lists every item, in order. */
  lemma EmptySearchListsAll(files: seq<FileItem>)
    ensures Search(files, "") == files
  {
    var keep := (f: FileItem) => MatchesTerm(f.name, "");
    forall i | 0 <= i < |files|
      ensures keep(files[i])
    {
      EmptyTermMatches(files[i].name);
    }
    FilterKeepsAll(files, keep);
  }

  /** The message of a bulk action on `count` files. */
  function ActionMessage(action: string, count: nat): string
  {
    action + " " + NatToString(count) + " file(s) successfully"
  }

  datatype ActionResult = NoFilesSelected | Done(message: string)

  /** A click on an unselected file's checkbox, which runs the toggle twice,
      leaves the file out of the selection. */
  lemma CheckboxClickNeverSelects(name: string)
    ensures name !in Toggle(Toggle([], name), name)
    ensures Toggle(Toggle([], name), name) == []
  {
    assert Toggle([], name) == [name];
    assert Filter([name], y => y != name) == [] by {
      assert [name][1..] == [];
      assert Filter([name][1..], y => y != name) == [];
    }
  }

  /** The file browser's state. */
  class FileBrowser {
    const currentPath: string
    var searchTerm: string
    var selected: seq<string>

    ghost predicate Valid()
      reads this
    {
      NoDup(selected)
    }

    constructor ()
      ensures Valid() && currentPath == HomePath && searchTerm == "" && selected == []
    {
      currentPath := HomePath;
      searchTerm := "";
      selected := [];
    }

    /** Clicking a file's row (outside its checkbox) adds the file to the
        selection or takes it out. */
    method SelectFile(name: string)
      requires Valid()
      modifies this
      ensures Valid()
      ensures selected == Toggle(old(selected), name)
      ensures name in selected <==> name !in old(selected)
      ensures forall other :: other != name ==> (other in selected <==> other in old(selected))
      ensures searchTerm == old(searchTerm)
    {
      ToggleNoDup(selected, name);
      ToggleMembership(selected, name);
      selected := Toggle(selected, name);
    }

    /** A bulk action on `files` when given (even an empty list), else on
        the selection. No files: an error and the selection stays;
        otherwise a success message and the selection is emptied. */
    method FileAction(action: string, files: Option<seq<string>>) returns (r: ActionResult)
      requires Valid()
      modifies this
      ensures Valid()
      ensures var list := if files.Some? then files.value else old(selected);
        (list == [] ==> r == NoFilesSelected && selected == old(selected))
        && (list != [] ==> r == Done(ActionMessage(action, |list|)) && selected == [])
      ensures searchTerm == old(searchTerm)
    {
      var list := if files.Some? then files.value else selected;
      if |list| == 0 {
        return NoFilesSelected;
      }
      r := Done(ActionMessage(action, |list|));
      selected := [];
    }

    /** Clicking the checkbox itself runs the handler twice, once for the
        box's change and once for the row's click, so the selection keeps
        the same members. */
    method ClickCheckbox(name: string)
      requires Valid()
      modifies this
      ensures Valid()
      ensures selected == Toggle(Toggle(old(selected), name), name)
      ensures forall x :: x in selected <==> x in old(selected)
      ensures searchTerm == old(searchTerm)
    {
      var before := selected;
      SelectFile(name);
      SelectFile(name);
      ToggleTwice(before, name);
      assert forall x :: x in selected <==> x in (set y | y in selected);
    }

    method SetSearch(term: string)
      modifies this
      ensures searchTerm == term && selected == old(selected)
    {
      searchTerm := term;
    }
  }
}
