/**
 * The local-folders page: a folder list seeded from fixed data, and a modal
 * form whose submission appends a folder when both inputs are non-empty.
 */
module LocalPage {
  import opened Types

  datatype PageState = PageState(folders: seq<LocalFolder>, isModalOpen: bool, newFolderName: string, newFolderPath: string)

  /** The page after a form submission; `id` is the fresh random id the page draws. */
  function Submit(s: PageState, id: string): (r: PageState)
    ensures s.newFolderName == "" || s.newFolderPath == "" ==> r == s
    ensures s.newFolderName != "" && s.newFolderPath != "" ==>
      && |r.folders| == |s.folders| + 1
      && r.folders[..|s.folders|] == s.folders
      && r.folders[|s.folders|] == LocalFolder(id, s.newFolderName, s.newFolderPath, 0)
      && r.newFolderName == "" && r.newFolderPath == "" && !r.isModalOpen
  {
    if s.newFolderName == "" || s.newFolderPath == "" then s
    else PageState(s.folders + [LocalFolder(id, s.newFolderName, s.newFolderPath, 0)], false, "", "")
  }

  /** A second submission straight after a successful one finds empty inputs and adds nothing. */
  lemma SubmitTwiceAddsOnce(s: PageState, id1: string, id2: string)
    ensures Submit(Submit(s, id1), id2) == Submit(s, id1)
  {
  }

  class LocalPage {
    var folders: seq<LocalFolder>
    var isModalOpen: bool
    var newFolderName: string
    var newFolderPath: string

    function State(): PageState
      reads this
    {
      PageState(folders, isModalOpen, newFolderName, newFolderPath)
    }

    /** The page mounts with the seed folders, the modal closed and both inputs empty. */
    constructor (seed: seq<LocalFolder>)
      ensures State() == PageState(seed, false, "", "")
    {
      folders, isModalOpen, newFolderName, newFolderPath := seed, false, "", "";
    }

    /** The add card opens the modal. */
    method OpenModal()
      modifies this
      ensures State() == old(State()).(isModalOpen := true)
    {
      isModalOpen := true;
    }

    /** Cancel closes the modal; the folders and the inputs are kept. */
    method Cancel()
      modifies this
      ensures State() == old(State()).(isModalOpen := false)
    {
      isModalOpen := false;
    }

    method EditName(v: string)
      modifies this
      ensures State() == old(State()).(newFolderName := v)
    {
      newFolderName := v;
    }

    method EditPath(v: string)
      modifies this
      ensures State() == old(State()).(newFolderPath := v)
    {
      newFolderPath := v;
    }

    /** handleAddFolder: the guarded early return, then the four writes. */
    method HandleAddFolder(id: string)
      modifies this
      ensures State() == Submit(old(State()), id)
    {
      if newFolderName == "" || newFolderPath == "" {
        return;
      }
      var folder := LocalFolder(id, newFolderName, newFolderPath, 0);
      folders := folders + [folder];
      newFolderName := "";
      newFolderPath := "";
      isModalOpen := false;
    }
  }
}
