/** The dog page: the fetched record, three modal flags, an error, the shot
    list rendered at mount, and the lifecycle actions (archive, delete, image
    swap) that talk to the service. */
module DogInfo {
  import opened Common
  import opened Strings
  import opened Records
  import opened DogsApiService

  // ---------------------------------------------------------------------
  // The nav buttons

  /** Which of the three nav buttons are disabled. */
  datatype NavButtons = NavButtons(adoptDisabled: bool, archiveDisabled: bool, deleteDisabled: bool)

  /** The buttons rendered for a record: Adopted and Archive are disabled
      exactly when the dog is already adopted or archived; Delete never is. */
  function NavButtonsFor(dogInfo: Dog): (b: NavButtons)
    ensures b.adoptDisabled <==> dogInfo.dog_status == "Adopted" || dogInfo.dog_status == "Archived"
    ensures b.archiveDisabled == b.adoptDisabled
    ensures !b.deleteDisabled
  {
    var closed := dogInfo.dog_status == "Adopted" || dogInfo.dog_status == "Archived";
    NavButtons(closed, closed, false)
  }

  /** The three buttons that open or run something. */
  datatype NavButton = AdoptButton | ArchiveButton | DeleteButton

  function Disabled(b: NavButtons, which: NavButton): bool
  {
    match which
    case AdoptButton => b.adoptDisabled
    case ArchiveButton => b.archiveDisabled
    case DeleteButton => b.deleteDisabled
  }

  /** Before the first fetch the record is blank, so no button is disabled. */
  lemma BlankRecordEnablesAll(which: NavButton)
    ensures !Disabled(NavButtonsFor(Blank), which)
  {
  }

  // ---------------------------------------------------------------------
  // The shot list

  /** One rendered shot line: a cross for a shot marked not completed, a tick
      with its date otherwise. `key` is the React key of the line. */
  datatype ShotLine =
    | Missing(key: string, name: string)
    | Completed(key: string, name: string, date: Option<string>)

  /** A shot is shown as missing only when its flag is exactly `false`;
      `true` and `null` both show a tick. */
  function RenderShot(s: ShotRecord): (line: ShotLine)
    ensures line.Missing? <==> s.shot_iscompleted == Some(false)
    ensures line.name == s.shot_name
    ensures line.Missing? ==> line.key == s.shot_name + "-one"
    ensures line.Completed? ==> line.key == s.shot_name + "one" && line.date == s.shot_date
  {
    if s.shot_iscompleted == Some(false) then Missing(s.shot_name + "-one", s.shot_name)
    else Completed(s.shot_name + "one", s.shot_name, s.shot_date)
  }

  /** `renderShotsCompleted`: one line per shot, in list order. */
  function RenderShots(list: seq<ShotRecord>): (lines: seq<ShotLine>)
    ensures |lines| == |list|
    ensures forall i :: 0 <= i < |list| ==> lines[i] == RenderShot(list[i])
  {
    seq(|list|, i requires 0 <= i < |list| => RenderShot(list[i]))
  }

  /** The React keys of a missing shot and a completed one can coincide: a
      completed shot named "x-" and a missing shot named "x" both get the
      key "x-one". */
  lemma ShotKeysCanCollide()
    ensures RenderShot(ShotRecord("x-", None, Some(true))).key
         == RenderShot(ShotRecord("x", None, Some(false))).key
  {
    assert "x-" + "one" == "x" + "-one";
  }

  /** Every earlier shot name does not sort after any later one. */
  predicate SortedByName(s: seq<ShotRecord>)
  {
    forall i, j :: 0 <= i < j < |s| ==> NotAfter(s[i].shot_name, s[j].shot_name)
  }

  /** Each shot name does not sort after the next one. */
  predicate AdjacentSorted(s: seq<ShotRecord>)
  {
    forall k :: 0 < k < |s| ==> NotAfter(s[k - 1].shot_name, s[k].shot_name)
  }

  /** Order between neighbours is order throughout. */
  lemma {:induction false} AdjacentSortedIsSorted(s: seq<ShotRecord>)
    requires AdjacentSorted(s)
    ensures SortedByName(s)
    decreases |s|
  {
    if |s| >= 2 {
      var n := |s|;
      var p := s[..n - 1];
      assert AdjacentSorted(p) by {
        forall k | 0 < k < |p|
          ensures NotAfter(p[k - 1].shot_name, p[k].shot_name)
        {
          assert p[k - 1] == s[k - 1] && p[k] == s[k];
        }
      }
      AdjacentSortedIsSorted(p);
      forall i, j | 0 <= i < j < n
        ensures NotAfter(s[i].shot_name, s[j].shot_name)
      {
        if j < n - 1 {
          assert p[i] == s[i] && p[j] == s[j];
        } else if i < j - 1 {
          assert p[i] == s[i] && p[j - 1] == s[j - 1];
          NotAfterTransitive(s[i].shot_name, s[j - 1].shot_name, s[j].shot_name);
        }
      }
    }
  }

  /** `shotsCompleted.sort((a, b) => a.shot_name > b.shot_name ? 1 : -1)`, in
      place: afterwards the shots are in name order and are the same shots.
      The comparator never answers 0, so shots of equal name may end in any
      order; the contract promises no more than that. */
  method SortByName(a: array<ShotRecord>)
    modifies a
    ensures SortedByName(a[..])
    ensures multiset(a[..]) == multiset(old(a[..]))
  {
    var i := 0;
    while i < a.Length
      invariant 0 <= i <= a.Length
      invariant forall k :: 0 < k < i ==> NotAfter(a[k - 1].shot_name, a[k].shot_name)
      invariant multiset(a[..]) == multiset(old(a[..]))
    {
      SinkInto(a, i);
      i := i + 1;
    }
    assert AdjacentSorted(a[..]);
    AdjacentSortedIsSorted(a[..]);
  }

  /** One insertion step: move `a[i]` down past every earlier shot whose name
      sorts after it, so that the first `i + 1` shots are in order. */
  method SinkInto(a: array<ShotRecord>, i: int)
    requires 0 <= i < a.Length
    requires forall k :: 0 < k < i ==> NotAfter(a[k - 1].shot_name, a[k].shot_name)
    modifies a
    ensures forall k :: 0 < k <= i ==> NotAfter(a[k - 1].shot_name, a[k].shot_name)
    ensures multiset(a[..]) == multiset(old(a[..]))
  {
    var j := i;
    while j > 0 && Less(a[j].shot_name, a[j - 1].shot_name)
      invariant 0 <= j <= i
      invariant forall k :: 0 < k <= i && k != j ==> NotAfter(a[k - 1].shot_name, a[k].shot_name)
      invariant 0 < j < i ==> NotAfter(a[j - 1].shot_name, a[j + 1].shot_name)
      invariant multiset(a[..]) == multiset(old(a[..]))
    {
      LessAsymmetric(a[j].shot_name, a[j - 1].shot_name);
      Swap(a, j);
      j := j - 1;
    }
  }

  /** Exchanges the neighbours `a[j - 1]` and `a[j]`. */
  method Swap(a: array<ShotRecord>, j: int)
    requires 0 < j < a.Length
    modifies a
    ensures a[j - 1] == old(a[j]) && a[j] == old(a[j - 1])
    ensures forall k :: 0 <= k < a.Length && k != j - 1 && k != j ==> a[k] == old(a[k])
    ensures multiset(a[..]) == multiset(old(a[..]))
  {
    a[j - 1], a[j] := a[j], a[j - 1];
  }

  // ---------------------------------------------------------------------
  // The page

  /** The names of the three modal flags, as the buttons and `closeModal`
      give them. */
  const AdoptFlag := "openAdopt"
  const ArchiveFlag := "openArchive"
  const ProfileImgFlag := "openProfileImg"

  /** The flags as the constructor sets them: all three closed. */
  const InitialFlags: map<string, bool> := map[AdoptFlag := false, ArchiveFlag := false, ProfileImgFlag := false]

  /** The message `handleArchive` records for a failed archive or note. */
  const ArchiveError := "Can't archive dog."

  /** Every page variable at once. `shots` is `None` until the mount fetch
      resolves; `history` holds the paths pushed onto the router. */
  datatype PageState = PageState(
    dogInfo: Dog, flags: map<string, bool>, error: Option<string>,
    shots: Option<seq<ShotLine>>, history: seq<string>)

  class DogPage {
    /** `match.params.dogId`, used by archive and delete. */
    const routeDogId: DogId
    /** `props.dogId`, used by the mount fetch. */
    const propDogId: DogId
    const api: DogsApi
    var dogInfo: Dog
    var flags: map<string, bool>
    var error: Option<string>
    var shots: Option<seq<ShotLine>>
    var history: seq<string>

    ghost function State(): PageState
      reads this
    {
      PageState(dogInfo, flags, error, shots, history)
    }

    /** A flag is open when it was set to true; a name never set reads as closed. */
    function IsOpen(name: string): bool
      reads this
    {
      name in flags && flags[name]
    }

    constructor (routeDogId: DogId, propDogId: DogId, api: DogsApi)
      ensures this.routeDogId == routeDogId && this.propDogId == propDogId && this.api == api
      ensures State() == PageState(Blank, InitialFlags, None, None, [])
    {
      this.routeDogId := routeDogId;
      this.propDogId := propDogId;
      this.api := api;
      dogInfo := Blank;
      flags := InitialFlags;
      error := None;
      shots := None;
      history := [];
    }

    /** The mount effect: fetch by `props.dogId`, sort the record's shots in
        place by name (the record keeps the sorted list) and render them. A
        rejected fetch is not caught, so nothing changes. */
    method Mount(fetched: Result<Dog>)
      modifies this, api
      ensures api.calls == old(api.calls) + [GetDogInfo(propDogId)]
      ensures fetched.Err? ==> State() == old(State())
      ensures fetched.Ok? ==>
        && dogInfo == fetched.value.(shotsCompleted := dogInfo.shotsCompleted)
        && SortedByName(dogInfo.shotsCompleted)
        && multiset(dogInfo.shotsCompleted) == multiset(fetched.value.shotsCompleted)
        && shots == Some(RenderShots(dogInfo.shotsCompleted))
        && flags == old(flags) && error == old(error) && history == old(history)
    {
      api.Issue(GetDogInfo(propDogId));
      if fetched.Err? {
        return;
      }
      var res := fetched.value;
      var list := res.shotsCompleted;
      var a := new ShotRecord[|list|](i requires 0 <= i < |list| => list[i]);
      assert a[..] == list;
      SortByName(a);
      var resShots := a[..];
      dogInfo := res.(shotsCompleted := resShots);
      shots := Some(RenderShots(resShots));
    }

    /** `openModal`: sets the flag the clicked button names, and only it. */
    method OpenModal(name: string)
      modifies this
      ensures State() == old(State()).(flags := old(flags)[name := true])
    {
      flags := flags[name := true];
    }

    /** `closeModal(str)`: clears flag `str`, and only it. */
    method CloseModal(str: string)
      modifies this
      ensures State() == old(State()).(flags := old(flags)[str := false])
    {
      flags := flags[str := false];
    }

    /** A click on a nav button. A disabled button ignores the click; Adopted
        and Archive open their modal; Delete runs `handleDelete`. */
    method ClickNavButton(which: NavButton, deleted: Outcome)
      modifies this, api
      ensures Disabled(NavButtonsFor(old(dogInfo)), which) ==>
        State() == old(State()) && api.calls == old(api.calls)
      ensures which == AdoptButton && !Disabled(NavButtonsFor(old(dogInfo)), which) ==>
        State() == old(State()).(flags := old(flags)[AdoptFlag := true]) && api.calls == old(api.calls)
      ensures which == ArchiveButton && !Disabled(NavButtonsFor(old(dogInfo)), which) ==>
        State() == old(State()).(flags := old(flags)[ArchiveFlag := true]) && api.calls == old(api.calls)
      ensures which == DeleteButton ==> api.calls == old(api.calls) + DeleteCalls(routeDogId, deleted)
      ensures which == DeleteButton ==>
        State() == if deleted.Done? then old(State()).(history := old(history) + [DogsListPath]) else old(State())
    {
      var buttons := NavButtonsFor(dogInfo);
      if Disabled(buttons, which) {
        return;
      }
      match which
      case AdoptButton => OpenModal(AdoptFlag);
      case ArchiveButton => OpenModal(ArchiveFlag);
      case DeleteButton => HandleDelete(deleted);
    }

    /** `handleDelete`: delete the dog; only once that resolves, ask for its
        notes and its shots to be deleted (neither awaited) and go back to the
        list. A rejection is not caught: no clean-up, no navigation. */
    method HandleDelete(deleted: Outcome)
      modifies this, api
      ensures api.calls == old(api.calls) + DeleteCalls(routeDogId, deleted)
      ensures State() ==
        if deleted.Done? then old(State()).(history := old(history) + [DogsListPath])
        else old(State())
    {
      api.Issue(DeleteDog(routeDogId));
      if deleted.Failed? {
        return;
      }
      api.Issue(DeleteNotesByDogId(routeDogId));
      api.Issue(DeleteShotsByDogId(routeDogId));
      history := history + [DogsListPath];
    }

    /** `handleArchive(str)`: archive the dog with the time `now`, then add an
        "archive" note holding `str`, then refetch. There is no status check
        here. A rejected archive or note records `ArchiveError` and skips the
        rest, without undoing an archive already made. The refetch is not
        part of the guarded chain: its rejection changes nothing. Only a
        successful refetch closes the archive modal and replaces the record;
        the rendered shot list is not rebuilt. */
    method HandleArchive(str: string, now: Date, archived: Outcome, noted: Outcome, fetched: Result<Dog>)
      modifies this, api
      ensures api.calls == old(api.calls) + ArchiveCalls(routeDogId, str, now, archived, noted)
      ensures State() ==
        if archived.Failed? || noted.Failed? then old(State()).(error := Some(ArchiveError))
        else if fetched.Ok? then old(State()).(flags := old(flags)[ArchiveFlag := false], dogInfo := fetched.value)
        else old(State())
    {
      api.Issue(ArchiveDog(routeDogId, now));
      if archived.Failed? {
        error := Some(ArchiveError);
        return;
      }
      var noteObj := Note("archive", str, routeDogId);
      api.Issue(InsertNewNote(noteObj));
      if noted.Failed? {
        error := Some(ArchiveError);
        return;
      }
      api.Issue(GetDogInfo(routeDogId));
      if fetched.Err? {
        return;
      }
      flags := flags[ArchiveFlag := false];
      dogInfo := fetched.value;
    }

    /** `updateDogImage`: delete the old image and upload the new one, both
        under the record's tag number, send the new url with the dog's name,
        then refetch by the record's id. Each step waits for the one before.
        A rejection at any step skips the rest and records its message; only
        a complete run replaces the record and closes the image modal. */
    method UpdateDogImage(profileImg: FileValue, deleted: Outcome, uploaded: Result<string>,
                          updated: Outcome, fetched: Result<Dog>)
      modifies this, api
      ensures api.calls == old(api.calls) + ImageCalls(old(dogInfo), profileImg, deleted, uploaded, updated)
      ensures State() ==
        if deleted.Failed? then old(State()).(error := Some(deleted.message))
        else if uploaded.Err? then old(State()).(error := Some(uploaded.message))
        else if updated.Failed? then old(State()).(error := Some(updated.message))
        else if fetched.Err? then old(State()).(error := Some(fetched.message))
        else old(State()).(dogInfo := fetched.value, flags := old(flags)[ProfileImgFlag := false])
    {
      var tag := dogInfo.tag_number;
      api.Issue(DeleteDogImg(profileImg, tag));
      if deleted.Failed? {
        error := Some(deleted.message);
        return;
      }
      api.Issue(UploadDogImg(profileImg, tag));
      if uploaded.Err? {
        error := Some(uploaded.message);
        return;
      }
      var dogObj := ImagePatch(dogInfo.dog_name, uploaded.value);
      api.Issue(UpdateDog(dogObj, dogInfo.id));
      if updated.Failed? {
        error := Some(updated.message);
        return;
      }
      api.Issue(GetDogInfo(dogInfo.id));
      if fetched.Err? {
        error := Some(fetched.message);
        return;
      }
      dogInfo := fetched.value;
      flags := flags[ProfileImgFlag := false];
    }
  }

  /** The requests `handleDelete` issues: the clean-ups only after the dog
      delete resolved, notes before shots. */
  function DeleteCalls(id: DogId, deleted: Outcome): (calls: seq<Call>)
    ensures |calls| >= 1 && calls[0] == DeleteDog(id)
    ensures deleted.Failed? <==> |calls| == 1
    ensures deleted.Done? ==> calls[1..] == [DeleteNotesByDogId(id), DeleteShotsByDogId(id)]
  {
    [DeleteDog(id)] + if deleted.Done? then [DeleteNotesByDogId(id), DeleteShotsByDogId(id)] else []
  }

  /** The requests `handleArchive` issues: the archive, the note once the
      archive resolved, the refetch once the note resolved. */
  function ArchiveCalls(id: DogId, str: string, now: Date, archived: Outcome, noted: Outcome): (calls: seq<Call>)
    ensures |calls| >= 1 && calls[0] == ArchiveDog(id, now)
    ensures |calls| == (if archived.Failed? then 1 else if noted.Failed? then 2 else 3)
    ensures |calls| >= 2 ==> calls[1] == InsertNewNote(Note("archive", str, id))
    ensures |calls| == 3 ==> calls[2] == GetDogInfo(id)
  {
    var note := InsertNewNote(Note("archive", str, id));
    if archived.Failed? then [ArchiveDog(id, now)]
    else if noted.Failed? then [ArchiveDog(id, now), note]
    else [ArchiveDog(id, now), note, GetDogInfo(id)]
  }

  /** The requests `updateDogImage` issues against the record `d`: each one
      only after the one before resolved, the image ones under the record's
      tag number, the update and the refetch under its id. */
  function ImageCalls(d: Dog, file: FileValue, deleted: Outcome, uploaded: Result<string>, updated: Outcome): (calls: seq<Call>)
    ensures 1 <= |calls| <= 4
    ensures |calls| >= 1 && calls[0] == DeleteDogImg(file, d.tag_number)
    ensures |calls| >= 2 <==> deleted.Done?
    ensures |calls| >= 3 <==> deleted.Done? && uploaded.Ok?
    ensures |calls| == 4 <==> deleted.Done? && uploaded.Ok? && updated.Done?
    ensures |calls| >= 2 ==> calls[1] == UploadDogImg(file, d.tag_number)
    ensures |calls| >= 3 ==> calls[2] == UpdateDog(ImagePatch(d.dog_name, uploaded.value), d.id)
    ensures |calls| == 4 ==> calls[3] == GetDogInfo(d.id)
  {
    var del := DeleteDogImg(file, d.tag_number);
    var up := UploadDogImg(file, d.tag_number);
    var upd := UpdateDog(ImagePatch(d.dog_name, if uploaded.Ok? then uploaded.value else ""), d.id);
    if deleted.Failed? then [del]
    else if uploaded.Err? then [del, up]
    else if updated.Failed? then [del, up, upd]
    else [del, up, upd, GetDogInfo(d.id)]
  }

  /** A dog that is already adopted cannot be archived from the page: the
      Archive click leaves the archive modal as it was and sends nothing. */
  method AdoptedDogCannotBeArchived(p: DogPage, deleted: Outcome)
    requires p.dogInfo.dog_status == "Adopted"
    modifies p, p.api
    ensures p.IsOpen(ArchiveFlag) == old(p.IsOpen(ArchiveFlag))
    ensures p.api.calls == old(p.api.calls)
  {
    p.ClickNavButton(ArchiveButton, deleted);
  }

  /** `handleArchive` itself has no guard: called directly on an adopted dog
      whose requests all succeed, it archives it and replaces the record. */
  method ArchiveIgnoresStatus(p: DogPage, str: string, now: Date, res: Dog)
    requires p.dogInfo.dog_status == "Adopted"
    modifies p, p.api
    ensures p.api.calls == old(p.api.calls) +
      [ArchiveDog(p.routeDogId, now), InsertNewNote(Note("archive", str, p.routeDogId)), GetDogInfo(p.routeDogId)]
    ensures p.dogInfo == res && !p.IsOpen(ArchiveFlag)
  {
    p.HandleArchive(str, now, Done, Done, Ok(res));
  }
}
