/** The profile section of a dog's page: the canonical record `info`, a draft
    of seven editable fields, the editing and photo-editing flags, and the
    three workflows that talk to the service (load, commit, image swap). */
module ProfileSection {
  import opened Common
  import opened Strings
  import opened Records
  import opened DogsApiService

  /** The two gender radio buttons. */
  datatype GenderChoice = GenderChoice(male: bool, female: bool)

  /** Exactly one of the two radio buttons is checked. */
  predicate OneChecked(g: GenderChoice)
  {
    g.male != g.female
  }

  /** The radio state derived from a loaded record: male exactly when the
      record says "Male"; any other value, the empty one included, checks female. */
  function LoadedGender(gender: string): (g: GenderChoice)
    ensures g.male <==> gender == "Male"
    ensures OneChecked(g)
  {
    if gender == "Male" then GenderChoice(true, false) else GenderChoice(false, true)
  }

  /** The radio state after clicking one of the two buttons. */
  function PickedGender(male: bool): (g: GenderChoice)
    ensures g.male == male && OneChecked(g)
  {
    if male then GenderChoice(true, false) else GenderChoice(false, true)
  }

  /** The image name used to delete the old image: `profile_img.split("/")`,
      its last element, then `.split(".")[0]` of that. */
  function ImgName(profileImg: string): (name: string)
    ensures name == FirstSegment(LastSegment(profileImg, '/'), '.')
  {
    var s := Split(profileImg, '/');
    Split(s[|s| - 1], '.')[0]
  }

  /** The image name is the last "/"-separated segment of the url cut before
      its first ".", so it holds neither a "/" nor a ".". */
  lemma ImgNameSegments(profileImg: string)
    ensures var name := ImgName(profileImg); var last := LastSegment(profileImg, '/');
      && |name| <= |last| && name == last[..|name|]
      && (|name| == |last| || last[|name|] == '.')
      && '/' !in name && '.' !in name
  {
    var s := Split(profileImg, '/');
    var last := s[|s| - 1];
    assert last == LastSegment(profileImg, '/');
    assert ImgName(profileImg) == FirstSegment(last, '.');
    assert forall c :: c in FirstSegment(last, '.') ==> c in last;
  }

  /** A url `dir/name.ext` names the image `name`, whatever the directory
      part holds (a scheme, a host, any number of segments): the directory and
      the extension (which may itself hold dots) are dropped. */
  lemma ImgNameOfPath(dir: string, name: string, ext: string)
    requires '/' !in name && '.' !in name && '/' !in ext
    ensures ImgName(dir + ['/'] + name + ['.'] + ext) == name
  {
    var file := name + ['.'] + ext;
    var url := dir + ['/'] + name + ['.'] + ext;
    assert url == dir + ['/'] + file;
    assert '/' !in file by {
      assert forall i :: 0 <= i < |file| ==> file[i] == (if i < |name| then name[i] else if i == |name| then '.' else ext[i - |name| - 1]);
    }
    LastSegmentAfterSep(dir, file, '/');
    SplitAfterPrefix(name, ext, '.');
  }

  /** The image name of a full url such as "https://host/img/rex.jpg" is "rex". */
  lemma ImgNameOfUrl()
    ensures ImgName("https://host/img/rex.jpg") == "rex"
  {
    ImgNameOfPath("https://host/img", "rex", "jpg");
    assert "https://host/img" + ['/'] + "rex" + ['.'] + "jpg" == "https://host/img/rex.jpg";
  }

  /** A JavaScript value on either side of `===` in the commit code. */
  datatype JsValue = JsBool(b: bool) | JsString(s: string)

  /** `===`: equal only when of the same kind with the same contents. */
  predicate StrictEquals(x: JsValue, y: JsValue)
  {
    x == y
  }

  /** The gender the commit sends. The code compares the boolean `gender.male`
      with the string "true", which is never strictly equal, so every commit
      sends "Female", whichever button is checked. */
  function CommitGender(g: GenderChoice): (gender: string)
    ensures gender == "Female"
  {
    if StrictEquals(JsBool(g.male), JsString("true")) then "Male" else "Female"
  }

  /** The seven locally edited fields. */
  datatype Draft = Draft(
    name: string, status: string, birthdate: FieldValue, arrivalDate: FieldValue,
    gender: GenderChoice, tag: string, microchip: string)

  /** The update sent on commit: every field from the draft, none from the record. */
  function CommitPayload(d: Draft): (patch: DogPatch)
    ensures patch.InfoPatch?
    ensures patch.dog_name == d.name && patch.age == d.birthdate && patch.arrival_date == d.arrivalDate
    ensures patch.dog_status == d.status && patch.tag_number == d.tag && patch.microchip == d.microchip
    ensures patch.gender == "Female"
  {
    InfoPatch(d.name, d.birthdate, CommitGender(d.gender), d.arrivalDate, d.status, d.tag, d.microchip)
  }

  /** A draft with "Male" checked still commits "Female". */
  lemma MaleDraftCommitsFemale(d: Draft)
    requires d.gender == PickedGender(true)
    ensures CommitPayload(d).gender == "Female" && d.gender.male
  {
  }

  /** Every component variable at once. */
  datatype ProfileState = ProfileState(
    info: Dog, draft: Draft, isEditing: bool, editingPhoto: bool, imgName: string)

  /** The edits the inputs make to the draft; each one sets one field. */
  datatype DraftEdit =
    | NameInput(text: string)
    | GenderClick(male: bool)
    | BirthdatePick(value: FieldValue)
    | ArrivalPick(value: FieldValue)
    | TagInput(text: string)
    | MicrochipInput(text: string)

  function ApplyEdit(d: Draft, e: DraftEdit): (r: Draft)
    ensures e.NameInput? ==> r == d.(name := e.text)
    ensures e.GenderClick? ==> r == d.(gender := PickedGender(e.male))
    ensures e.BirthdatePick? ==> r == d.(birthdate := e.value)
    ensures e.ArrivalPick? ==> r == d.(arrivalDate := e.value)
    ensures e.TagInput? ==> r == d.(tag := e.text)
    ensures e.MicrochipInput? ==> r == d.(microchip := e.text)
    ensures r.status == d.status
    ensures OneChecked(d.gender) ==> OneChecked(r.gender)
  {
    match e
    case NameInput(t) => d.(name := t)
    case GenderClick(m) => d.(gender := PickedGender(m))
    case BirthdatePick(v) => d.(birthdate := v)
    case ArrivalPick(v) => d.(arrivalDate := v)
    case TagInput(t) => d.(tag := t)
    case MicrochipInput(t) => d.(microchip := t)
  }

  class Profile {
    const dogId: DogId
    const api: DogsApi
    var info: Dog
    var name: string
    var status: string
    var birthdate: FieldValue
    var arrivalDate: FieldValue
    var gender: GenderChoice
    var tag: string
    var microchip: string
    var isEditing: bool
    var editingPhoto: bool
    var imgName: string

    /** The draft as one value. */
    function CurrentDraft(): Draft
      reads this
    {
      Draft(name, status, birthdate, arrivalDate, gender, tag, microchip)
    }

    ghost function State(): ProfileState
      reads this
    {
      ProfileState(info, CurrentDraft(), isEditing, editingPhoto, imgName)
    }

    constructor (dogId: DogId, api: DogsApi)
      ensures this.dogId == dogId && this.api == api
      ensures State() == ProfileState(Blank,
        Draft("", "", Str(""), Str(""), GenderChoice(false, false), "", ""),
        false, false, "")
    {
      this.dogId := dogId;
      this.api := api;
      info := Blank;
      name, status, birthdate, arrivalDate := "", "", Str(""), Str("");
      gender := GenderChoice(false, false);
      tag, microchip := "", "";
      isEditing, editingPhoto := false, false;
      imgName := "";
    }

    /** The mount effect: fetch the record, then derive every draft field, the
        radio state and the image name from it. `new Date(s)` is `parseDate`.
        A rejected fetch is not caught, so nothing changes. */
    method Load(fetched: Result<Dog>, parseDate: string -> Date)
      modifies this, api
      ensures api.calls == old(api.calls) + [GetDogInfo(dogId)]
      ensures fetched.Err? ==> State() == old(State())
      ensures fetched.Ok? ==> var res := fetched.value;
        State() == ProfileState(res,
          Draft(res.dog_name, res.dog_status, Picked(parseDate(res.age)),
                Picked(parseDate(res.arrival_date)), LoadedGender(res.gender),
                res.tag_number, res.microchip),
          old(isEditing), old(editingPhoto), ImgName(res.profile_img))
    {
      api.Issue(GetDogInfo(dogId));
      if fetched.Err? {
        return;
      }
      Derive(fetched.value, parseDate(fetched.value.age), parseDate(fetched.value.arrival_date));
    }

    /** The state updates that follow a successful fetch of `res`, with its
        two dates already parsed. */
    method Derive(res: Dog, birth: Date, arrival: Date)
      modifies this
      ensures State() == ProfileState(res,
        Draft(res.dog_name, res.dog_status, Picked(birth), Picked(arrival),
              LoadedGender(res.gender), res.tag_number, res.microchip),
        old(isEditing), old(editingPhoto), ImgName(res.profile_img))
    {
      info := res;
      gender := LoadedGender(res.gender);
      microchip := res.microchip;
      tag := res.tag_number;
      arrivalDate := Picked(arrival);
      name := res.dog_name;
      status := res.dog_status;
      birthdate := Picked(birth);
      imgName := ImgName(res.profile_img);
    }

    /** One input changes one draft field; nothing is sent. */
    method Edit(e: DraftEdit)
      modifies this
      ensures State() == old(State()).(draft := ApplyEdit(old(CurrentDraft()), e))
    {
      match e
      case NameInput(t) => name := t;
      case GenderClick(m) => gender := PickedGender(m);
      case BirthdatePick(v) => birthdate := v;
      case ArrivalPick(v) => arrivalDate := v;
      case TagInput(t) => tag := t;
      case MicrochipInput(t) => microchip := t;
    }

    /** The status dropdown: any value, "Adopted" and "Archived" included, is
        taken as it is, with no note and no request. */
    method UpdateStatus(s: string)
      modifies this
      ensures State() == old(State()).(draft := old(CurrentDraft()).(status := s))
    {
      status := s;
    }

    /** Both the edit icon and the cancel icon: flip `isEditing` and nothing
        else. The draft is not refilled from `info` on entry and not reset on
        cancel, and nothing is sent. */
    method ToggleEditing()
      modifies this
      ensures State() == old(State()).(isEditing := !old(isEditing))
    {
      isEditing := !isEditing;
    }

    /** The photo edit icon opens or closes the image form. */
    method TogglePhotoEditing()
      modifies this
      ensures State() == old(State()).(editingPhoto := !old(editingPhoto))
    {
      editingPhoto := !editingPhoto;
    }

    /** Closing the image form's modal. */
    method ClosePhotoModal()
      modifies this
      ensures State() == old(State()).(editingPhoto := false)
    {
      editingPhoto := false;
    }

    /** `updateDogInfo`: send the draft, then fetch the record by the id the
        update returned; only when both resolve is `info` replaced and
        `isEditing` flipped. A rejection is not caught: later requests are not
        made and nothing changes. */
    method UpdateDogInfo(updated: Result<DogId>, fetched: Result<Dog>)
      modifies this, api
      ensures api.calls == old(api.calls) + [UpdateDog(CommitPayload(old(CurrentDraft())), dogId)] +
        (if updated.Ok? then [GetDogInfo(updated.value)] else [])
      ensures State() ==
        if updated.Ok? && fetched.Ok? then old(State()).(info := fetched.value, isEditing := !old(isEditing))
        else old(State())
    {
      var newObj := CommitPayload(CurrentDraft());
      api.Issue(UpdateDog(newObj, dogId));
      if updated.Err? {
        return;
      }
      api.Issue(GetDogInfo(updated.value));
      if fetched.Err? {
        return;
      }
      info := fetched.value;
      isEditing := !isEditing;
    }

    /** `updateDogImage`: delete the old image by `imgName`, upload the new
        one under the record's tag, then send the new url with the name.
        Each step waits for the one before; a rejection stops the rest and
        changes nothing. On success only `info.profile_img` changes (there is
        no refetch, `imgName` keeps the old name) and `editingPhoto` flips. */
    method UpdateDogImage(profileImg: FileValue, deleted: Outcome, uploaded: Result<string>, updated: Outcome)
      modifies this, api
      ensures var del := DeleteDogImg(profileImg, old(imgName));
        var up := UploadDogImg(profileImg, old(info).tag_number);
        && (deleted.Failed? ==> api.calls == old(api.calls) + [del])
        && (deleted.Done? && uploaded.Err? ==> api.calls == old(api.calls) + [del, up])
        && (deleted.Done? && uploaded.Ok? ==>
              api.calls == old(api.calls) +
                [del, up, UpdateDog(ImagePatch(old(info).dog_name, uploaded.value), dogId)])
      ensures State() ==
        if deleted.Done? && uploaded.Ok? && updated.Done? then
          old(State()).(info := old(info).(profile_img := uploaded.value), editingPhoto := !old(editingPhoto))
        else old(State())
    {
      api.Issue(DeleteDogImg(profileImg, imgName));
      if deleted.Failed? {
        return;
      }
      api.Issue(UploadDogImg(profileImg, info.tag_number));
      if uploaded.Err? {
        return;
      }
      var newUrl := uploaded.value;
      var dogObj := ImagePatch(info.dog_name, newUrl);
      api.Issue(UpdateDog(dogObj, dogId));
      if updated.Failed? {
        return;
      }
      info := info.(profile_img := newUrl);
      editingPhoto := !editingPhoto;
    }
  }

  /** Editing a field, cancelling and editing again shows the edited value,
      not the record's, and sends nothing. */
  method CancelKeepsStaleDraft(p: Profile, typed: string)
    modifies p
    ensures p.name == typed && p.info == old(p.info) && p.isEditing == old(p.isEditing)
    ensures p.api.calls == old(p.api.calls)
  {
    p.Edit(NameInput(typed));
    p.ToggleEditing();
    p.ToggleEditing();
  }
}
