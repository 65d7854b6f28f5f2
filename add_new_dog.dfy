/** The add-dog form: its reducer over three kinds of action, the routing of
    input events to actions, the two payload builders, and the submit
    workflow that creates the dog and then its shots. */
module AddNewDog {
  import opened Common
  import opened Records
  import opened DogsApiService

  /* ---------- The shot slots: an object whose keys keep insertion order ---------- */

  /** One key of `state.shots` with the date it holds. */
  datatype Slot = Slot(name: string, date: FieldValue)

  /** The key names of the slots, in their order. */
  function Names(slots: seq<Slot>): (names: seq<string>)
    ensures |names| == |slots|
  {
    if |slots| == 0 then [] else [slots[0].name] + Names(slots[1..])
  }

  /** The `i`-th name is the name of the `i`-th slot. */
  lemma {:induction false} NamesAt(slots: seq<Slot>)
    ensures forall i :: 0 <= i < |slots| ==> Names(slots)[i] == slots[i].name
    decreases |slots|
  {
    if |slots| > 0 {
      NamesAt(slots[1..]);
    }
  }

  /** No key appears twice, as in any JavaScript object. */
  predicate UniqueNames(slots: seq<Slot>)
  {
    forall i, j :: 0 <= i < j < |slots| ==> slots[i].name != slots[j].name
  }

  /** `slots[name]`, or `None` when the key is absent. */
  function Lookup(slots: seq<Slot>, name: string): Option<FieldValue>
  {
    if |slots| == 0 then None
    else if slots[0].name == name then Some(slots[0].date)
    else Lookup(slots[1..], name)
  }

  /** `{ ...slots, [name]: date }`: an existing key keeps its place and takes the
      new date; a new key is added after all the others. */
  function Put(slots: seq<Slot>, name: string, date: FieldValue): (r: seq<Slot>)
    ensures Lookup(r, name) == Some(date)
    ensures forall other :: other != name ==> Lookup(r, other) == Lookup(slots, other)
    ensures Names(r) == if name in Names(slots) then Names(slots) else Names(slots) + [name]
  {
    if |slots| == 0 then [Slot(name, date)]
    else if slots[0].name == name then
      var r := [Slot(name, date)] + slots[1..];
      assert r[1..] == slots[1..];
      r
    else
      var rest := Put(slots[1..], name, date);
      var r := [slots[0]] + rest;
      assert r[0] == slots[0] && r[1..] == rest;
      r
  }

  /** Setting a key never makes a key appear twice. */
  lemma {:induction false} PutKeepsUnique(slots: seq<Slot>, name: string, date: FieldValue)
    requires UniqueNames(slots)
    ensures UniqueNames(Put(slots, name, date))
    decreases |slots|
  {
    var r := Put(slots, name, date);
    if |slots| > 0 && slots[0].name != name {
      var rest := Put(slots[1..], name, date);
      assert r == [slots[0]] + rest;
      PutKeepsUnique(slots[1..], name, date);
      NamesAt(slots[1..]);
      NamesAt(rest);
      assert slots[0].name !in Names(slots[1..]);
      forall i, j | 0 <= i < j < |r| ensures r[i].name != r[j].name {
        if i == 0 {
          assert r[j].name == Names(rest)[j - 1];
        } else {
          assert r[i] == rest[i - 1] && r[j] == rest[j - 1];
        }
      }
    } else if |slots| > 0 {
      assert r == [Slot(name, date)] + slots[1..];
    }
  }

  /* ---------- The form state and its reducer ---------- */

  datatype ImageState = ImageState(file: FileValue, imagePreview: string)

  datatype FormState = FormState(
    inputText: map<string, FieldValue>,
    image: ImageState,
    shots: seq<Slot>,
    touched: map<string, bool>)

  /** `obj[key]` on a plain object, `undefined` for a missing key. */
  function Field(m: map<string, FieldValue>, key: string): FieldValue
  {
    if key in m then m[key] else Undefined
  }

  const InitialSlotNames: seq<string> :=
    ["Spayed/Neutered", "Rabies", "Complex I", "Complex II", "Complex Yearly Booster"]

  /** The state the form starts with. */
  const InitialForm := FormState(
    map["name" := Str(""), "gender" := Str(""), "microchip_number" := Str(""),
        "microchip_date" := Str(""), "tag_number" := Str(""), "age" := Str(""),
        "arrival_date" := Str("")],
    ImageState(NoFile, ""),
    [Slot("Spayed/Neutered", Str("")), Slot("Rabies", Str("")), Slot("Complex I", Str("")),
     Slot("Complex II", Str("")), Slot("Complex Yearly Booster", Str(""))],
    map["name" := false])

  /** The initial slots are exactly the five named shots, in that order. */
  lemma InitialSlots()
    ensures Names(InitialForm.shots) == InitialSlotNames
    ensures UniqueNames(InitialForm.shots)
  {
  }

  /** The actions the reducer is given; `Other` is any other `type`. */
  datatype Action =
    | TextInput(key: string, value: FieldValue)
    | ImgInput(key: string, url: string, file: FileValue)
    | ShotInput(key: string, date: FieldValue)
    | Other(kind: string)

  /** The reducer: each action type changes its own part of the state only. */
  function FormReducer(s: FormState, a: Action): (r: FormState)
    ensures !a.TextInput? ==> r.inputText == s.inputText && r.touched == s.touched
    ensures !a.ImgInput? ==> r.image == s.image
    ensures !a.ShotInput? ==> r.shots == s.shots
    ensures a.Other? ==> r == s
  {
    match a
    case TextInput(key, value) =>
      s.(inputText := s.inputText[key := value], touched := s.touched[key := true])
    case ImgInput(_, url, file) =>
      s.(image := ImageState(file, url))
    case ShotInput(key, date) =>
      s.(shots := Put(s.shots, key, date))
    case Other(_) =>
      s
  }

  /** A text input sets that one field and marks it touched; the image and the
      shots are left as they were. */
  lemma ReducerTextInput(s: FormState, key: string, value: FieldValue)
    ensures var r := FormReducer(s, TextInput(key, value));
      && Field(r.inputText, key) == value
      && (forall k :: k != key ==> Field(r.inputText, k) == Field(s.inputText, k))
      && r.touched.Keys == s.touched.Keys + {key}
      && r.touched[key]
      && (forall k :: k in s.touched && k != key ==> r.touched[k] == s.touched[k])
      && r.image == s.image && r.shots == s.shots
  {
  }

  /** An image input replaces the image and its preview and nothing else. */
  lemma ReducerImgInput(s: FormState, key: string, url: string, file: FileValue)
    ensures var r := FormReducer(s, ImgInput(key, url, file));
      && r.image.file == file && r.image.imagePreview == url
      && r.inputText == s.inputText && r.shots == s.shots && r.touched == s.touched
  {
  }

  /** A shot input changes only the date of the slot it names, adding the slot
      when the key is not one of the keys yet. */
  lemma ReducerShotInput(s: FormState, key: string, date: FieldValue)
    ensures var r := FormReducer(s, ShotInput(key, date));
      && Lookup(r.shots, key) == Some(date)
      && (forall k :: k != key ==> Lookup(r.shots, k) == Lookup(s.shots, k))
      && Names(r.shots) == (if key in Names(s.shots) then Names(s.shots) else Names(s.shots) + [key])
      && r.inputText == s.inputText && r.image == s.image && r.touched == s.touched
  {
  }

  /** Any other action type leaves the state as it is. */
  lemma ReducerOther(s: FormState, kind: string)
    ensures FormReducer(s, Other(kind)) == s
  {
  }

  /** The "Rabies Yearly Booster" picker is not one of the initial slots, so
      choosing a date there adds a sixth key after the five. */
  lemma RabiesBoosterAddsSixthSlot(d: FieldValue)
    ensures var r := FormReducer(InitialForm, ShotInput("Rabies Yearly Booster", d));
      && Names(r.shots) == InitialSlotNames + ["Rabies Yearly Booster"]
      && |r.shots| == 6
      && UniqueNames(r.shots)
  {
    InitialSlots();
    assert "Rabies Yearly Booster" !in InitialSlotNames;
    PutKeepsUnique(InitialForm.shots, "Rabies Yearly Booster", d);
  }

  /** Applying actions one after the other, as React does with dispatches. */
  function Replay(s: FormState, actions: seq<Action>): (r: FormState)
    ensures (forall i :: 0 <= i < |actions| ==> !actions[i].TextInput?) ==>
      r.inputText == s.inputText && r.touched == s.touched
    ensures (forall i :: 0 <= i < |actions| ==> !actions[i].ImgInput?) ==> r.image == s.image
    ensures (forall i :: 0 <= i < |actions| ==> !actions[i].ShotInput?) ==> r.shots == s.shots
    decreases |actions|
  {
    if |actions| == 0 then s else Replay(FormReducer(s, actions[0]), actions[1..])
  }

  /** The labels of the text inputs among `actions`. */
  function TextLabels(actions: seq<Action>): set<string>
    decreases |actions|
  {
    if |actions| == 0 then {}
    else (if actions[0].TextInput? then {actions[0].key} else {}) + TextLabels(actions[1..])
  }

  /** After any run of actions the touched keys are the old ones plus the text
      input labels; a key is true exactly when it was true or some text input
      named it, so no flag is ever reset to false. */
  lemma {:induction false} ReplayTouched(s: FormState, actions: seq<Action>)
    ensures var r := Replay(s, actions);
      && r.touched.Keys == s.touched.Keys + TextLabels(actions)
      && (forall k :: k in r.touched ==>
            (r.touched[k] <==> (k in TextLabels(actions) || (k in s.touched && s.touched[k]))))
    decreases |actions|
  {
    if |actions| > 0 {
      ReplayTouched(FormReducer(s, actions[0]), actions[1..]);
    }
  }

  /** The initial slots stay, in their order, in front of every slot added
      later, and no key ever appears twice. */
  lemma {:induction false} ReplayKeepsSlots(s: FormState, actions: seq<Action>)
    requires UniqueNames(s.shots)
    ensures var r := Replay(s, actions);
      && Names(s.shots) <= Names(r.shots)
      && UniqueNames(r.shots)
    decreases |actions|
  {
    if |actions| > 0 {
      var a := actions[0];
      var next := FormReducer(s, a);
      if a.ShotInput? {
        PutKeepsUnique(s.shots, a.key, a.date);
        assert Names(s.shots) <= Names(next.shots);
      }
      ReplayKeepsSlots(next, actions[1..]);
    }
  }

  /* ---------- Routing input events to actions ---------- */

  /** What a change handler reads from its first argument: the argument as a
      date picker passes it (the chosen `Date` or `null`), `e.target.value`,
      `e.target.files[0]` (`NoFile` when the file list is empty), and the
      object url made for that file. */
  datatype UiEvent = UiEvent(pickerValue: FieldValue, targetValue: string, firstFile: FileValue, objectUrl: string)

  /** `handleChange(e, key, value)`: the action it dispatches, or `None` when
      it throws first. An image event with an empty file list hands
      `undefined` to `URL.createObjectURL`, which throws before the dispatch. */
  function ChangeAction(e: UiEvent, key: string, value: string): (a: Option<Action>)
    ensures a.None? <==> key == "image" && e.firstFile == NoFile
    ensures a.Some? ==> !a.value.ShotInput? && !a.value.Other?
    ensures a.Some? ==> (a.value.TextInput? <==> key != "image")
    ensures key == "gender" ==> a == Some(TextInput(key, Str(value)))
    ensures key in {"age", "arrival_date", "microchip_date"} ==> a == Some(TextInput(key, e.pickerValue))
    ensures key == "image" && e.firstFile != NoFile ==> a == Some(ImgInput(key, e.objectUrl, e.firstFile))
    ensures key !in {"gender", "age", "arrival_date", "microchip_date", "image"} ==>
      a == Some(TextInput(key, Str(e.targetValue)))
  {
    if key == "gender" then Some(TextInput(key, Str(value)))
    else if key == "age" || key == "arrival_date" || key == "microchip_date" then
      Some(TextInput(key, e.pickerValue))
    else if key == "image" then
      if e.firstFile == NoFile then None else Some(ImgInput(key, e.objectUrl, e.firstFile))
    else Some(TextInput(key, Str(e.targetValue)))
  }

  /** Every field changed through `handleChange` becomes touched, except the
      image; a shot change never touches anything. */
  lemma ChangeTouches(s: FormState, e: UiEvent, key: string, value: string, date: FieldValue, shot: string)
    ensures key != "image" ==> ChangeAction(e, key, value).Some?
    ensures ChangeAction(e, key, value).Some? ==>
      FormReducer(s, ChangeAction(e, key, value).value).touched.Keys ==
        s.touched.Keys + (if key == "image" then {} else {key})
    ensures key != "image" ==> FormReducer(s, ChangeAction(e, key, value).value).touched[key]
    ensures key == "image" && ChangeAction(e, key, value).Some? ==>
      FormReducer(s, ChangeAction(e, key, value).value).touched == s.touched
    ensures FormReducer(s, ShotInput(shot, date)).touched == s.touched
  {
  }

  /* ---------- The payload builders ---------- */

  /** The shot payload for one slot: completed exactly when its date is truthy,
      and then carrying the formatted date, otherwise `null`. */
  function ShotOf(slot: Slot, stringify: FieldValue -> string): (p: ShotPayload)
    ensures p.shot_name == slot.name && p.dog_id == None
    ensures p.shot_iscompleted <==> Truthy(slot.date)
    ensures p.shot_date == None <==> !Truthy(slot.date)
    ensures p.shot_date.Some? ==> p.shot_date.value == stringify(slot.date)
  {
    var dateStr := stringify(slot.date);
    ShotPayload(slot.name, if !Truthy(slot.date) then None else Some(dateStr), Truthy(slot.date), None)
  }

  /** The shot list, one payload per slot, in key order. */
  function ShotList(slots: seq<Slot>, stringify: FieldValue -> string): (shots: seq<ShotPayload>)
    ensures |shots| == |slots|
    ensures forall i :: 0 <= i < |slots| ==> shots[i] == ShotOf(slots[i], stringify)
  {
    seq(|slots|, i requires 0 <= i < |slots| => ShotOf(slots[i], stringify))
  }

  /** `makeShotsArray`: walks the slots in key order and pushes one payload per slot. */
  method MakeShotsArray(slots: seq<Slot>, stringify: FieldValue -> string) returns (shotList: seq<ShotPayload>)
    ensures |shotList| == |slots|
    ensures forall i :: 0 <= i < |slots| ==> shotList[i] == ShotOf(slots[i], stringify)
    ensures shotList == ShotList(slots, stringify)
  {
    shotList := [];
    for i := 0 to |slots|
      invariant |shotList| == i
      invariant forall j :: 0 <= j < i ==> shotList[j] == ShotOf(slots[j], stringify)
    {
      var obj := ShotOf(slots[i], stringify);
      shotList := shotList + [obj];
    }
  }

  /** Choosing a date for "Rabies" on a fresh form makes only that shot
      completed, with the formatted date; the other four stay not completed
      with a `null` date. */
  lemma RabiesScenario(d: Date, stringify: FieldValue -> string)
    ensures var list := ShotList(FormReducer(InitialForm, ShotInput("Rabies", Picked(d))).shots, stringify);
      && |list| == 5
      && list[1] == ShotPayload("Rabies", Some(stringify(Picked(d))), true, None)
      && (forall i :: 0 <= i < 5 && i != 1 ==>
            list[i] == ShotPayload(InitialSlotNames[i], None, false, None))
  {
    var init := InitialForm.shots;
    assert Put(init[1..], "Rabies", Picked(d)) == [Slot("Rabies", Picked(d))] + init[2..];
    assert Put(init, "Rabies", Picked(d)) == [init[0]] + Put(init[1..], "Rabies", Picked(d));
  }

  /** The keys of the create payload, in the order they are appended. */
  const DogFormKeys: seq<string> :=
    ["profile_img", "dog_name", "gender", "microchip_date", "microchip", "tag_number",
     "age", "arrival_date", "shelter_id"]

  /** The microchip date sent: today's date when the field still holds the
      empty string, the chosen value otherwise; formatted either way. */
  function MicrochipDate(s: FormState, stringify: FieldValue -> string, today: Date): (date: string)
    ensures Field(s.inputText, "microchip_date") == Str("") ==> date == stringify(Picked(today))
    ensures Field(s.inputText, "microchip_date") != Str("") ==> date == stringify(Field(s.inputText, "microchip_date"))
  {
    if Field(s.inputText, "microchip_date") == Str("") then stringify(Picked(today))
    else stringify(Field(s.inputText, "microchip_date"))
  }

  /** The `newDog` list: the eight dog fields in their fixed order, ending
      with the shelter id, the dates formatted. */
  function DogFields(s: FormState, stringify: FieldValue -> string, today: Date, shelterId: FieldValue)
    : (fields: seq<FormEntry>)
    ensures |fields| == |DogFormKeys| - 1
    ensures forall i :: 0 <= i < |fields| ==> fields[i].key == DogFormKeys[i + 1] && fields[i].part.TextPart?
  {
    [FormEntry("dog_name", TextPart(Field(s.inputText, "name"))),
     FormEntry("gender", TextPart(Field(s.inputText, "gender"))),
     FormEntry("microchip_date", TextPart(Str(MicrochipDate(s, stringify, today)))),
     FormEntry("microchip", TextPart(Field(s.inputText, "microchip_number"))),
     FormEntry("tag_number", TextPart(Field(s.inputText, "tag_number"))),
     FormEntry("age", TextPart(Str(stringify(Field(s.inputText, "age"))))),
     FormEntry("arrival_date", TextPart(Str(stringify(Field(s.inputText, "arrival_date"))))),
     FormEntry("shelter_id", TextPart(shelterId))]
  }

  /** The create payload: the image first, then the eight dog fields. */
  function DogForm(s: FormState, stringify: FieldValue -> string, today: Date, shelterId: FieldValue)
    : (form: seq<FormEntry>)
    ensures |form| == |DogFormKeys|
    ensures forall i :: 0 <= i < |form| ==> form[i].key == DogFormKeys[i]
    ensures form[0].part == FilePart(s.image.file)
    ensures forall i :: 1 <= i < |form| ==> form[i].part.TextPart?
  {
    var fields := DogFields(s, stringify, today, shelterId);
    var form := [FormEntry("profile_img", FilePart(s.image.file))] + fields;
    assert forall i :: 1 <= i < |form| ==> form[i] == fields[i - 1];
    form
  }

  /** `makeDogObj`: appends the image, then each entry of the dog field list in turn. */
  method MakeDogObj(s: FormState, stringify: FieldValue -> string, today: Date, shelterId: FieldValue)
    returns (formData: seq<FormEntry>)
    ensures formData == DogForm(s, stringify, today, shelterId)
  {
    var newDog := DogFields(s, stringify, today, shelterId);
    formData := [FormEntry("profile_img", FilePart(s.image.file))];
    for i := 0 to |newDog|
      invariant formData == [FormEntry("profile_img", FilePart(s.image.file))] + newDog[..i]
    {
      formData := formData + [newDog[i]];
    }
    assert newDog[..|newDog|] == newDog;
  }

  /** The microchip date entry holds today's date when the field still holds
      the empty string, and the formatted field otherwise. */
  lemma MicrochipDateDefaultsToToday(s: FormState, stringify: FieldValue -> string, today: Date, shelterId: FieldValue)
    ensures var form := DogForm(s, stringify, today, shelterId);
      && (Field(s.inputText, "microchip_date") == Str("") ==>
            form[3].part == TextPart(Str(stringify(Picked(today)))))
      && (Field(s.inputText, "microchip_date") != Str("") ==>
            form[3].part == TextPart(Str(stringify(Field(s.inputText, "microchip_date")))))
  {
  }

  /* ---------- Submitting ---------- */

  /** The shot payloads with the new dog's id set on each. */
  function Tagged(shots: seq<ShotPayload>, id: DogId): (r: seq<ShotPayload>)
    ensures |r| == |shots|
    ensures forall i :: 0 <= i < |shots| ==> r[i] == shots[i].(dog_id := Some(id))
  {
    seq(|shots|, i requires 0 <= i < |shots| => shots[i].(dog_id := Some(id)))
  }

  /** One `insertNewShot` request per payload, in order. */
  function ShotInserts(shots: seq<ShotPayload>): (calls: seq<Call>)
    ensures |calls| == |shots|
    ensures forall i :: 0 <= i < |shots| ==> calls[i] == InsertNewShot(shots[i])
  {
    seq(|shots|, i requires 0 <= i < |shots| => InsertNewShot(shots[i]))
  }

  /** `shotsObj.map((i) => (i.dog_id = res.id))`: sets the id on every entry in place. */
  method TagWithDogId(a: array<ShotPayload>, id: DogId)
    modifies a
    ensures a[..] == Tagged(old(a[..]), id)
  {
    for i := 0 to a.Length
      invariant forall j :: 0 <= j < i ==> a[j] == old(a[j]).(dog_id := Some(id))
      invariant forall j :: i <= j < a.Length ==> a[j] == old(a[j])
    {
      a[i] := a[i].(dog_id := Some(id));
    }
  }

  /** The form shots a successful submit inserts: one per slot, in key order,
      each carrying the new dog's id and its completion derived from its date. */
  lemma SubmittedShots(slots: seq<Slot>, stringify: FieldValue -> string, id: DogId)
    ensures var sent := Tagged(ShotList(slots, stringify), id);
      && |sent| == |slots|
      && (forall i :: 0 <= i < |slots| ==>
            && sent[i].shot_name == slots[i].name
            && sent[i].dog_id == Some(id)
            && (sent[i].shot_iscompleted <==> Truthy(slots[i].date))
            && (sent[i].shot_date == None <==> !Truthy(slots[i].date)))
  {
  }


  class AddNewDogForm {
    const api: DogsApi
    var state: FormState
    var error: Option<string>
    /** The paths pushed onto the router. */
    var history: seq<string>

    constructor (api: DogsApi)
      ensures this.api == api
      ensures state == InitialForm && error == None && history == []
    {
      this.api := api;
      state := InitialForm;
      error := None;
      history := [];
    }

    method Dispatch(a: Action)
      modifies this
      ensures state == FormReducer(old(state), a) && error == old(error) && history == old(history)
    {
      state := FormReducer(state, a);
    }

    /** `handleChange`: dispatches the routed action; when the handler throws
        first, nothing is dispatched and the state stays. */
    method HandleChange(e: UiEvent, key: string, value: string)
      modifies this
      ensures ChangeAction(e, key, value).None? ==> state == old(state)
      ensures ChangeAction(e, key, value).Some? ==> state == FormReducer(old(state), ChangeAction(e, key, value).value)
      ensures error == old(error) && history == old(history)
    {
      var a := ChangeAction(e, key, value);
      if a.Some? {
        Dispatch(a.value);
      }
    }

    method HandleShotChange(date: FieldValue, key: string)
      modifies this
      ensures state == FormReducer(old(state), ShotInput(key, date)) && error == old(error) && history == old(history)
    {
      Dispatch(ShotInput(key, date));
    }

    /** `handleSubmit`: builds both payloads, creates the dog, and only when
        that resolves tags every shot with the new id, inserts them all and
        goes to the dog list. A rejected create inserts no shot, stays on the
        form and records its message. The inserts are not awaited, so their
        outcomes change nothing. */
    method HandleSubmit(stringify: FieldValue -> string, today: Date, shelterId: FieldValue, created: Result<DogId>)
      modifies this, api
      ensures state == old(state)
      ensures api.calls == old(api.calls) + [InsertNewDog(DogForm(state, stringify, today, shelterId))] +
        (if created.Ok? then ShotInserts(Tagged(ShotList(state.shots, stringify), created.value)) else [])
      ensures error == if created.Err? then Some(created.message) else old(error)
      ensures history == if created.Ok? then old(history) + [DogsListPath] else old(history)
    {
      var newDogObj := MakeDogObj(state, stringify, today, shelterId);
      var shotsObj := MakeShotsArray(state.shots, stringify);
      api.Issue(InsertNewDog(newDogObj));
      ghost var afterCreate := api.calls;
      match created
      case Err(message) =>
        error := Some(message);
      case Ok(id) =>
        var a := new ShotPayload[|shotsObj|](i requires 0 <= i < |shotsObj| => shotsObj[i]);
        assert a[..] == shotsObj;
        TagWithDogId(a, id);
        assert a[..] == Tagged(shotsObj, id);
        for i := 0 to a.Length
          invariant state == old(state) && error == old(error) && history == old(history)
          invariant a[..] == Tagged(shotsObj, id)
          invariant api.calls == afterCreate + ShotInserts(a[..i])
        {
          assert a[..i + 1] == a[..i] + [a[i]];
          api.Issue(InsertNewShot(a[i]));
        }
        assert a[..a.Length] == a[..];
        history := history + [DogsListPath];
    }
  }
}
