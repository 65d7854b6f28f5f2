/** The records the components exchange with the dog service: the dog as the
    service returns it, the payloads the components send, and the notes. */
module Records {
  import opened Common

  /** Identifiers travel as route parameters and as record ids; the model
      keeps all of them as strings. */
  type DogId = string

  /** A shot as the service returns it inside a dog record. The completion
      flag is a JSON boolean that may also be `null` (`None`). */
  datatype ShotRecord = ShotRecord(shot_name: string, shot_date: Option<string>, shot_iscompleted: Option<bool>)

  /** A dog record as `getDogInfo` returns it (the fields the components read). */
  datatype Dog = Dog(
    id: DogId,
    dog_name: string,
    dog_status: string,
    gender: string,
    age: string,
    arrival_date: string,
    tag_number: string,
    microchip: string,
    profile_img: string,
    shotsCompleted: seq<ShotRecord>)

  /** The record a component holds before its first fetch resolves (`{}` in
      the profile section, `""` in the dog page): every field empty. */
  const Blank := Dog("", "", "", "", "", "", "", "", "", [])

  /** The route both pages push after a create or a delete. */
  const DogsListPath := "/dogs-list"

  /** A shot payload built by the add-dog form; `dog_id` is absent until the
      new dog's id is known. */
  datatype ShotPayload = ShotPayload(shot_name: string, shot_date: Option<string>, shot_iscompleted: bool, dog_id: Option<DogId>)

  /** One value appended to a `FormData`: the image file, or text. */
  datatype Part = FilePart(file: FileValue) | TextPart(text: FieldValue)

  datatype FormEntry = FormEntry(key: string, part: Part)

  /** The two partial updates `updateDog` is sent: the edited profile fields,
      and the new image url with the dog's name. */
  datatype DogPatch =
    | InfoPatch(dog_name: string, age: FieldValue, gender: string, arrival_date: FieldValue,
                dog_status: string, tag_number: string, microchip: string)
    | ImagePatch(dog_name: string, profile_img: string)

  datatype Note = Note(type_of_note: string, notes: string, dog_id: DogId)
}

/** The dog service as the components see it: every request they issue is
    appended to `calls`, in the order issued. How a request settles is not
    decided here; each workflow receives the settled outcome of each awaited
    request as an input. */
module DogsApiService {
  import opened Common
  import opened Records

  datatype Call =
    | InsertNewDog(form: seq<FormEntry>)
    | InsertNewShot(shot: ShotPayload)
    | GetDogInfo(id: DogId)
    | UpdateDog(patch: DogPatch, id: DogId)
    | DeleteDogImg(file: FileValue, key: string)
    | UploadDogImg(file: FileValue, key: string)
    | ArchiveDog(id: DogId, archive_date: Date)
    | InsertNewNote(note: Note)
    | DeleteDog(id: DogId)
    | DeleteNotesByDogId(id: DogId)
    | DeleteShotsByDogId(id: DogId)

  class DogsApi {
    var calls: seq<Call>

    constructor ()
      ensures calls == []
    {
      calls := [];
    }

    /** Issues one request. */
    method Issue(c: Call)
      modifies this
      ensures calls == old(calls) + [c]
    {
      calls := calls + [c];
    }
  }
}
