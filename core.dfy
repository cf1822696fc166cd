/** Core entities shared by the assistant, the accountant and the store
    (src/core.rs): the content-type table and the guest record. */
module Core {

  /** Kinds of message content. Only Text is ever produced. */
  datatype ContentType = Text | Image | Audio | Video | File

  /** `ContentType::to_id`: the database id of a content type. */
  function ContentTypeToId(t: ContentType): (id: int)
    ensures 1 <= id <= 5
    ensures id == 1 <==> t == Text
  {
    match t
    case Text => 1
    case Image => 2
    case Audio => 3
    case Video => 4
    case File => 5
  }

  /** Distinct content types never share an id. */
  lemma ContentTypeIdInjective(a: ContentType, b: ContentType)
    ensures ContentTypeToId(a) == ContentTypeToId(b) ==> a == b
  {
  }

  /** Every id in 1..5 names exactly one content type. */
  lemma ContentTypeIdSurjective(id: int)
    requires 1 <= id <= 5
    ensures exists t :: ContentTypeToId(t) == id
  {
    var t := if id == 1 then Text else if id == 2 then Image
             else if id == 3 then Audio else if id == 4 then Video else File;
    assert ContentTypeToId(t) == id;
  }

  /** A human end user. `credit` is signed: negative means overdraft. */
  datatype Guest = Guest(name: string, credit: real, admin: bool)
}
