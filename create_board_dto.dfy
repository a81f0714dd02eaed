/**
 * The create payload and its acceptance rule: the three required string
 * fields with their length bounds, and the validation settings that
 * reject any field outside them (whitelisting with non-whitelisted
 * fields forbidden). Lengths are counted in characters.
 */
module Dto {
  import opened Wrappers

  /** A JSON value as it arrives in a request body, as far as validation tells values apart. */
  datatype JsonValue = JString(s: string) | JNumber(n: int) | JBool(b: bool) | JNull | JComposite

  type JsonObject = map<string, JsonValue>

  datatype CreateBoardDto = CreateBoardDto(title: string, content: string, author: string)

  const AllowedFields: set<string> := {"title", "content", "author"}

  /** The length bounds of each field; each implies the field is not empty. */
  predicate TitleOk(s: string)
    ensures TitleOk(s) ==> s != ""
  {
    2 <= |s| <= 100
  }

  predicate ContentOk(s: string)
    ensures ContentOk(s) ==> s != ""
  {
    1 <= |s| <= 5000
  }

  predicate AuthorOk(s: string)
    ensures AuthorOk(s) ==> s != ""
  {
    2 <= |s| <= 50
  }

  /** A payload is valid exactly when each field of its body passes its whole decorator chain. */
  predicate ValidDto(d: CreateBoardDto)
    ensures ValidDto(d) <==>
      FieldOk(ToJson(d), "title", 2, 100) &&
      FieldOk(ToJson(d), "content", 1, 5000) &&
      FieldOk(ToJson(d), "author", 2, 50)
  {
    TitleOk(d.title) && ContentOk(d.content) && AuthorOk(d.author)
  }

  /** The request body that carries exactly the fields of `d`. */
  function ToJson(d: CreateBoardDto): JsonObject {
    map["title" := JString(d.title), "content" := JString(d.content), "author" := JString(d.author)]
  }

  /** One decorated field: present, a string, not empty, and within the length bounds. */
  predicate FieldOk(body: JsonObject, name: string, min: nat, max: nat) {
    name in body && body[name].JString? && body[name].s != "" &&
    min <= |body[name].s| <= max
  }

  /**
   * The validation pipe on a create request: every field must be one the
   * payload class declares, and each declared field must pass its checks.
   * On success the payload is turned into the class instance.
   */
  function ValidateCreate(body: JsonObject): (r: Option<CreateBoardDto>)
    ensures r.Some? ==> ValidDto(r.value) && body == ToJson(r.value)
    ensures r.Some? <==> exists d :: ValidDto(d) && body == ToJson(d)
  {
    if (forall k :: k in body ==> k in AllowedFields) &&
       FieldOk(body, "title", 2, 100) &&
       FieldOk(body, "content", 1, 5000) &&
       FieldOk(body, "author", 2, 50)
    then
      var d := CreateBoardDto(body["title"].s, body["content"].s, body["author"].s);
      assert body.Keys == ToJson(d).Keys;
      Some(d)
    else
      None
  }

  /** Sending a payload's fields and validating them gives the payload back exactly when it is valid. */
  lemma ValidateToJson(d: CreateBoardDto)
    ensures ValidateCreate(ToJson(d)) == if ValidDto(d) then Some(d) else None
  {
  }

  /** A body with a field the payload class does not declare is rejected. */
  lemma UnknownFieldRejected(body: JsonObject, k: string)
    requires k in body && k !in AllowedFields
    ensures ValidateCreate(body) == None
  {
  }

  /** A body missing any of the three required fields is rejected. */
  lemma MissingFieldRejected(body: JsonObject, k: string)
    requires k in AllowedFields && k !in body
    ensures ValidateCreate(body) == None
  {
  }

  /** A body whose title is only "Test Board" is rejected. */
  lemma TitleOnlyRejected()
    ensures ValidateCreate(map["title" := JString("Test Board")]) == None
  {
  }

  /** A one-character title is rejected even when the other fields are fine. */
  lemma ShortTitleRejected()
    ensures ValidateCreate(ToJson(CreateBoardDto("A", "Test Content", "Test Author"))) == None
  {
  }

  /** The three required fields plus an unknown one are rejected. */
  lemma ExtraFieldRejected()
    ensures ValidateCreate(ToJson(CreateBoardDto("Test Board", "Test Content", "Test Author"))
                           ["unknownField" := JString("should be rejected")]) == None
  {
    var body := ToJson(CreateBoardDto("Test Board", "Test Content", "Test Author"))
                ["unknownField" := JString("should be rejected")];
    UnknownFieldRejected(body, "unknownField");
  }

  /** The well-formed payload of the create tests is accepted as it is. */
  lemma ValidPayloadAccepted()
    ensures ValidateCreate(ToJson(CreateBoardDto("Test Board", "Test Content", "Test Author")))
            == Some(CreateBoardDto("Test Board", "Test Content", "Test Author"))
  {
  }

  /** A mistyped field (a number where a string is required) is rejected. */
  lemma NonStringRejected(body: JsonObject, k: string)
    requires k in AllowedFields && k in body && !body[k].JString?
    ensures ValidateCreate(body) == None
  {
  }
}
