/** Domain records of `domain/model` and the request/response shapes the
    backend exchanges for them, from `remote/dto` and `remote/api`. */
module Domain {
  import opened Wrappers
  import opened BabySexCodec

  /** Kotlin `Float`. Weights and heights are only copied between records
      and compared against fixed bounds, so an exact real stands in for it. */
  type Float = real

  datatype Baby = Baby(
    id: int,
    parentId: int,
    name: string,
    ageMonths: int,
    sex: BabySex,
    weight: Option<Float>,
    height: Option<Float>,
    createdAt: Option<string>)

  /** What the app sends to create or update a baby. */
  datatype BabyData = BabyData(
    parentId: int,
    name: string,
    ageMonths: int,
    sex: BabySex,
    weight: Option<Float>,
    height: Option<Float>)

  datatype BabyRequestDto = BabyRequestDto(
    parentId: int,
    name: string,
    ageMonths: int,
    sex: string,
    weight: Option<Float>,
    height: Option<Float>)

  datatype BabyResponseDto = BabyResponseDto(
    id: int,
    parentId: int,
    name: string,
    ageMonths: int,
    sex: string,
    weight: Option<Float>,
    height: Option<Float>,
    createdAt: Option<string>)

  datatype DevTip = DevTip(
    id: int,
    age: int,
    category: string,
    description: string,
    createdAt: Option<string>)

  datatype DevTipData = DevTipData(age: int, category: string, description: string)

  datatype DevTipRequestDto = DevTipRequestDto(age: int, category: string, description: string)

  datatype DevTipResponseDto = DevTipResponseDto(
    id: int,
    age: int,
    category: string,
    description: string,
    createdAt: Option<string>)

  /** The guardian account. The source declares `id` as a `String` but hands
      it to operations that take an `Int`; it is an integer here. */
  datatype Parent = Parent(
    id: int,
    name: string,
    email: string,
    phone: Option<string>,
    relation: Option<string>,
    age: Option<int>)

  /** The body of a `{"message": ...}` reply. */
  type MessageBody = map<string, string>

  /** `response["message"] ?: default`. */
  function ReplyMessage(body: MessageBody, default: string): (r: string)
    ensures "message" in body ==> r == body["message"]
    ensures "message" !in body ==> r == default
  {
    if "message" in body then body["message"] else default
  }

  /** What `login` and `register` return on success. */
  datatype AuthResult = AuthResult(token: string, tokenType: string)

  datatype LoginCredentials = LoginCredentials(email: string, password: string)

  datatype RegisterData = RegisterData(
    name: string,
    email: string,
    password: string,
    phone: Option<string>,
    relation: Option<string>,
    age: Option<int>)

  /** The registration payload of the earlier `babycareia` package, which also
      carries a sex code. */
  datatype LegacyRegisterData = LegacyRegisterData(
    name: string,
    email: string,
    password: string,
    phone: Option<string>,
    relation: Option<string>,
    age: Option<int>,
    sex: string)
}
