/** `remote/repository/DevTipsRepositoryImpl.kt`: developmental tips. As in
    `BabyRepository`, each backend call is a parameter from the request to
    what the call produced, with `Failure` standing for a thrown exception. */
module DevTipsRepository {
  import opened Wrappers
  import opened Domain

  const CreatedDefault: string := "Development Tip created successfully"
  const UpdatedDefault: string := "Development Tip updated successfully"
  const DeletedDefault: string := "Development Tip deleted successfully"

  /** The `toDomain` extension: every field copied unchanged. */
  function ToDomain(dto: DevTipResponseDto): (t: DevTip)
    ensures t.id == dto.id && t.age == dto.age && t.category == dto.category
    ensures t.description == dto.description && t.createdAt == dto.createdAt
  {
    DevTip(dto.id, dto.age, dto.category, dto.description, dto.createdAt)
  }

  /** The request body built by `createDevTip` and `updateDevTip`. */
  function ToRequest(data: DevTipData): (dto: DevTipRequestDto)
    ensures dto.age == data.age && dto.category == data.category
    ensures dto.description == data.description
  {
    DevTipRequestDto(data.age, data.category, data.description)
  }

  /** A tip the backend stored as sent reads back as the data that was sent. */
  lemma EchoRoundTrip(data: DevTipData, resp: DevTipResponseDto)
    requires resp.age == ToRequest(data).age && resp.category == ToRequest(data).category
    requires resp.description == ToRequest(data).description
    ensures ToDomain(resp) == DevTip(resp.id, data.age, data.category, data.description, resp.createdAt)
  {
  }

  /** `response.map { it.toDomain() }`. */
  function ToDomainList(dtos: seq<DevTipResponseDto>): (ts: seq<DevTip>)
    ensures |ts| == |dtos|
    ensures forall i :: 0 <= i < |dtos| ==> ts[i] == ToDomain(dtos[i])
  {
    if |dtos| == 0 then [] else [ToDomain(dtos[0])] + ToDomainList(dtos[1..])
  }

  /** `getAllDevTips`. */
  function GetAllDevTips(reply: Result<seq<DevTipResponseDto>>): (r: Result<seq<DevTip>>)
    ensures r.Failure? <==> reply.Failure?
    ensures reply.Failure? ==> r.message == reply.message
    ensures reply.Success? ==> |r.value| == |reply.value|
    ensures reply.Success? ==> forall i :: 0 <= i < |reply.value| ==> r.value[i] == ToDomain(reply.value[i])
  {
    reply.Map(ToDomainList)
  }

  /** `getDevTipById`. */
  function GetDevTipById(tipId: int, api: int -> Result<DevTipResponseDto>): (r: Result<DevTip>)
    ensures r.Failure? <==> api(tipId).Failure?
    ensures r.Failure? ==> r.message == api(tipId).message
    ensures r.Success? ==> r.value == ToDomain(api(tipId).value)
  {
    api(tipId).Map(ToDomain)
  }

  /** `createDevTip`: the request built from `data` is sent; the result is the
      reply's "message" or the fixed creation notice. */
  function CreateDevTip(data: DevTipData, api: DevTipRequestDto -> Result<MessageBody>): (r: Result<string>)
    ensures r.Failure? <==> api(ToRequest(data)).Failure?
    ensures r.Failure? ==> r.message == api(ToRequest(data)).message
    ensures r.Success? && "message" in api(ToRequest(data)).value ==> r.value == api(ToRequest(data)).value["message"]
    ensures r.Success? && "message" !in api(ToRequest(data)).value ==> r.value == CreatedDefault
  {
    api(ToRequest(data)).Map((body: MessageBody) => ReplyMessage(body, CreatedDefault))
  }

  /** `updateDevTip`: as `createDevTip`, addressed to `tipId`. */
  function UpdateDevTip(tipId: int, data: DevTipData, api: (int, DevTipRequestDto) -> Result<MessageBody>): (r: Result<string>)
    ensures r.Failure? <==> api(tipId, ToRequest(data)).Failure?
    ensures r.Failure? ==> r.message == api(tipId, ToRequest(data)).message
    ensures r.Success? && "message" in api(tipId, ToRequest(data)).value ==> r.value == api(tipId, ToRequest(data)).value["message"]
    ensures r.Success? && "message" !in api(tipId, ToRequest(data)).value ==> r.value == UpdatedDefault
  {
    api(tipId, ToRequest(data)).Map((body: MessageBody) => ReplyMessage(body, UpdatedDefault))
  }

  /** `deleteDevTip`. */
  function DeleteDevTip(tipId: int, api: int -> Result<MessageBody>): (r: Result<string>)
    ensures r.Failure? <==> api(tipId).Failure?
    ensures r.Failure? ==> r.message == api(tipId).message
    ensures r.Success? && "message" in api(tipId).value ==> r.value == api(tipId).value["message"]
    ensures r.Success? && "message" !in api(tipId).value ==> r.value == DeletedDefault
  {
    api(tipId).Map((body: MessageBody) => ReplyMessage(body, DeletedDefault))
  }
}
