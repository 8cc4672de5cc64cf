/** `remote/repository/BabyRepositoryImpl.kt`: each operation makes one call
    to the backend and wraps the reply, or the exception the call threw, in a
    `Result`. The backend call is a parameter: a function from the request to
    what the call produced, with `Failure` standing for a thrown exception. */
module BabyRepository {
  import opened Wrappers
  import opened BabySexCodec
  import opened Domain

  const DeletedDefault: string := "Baby deleted successfully"

  /** The `toDomain` extension: fields copied, sex decoded. */
  function ToDomain(dto: BabyResponseDto): (b: Baby)
    ensures b.id == dto.id && b.parentId == dto.parentId && b.name == dto.name
    ensures b.ageMonths == dto.ageMonths && b.weight == dto.weight && b.height == dto.height
    ensures b.createdAt == dto.createdAt
    ensures b.sex == FromString(Some(dto.sex))
  {
    Baby(dto.id, dto.parentId, dto.name, dto.ageMonths, FromString(Some(dto.sex)),
         dto.weight, dto.height, dto.createdAt)
  }

  /** The request body built by `createBaby` and `updateBaby`. */
  function ToRequest(data: BabyData): (dto: BabyRequestDto)
    ensures dto.parentId == data.parentId && dto.name == data.name
    ensures dto.ageMonths == data.ageMonths
    ensures dto.weight == data.weight && dto.height == data.height
    ensures dto.sex == Code(data.sex)
  {
    BabyRequestDto(data.parentId, data.name, data.ageMonths, Code(data.sex), data.weight, data.height)
  }

  /** The server stored the request as sent: its reply repeats every field. */
  predicate Echoes(req: BabyRequestDto, resp: BabyResponseDto) {
    && resp.parentId == req.parentId && resp.name == req.name
    && resp.ageMonths == req.ageMonths && resp.sex == req.sex
    && resp.weight == req.weight && resp.height == req.height
  }

  /** Sending `data` and reading back an echo yields a baby that carries
      exactly the data that was sent, sex included. */
  lemma EchoRoundTrip(data: BabyData, resp: BabyResponseDto)
    requires Echoes(ToRequest(data), resp)
    ensures ToDomain(resp) == Baby(resp.id, data.parentId, data.name, data.ageMonths, data.sex,
                                   data.weight, data.height, resp.createdAt)
  {
    RoundTrip(data.sex);
  }

  /** `response.map { it.toDomain() }`. */
  function ToDomainList(dtos: seq<BabyResponseDto>): (bs: seq<Baby>)
    ensures |bs| == |dtos|
    ensures forall i :: 0 <= i < |dtos| ==> bs[i] == ToDomain(dtos[i])
  {
    if |dtos| == 0 then [] else [ToDomain(dtos[0])] + ToDomainList(dtos[1..])
  }

  /** `getAllBabies`. */
  function GetAllBabies(reply: Result<seq<BabyResponseDto>>): (r: Result<seq<Baby>>)
    ensures r.Failure? <==> reply.Failure?
    ensures reply.Failure? ==> r.message == reply.message
    ensures reply.Success? ==> |r.value| == |reply.value|
    ensures reply.Success? ==> forall i :: 0 <= i < |reply.value| ==> r.value[i] == ToDomain(reply.value[i])
  {
    reply.Map(ToDomainList)
  }

  /** `getBabyById`. */
  function GetBabyById(babyId: int, api: int -> Result<BabyResponseDto>): (r: Result<Baby>)
    ensures r.Failure? <==> api(babyId).Failure?
    ensures r.Failure? ==> r.message == api(babyId).message
    ensures r.Success? ==> r.value == ToDomain(api(babyId).value)
  {
    api(babyId).Map(ToDomain)
  }

  /** `getBabiesByParentId`. */
  function GetBabiesByParentId(parentId: int, api: int -> Result<seq<BabyResponseDto>>): (r: Result<seq<Baby>>)
    ensures r.Failure? <==> api(parentId).Failure?
    ensures r.Failure? ==> r.message == api(parentId).message
    ensures r.Success? ==> |r.value| == |api(parentId).value|
    ensures r.Success? ==> forall i :: 0 <= i < |r.value| ==> r.value[i] == ToDomain(api(parentId).value[i])
  {
    api(parentId).Map(ToDomainList)
  }

  /** `createBaby`: the backend receives the request built from `data` and
      its reply is mapped; when it echoes that request, the created baby
      carries `data` (`EchoRoundTrip`). */
  function CreateBaby(data: BabyData, api: BabyRequestDto -> Result<BabyResponseDto>): (r: Result<Baby>)
    ensures r.Failure? <==> api(ToRequest(data)).Failure?
    ensures r.Failure? ==> r.message == api(ToRequest(data)).message
    ensures r.Success? ==> r.value == ToDomain(api(ToRequest(data)).value)
    ensures r.Success? && Echoes(ToRequest(data), api(ToRequest(data)).value) ==>
      && r.value.parentId == data.parentId && r.value.name == data.name
      && r.value.ageMonths == data.ageMonths && r.value.sex == data.sex
      && r.value.weight == data.weight && r.value.height == data.height
  {
    var reply := api(ToRequest(data));
    RoundTrip(data.sex);
    reply.Map(ToDomain)
  }

  /** `updateBaby`: as `createBaby`, addressed to `babyId`. */
  function UpdateBaby(babyId: int, data: BabyData, api: (int, BabyRequestDto) -> Result<BabyResponseDto>): (r: Result<Baby>)
    ensures r.Failure? <==> api(babyId, ToRequest(data)).Failure?
    ensures r.Failure? ==> r.message == api(babyId, ToRequest(data)).message
    ensures r.Success? ==> r.value == ToDomain(api(babyId, ToRequest(data)).value)
    ensures r.Success? && Echoes(ToRequest(data), api(babyId, ToRequest(data)).value) ==>
      && r.value.parentId == data.parentId && r.value.name == data.name
      && r.value.ageMonths == data.ageMonths && r.value.sex == data.sex
      && r.value.weight == data.weight && r.value.height == data.height
  {
    var reply := api(babyId, ToRequest(data));
    RoundTrip(data.sex);
    reply.Map(ToDomain)
  }

  /** `deleteBaby`: the reply's "message", or the fixed confirmation. */
  function DeleteBaby(babyId: int, api: int -> Result<MessageBody>): (r: Result<string>)
    ensures r.Failure? <==> api(babyId).Failure?
    ensures r.Failure? ==> r.message == api(babyId).message
    ensures r.Success? && "message" in api(babyId).value ==> r.value == api(babyId).value["message"]
    ensures r.Success? && "message" !in api(babyId).value ==> r.value == DeletedDefault
  {
    api(babyId).Map((body: MessageBody) => ReplyMessage(body, DeletedDefault))
  }
}
