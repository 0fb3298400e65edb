/**
 * services/command_handler.py: the dispatcher for client messages. A
 * message is a dict; its `command` selects one of two handlers, and each
 * handler answers with a response dict. Handler exceptions are caught
 * inside the handlers; the dispatcher's own `except` only sees a command
 * that cannot be used as a dict key.
 */
module CommandHandling {

  import opened Wrappers
  import opened Values
  import opened Strings
  import SF = StrategyFactory
  import PS = ProgramService
  import BS = BoundedStore

  type Message = map<string, Value>
  type Response = map<string, Value>

  const SingleCommand: string := "request_single_generated_response"
  const TopCommand: string := "request_top_workflows"
  const TopResponseCommand: string := "response_top_workflows"
  const SingleErrorCommand: string := "response_single_generated_response"
  const ResponsePrefix: string := "response_for_"

  /** Lists and dicts cannot be dict keys. */
  predicate Hashable(v: Value)
  {
    !v.Arr? && !v.Obj?
  }

  /** `str(v)` of a hashable value, as an f-string renders it. */
  function Render(v: Value): string
    requires Hashable(v)
  {
    match v
    case Null => "None"
    case Bool(b) => if b then "True" else "False"
    case Int(i) => if i < 0 then "-" + Decimal(-i) else Decimal(i)
    case Str(s) => s
  }

  /** `str(e)`: a KeyError shows its key's repr, the others their message. */
  function Describe(e: Fault): string
  {
    match e
    case KeyError(k) => if k.Str? then "'" + k.s + "'" else if Hashable(k) then Render(k) else ""
    case ValueError(w) => w
    case TypeError(w) => w
    case AttributeError(w) => w
    case ExternalError(w) => w
  }

  function TypeName(v: Value): string
  {
    match v
    case Null => "NoneType"
    case Bool(_) => "bool"
    case Int(_) => "int"
    case Str(_) => "str"
    case Arr(_) => "list"
    case Obj(_) => "dict"
  }

  // ---------------------------------------------------------------------
  // handle_command
  // ---------------------------------------------------------------------

  datatype Route = SingleResponse | TopWorkflows | Unsupported

  /** `command_handlers.get(command)`: only the two command strings have a handler. */
  function Dispatch(command: Value): (r: Result<Route, Fault>)
    ensures r == Ok(SingleResponse) <==> command == Str(SingleCommand)
    ensures r == Ok(TopWorkflows) <==> command == Str(TopCommand)
    ensures r.Err? <==> !Hashable(command)
  {
    if !Hashable(command) then Err(TypeError("unhashable type: '" + TypeName(command) + "'"))
    else if command == Str(SingleCommand) then Ok(SingleResponse)
    else if command == Str(TopCommand) then Ok(TopWorkflows)
    else Ok(Unsupported)
  }

  /** The answer to a command without a handler. */
  function UnsupportedResponse(command: Value): (r: Response)
    requires Hashable(command)
    ensures r.Keys == {"command", "message", "status"}
    ensures r["command"] == Str(ResponsePrefix + Render(command)) && r["status"] == Str("error")
  {
    map["command" := Str(ResponsePrefix + Render(command)),
        "message" := Str("지원하지 않는 명령어입니다: " + Render(command)),
        "status" := Str("error")]
  }

  /** The outer `except`: no `command` key at all. */
  function ExceptionResponse(e: Fault): (r: Response)
    ensures r.Keys == {"message", "status"} && r["status"] == Str("error")
  {
    map["message" := Str(Describe(e)), "status" := Str("error")]
  }

  /** An unknown command string is answered, not dispatched, and echoes the command. */
  lemma UnknownCommandEchoed(command: string)
    requires command != SingleCommand && command != TopCommand
    ensures Dispatch(Str(command)) == Ok(Unsupported)
    ensures UnsupportedResponse(Str(command))["command"] == Str(ResponsePrefix + command)
  {
  }

  // ---------------------------------------------------------------------
  // _handle_response
  // ---------------------------------------------------------------------

  const ContentKeys: set<string> := {"chat_id", "prompt", "request_type", "description", "current_program", "target_program"}

  /** `content`: the six request fields, each `message.get(key)`. */
  function Content(message: Message): (c: Message)
    ensures c.Keys == ContentKeys
    ensures forall k :: k in ContentKeys ==> c[k] == GetOr(message, k, Null)
  {
    map k | k in ContentKeys :: GetOr(message, k, Null)
  }

  /**
   * The strategy name: "convert_prompt" for a truthy `target_program`,
   * otherwise `{1: ..., 2: ..., 3: ..., 4: ...}.get(request_type, "freestyle")`
   * with Python's key equality (`True == 1`); an unhashable request type raises.
   */
  function StrategyName(content: Message): (r: Result<string, Fault>)
    requires "target_program" in content && "request_type" in content
    ensures Truthy(content["target_program"]) ==> r == Ok("convert_prompt")
    ensures r.Ok? ==> r.value in SF.DefaultTable()
    ensures r.Err? <==> !Truthy(content["target_program"]) && !Hashable(content["request_type"])
  {
    if Truthy(content["target_program"]) then Ok("convert_prompt")
    else
      match content["request_type"]
      case Int(n) =>
        Ok(if n == 2 then "generate_text" else if n == 3 then "explain" else if n == 4 then "summary" else "freestyle")
      case Bool(_) => Ok("freestyle")
      case Arr(_) => Err(TypeError("unhashable type: 'list'"))
      case Obj(_) => Err(TypeError("unhashable type: 'dict'"))
      case _ => Ok("freestyle")
  }

  /** Without a target program, request types 1 to 4 choose the four strategies and anything else hashable chooses "freestyle". */
  lemma RequestTypeTable(message: Message, t: Value)
    requires !Truthy(GetOr(message, "target_program", Null)) && GetOr(message, "request_type", Null) == t
    ensures t == Int(1) ==> StrategyName(Content(message)) == Ok("freestyle")
    ensures t == Int(2) ==> StrategyName(Content(message)) == Ok("generate_text")
    ensures t == Int(3) ==> StrategyName(Content(message)) == Ok("explain")
    ensures t == Int(4) ==> StrategyName(Content(message)) == Ok("summary")
    ensures Hashable(t) && t !in {Int(2), Int(3), Int(4)} ==> StrategyName(Content(message)) == Ok("freestyle")
  {
  }

  /** `f"{strategy}"` of an instance: Python's default object repr. */
  function ObjectRepr(cls: SF.StrategyClass, address: string): (r: string)
    ensures |r| > 0 && r[0] == '<'
  {
    "<" + SF.QualifiedName(cls) + " object at " + address + ">"
  }

  /** The answer when choosing, building or running the strategy raised. */
  function StrategyError(e: Fault): (r: Response)
    ensures r.Keys == {"command", "message", "status"}
    ensures r["command"] == Str(SingleErrorCommand) && r["status"] == Str("error")
  {
    map["command" := Str(SingleErrorCommand),
        "message" := Str("프롬프트 처리 중 오류 발생: " + Describe(e)),
        "status" := Str("error")]
  }

  /**
   * `_handle_response` with the factory table `table`; `generated` is what the
   * strategy's `generate_prompt` (an LLM call) returned or raised, and
   * `address` the new instance's address as the repr prints it.
   */
  function HandleResponse(message: Message, table: map<string, SF.StrategyClass>, generated: Result<string, Fault>, address: string): (r: Response)
    ensures "status" in r
    ensures r["status"] == Str("success") || r == StrategyError(ErrorOf(message, table, generated))
    ensures r["status"] == Str("success") <==> SuccessOf(message, table, generated)
  {
    var content := Content(message);
    match StrategyName(content)
    case Err(e) => StrategyError(e)
    case Ok(name) =>
      match SF.Lookup(table, name)
      case Err(e) => StrategyError(e)
      case Ok(cls) =>
        match generated
        case Err(e) => StrategyError(e)
        case Ok(text) =>
          map["command" := Str(ResponsePrefix + ObjectRepr(cls, address)), "message" := Str(text), "status" := Str("success")]
  }

  /** Whether every step of `_handle_response` returns normally. */
  predicate SuccessOf(message: Message, table: map<string, SF.StrategyClass>, generated: Result<string, Fault>)
  {
    var content := Content(message);
    StrategyName(content).Ok? && StrategyName(content).value in table && generated.Ok?
  }

  /** The first exception `_handle_response` meets, when there is one. */
  function ErrorOf(message: Message, table: map<string, SF.StrategyClass>, generated: Result<string, Fault>): Fault
  {
    var content := Content(message);
    match StrategyName(content)
    case Err(e) => e
    case Ok(name) => if name !in table then SF.Lookup(table, name).error else if generated.Err? then generated.error else ExternalError("none")
  }

  /**
   * With the default strategy table, a hashable request type never fails the
   * lookup, so the only error left is the strategy's own.
   */
  lemma DefaultTableAlwaysResolves(message: Message, generated: Result<string, Fault>, address: string)
    requires Hashable(GetOr(message, "request_type", Null))
    ensures HandleResponse(message, SF.DefaultTable(), generated, address)["status"] == Str("success") <==> generated.Ok?
  {
  }

  /**
   * A truthy target program selects the conversion strategy whatever the
   * request type, and the success command names the strategy object's repr,
   * never `"response_for_" + <strategy name>`.
   */
  lemma SuccessCommandIsObjectRepr(message: Message, text: string, address: string, name: string)
    requires Truthy(GetOr(message, "target_program", Null))
    requires name == [] || name[0] != '<'
    ensures var r := HandleResponse(message, SF.DefaultTable(), Ok(text), address);
      && r["command"] == Str(ResponsePrefix + ObjectRepr(SF.ConvertPrompt, address))
      && r["message"] == Str(text)
      && r["command"] != Str(ResponsePrefix + name)
  {
    var repr := ObjectRepr(SF.ConvertPrompt, address);
    assert (ResponsePrefix + repr)[|ResponsePrefix|] == '<';
    if |name| > 0 {
      assert (ResponsePrefix + name)[|ResponsePrefix|] == name[0];
    }
  }

  // ---------------------------------------------------------------------
  // _handle_request_top_workflows
  // ---------------------------------------------------------------------

  /** `content['current_program'][key]`, with the exceptions Python raises. */
  function Field(program: Value, key: string): (r: Result<Value, Fault>)
    ensures r.Ok? <==> program.Obj? && key in program.fields
    ensures r.Ok? ==> r.value == program.fields[key]
  {
    match program
    case Obj(f) => if key in f then Ok(f[key]) else Err(KeyError(Str(key)))
    case Arr(_) => Err(TypeError("list indices must be integers or slices, not str"))
    case Str(_) => Err(TypeError("string indices must be integers, not 'str'"))
    case _ => Err(TypeError("'" + TypeName(program) + "' object is not subscriptable"))
  }

  /** The answer of the top-workflows handler when it raised. */
  function TopError(e: Fault): (r: Response)
    ensures r.Keys == {"command", "message", "status"}
    ensures r["command"] == Str(TopResponseCommand) && r["status"] == Str("error")
    ensures "similar_program_ids" !in r
  {
    map["command" := Str(TopResponseCommand),
        "message" := Str("유사한 프로그램 검색 중 오류 발생: " + Describe(e)),
        "status" := Str("error")]
  }

  const BadKeyword: Fault := TypeError("VectorDBService.store_program_info() got an unexpected keyword argument 'program_id'")

  /**
   * `_handle_request_top_workflows` as written: after reading the three
   * fields it calls `store_program_info(program_id=..., program_type=...,
   * program_context=...)`, whose parameters are `file_id`, `file_type`,
   * `context` and `volume_id`, so the call raises TypeError before anything
   * is stored or searched.
   */
  function TopWorkflowsAsWritten(message: Message): (r: Response)
    ensures r.Keys == {"command", "message", "status"}
    ensures r["command"] == Str(TopResponseCommand) && r["status"] == Str("error")
  {
    var program := GetOr(message, "current_program", Null);
    match Field(program, "fileId")
    case Err(e) => TopError(e)
    case Ok(_) =>
      match Field(program, "fileType")
      case Err(e) => TopError(e)
      case Ok(_) =>
        match Field(program, "context")
        case Err(e) => TopError(e)
        case Ok(_) => TopError(BadKeyword)
  }

  /** Even a complete, well-typed program is answered with the error response. */
  lemma TopWorkflowsNeverSucceeds(fileId: int, fileType: string, context: string)
    ensures var message := map["command" := Str(TopCommand),
                               "current_program" := Obj(map["fileId" := Int(fileId), "fileType" := Str(fileType), "context" := Str(context)])];
      TopWorkflowsAsWritten(message) == TopError(BadKeyword)
  {
  }

  /** The program fields the corrected handler stores. */
  datatype ProgramFields = ProgramFields(fileId: int, fileType: string, context: string, volumeId: Value)

  /**
   * The fields read from `current_program`; the model's store keys are ints
   * and its texts strings, so other types are refused with TypeError.
   */
  function Fields(message: Message): (r: Result<ProgramFields, Fault>)
    ensures r.Ok? ==> var p := GetOr(message, "current_program", Null);
      && p.Obj? && "fileId" in p.fields && "fileType" in p.fields && "context" in p.fields
      && p.fields["fileId"] == Int(r.value.fileId)
      && p.fields["fileType"] == Str(r.value.fileType) && p.fields["context"] == Str(r.value.context)
      && r.value.volumeId == GetOr(p.fields, "volumeId", Null)
  {
    var program := GetOr(message, "current_program", Null);
    match Field(program, "fileId")
    case Err(e) => Err(e)
    case Ok(id) =>
      match Field(program, "fileType")
      case Err(e) => Err(e)
      case Ok(ft) =>
        match Field(program, "context")
        case Err(e) => Err(e)
        case Ok(ctx) =>
          if id.Int? && ft.Str? && ctx.Str? then Ok(ProgramFields(id.i, ft.s, ctx.s, GetOr(program.fields, "volumeId", Null)))
          else Err(TypeError("unsupported program field type"))
  }

  /** `[program['id'] for program in similar_programs]`. */
  function HitIds(hits: seq<BS.Hit>): (r: seq<Value>)
    ensures |r| == |hits|
    ensures forall i :: 0 <= i < |hits| ==> r[i] == Int(hits[i].id)
  {
    seq(|hits|, i requires 0 <= i < |hits| => Int(hits[i].id))
  }

  const SearchK: int := 5

  /**
   * The corrected handler: store the program with replace-on-store, search
   * with `k=5`, and answer with the ids of the results in result order.
   * Returns the store afterwards and the response.
   */
  function TopWorkflowsFixed(st: BS.State, maxVectors: int, message: Message, title: string, labels: seq<int>, failed: bool): (r: (BS.State, Response))
    requires BS.WellFormed(st)
    requires forall i :: 0 <= i < |labels| ==> labels[i] >= -1
    ensures BS.WellFormed(r.0)
    ensures Fields(message).Err? ==> r == (st, TopError(Fields(message).error))
    ensures Fields(message).Ok? ==> r.1.Keys == {"command", "similar_program_ids", "status"}
    ensures Fields(message).Ok? ==> r.1["status"] == Str("success") && r.1["command"] == Str(TopResponseCommand)
  {
    match Fields(message)
    case Err(e) => (st, TopError(e))
    case Ok(f) =>
      PS.StoreProgramWellFormed(st, maxVectors, f.fileId, f.fileType, f.context, f.volumeId, title);
      var after := PS.StoreProgram(st, maxVectors, f.fileId, f.fileType, f.context, f.volumeId, title);
      var hits := BS.Search(after, SearchK, labels, failed);
      (after, map["command" := Str(TopResponseCommand), "similar_program_ids" := Arr(HitIds(hits)), "status" := Str("success")])
  }

  /**
   * After the corrected handler, the program reads back from the store, and
   * when FAISS answers with at most `min(5, len)` positions, the reported ids
   * are at most five current keys.
   */
  lemma TopWorkflowsFixedReports(st: BS.State, maxVectors: int, message: Message, title: string, labels: seq<int>, failed: bool)
    requires BS.WellFormed(st)
    requires forall i :: 0 <= i < |labels| ==> labels[i] >= -1
    requires Fields(message).Ok?
    ensures var f := Fields(message).value;
      var r := TopWorkflowsFixed(st, maxVectors, message, title, labels, failed);
      && PS.ProgramInfo(r.0, f.fileId) == Ok(PS.ProgramMetadata(f.fileId, f.fileType, f.context, f.volumeId))
      && r.1["similar_program_ids"].Arr?
      && (|labels| <= BS.ClampK(SearchK, |r.0.records|) ==>
            |r.1["similar_program_ids"].items| <= SearchK
            && forall v :: v in r.1["similar_program_ids"].items ==> v.Int? && v.i in r.0.records)
  {
    var f := Fields(message).value;
    PS.StoreProgramReadsBack(st, maxVectors, f.fileId, f.fileType, f.context, f.volumeId, title);
    PS.StoreProgramWellFormed(st, maxVectors, f.fileId, f.fileType, f.context, f.volumeId, title);
    var after := PS.StoreProgram(st, maxVectors, f.fileId, f.fileType, f.context, f.volumeId, title);
    if |labels| <= BS.ClampK(SearchK, |after.records|) {
      BS.SearchBounded(after, SearchK, labels, failed);
      var hits := BS.Search(after, SearchK, labels, failed);
      forall v | v in HitIds(hits) ensures v.Int? && v.i in after.records {
        var j :| 0 <= j < |HitIds(hits)| && HitIds(hits)[j] == v;
        assert hits[j] in hits;
      }
    }
  }

  // ---------------------------------------------------------------------
  // The handler object
  // ---------------------------------------------------------------------

  class CommandHandler {
    const service: PS.VectorDBService
    const factory: SF.PromptFactory

    ghost predicate Valid()
      reads this, service, service.db
    {
      service.Valid()
    }

    constructor (service: PS.VectorDBService, factory: SF.PromptFactory)
      requires service.Valid()
      ensures Valid() && this.service == service && this.factory == factory
    {
      this.service := service;
      this.factory := factory;
    }

    /** `_handle_response`: reads the factory table, changes no store. */
    method HandleResponseWith(message: Message, generated: Result<string, Fault>, address: string) returns (response: Response)
      ensures response == HandleResponse(message, factory.strategies, generated, address)
    {
      var content := Content(message);
      var name := StrategyName(content);
      if name.Err? {
        return StrategyError(name.error);
      }
      var strategy := factory.GetStrategy(name.value);
      match strategy
      case Err(e) =>
        return StrategyError(e);
      case Ok(s) =>
        match generated
        case Err(e) =>
          return StrategyError(e);
        case Ok(text) =>
          return map["command" := Str(ResponsePrefix + ObjectRepr(s.cls, address)), "message" := Str(text), "status" := Str("success")];
    }

    /** The top-workflows handler with the store call corrected. */
    method HandleTopWorkflows(message: Message, title: string, labels: seq<int>, failed: bool) returns (response: Response)
      requires Valid()
      requires forall i :: 0 <= i < |labels| ==> labels[i] >= -1
      modifies service.db
      ensures Valid()
      ensures (service.db.Snapshot(), response) == TopWorkflowsFixed(old(service.db.Snapshot()), service.db.maxVectors, message, title, labels, failed)
    {
      var fields := Fields(message);
      if fields.Err? {
        return TopError(fields.error);
      }
      var f := fields.value;
      service.StoreProgramInfo(f.fileId, f.fileType, f.context, f.volumeId, title);
      var hits := service.SearchSimilarPrograms(SearchK, labels, failed);
      response := map["command" := Str(TopResponseCommand), "similar_program_ids" := Arr(HitIds(hits)), "status" := Str("success")];
    }

    /**
     * `handle_command` as written: dispatch on `message['command']`. The
     * top-workflows route fails on its bad keywords before it reaches the
     * store, so no route changes anything.
     */
    method HandleCommand(message: Message, generated: Result<string, Fault>, address: string) returns (response: Response)
      ensures var route := Dispatch(GetOr(message, "command", Null));
        && (route.Err? ==> response == ExceptionResponse(route.error))
        && (route == Ok(Unsupported) ==> response == UnsupportedResponse(GetOr(message, "command", Null)))
        && (route == Ok(SingleResponse) ==> response == HandleResponse(message, factory.strategies, generated, address))
        && (route == Ok(TopWorkflows) ==> response == TopWorkflowsAsWritten(message) && response["status"] == Str("error"))
    {
      var command := GetOr(message, "command", Null);
      var route := Dispatch(command);
      match route
      case Err(e) =>
        response := ExceptionResponse(e);
      case Ok(SingleResponse) =>
        response := HandleResponseWith(message, generated, address);
      case Ok(TopWorkflows) =>
        response := TopWorkflowsAsWritten(message);
      case Ok(Unsupported) =>
        response := UnsupportedResponse(command);
    }

    /** `handle_command` with the top-workflows route calling the store correctly. */
    method HandleCommandFixed(message: Message, generated: Result<string, Fault>, address: string, title: string, labels: seq<int>, failed: bool)
      returns (response: Response)
      requires Valid()
      requires forall i :: 0 <= i < |labels| ==> labels[i] >= -1
      modifies service.db
      ensures Valid()
      ensures var route := Dispatch(GetOr(message, "command", Null));
        && (route.Err? ==> response == ExceptionResponse(route.error))
        && (route == Ok(Unsupported) ==> response == UnsupportedResponse(GetOr(message, "command", Null)))
        && (route == Ok(SingleResponse) ==> response == HandleResponse(message, factory.strategies, generated, address))
        && (route == Ok(TopWorkflows) ==>
              (service.db.Snapshot(), response) == TopWorkflowsFixed(old(service.db.Snapshot()), service.db.maxVectors, message, title, labels, failed))
        && (route != Ok(TopWorkflows) ==> service.db.Snapshot() == old(service.db.Snapshot()))
    {
      var command := GetOr(message, "command", Null);
      var route := Dispatch(command);
      match route
      case Err(e) =>
        response := ExceptionResponse(e);
      case Ok(SingleResponse) =>
        response := HandleResponseWith(message, generated, address);
      case Ok(TopWorkflows) =>
        response := HandleTopWorkflows(message, title, labels, failed);
      case Ok(Unsupported) =>
        response := UnsupportedResponse(command);
    }
  }
}
