/** The per-user lookups of the statistics API client,
    `obterLucroTotalPorUsuario` and `obterTotalPedidosPorUsuario`: the first
    record whose `userId` is strictly equal to the requested one, a zero
    default when there is none, and the server's message when the response is
    not ok. The HTTP request itself is the `Response` parameter. */
module ApiStats {
  import opened Wrappers
  import Js

  /** What `fetch` yielded: an ok response with its JSON array, or a failed
      one with its JSON error body. */
  datatype Response = Ok(records: seq<Js.Obj>) | NotOk(errorBody: Js.Obj)

  const PROFIT_DEFAULT: Js.Obj := map["totalProfit" := Js.Num(0)]
  const ORDERS_DEFAULT: Js.Obj := map["totalOrders" := Js.Num(0)]

  /** `new Error(v).message`: `undefined` gives the empty string. */
  function ErrorText(v: Js.Value): string
  {
    if v == Js.Undefined then "" else Js.ToText(v)
  }

  /** `data.find((item) => item.userId === userId)`. */
  function FindByUserId(records: seq<Js.Obj>, userId: Js.Value): (r: Option<Js.Obj>)
    ensures r.None? <==> forall i :: 0 <= i < |records| ==> Js.Get(records[i], "userId") != userId
    ensures r.Some? ==> exists i :: 0 <= i < |records| && records[i] == r.value &&
                           Js.Get(records[i], "userId") == userId &&
                           forall j :: 0 <= j < i ==> Js.Get(records[j], "userId") != userId
  {
    if records == [] then None
    else if Js.Get(records[0], "userId") == userId then Some(records[0])
    else
      var r := FindByUserId(records[1..], userId);
      assert forall j :: 0 <= j < |records[1..]| ==> records[1..][j] == records[j + 1];
      if r.Some? then
        var i :| 0 <= i < |records[1..]| && records[1..][i] == r.value &&
                 Js.Get(records[1..][i], "userId") == userId &&
                 forall j :: 0 <= j < i ==> Js.Get(records[1..][j], "userId") != userId;
        assert records[i + 1] == r.value;
        r
      else r
  }

  /** The shared body of both lookups; a found object is always truthy, so
      the default is used exactly when nothing matched. */
  function FindOrDefault(response: Response, userId: Js.Value, default: Js.Obj): (r: Result<Js.Obj>)
    ensures r.Failure? <==> response.NotOk?
    ensures response.NotOk? ==> r.error == ErrorText(Js.Get(response.errorBody, "message"))
    ensures response.Ok? && FindByUserId(response.records, userId).None? ==> r == Success(default)
    ensures response.Ok? && FindByUserId(response.records, userId).Some? ==>
      r == Success(FindByUserId(response.records, userId).value)
  {
    match response
    case NotOk(errorBody) => Failure(ErrorText(Js.Get(errorBody, "message")))
    case Ok(records) =>
      match FindByUserId(records, userId)
      case None => Success(default)
      case Some(found) => Success(found)
  }

  /** `obterLucroTotalPorUsuario`. */
  function ProfitForUser(response: Response, userId: Js.Value): (r: Result<Js.Obj>)
    ensures r.Failure? <==> response.NotOk?
    ensures response.Ok? && (forall i :: 0 <= i < |response.records| ==> Js.Get(response.records[i], "userId") != userId) ==>
      r == Success(PROFIT_DEFAULT)
    ensures response.Ok? && r != Success(PROFIT_DEFAULT) ==>
      exists i :: 0 <= i < |response.records| && r == Success(response.records[i]) &&
        Js.Get(response.records[i], "userId") == userId
  {
    FindOrDefault(response, userId, PROFIT_DEFAULT)
  }

  /** `obterTotalPedidosPorUsuario`. */
  function OrdersForUser(response: Response, userId: Js.Value): (r: Result<Js.Obj>)
    ensures r.Failure? <==> response.NotOk?
    ensures response.Ok? && (forall i :: 0 <= i < |response.records| ==> Js.Get(response.records[i], "userId") != userId) ==>
      r == Success(ORDERS_DEFAULT)
    ensures response.Ok? && r != Success(ORDERS_DEFAULT) ==>
      exists i :: 0 <= i < |response.records| && r == Success(response.records[i]) &&
        Js.Get(response.records[i], "userId") == userId
  {
    FindOrDefault(response, userId, ORDERS_DEFAULT)
  }

  /** When several records carry the id, the first one is returned. */
  lemma FirstMatchWins(records: seq<Js.Obj>, userId: Js.Value, i: nat, default: Js.Obj)
    requires i < |records| && Js.Get(records[i], "userId") == userId
    requires forall j :: 0 <= j < i ==> Js.Get(records[j], "userId") != userId
    ensures FindOrDefault(Ok(records), userId, default) == Success(records[i])
  {
    var r := FindByUserId(records, userId);
    var k :| 0 <= k < |records| && records[k] == r.value &&
             Js.Get(records[k], "userId") == userId &&
             forall j :: 0 <= j < k ==> Js.Get(records[j], "userId") != userId;
    assert k == i;
  }

  /** Matching is strict: an id given as a string never finds records whose
      `userId` is a number, so the zero default comes back. */
  lemma StringIdFindsNoNumericRecord(records: seq<Js.Obj>, id: string)
    requires forall i :: 0 <= i < |records| ==> Js.Get(records[i], "userId").Num?
    ensures ProfitForUser(Ok(records), Js.Str(id)) == Success(PROFIT_DEFAULT)
    ensures OrdersForUser(Ok(records), Js.Str(id)) == Success(ORDERS_DEFAULT)
  {
  }

  /** A failed response never yields a default, whatever the records: the
      call fails with the server's message. */
  lemma NotOkReportsMessage(message: string, userId: Js.Value)
    ensures ProfitForUser(NotOk(map["message" := Js.Str(message)]), userId) == Failure(message)
    ensures OrdersForUser(NotOk(map["message" := Js.Str(message)]), userId) == Failure(message)
    ensures ProfitForUser(NotOk(map[]), userId) == Failure("")
  {
  }
}
