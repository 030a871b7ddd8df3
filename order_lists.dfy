/** The order-group lists the staff screens show: the groups still to be
    served (status other than "pronto"), the delivered ones, and the
    delivered ones created after the start of the day, week or month. */
module OrderLists {
  import opened Seqs
  import OrderRules
  import Screens

  /** An order group as `obterGruposDePedidos` returns it; `createdAt` is a
      timestamp. */
  datatype Group = Group(id: int, status: string, userId: int, createdAt: int, totalPrice: int)

  /** `(pedido) => pedido.status !== "pronto"`. */
  function NotReady(): Group -> bool
  {
    (g: Group) => g.status != OrderRules.ORDER_READY
  }

  /** `(pedido) => pedido.status === "pronto"`. */
  function Delivered(): Group -> bool
  {
    (g: Group) => g.status == OrderRules.ORDER_READY
  }

  /** `(pedido) => pedido.id !== pedidoId`. */
  function IdIsNot(id: int): Group -> bool
  {
    (g: Group) => g.id != id
  }

  /** `(pedido) => moment(pedido.createdAt).isAfter(start)`: strictly after. */
  function CreatedAfter(start: int): Group -> bool
  {
    (g: Group) => g.createdAt > start
  }

  function Ids(groups: seq<Group>): (r: seq<int>)
    ensures |r| == |groups| && forall i :: 0 <= i < |groups| ==> r[i] == groups[i].id
  {
    seq(|groups|, i requires 0 <= i < |groups| => groups[i].id)
  }

  /** `groups.map((pedido) => pedido.userId)`. */
  function UserIds(groups: seq<Group>): (r: seq<int>)
    ensures |r| == |groups| && forall i :: 0 <= i < |groups| ==> r[i] == groups[i].userId
  {
    seq(|groups|, i requires 0 <= i < |groups| => groups[i].userId)
  }

  /** The groups still to be served are exactly those not "pronto", in the
      order they came, and nothing delivered is among them. */
  lemma PendingGroups(groups: seq<Group>)
    ensures forall g :: g in Filter(groups, NotReady()) <==> g in groups && g.status != OrderRules.ORDER_READY
    ensures SubsequenceOf(Filter(groups, NotReady()), groups)
    ensures forall g :: g in Filter(groups, NotReady()) ==> g !in Filter(groups, Delivered())
  {
    FilterIsSubsequence(groups, NotReady());
  }

  /** Removing a group by id drops every group with that id and keeps the
      others in order. */
  lemma RemoveById(groups: seq<Group>, id: int)
    ensures forall g :: g in Filter(groups, IdIsNot(id)) <==> g in groups && g.id != id
    ensures SubsequenceOf(Filter(groups, IdIsNot(id)), groups)
    ensures (forall i :: 0 <= i < |groups| ==> groups[i].id != id) ==> Filter(groups, IdIsNot(id)) == groups
  {
    FilterIsSubsequence(groups, IdIsNot(id));
    if forall i :: 0 <= i < |groups| ==> groups[i].id != id {
      FilterKeepsAll(groups, IdIsNot(id));
    }
  }

  /** A window is the delivered groups created strictly after its start, in
      order. */
  lemma WindowContents(delivered: seq<Group>, start: int)
    ensures forall g :: g in Filter(delivered, CreatedAfter(start)) <==> g in delivered && g.createdAt > start
    ensures SubsequenceOf(Filter(delivered, CreatedAfter(start)), delivered)
  {
    FilterIsSubsequence(delivered, CreatedAfter(start));
  }

  /** Every group of a window over delivered groups is delivered and was
      created after the window's start. */
  lemma WindowIsDelivered(delivered: seq<Group>, start: int)
    requires forall i :: 0 <= i < |delivered| ==> Delivered()(delivered[i])
    ensures var w := Filter(delivered, CreatedAfter(start));
      forall i :: 0 <= i < |w| ==> Delivered()(w[i]) && w[i].createdAt > start
  {
    var w := Filter(delivered, CreatedAfter(start));
    forall i | 0 <= i < |w| ensures Delivered()(w[i]) && w[i].createdAt > start {
      assert w[i] in w;
    }
  }

  /** A window that starts later is the earlier window filtered again, so it
      is a subsequence of it: today's list lies within this week's and this
      month's. */
  lemma LaterWindowWithin(delivered: seq<Group>, earlier: int, later: int)
    requires earlier <= later
    ensures Filter(Filter(delivered, CreatedAfter(earlier)), CreatedAfter(later)) == Filter(delivered, CreatedAfter(later))
    ensures SubsequenceOf(Filter(delivered, CreatedAfter(later)), Filter(delivered, CreatedAfter(earlier)))
  {
    FilterNarrow(delivered, CreatedAfter(earlier), CreatedAfter(later));
    FilterNarrowIsSubsequence(delivered, CreatedAfter(earlier), CreatedAfter(later));
  }
}

/** The administrator's `GerirPedidos` screen: the pending groups with a
    scale value per group and a username per employee, and marking a group
    delivered. */
module AdminManageOrders {
  import opened Wrappers
  import opened Seqs
  import Js
  import Screens
  import OrderRules
  import opened OrderLists

  const FETCH_ERROR := "Erro ao obter pedidos: "
  const UPDATED := "Pedido atualizado para 'pronto' com sucesso!"
  const UPDATE_ERROR := "Erro ao mudar estado do pedido: "

  /** `usernames[item.userId] || "Carregando..."`. */
  function EmployeeLabel(usernames: map<int, Js.Value>, userId: int): (shown: string)
    ensures userId !in usernames ==> shown == Screens.LOADING_LABEL
    ensures userId in usernames && Js.Truthy(usernames[userId]) ==> shown == Js.ToText(usernames[userId])
    ensures userId in usernames && !Js.Truthy(usernames[userId]) ==> shown == Screens.LOADING_LABEL
  {
    if userId in usernames && Js.Truthy(usernames[userId]) then Js.ToText(usernames[userId])
    else Screens.LOADING_LABEL
  }

  class Screen {
    var pedidos: seq<Group>
    var scaleValues: map<int, int>
    var usernames: map<int, Js.Value>
    var loading: bool
    var modal: Screens.Modal
    /** The status updates sent, as (group id, status). */
    var sent: seq<(int, string)>

    constructor ()
      ensures pedidos == [] && scaleValues == map[] && usernames == map[] && loading
      ensures modal == Screens.HIDDEN_MODAL && sent == []
    {
      pedidos := [];
      scaleValues := map[];
      usernames := map[];
      loading := true;
      modal := Screens.HIDDEN_MODAL;
      sent := [];
    }

    /** `fetchPedidos`: `fetched` is the groups or the error thrown, and
        `answers[i]` the lookup of the i-th pending group's employee. */
    method FetchPedidos(fetched: Result<seq<Group>>, answers: seq<Option<Js.Value>>)
      requires fetched.Success? ==> |answers| == |Filter(fetched.value, NotReady())|
      modifies this
      ensures !loading && sent == old(sent)
      ensures fetched.Success? ==>
        var pending := Filter(fetched.value, NotReady());
        pedidos == pending &&
        scaleValues.Keys == Screens.IdSet(Ids(pending)) && (forall k :: k in scaleValues ==> scaleValues[k] == 1) &&
        usernames == Screens.UsernamesSpec(UserIds(pending), answers) &&
        modal == old(modal)
      ensures fetched.Failure? ==>
        pedidos == old(pedidos) && scaleValues == old(scaleValues) && usernames == old(usernames) &&
        modal == Screens.Modal(Screens.ERROR_TITLE, FETCH_ERROR + fetched.error, true)
    {
      if fetched.Failure? {
        modal := Screens.Modal(Screens.ERROR_TITLE, FETCH_ERROR + fetched.error, true);
      } else {
        var pending := Filter(fetched.value, NotReady());
        var scales := Screens.ScaleValues(Ids(pending));
        var names := Screens.Usernames(UserIds(pending), answers);
        scaleValues := scales;
        pedidos := pending;
        usernames := names;
      }
      loading := false;
    }

    /** `handleEstadoChange(pedidoId)`: sends "pronto"; on success the group
        leaves the list and a success modal opens, on failure the list stays
        and an error modal opens. */
    method HandleEstadoChange(pedidoId: int, outcome: Screens.Outcome)
      modifies this
      ensures sent == old(sent) + [(pedidoId, OrderRules.ORDER_READY)]
      ensures scaleValues == old(scaleValues) && usernames == old(usernames) && loading == old(loading)
      ensures outcome.Done? ==>
        pedidos == Filter(old(pedidos), IdIsNot(pedidoId)) &&
        modal == Screens.Modal(Screens.SUCCESS_TITLE, UPDATED, true)
      ensures outcome.Threw? ==>
        pedidos == old(pedidos) &&
        modal == Screens.Modal(Screens.ERROR_TITLE, UPDATE_ERROR + outcome.message, true)
    {
      sent := sent + [(pedidoId, OrderRules.ORDER_READY)];
      if outcome.Done? {
        pedidos := Filter(pedidos, IdIsNot(pedidoId));
        modal := Screens.Modal(Screens.SUCCESS_TITLE, UPDATED, true);
      } else {
        modal := Screens.Modal(Screens.ERROR_TITLE, UPDATE_ERROR + outcome.message, true);
      }
    }
  }
}

/** The client app's `GerirPedidos` screen. */
module ClientManageOrders {
  import opened Wrappers
  import opened Seqs
  import Screens
  import OrderRules
  import opened OrderLists

  class Screen {
    var pedidos: seq<Group>
    /** The status updates sent, as (group id, status). */
    var sent: seq<(int, string)>

    constructor ()
      ensures pedidos == [] && sent == []
    {
      pedidos := [];
      sent := [];
    }

    /** `fetchPedidos`: the pending groups, or no change when the call threw. */
    method FetchPedidos(fetched: Result<seq<Group>>)
      modifies this
      ensures sent == old(sent)
      ensures fetched.Success? ==> pedidos == Filter(fetched.value, NotReady())
      ensures fetched.Failure? ==> pedidos == old(pedidos)
    {
      if fetched.Success? {
        pedidos := Filter(fetched.value, NotReady());
      }
    }

    /** `handleEstadoChange(pedidoId)`: always sends "pronto"; only success
        removes the group from the list. */
    method HandleEstadoChange(pedidoId: int, outcome: Screens.Outcome)
      modifies this
      ensures sent == old(sent) + [(pedidoId, OrderRules.ORDER_READY)]
      ensures outcome.Done? ==> pedidos == Filter(old(pedidos), IdIsNot(pedidoId))
      ensures outcome.Threw? ==> pedidos == old(pedidos)
    {
      sent := sent + [(pedidoId, OrderRules.ORDER_READY)];
      if outcome.Done? {
        pedidos := Filter(pedidos, IdIsNot(pedidoId));
      }
    }
  }
}

/** The `PedidosEntregues` screen: delivered groups in three time windows,
    with the employee names. The starts of the day, week and month are
    parameters (the clock is not modelled). */
module DeliveredOrders {
  import opened Wrappers
  import opened Seqs
  import Js
  import Screens
  import opened OrderLists

  const FETCH_ERROR := "Erro ao obter pedidos: "

  /** `moment(now).startOf("day" | "week" | "month")`. */
  datatype Starts = Starts(day: int, week: int, month: int)

  /** `loadingUsernames ? "Carregando..." : usernames[item.userId] || "Funcionário Indisponível"`. */
  function EmployeeLabel(loadingUsernames: bool, usernames: map<int, Js.Value>, userId: int): (shown: string)
    ensures loadingUsernames ==> shown == Screens.LOADING_LABEL
    ensures !loadingUsernames && userId !in usernames ==> shown == Screens.USER_UNAVAILABLE
    ensures !loadingUsernames && userId in usernames && Js.Truthy(usernames[userId]) ==>
      shown == Js.ToText(usernames[userId])
    ensures !loadingUsernames && userId in usernames && !Js.Truthy(usernames[userId]) ==>
      shown == Screens.USER_UNAVAILABLE
  {
    if loadingUsernames then Screens.LOADING_LABEL
    else if userId in usernames && Js.Truthy(usernames[userId]) then Js.ToText(usernames[userId])
    else Screens.USER_UNAVAILABLE
  }

  class Screen {
    var pedidosDia: seq<Group>
    var pedidosSemana: seq<Group>
    var pedidosMes: seq<Group>
    var usernames: map<int, Js.Value>
    var loading: bool
    var loadingUsernames: bool
    var modal: Screens.Modal

    /** Every window holds delivered groups only. */
    predicate Valid()
      reads this
    {
      (forall i :: 0 <= i < |pedidosDia| ==> Delivered()(pedidosDia[i])) &&
      (forall i :: 0 <= i < |pedidosSemana| ==> Delivered()(pedidosSemana[i])) &&
      (forall i :: 0 <= i < |pedidosMes| ==> Delivered()(pedidosMes[i]))
    }

    constructor ()
      ensures Valid() && pedidosDia == [] && pedidosSemana == [] && pedidosMes == [] && usernames == map[]
      ensures loading && loadingUsernames && modal == Screens.HIDDEN_MODAL
    {
      pedidosDia := [];
      pedidosSemana := [];
      pedidosMes := [];
      usernames := map[];
      loading := true;
      loadingUsernames := true;
      modal := Screens.HIDDEN_MODAL;
    }

    /** `fetchPedidos`: `answers[i]` is the lookup of the i-th delivered
        group's employee. */
    method FetchPedidos(fetched: Result<seq<Group>>, starts: Starts, answers: seq<Option<Js.Value>>)
      requires Valid()
      requires fetched.Success? ==> |answers| == |Filter(fetched.value, Delivered())|
      modifies this
      ensures Valid() && !loading && !loadingUsernames
      ensures fetched.Success? ==>
        var delivered := Filter(fetched.value, Delivered());
        pedidosDia == Filter(delivered, CreatedAfter(starts.day)) &&
        pedidosSemana == Filter(delivered, CreatedAfter(starts.week)) &&
        pedidosMes == Filter(delivered, CreatedAfter(starts.month)) &&
        usernames == Screens.UsernamesSpec(UserIds(delivered), answers) &&
        modal == old(modal)
      ensures fetched.Failure? ==>
        pedidosDia == old(pedidosDia) && pedidosSemana == old(pedidosSemana) && pedidosMes == old(pedidosMes) &&
        usernames == old(usernames) &&
        modal == Screens.Modal(Screens.ERROR_TITLE, FETCH_ERROR + fetched.error, true)
    {
      if fetched.Failure? {
        modal := Screens.Modal(Screens.ERROR_TITLE, FETCH_ERROR + fetched.error, true);
      } else {
        var delivered := Filter(fetched.value, Delivered());
        loadingUsernames := true;
        var names := Screens.Usernames(UserIds(delivered), answers);
        ShowDelivered(delivered, starts, names);
      }
      loading := false;
      loadingUsernames := false;
    }

    /** `setUsernames`, `setPedidosDia`, `setPedidosSemana`, `setPedidosMes`. */
    method ShowDelivered(delivered: seq<Group>, starts: Starts, names: map<int, Js.Value>)
      requires forall i :: 0 <= i < |delivered| ==> Delivered()(delivered[i])
      modifies this
      ensures Valid()
      ensures pedidosDia == Filter(delivered, CreatedAfter(starts.day)) &&
              pedidosSemana == Filter(delivered, CreatedAfter(starts.week)) &&
              pedidosMes == Filter(delivered, CreatedAfter(starts.month)) &&
              usernames == names
      ensures modal == old(modal) && loading == old(loading) && loadingUsernames == old(loadingUsernames)
    {
      WindowIsDelivered(delivered, starts.day);
      WindowIsDelivered(delivered, starts.week);
      WindowIsDelivered(delivered, starts.month);
      usernames := names;
      pedidosDia := Filter(delivered, CreatedAfter(starts.day));
      pedidosSemana := Filter(delivered, CreatedAfter(starts.week));
      pedidosMes := Filter(delivered, CreatedAfter(starts.month));
    }
  }

  /** After a successful fetch, whose day starts no earlier than its week
      and month, today's list lies within this week's and this month's. */
  lemma FetchedWindowsNest(delivered: seq<Group>, starts: Starts)
    requires starts.week <= starts.day && starts.month <= starts.day
    ensures SubsequenceOf(Filter(delivered, CreatedAfter(starts.day)), Filter(delivered, CreatedAfter(starts.week)))
    ensures SubsequenceOf(Filter(delivered, CreatedAfter(starts.day)), Filter(delivered, CreatedAfter(starts.month)))
    ensures forall g :: g in Filter(delivered, CreatedAfter(starts.day)) ==> g in Filter(delivered, CreatedAfter(starts.week))
  {
    LaterWindowWithin(delivered, starts.week, starts.day);
    LaterWindowWithin(delivered, starts.month, starts.day);
  }

  /** Once loaded, a delivered group's employee shows the name its lookup
      gave when that is truthy, and "Funcionário Indisponível" when the lookup
      threw or gave a falsy name. */
  lemma LoadedLabels(delivered: seq<Group>, answers: seq<Option<Js.Value>>, lookup: int -> Option<Js.Value>, i: nat)
    requires |answers| == |delivered| && i < |delivered|
    requires forall j :: 0 <= j < |delivered| ==> answers[j] == lookup(delivered[j].userId)
    ensures EmployeeLabel(false, Screens.UsernamesSpec(UserIds(delivered), answers), delivered[i].userId) ==
      if lookup(delivered[i].userId).Some? && Js.Truthy(lookup(delivered[i].userId).value)
      then Js.ToText(lookup(delivered[i].userId).value)
      else Screens.USER_UNAVAILABLE
  {
    Screens.UsernameFor(UserIds(delivered), answers, lookup, i);
    LabelOfAnswer(Screens.UsernamesSpec(UserIds(delivered), answers), delivered[i].userId, lookup(delivered[i].userId));
  }

  /** The label of an employee whose entry came from one lookup answer. */
  lemma LabelOfAnswer(usernames: map<int, Js.Value>, userId: int, answer: Option<Js.Value>)
    requires userId in usernames && usernames[userId] == Screens.UsernameOf(answer)
    ensures EmployeeLabel(false, usernames, userId) ==
      if answer.Some? && Js.Truthy(answer.value) then Js.ToText(answer.value) else Screens.USER_UNAVAILABLE
  {
  }
}
