/** What several client screens share: the result of an API call, the
    feedback modal, the per-id scale values of the press animation and the
    `usernamesMap` built from one lookup answer per user id. */
module Screens {
  import Js

  /** How an awaited API call ended: it resolved, or it threw with a message. */
  datatype Outcome = Done | Threw(message: string)

  /** The feedback modal: its title, message and visibility. */
  datatype Modal = Modal(title: string, message: string, visible: bool)

  const HIDDEN_MODAL := Modal("", "", false)
  const SUCCESS_TITLE := "Sucesso"
  const ERROR_TITLE := "Erro"
  const USER_UNAVAILABLE := "Funcionário Indisponível"
  const LOADING_LABEL := "Carregando..."

  /** The ids of a list, as a set. */
  function IdSet(ids: seq<int>): set<int>
  {
    set i | 0 <= i < |ids| :: ids[i]
  }

  /** `list.forEach((x) => { initialScaleValues[x.id] = new Animated.Value(1); })`:
      every id gets a scale value at rest (1), and no other key exists. */
  method ScaleValues(ids: seq<int>) returns (m: map<int, int>)
    ensures m.Keys == IdSet(ids)
    ensures forall k :: k in m ==> m[k] == 1
  {
    m := map[];
    var i := 0;
    while i < |ids|
      invariant 0 <= i <= |ids|
      invariant m.Keys == IdSet(ids[..i])
      invariant forall k :: k in m ==> m[k] == 1
    {
      assert IdSet(ids[..i + 1]) == IdSet(ids[..i]) + {ids[i]} by {
        assert forall j :: 0 <= j < i ==> ids[..i + 1][j] == ids[..i][j];
      }
      m := m[ids[i] := 1];
      i := i + 1;
    }
    assert ids[..i] == ids;
  }

  /** What one lookup contributes: `user.username` when it resolved with
      that value, "Funcionário Indisponível" when it threw. */
  function UsernameOf(answer: Option<Js.Value>): Js.Value
  {
    if answer.Some? then answer.value else Js.Str(USER_UNAVAILABLE)
  }

  /** The map after `forEach` over the first `|userIds|` answers: later
      writes overwrite earlier ones. */
  function UsernamesSpec(userIds: seq<int>, answers: seq<Option<Js.Value>>): map<int, Js.Value>
    requires |answers| == |userIds|
  {
    if userIds == [] then map[]
    else
      var n := |userIds| - 1;
      UsernamesSpec(userIds[..n], answers[..n])[userIds[n] := UsernameOf(answers[n])]
  }

  /** `usernamesData.forEach(({ userId, username }) => { usernamesMap[userId] = username; })`,
      `answers[i]` being the lookup of `userIds[i]` (`None` when it threw). */
  method Usernames(userIds: seq<int>, answers: seq<Option<Js.Value>>) returns (m: map<int, Js.Value>)
    requires |answers| == |userIds|
    ensures m == UsernamesSpec(userIds, answers)
  {
    m := map[];
    var i := 0;
    while i < |userIds|
      invariant 0 <= i <= |userIds|
      invariant m == UsernamesSpec(userIds[..i], answers[..i])
    {
      assert userIds[..i + 1][..i] == userIds[..i];
      assert answers[..i + 1][..i] == answers[..i];
      m := m[userIds[i] := UsernameOf(answers[i])];
      i := i + 1;
    }
    assert userIds[..i] == userIds && answers[..i] == answers;
  }

  /** Every looked-up id has an entry and there are no others. */
  lemma {:induction false} UsernamesKeys(userIds: seq<int>, answers: seq<Option<Js.Value>>)
    requires |answers| == |userIds|
    ensures UsernamesSpec(userIds, answers).Keys == IdSet(userIds)
  {
    if userIds != [] {
      var n := |userIds| - 1;
      UsernamesKeys(userIds[..n], answers[..n]);
      assert IdSet(userIds) == IdSet(userIds[..n]) + {userIds[n]} by {
        assert forall j :: 0 <= j < n ==> userIds[..n][j] == userIds[j];
      }
    }
  }

  /** An id's entry is what its last lookup contributed. */
  lemma {:induction false} UsernamesLastWriteWins(userIds: seq<int>, answers: seq<Option<Js.Value>>, j: nat)
    requires |answers| == |userIds| && j < |userIds|
    requires forall l :: j < l < |userIds| ==> userIds[l] != userIds[j]
    ensures userIds[j] in UsernamesSpec(userIds, answers)
    ensures UsernamesSpec(userIds, answers)[userIds[j]] == UsernameOf(answers[j])
  {
    var n := |userIds| - 1;
    if j < n {
      var ids, ans := userIds[..n], answers[..n];
      assert ids[j] == userIds[j] && ans[j] == answers[j];
      assert forall l :: j < l < n ==> ids[l] == userIds[l];
      UsernamesLastWriteWins(ids, ans, j);
    }
  }

  /** When every lookup of the same id gives the same answer, each id maps
      to what looking it up gives, whatever the order of the ids. */
  lemma {:induction false} UsernamesFromLookup(userIds: seq<int>, answers: seq<Option<Js.Value>>,
                                               lookup: int -> Option<Js.Value>)
    requires |answers| == |userIds|
    requires forall i :: 0 <= i < |userIds| ==> answers[i] == lookup(userIds[i])
    ensures UsernamesSpec(userIds, answers).Keys == IdSet(userIds)
    ensures forall k :: k in UsernamesSpec(userIds, answers) ==>
      UsernamesSpec(userIds, answers)[k] == UsernameOf(lookup(k))
  {
    UsernamesKeys(userIds, answers);
    if userIds != [] {
      var n := |userIds| - 1;
      assert forall i :: 0 <= i < n ==> userIds[..n][i] == userIds[i] && answers[..n][i] == answers[i];
      UsernamesFromLookup(userIds[..n], answers[..n], lookup);
    }
  }

  /** The entry of the i-th looked-up id is what looking it up gives. */
  lemma UsernameFor(userIds: seq<int>, answers: seq<Option<Js.Value>>, lookup: int -> Option<Js.Value>, i: nat)
    requires |answers| == |userIds| && i < |userIds|
    requires forall j :: 0 <= j < |userIds| ==> answers[j] == lookup(userIds[j])
    ensures userIds[i] in UsernamesSpec(userIds, answers)
    ensures UsernamesSpec(userIds, answers)[userIds[i]] == UsernameOf(lookup(userIds[i]))
  {
    UsernamesFromLookup(userIds, answers, lookup);
  }

  import opened Wrappers
}
