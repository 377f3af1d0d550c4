/** The in-memory conversation store (lib/store.ts): an append-only log of messages and a
    grouping of the same records by chat key. In the source the group arrays hold the very objects
    of the log, so a status change made through the log shows in the group; here both views are
    values and every operation updates both, and `Valid` states that they agree. */
module Store {
  import opened Types
  import opened Seqs

  /** `log` is the `messages` array; `groups` the `conversations` Map; `keyOrder` the Map's
      key insertion order, which is the order its `forEach` visits. */
  datatype Store = Store(log: seq<Message>, groups: map<string, seq<Message>>, keyOrder: seq<string>)

  const Empty := Store([], map[], [])

  function ChatOf(m: Message): string {
    m.telegramChatId
  }

  /** Every chat key that occurs in the log. */
  ghost function ChatKeys(log: seq<Message>): set<string> {
    set m | m in log :: m.telegramChatId
  }

  /** Chat keys in the order of their first occurrence in the log. */
  function KeyOrder(log: seq<Message>): seq<string> {
    if |log| == 0 then []
    else
      var prev := KeyOrder(log[..|log| - 1]);
      var k := log[|log| - 1].telegramChatId;
      if k in prev then prev else prev + [k]
  }

  ghost predicate DistinctIds(log: seq<Message>) {
    forall i, j :: 0 <= i < j < |log| ==> log[i].id != log[j].id
  }

  /** An id no stored message carries; `generateId` intends its ids to be such. */
  ghost predicate Fresh(s: Store, id: string) {
    forall m :: m in s.log ==> m.id != id
  }

  /** The store invariant: ids are unique, the groups are exactly the chats of the log, each group
      holds that chat's messages in log order (so none is empty), and the key order is the order in
      which chats first appeared. */
  ghost predicate Valid(s: Store) {
    && DistinctIds(s.log)
    && s.groups.Keys == ChatKeys(s.log)
    && (forall k :: k in s.groups ==> s.groups[k] == Where(s.log, ChatOf, k))
    && s.keyOrder == KeyOrder(s.log)
  }

  lemma {:induction false} KeyOrderFacts(log: seq<Message>)
    ensures Distinct(KeyOrder(log))
    ensures forall k :: k in KeyOrder(log) <==> k in ChatKeys(log)
    ensures |KeyOrder(log)| == |ChatKeys(log)|
  {
    if |log| > 0 {
      var init := log[..|log| - 1];
      KeyOrderFacts(init);
      assert log == init + [log[|log| - 1]];
      assert ChatKeys(log) == ChatKeys(init) + {log[|log| - 1].telegramChatId};
    }
  }

  lemma {:induction false} ChatKeyHasMessages(log: seq<Message>, k: string)
    requires k in ChatKeys(log)
    ensures |Where(log, ChatOf, k)| > 0
  {
    WhereMembers(log, ChatOf, k);
    var m :| m in log && m.telegramChatId == k;
    assert m in Where(log, ChatOf, k);
  }

  /** No group of a valid store is empty. */
  lemma NoEmptyGroup(s: Store, k: string)
    requires Valid(s) && k in s.groups
    ensures |s.groups[k]| > 0
  {
    ChatKeyHasMessages(s.log, k);
  }

  // ---------------------------------------------------------------- addMessage

  /** Stores `d` under the fresh id `id` and creation time `now`; returns the stored record. */
  function AddMessage(s: Store, d: Draft, id: string, now: nat): (r: (Store, Message))
    requires Valid(s) && Fresh(s, id)
    ensures r.1.id == id && r.1.createdAt == now && Unstamp(r.1) == d
    ensures r.0.log == s.log + [r.1]
    ensures r.0.groups.Keys == s.groups.Keys + {d.telegramChatId}
    ensures d.telegramChatId in s.groups ==>
              r.0.groups[d.telegramChatId] == s.groups[d.telegramChatId] + [r.1]
    ensures d.telegramChatId !in s.groups ==> r.0.groups[d.telegramChatId] == [r.1]
    ensures forall k :: k in s.groups && k != d.telegramChatId ==> r.0.groups[k] == s.groups[k]
    ensures Valid(r.0)
  {
    var m := Stamp(d, id, now);
    var k := d.telegramChatId;
    var group := if k in s.groups then s.groups[k] else [];
    var s' := Store(s.log + [m], s.groups[k := group + [m]],
                    if k in s.groups then s.keyOrder else s.keyOrder + [k]);
    AddKeepsValid(s, m, s');
    GroupAppended(s.groups, k, m);
    (s', m)
  }

  lemma GroupAppended(groups: map<string, seq<Message>>, k: string, m: Message)
    ensures var g' := groups[k := (if k in groups then groups[k] else []) + [m]];
            && g'.Keys == groups.Keys + {k}
            && (k in groups ==> g'[k] == groups[k] + [m])
            && (k !in groups ==> g'[k] == [m])
            && (forall j :: j in groups && j != k ==> g'[j] == groups[j])
  {
  }

  lemma AddKeepsValid(s: Store, m: Message, s': Store)
    requires Valid(s) && Fresh(s, m.id)
    requires s'.log == s.log + [m]
    requires s'.groups == s.groups[m.telegramChatId := (if m.telegramChatId in s.groups
               then s.groups[m.telegramChatId] else []) + [m]]
    requires s'.keyOrder == if m.telegramChatId in s.groups then s.keyOrder
                            else s.keyOrder + [m.telegramChatId]
    ensures Valid(s')
  {
    ChatKeysAppend(s.log, m);
    AddKeepsGroups(s, m, s');
    AddKeepsKeyOrder(s, m, s');
    DistinctIdsAppend(s.log, m);
  }

  lemma AddKeepsGroups(s: Store, m: Message, s': Store)
    requires Valid(s)
    requires s'.log == s.log + [m]
    requires s'.groups == s.groups[m.telegramChatId := (if m.telegramChatId in s.groups
               then s.groups[m.telegramChatId] else []) + [m]]
    ensures forall c :: c in s'.groups ==> s'.groups[c] == Where(s'.log, ChatOf, c)
  {
    var k := m.telegramChatId;
    forall c | c in s'.groups
      ensures s'.groups[c] == Where(s'.log, ChatOf, c)
    {
      WhereAppend(s.log, [m], ChatOf, c);
      if c == k && k !in s.groups {
        ChatKeyHasMessagesConverse(s.log, k);
      }
    }
  }

  lemma AddKeepsKeyOrder(s: Store, m: Message, s': Store)
    requires Valid(s)
    requires s'.log == s.log + [m]
    requires s'.keyOrder == if m.telegramChatId in s.groups then s.keyOrder
                            else s.keyOrder + [m.telegramChatId]
    ensures s'.keyOrder == KeyOrder(s'.log)
  {
    assert s'.log[..|s'.log| - 1] == s.log;
    KeyOrderFacts(s.log);
  }

  lemma ChatKeysAppend(log: seq<Message>, m: Message)
    ensures ChatKeys(log + [m]) == ChatKeys(log) + {m.telegramChatId}
  {
    assert forall x :: x in log + [m] <==> x in log || x == m;
  }

  lemma DistinctIdsAppend(log: seq<Message>, m: Message)
    requires DistinctIds(log)
    requires forall x :: x in log ==> x.id != m.id
    ensures DistinctIds(log + [m])
  {
    var log' := log + [m];
    forall i, j | 0 <= i < j < |log'| ensures log'[i].id != log'[j].id {
      if j == |log| {
        assert log'[i] in log;
      } else {
        assert log'[i] == log[i] && log'[j] == log[j];
      }
    }
  }

  lemma {:induction false} ChatKeyHasMessagesConverse(log: seq<Message>, k: string)
    requires k !in ChatKeys(log)
    ensures Where(log, ChatOf, k) == []
  {
    if |log| > 0 {
      assert log[0] in log;
      assert ChatKeys(log[1..]) <= ChatKeys(log) by {
        forall x | x in log[1..] ensures x in log { }
      }
      ChatKeyHasMessagesConverse(log[1..], k);
    }
  }

  // ---------------------------------------------------------------- reads

  /** The messages of one chat in the order they were stored; empty for an unknown chat. */
  function GetMessagesByChatId(s: Store, chatId: string): (r: seq<Message>)
    requires Valid(s)
    ensures r == Where(s.log, ChatOf, chatId)
    ensures chatId !in ChatKeys(s.log) <==> r == []
  {
    if chatId !in s.groups then ChatKeyHasMessagesConverse(s.log, chatId); []
    else NoEmptyGroup(s, chatId); s.groups[chatId]
  }

  /** Position of the first message with the given id, as `Array.prototype.find` scans. */
  function FindIndex(log: seq<Message>, id: string): (r: Option<nat>)
    ensures r.Some? ==> r.value < |log| && log[r.value].id == id
    ensures r.Some? ==> forall j :: 0 <= j < r.value ==> log[j].id != id
    ensures r.None? <==> forall j :: 0 <= j < |log| ==> log[j].id != id
  {
    if |log| == 0 then None
    else if log[0].id == id then Some(0)
    else match FindIndex(log[1..], id)
      case None => None
      case Some(i) => Some(i + 1)
  }

  /** The first stored message with the given id, if any. */
  function GetMessageById(s: Store, id: string): (r: Option<Message>)
    ensures r.None? <==> (forall m :: m in s.log ==> m.id != id)
    ensures r.Some? ==> r.value in s.log && r.value.id == id
  {
    match FindIndex(s.log, id)
    case None => None
    case Some(i) => Some(s.log[i])
  }

  // ---------------------------------------------------------------- updateMessageStatus

  /** The record `m` after its status is set and, when one is given, its sent time. */
  function Patch(m: Message, status: Status, sentAt: Option<nat>): Message {
    m.(status := status, sentAt := if sentAt.Some? then sentAt else m.sentAt)
  }

  /** `g` with the record carrying id `id` replaced by `m`: the group's view of the shared object. */
  function ReplaceId(g: seq<Message>, id: string, m: Message): seq<Message> {
    if |g| == 0 then []
    else [if g[0].id == id then m else g[0]] + ReplaceId(g[1..], id, m)
  }

  /** Sets the status (and the sent time, when given) of the first message with `id`.
      Returns the updated message, or `None` and an unchanged store for an unknown id. */
  function UpdateMessageStatus(s: Store, id: string, status: Status, sentAt: Option<nat>)
    : (r: (Store, Option<Message>))
    requires Valid(s)
    ensures Valid(r.0)
    ensures (forall m :: m in s.log ==> m.id != id) <==> r.1.None?
    ensures r.1.None? ==> r.0 == s
    ensures forall i :: 0 <= i < |s.log| && s.log[i].id == id ==>
      && r.1.Some?
      && r.0.log == s.log[i := r.1.value]
      && r.1.value.status == status
      && r.1.value.sentAt == (if sentAt.Some? then sentAt else s.log[i].sentAt)
      && r.1.value == s.log[i].(status := r.1.value.status, sentAt := r.1.value.sentAt)
    ensures r.1.Some? ==> r.0.keyOrder == s.keyOrder && r.0.groups.Keys == s.groups.Keys
    ensures r.1.Some? ==> forall k :: k in s.groups && k != r.1.value.telegramChatId ==>
                                      r.0.groups[k] == s.groups[k]
    ensures r.1.Some? ==> r.1.value in GetMessagesByChatId(r.0, r.1.value.telegramChatId)
  {
    match FindIndex(s.log, id)
    case None => (s, None)
    case Some(i) =>
      var m := Patch(s.log[i], status, sentAt);
      var k := m.telegramChatId;
      assert s.log[i] in s.log;
      var s' := Store(s.log[i := m], s.groups[k := ReplaceId(s.groups[k], id, m)], s.keyOrder);
      UpdateKeepsValid(s, i, m, s');
      assert forall j :: 0 <= j < |s.log| && s.log[j].id == id ==> j == i;
      (s', Some(m))
  }

  lemma UpdateKeepsValid(s: Store, i: nat, m: Message, s': Store)
    requires Valid(s) && i < |s.log|
    requires m.id == s.log[i].id && m.telegramChatId == s.log[i].telegramChatId
    requires m.telegramChatId in s.groups
    requires s'.log == s.log[i := m]
    requires s'.groups == s.groups[m.telegramChatId := ReplaceId(s.groups[m.telegramChatId], m.id, m)]
    requires s'.keyOrder == s.keyOrder
    ensures Valid(s')
    ensures m in Where(s'.log, ChatOf, m.telegramChatId)
  {
    ChatKeysPatched(s.log, i, m);
    UpdateKeepsGroups(s, i, m, s');
    KeyOrderPatched(s.log, i, m);
    DistinctIdsPatched(s.log, i, m);
    WhereMembers(s'.log, ChatOf, m.telegramChatId);
    assert s'.log[i] == m;
  }

  lemma UpdateKeepsGroups(s: Store, i: nat, m: Message, s': Store)
    requires Valid(s) && i < |s.log|
    requires m.id == s.log[i].id && m.telegramChatId == s.log[i].telegramChatId
    requires m.telegramChatId in s.groups
    requires s'.log == s.log[i := m]
    requires s'.groups == s.groups[m.telegramChatId := ReplaceId(s.groups[m.telegramChatId], m.id, m)]
    ensures forall c :: c in s'.groups ==> s'.groups[c] == Where(s'.log, ChatOf, c)
  {
    forall c | c in s'.groups ensures s'.groups[c] == Where(s'.log, ChatOf, c) {
      WherePatched(s.log, i, m, c);
    }
  }

  lemma ChatKeysPatched(log: seq<Message>, i: nat, m: Message)
    requires i < |log| && m.telegramChatId == log[i].telegramChatId
    ensures ChatKeys(log[i := m]) == ChatKeys(log)
  {
    var log' := log[i := m];
    forall c | c in ChatKeys(log) ensures c in ChatKeys(log') {
      var x :| x in log && x.telegramChatId == c;
      var j :| 0 <= j < |log| && log[j] == x;
      assert log'[j] in log';
    }
    forall c | c in ChatKeys(log') ensures c in ChatKeys(log) {
      var x :| x in log' && x.telegramChatId == c;
      var j :| 0 <= j < |log'| && log'[j] == x;
      assert log[j] in log;
    }
  }

  lemma DistinctIdsPatched(log: seq<Message>, i: nat, m: Message)
    requires i < |log| && m.id == log[i].id && DistinctIds(log)
    ensures DistinctIds(log[i := m])
  {
    var log' := log[i := m];
    forall a, b | 0 <= a < b < |log'| ensures log'[a].id != log'[b].id {
      assert log'[a].id == log[a].id && log'[b].id == log[b].id;
    }
  }

  /** Patching one record in place changes its chat's group by the same replacement. */
  lemma WherePatched(log: seq<Message>, i: nat, m: Message, k: string)
    requires i < |log| && DistinctIds(log)
    requires m.id == log[i].id && m.telegramChatId == log[i].telegramChatId
    ensures Where(log[i := m], ChatOf, k) ==
            if k == m.telegramChatId then ReplaceId(Where(log, ChatOf, k), m.id, m)
            else Where(log, ChatOf, k)
  {
    if k == m.telegramChatId {
      WherePatchedSame(log, i, m);
    } else {
      WherePatchedOther(log, i, m, k);
    }
  }

  lemma {:induction false} WherePatchedOther(log: seq<Message>, i: nat, m: Message, k: string)
    requires i < |log| && m.telegramChatId == log[i].telegramChatId && k != m.telegramChatId
    ensures Where(log[i := m], ChatOf, k) == Where(log, ChatOf, k)
  {
    var log' := log[i := m];
    if i > 0 {
      assert log'[1..] == log[1..][i - 1 := m];
      WherePatchedOther(log[1..], i - 1, m, k);
    } else {
      assert log'[1..] == log[1..];
    }
  }

  lemma {:induction false} WherePatchedSame(log: seq<Message>, i: nat, m: Message)
    requires i < |log| && DistinctIds(log)
    requires m.id == log[i].id && m.telegramChatId == log[i].telegramChatId
    ensures Where(log[i := m], ChatOf, m.telegramChatId)
            == ReplaceId(Where(log, ChatOf, m.telegramChatId), m.id, m)
  {
    var k := m.telegramChatId;
    var log' := log[i := m];
    var rest := Where(log[1..], ChatOf, k);
    var head := if log[0].telegramChatId == k then [log[0]] else [];
    assert Where(log, ChatOf, k) == head + rest;
    if i == 0 {
      assert log'[1..] == log[1..];
      assert Where(log', ChatOf, k) == [m] + rest;
      WhereMembers(log[1..], ChatOf, k);
      forall x | x in rest ensures x.id != m.id {
        var j :| 0 <= j < |log[1..]| && log[1..][j] == x;
        assert log[j + 1] == x;
      }
      ReplaceIdAbsent(rest, m.id, m);
      assert ReplaceId([log[0]] + rest, m.id, m) == [m] + ReplaceId(rest, m.id, m);
    } else {
      assert log'[1..] == log[1..][i - 1 := m];
      assert DistinctIds(log[1..]) by {
        forall a, b | 0 <= a < b < |log[1..]| ensures log[1..][a].id != log[1..][b].id {
          assert log[1..][a] == log[a + 1] && log[1..][b] == log[b + 1];
        }
      }
      WherePatchedSame(log[1..], i - 1, m);
      assert Where(log', ChatOf, k) == head + ReplaceId(rest, m.id, m);
      assert log[0].id != m.id;
      ReplaceIdAppend(head, rest, m.id, m);
      ReplaceIdAbsent(head, m.id, m);
    }
  }

  lemma {:induction false} ReplaceIdAppend(a: seq<Message>, b: seq<Message>, id: string, m: Message)
    ensures ReplaceId(a + b, id, m) == ReplaceId(a, id, m) + ReplaceId(b, id, m)
  {
    if |a| == 0 {
      assert a + b == b;
    } else {
      assert (a + b)[1..] == a[1..] + b;
      ReplaceIdAppend(a[1..], b, id, m);
    }
  }

  lemma {:induction false} ReplaceIdAbsent(g: seq<Message>, id: string, m: Message)
    requires forall x :: x in g ==> x.id != id
    ensures ReplaceId(g, id, m) == g
  {
    if |g| > 0 {
      assert g[0] in g;
      assert forall x :: x in g[1..] ==> x in g;
      ReplaceIdAbsent(g[1..], id, m);
    }
  }

  lemma {:induction false} KeyOrderPatched(log: seq<Message>, i: nat, m: Message)
    requires i < |log| && m.telegramChatId == log[i].telegramChatId
    ensures KeyOrder(log[i := m]) == KeyOrder(log)
  {
    var n := |log|;
    var log' := log[i := m];
    if i < n - 1 {
      assert log'[..n - 1] == log[..n - 1][i := m];
      KeyOrderPatched(log[..n - 1], i, m);
    } else {
      assert log'[..n - 1] == log[..n - 1];
    }
  }

  // ---------------------------------------------------------------- reads after writes

  /** A stored message is found by its id, and it ends its own chat's thread while every other
      chat's thread is left as it was. */
  lemma AddThenRead(s: Store, d: Draft, id: string, now: nat)
    requires Valid(s) && Fresh(s, id)
    ensures var (s', m) := AddMessage(s, d, id, now);
            && GetMessageById(s', id) == Some(m)
            && GetMessagesByChatId(s', d.telegramChatId) == GetMessagesByChatId(s, d.telegramChatId) + [m]
            && forall k :: k != d.telegramChatId ==> GetMessagesByChatId(s', k) == GetMessagesByChatId(s, k)
  {
    var (s', m) := AddMessage(s, d, id, now);
    ThreadsAfterAppend(s.log, m);
    FoundAtEnd(s.log, m);
  }

  lemma ThreadsAfterAppend(log: seq<Message>, m: Message)
    ensures Where(log + [m], ChatOf, m.telegramChatId) == Where(log, ChatOf, m.telegramChatId) + [m]
    ensures forall k :: k != m.telegramChatId ==> Where(log + [m], ChatOf, k) == Where(log, ChatOf, k)
  {
    WhereAppend(log, [m], ChatOf, m.telegramChatId);
    forall k | k != m.telegramChatId
      ensures Where(log + [m], ChatOf, k) == Where(log, ChatOf, k)
    {
      WhereAppend(log, [m], ChatOf, k);
    }
  }

  /** Appending a record uses up only that record's id. */
  lemma AppendKeepsOthersFresh(s: Store, s': Store, m: Message)
    requires s'.log == s.log + [m]
    ensures forall other :: Fresh(s, other) && other != m.id ==> Fresh(s', other)
  {
  }

  lemma FoundAtEnd(log: seq<Message>, m: Message)
    requires forall x :: x in log ==> x.id != m.id
    ensures FindIndex(log + [m], m.id) == Some(|log|)
  {
    assert (log + [m])[|log|] == m;
    assert forall j :: 0 <= j < |log| ==> (log + [m])[j] in log;
  }

  /** The message an update returns is what a later lookup by the same id finds. */
  lemma UpdateThenRead(s: Store, id: string, status: Status, sentAt: Option<nat>)
    requires Valid(s)
    ensures var (s', r) := UpdateMessageStatus(s, id, status, sentAt);
            r.Some? ==> GetMessageById(s', id) == r
  {
    var (s', r) := UpdateMessageStatus(s, id, status, sentAt);
    if r.Some? {
      var i :| 0 <= i < |s.log| && s.log[i].id == id;
      assert s'.log[i] == r.value;
      assert forall j :: 0 <= j < |s'.log| && j != i ==> s'.log[j].id != id;
    }
  }

  /** Repeating an update changes nothing more. */
  lemma UpdateIdempotent(s: Store, id: string, status: Status, sentAt: Option<nat>)
    requires Valid(s)
    ensures var s1 := UpdateMessageStatus(s, id, status, sentAt).0;
            UpdateMessageStatus(s1, id, status, sentAt).0 == s1
  {
    var (s1, r1) := UpdateMessageStatus(s, id, status, sentAt);
    var (s2, r2) := UpdateMessageStatus(s1, id, status, sentAt);
    if r1.Some? {
      var i :| 0 <= i < |s.log| && s.log[i].id == id;
      var m := r1.value;
      assert s1.log[i] == m && m.id == id;
      assert r2.value == m;
      SameLogSameStore(s1, s2);
    }
  }

  /** The invariant determines a store by its log. */
  lemma SameLogSameStore(s: Store, t: Store)
    requires Valid(s) && Valid(t) && s.log == t.log
    ensures s == t
  {
    assert s.groups == t.groups;
  }

  // ---------------------------------------------------------------- clearAll

  /** Discards every message and every group. */
  function ClearAll(s: Store): (r: Store)
    ensures Valid(r)
    ensures r.log == [] && r.groups == map[] && r.keyOrder == []
  {
    Empty
  }

  /** After a reset no chat has messages. */
  lemma ClearAllEmptiesChats(s: Store, chatId: string)
    ensures GetMessagesByChatId(ClearAll(s), chatId) == []
  {
  }
}
