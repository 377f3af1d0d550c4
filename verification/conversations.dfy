/** The conversation projection of lib/store.ts (`getAllConversations`): one summary per chat,
    most recently active first. */
module Conversations {
  import opened Types
  import opened Seqs
  import opened Sorting
  import opened Store

  function CreatedAt(m: Message): int {
    m.createdAt
  }

  /** Sort key for the final ordering: ascending `Recency` is descending last activity,
      the comparator `b.lastActivity - a.lastActivity`. */
  function Recency(c: Conversation): int {
    -(c.lastActivity as int)
  }

  /** `c` summarizes `msgs` as the source intends: the count, the message that a stable sort by
      creation time puts last, its time as the activity, and the sender of the message it puts first. */
  ghost predicate Summarizes(c: Conversation, msgs: seq<Message>) {
    && c.messageCount == |msgs|
    && (exists i :: IsLastMax(msgs, CreatedAt, i) && c.lastMessage == msgs[i])
    && c.lastActivity == c.lastMessage.createdAt
    && (exists i :: IsFirstMin(msgs, CreatedAt, i)
                    && c.userId == msgs[i].telegramUserId
                    && c.username == msgs[i].telegramUsername)
  }

  /** The body of the `forEach` callback for one non-empty group. */
  function Summarize(chatId: string, msgs: seq<Message>): (c: Conversation)
    requires |msgs| > 0
    ensures c.chatId == chatId && Summarizes(c, msgs)
  {
    var sorted := SortBy(msgs, CreatedAt);
    SortByLast(msgs, CreatedAt);
    SortByFirst(msgs, CreatedAt);
    var lastMessage := sorted[|sorted| - 1];
    var firstMessage := sorted[0];
    Conversation(chatId, firstMessage.telegramUserId, firstMessage.telegramUsername,
                 lastMessage, |msgs|, lastMessage.createdAt)
  }

  /** The `forEach` over the grouping Map in key insertion order, skipping empty groups. */
  function Collect(s: Store, keys: seq<string>): seq<Conversation>
    requires forall k :: k in keys ==> k in s.groups
  {
    if |keys| == 0 then []
    else
      var msgs := s.groups[keys[0]];
      (if |msgs| == 0 then [] else [Summarize(keys[0], msgs)]) + Collect(s, keys[1..])
  }

  /** Summaries in the order chats first appeared, before the recency sort. */
  function Unsorted(s: Store): seq<Conversation>
    requires Valid(s)
  {
    KeyOrderFacts(s.log);
    Collect(s, s.keyOrder)
  }

  lemma {:induction false} CollectFacts(s: Store, keys: seq<string>)
    requires Valid(s)
    requires forall k :: k in keys ==> k in s.groups
    ensures |Collect(s, keys)| == |keys|
    ensures forall i :: 0 <= i < |keys| ==>
              Collect(s, keys)[i].chatId == keys[i]
    ensures forall c :: c in Collect(s, keys) ==> Summarizes(c, Where(s.log, ChatOf, c.chatId))
  {
    if |keys| > 0 {
      NoEmptyGroup(s, keys[0]);
      CollectFacts(s, keys[1..]);
    }
  }

  /** `getAllConversations`: one summary per chat key, ordered by last activity, most recent
      first, with chats of equal activity in the order they first appeared. */
  function GetAllConversations(s: Store): (r: seq<Conversation>)
    requires Valid(s)
    ensures |r| == |ChatKeys(s.log)|
    ensures (set c | c in r :: c.chatId) == ChatKeys(s.log)
    ensures forall c :: c in r ==> Summarizes(c, Where(s.log, ChatOf, c.chatId))
    ensures forall i, j :: 0 <= i < j < |r| ==> r[i].lastActivity >= r[j].lastActivity
    ensures forall v :: Where(r, Recency, v) == Where(Unsorted(s), Recency, v)
  {
    var u := Unsorted(s);
    var r := SortBy(u, Recency);
    SortBySorted(u, Recency);
    SortByStable(u, Recency);
    ProjectionFacts(s, u, r);
    r
  }

  lemma ProjectionFacts(s: Store, u: seq<Conversation>, r: seq<Conversation>)
    requires Valid(s) && u == Unsorted(s) && r == SortBy(u, Recency)
    ensures |r| == |ChatKeys(s.log)|
    ensures (set c | c in r :: c.chatId) == ChatKeys(s.log)
    ensures forall c :: c in r ==> Summarizes(c, Where(s.log, ChatOf, c.chatId))
  {
    UnsortedMembers(s);
    SortedMembers(u, Recency);
    assert (set c | c in r :: c.chatId) == (set c | c in u :: c.chatId);
  }

  /** One summary per chat of the log, before the sort, in the order the chats first appeared. */
  lemma UnsortedFacts(s: Store)
    requires Valid(s)
    ensures |Unsorted(s)| == |ChatKeys(s.log)|
    ensures (set c | c in Unsorted(s) :: c.chatId) == ChatKeys(s.log)
    ensures forall c :: c in Unsorted(s) ==> Summarizes(c, Where(s.log, ChatOf, c.chatId))
    ensures |Unsorted(s)| == |KeyOrder(s.log)|
    ensures forall i :: 0 <= i < |Unsorted(s)| ==> Unsorted(s)[i].chatId == KeyOrder(s.log)[i]
  {
    UnsortedMembers(s);
    KeyOrderFacts(s.log);
    CollectFacts(s, s.keyOrder);
  }

  lemma UnsortedMembers(s: Store)
    requires Valid(s)
    ensures |Unsorted(s)| == |ChatKeys(s.log)|
    ensures (set c | c in Unsorted(s) :: c.chatId) == ChatKeys(s.log)
    ensures forall c :: c in Unsorted(s) ==> Summarizes(c, Where(s.log, ChatOf, c.chatId))
  {
    KeyOrderFacts(s.log);
    var u := Collect(s, s.keyOrder);
    CollectFacts(s, s.keyOrder);
    ChatIdsOfProjection(s.keyOrder, ChatKeys(s.log), u, u);
  }

  lemma ChatIdsOfProjection(keys: seq<string>, chats: set<string>, u: seq<Conversation>,
                            r: seq<Conversation>)
    requires forall k :: k in keys <==> k in chats
    requires forall c :: c in r <==> c in u
    requires |u| == |keys|
    requires forall i :: 0 <= i < |u| ==> u[i].chatId == keys[i]
    ensures (set c | c in r :: c.chatId) == chats
  {
    forall k | k in chats ensures k in (set c | c in r :: c.chatId) {
      var i :| 0 <= i < |keys| && keys[i] == k;
      assert u[i] in u;
    }
    forall k | k in (set c | c in r :: c.chatId) ensures k in chats {
      var c :| c in r && c.chatId == k;
      var i :| 0 <= i < |u| && u[i] == c;
      assert keys[i] in keys;
    }
  }

  /** After a reset there are no conversations. */
  lemma ClearAllNoConversations(s: Store)
    ensures GetAllConversations(ClearAll(s)) == []
  {
  }
}
