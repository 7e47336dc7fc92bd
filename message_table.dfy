/**
 * The chat message and the table that stores it (Message.java): rows are
 * partitioned by chatId and, inside a partition, clustered by messageID in
 * descending order.  The clustering comparator is modelled as the
 * lexicographic order of the ids' text.  Ids are random UUIDs, so this
 * order says nothing about when a message was created.
 */
module MessageTable {
  import opened ChatTypes

  /** A chat message; as in the Java class, every field may be missing (null). */
  datatype Message = Message(
    chatId: Option<Uuid>,
    messageId: Option<Uuid>,
    senderId: Option<Uuid>,
    content: Option<string>,
    status: Option<string>,
    createdAt: Option<Instant>,
    updatedAt: Option<Instant>)

  /** Partitions of the message table, each in clustering order. */
  type Partitions = map<Uuid, seq<Message>>

  /** Strict lexicographic order on text. */
  predicate TextBefore(a: string, b: string)
    decreases |a|
  {
    if |a| == 0 then |b| > 0
    else if |b| == 0 then false
    else if a[0] != b[0] then a[0] < b[0]
    else TextBefore(a[1..], b[1..])
  }

  lemma {:induction false} TextBeforeIrreflexive(a: string)
    ensures !TextBefore(a, a)
    decreases |a|
  {
    if |a| > 0 {
      TextBeforeIrreflexive(a[1..]);
    }
  }

  lemma {:induction false} TextBeforeTransitive(a: string, b: string, c: string)
    requires TextBefore(a, b) && TextBefore(b, c)
    ensures TextBefore(a, c)
    decreases |a|
  {
    if |a| > 0 && |b| > 0 && |c| > 0 && a[0] == b[0] && b[0] == c[0] {
      TextBeforeTransitive(a[1..], b[1..], c[1..]);
    }
  }

  lemma {:induction false} TextBeforeTotal(a: string, b: string)
    requires a != b
    ensures TextBefore(a, b) || TextBefore(b, a)
    decreases |a|
  {
    if |a| > 0 && |b| > 0 && a[0] == b[0] {
      assert a == [a[0]] + a[1..] && b == [b[0]] + b[1..];
      TextBeforeTotal(a[1..], b[1..]);
    }
  }

  /** The text of a row's clustering key (rows in the table always have one). */
  function RowId(m: Message): string
  {
    if m.messageId.Some? then m.messageId.value.text else ""
  }

  /** Row x sorts after row y in the table: its id is smaller. */
  predicate IdBefore(x: Message, y: Message)
  {
    TextBefore(RowId(x), RowId(y))
  }

  /** A partition in clustering order: every row has an id, ids strictly descending. */
  ghost predicate Clustered(p: seq<Message>)
  {
    && (forall i :: 0 <= i < |p| ==> p[i].messageId.Some?)
    && (forall i, j :: 0 <= i < j < |p| ==> IdBefore(p[j], p[i]))
  }

  /** The table's invariant: partitions are clustered and hold their own chat's rows only. */
  ghost predicate WellFormed(parts: Partitions)
  {
    forall c :: c in parts ==> Clustered(parts[c]) && forall i :: 0 <= i < |parts[c]| ==> parts[c][i].chatId == Some(c)
  }

  /** The rows of one chat, in clustering order. */
  function Partition(parts: Partitions, chatId: Uuid): seq<Message>
  {
    if chatId in parts then parts[chatId] else []
  }

  /** The table refuses a row whose primary key columns are missing. */
  predicate Keyed(m: Message)
  {
    m.chatId.Some? && m.messageId.Some?
  }

  /**
   * Write m into a clustered partition: it replaces the row with the same
   * id, or goes in before the first row with a smaller id.
   */
  function Upsert(p: seq<Message>, m: Message): seq<Message>
  {
    if p == [] then [m]
    else if RowId(p[0]) == RowId(m) then [m] + p[1..]
    else if TextBefore(RowId(p[0]), RowId(m)) then [m] + p
    else [p[0]] + Upsert(p[1..], m)
  }

  lemma TailBelowHead(p: seq<Message>)
    requires Clustered(p) && |p| > 0
    ensures Clustered(p[1..])
    ensures forall x :: x in p[1..] ==> IdBefore(x, p[0])
  {
    forall x | x in p[1..]
      ensures IdBefore(x, p[0])
    {
      var j :| 0 <= j < |p[1..]| && p[1..][j] == x;
      assert p[j + 1] == x;
    }
  }

  /** A row above every row of a clustered partition can head it. */
  lemma ConsClustered(h: Message, rest: seq<Message>)
    requires Clustered(rest) && h.messageId.Some?
    requires forall x :: x in rest ==> IdBefore(x, h)
    ensures Clustered([h] + rest)
  {
    var r := [h] + rest;
    forall i, j | 0 <= i < j < |r|
      ensures IdBefore(r[j], r[i])
    {
      if i > 0 {
        assert r[i] == rest[i - 1] && r[j] == rest[j - 1];
      } else {
        assert r[j] in rest;
      }
    }
  }

  /**
   * Upserting into a clustered partition keeps it clustered, and its rows
   * are m together with the old rows whose id differs from m's.
   */
  lemma {:induction false} UpsertKeepsClustering(p: seq<Message>, m: Message)
    requires Clustered(p) && m.messageId.Some?
    ensures Clustered(Upsert(p, m))
    ensures forall x :: x in Upsert(p, m) <==> x == m || (x in p && RowId(x) != RowId(m))
    decreases |p|
  {
    if p == [] {
      return;
    }
    TailBelowHead(p);
    assert forall x :: x in p <==> x == p[0] || x in p[1..];
    forall x | x in p[1..]
      ensures RowId(x) != RowId(p[0])
    {
      TextBeforeIrreflexive(RowId(p[0]));
    }
    if RowId(p[0]) == RowId(m) {
      ConsClustered(m, p[1..]);
    } else if TextBefore(RowId(p[0]), RowId(m)) {
      forall x | x in p
        ensures IdBefore(x, m) && RowId(x) != RowId(m)
      {
        if x != p[0] {
          TextBeforeTransitive(RowId(x), RowId(p[0]), RowId(m));
        }
        TextBeforeIrreflexive(RowId(m));
      }
      ConsClustered(m, p);
    } else {
      TextBeforeTotal(RowId(p[0]), RowId(m));
      UpsertKeepsClustering(p[1..], m);
      ConsClustered(p[0], Upsert(p[1..], m));
    }
  }

  /** The table after a successful save of a keyed row. */
  function Store(parts: Partitions, m: Message): Partitions
    requires Keyed(m)
  {
    parts[m.chatId.value := Upsert(Partition(parts, m.chatId.value), m)]
  }

  /**
   * A save keeps the table well formed, puts m into its chat's partition,
   * drops only the row it replaces there, and leaves other chats alone.
   */
  lemma StoreKeepsTable(parts: Partitions, m: Message)
    requires WellFormed(parts) && Keyed(m)
    ensures WellFormed(Store(parts, m))
    ensures m in Partition(Store(parts, m), m.chatId.value)
    ensures forall x :: x in Partition(Store(parts, m), m.chatId.value) <==>
              x == m || (x in Partition(parts, m.chatId.value) && RowId(x) != RowId(m))
    ensures forall c :: c != m.chatId.value ==> Partition(Store(parts, m), c) == Partition(parts, c)
  {
    var c := m.chatId.value;
    UpsertKeepsClustering(Partition(parts, c), m);
    var p := Upsert(Partition(parts, c), m);
    forall i | 0 <= i < |p|
      ensures p[i].chatId == Some(c)
    {
      assert p[i] in p;
      if p[i] != m {
        var k :| 0 <= k < |Partition(parts, c)| && Partition(parts, c)[k] == p[i];
      }
    }
  }

  /** The first row of a partition with the given id. */
  function FindIn(p: seq<Message>, id: Uuid): (r: Option<Message>)
    ensures r.Some? ==> r.value in p && r.value.messageId == Some(id)
    ensures r.None? ==> forall x :: x in p ==> x.messageId != Some(id)
  {
    if p == [] then None
    else if p[0].messageId == Some(id) then Some(p[0])
    else FindIn(p[1..], id)
  }

  /** Some partition holds a row with this id. */
  ghost predicate HasRow(parts: Partitions, id: Uuid)
  {
    exists c, x :: c in parts && x in parts[c] && x.messageId == Some(id)
  }

  /**
   * The first rows of a partition, in clustering order, are its newest by
   * id: strictly descending, and every row left out has a smaller id than
   * every row taken.
   */
  lemma {:induction false} PrefixIsNewestById(p: seq<Message>, n: nat)
    requires Clustered(p) && n <= |p|
    ensures Clustered(p[..n])
    ensures forall i, j :: 0 <= i < n <= j < |p| ==> IdBefore(p[j], p[..n][i])
  {
  }

  /**
   * Clustering order is id order, not time order: a partition may list a
   * message first although it was created after the one that follows it.
   */
  lemma NewestByIdNeedNotBeNewestByTime()
    ensures exists p: seq<Message> :: Clustered(p) && |p| == 2 && p[0].createdAt.Some? && p[1].createdAt.Some?
                        && p[0].createdAt.value < p[1].createdAt.value
  {
    var chat := Some(Uuid("c"));
    var older := Message(chat, Some(Uuid("b")), None, None, None, Some(1), Some(1));
    var newer := Message(chat, Some(Uuid("a")), None, None, None, Some(2), Some(2));
    assert TextBefore("a", "b");
    var p := [older, newer];
    assert Clustered(p);
  }
}
