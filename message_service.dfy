/**
 * The message service (MessageServiceImpl.java) over the message table:
 * save a message, find one by id, list a chat, and list a chat's most
 * recent messages.  Each operation turns any repository error or timeout
 * into its own fixed failure; the recent-messages query first checks its
 * limit and, when it is out of range, fails without a repository call.
 */
module MessageServices {
  import opened ChatTypes
  import opened MessageTable

  const MinLimit: int := 1
  const MaxLimit: int := 1000

  /** The guard of getRecentMessages. */
  predicate ValidLimit(limit: int)
  {
    MinLimit <= limit <= MaxLimit
  }

  datatype Direction = Ascending | Descending

  /** Spring's Sort on one property. */
  datatype Sort = Sort(property: string, direction: Direction)

  /** Spring's PageRequest: page index, page size and sort. */
  datatype PageRequest = PageRequest(page: int, size: int, sort: Sort)

  /** The request getRecentMessages builds: the first page of `limit` rows, newest id first. */
  function RecentRequest(limit: int): PageRequest
  {
    PageRequest(0, limit, Sort("messageId", Descending))
  }

  /** The repository calls the service issues, whether or not they succeed. */
  datatype RepoCall =
    | SaveMessage(message: Message)
    | FindMessageById(id: Uuid)
    | FindByChatId(chatId: Uuid)
    | FindByChatIdPaged(chatId: Uuid, request: PageRequest)

  /**
   * sendAMessage as a function of the table: a keyed message the store
   * accepts is upserted and handed back as saved; anything else is the
   * save failure and leaves the table as it was.
   */
  function Send(parts: Partitions, m: Message, reply: Reply): (Partitions, Result<Message>)
  {
    if reply == Answers && Keyed(m) then (Store(parts, m), Ok(m))
    else (parts, Err(SaveMessageFailed))
  }

  /**
   * getRecentMessages as a function of the table.  A descending sort on
   * the clustering column is the table's own order, so the page is the
   * first `limit` rows of the partition as stored.
   */
  function RecentMessages(parts: Partitions, chatId: Uuid, limit: int, reply: Reply): (r: Result<seq<Message>>)
    ensures !ValidLimit(limit) ==> r == Err(InvalidLimit)
    ensures ValidLimit(limit) && reply != Answers ==> r == Err(FetchRecentFailed)
    ensures r.Ok? ==> |r.value| <= limit
  {
    if !ValidLimit(limit) then Err(InvalidLimit)
    else if reply != Answers then Err(FetchRecentFailed)
    else Ok(Page(Partition(parts, chatId), 0, limit))
  }

  /**
   * A valid limit yields the chat's newest messages by id: at most `limit`
   * of them, exactly as many as there are up to `limit`, a prefix of the
   * partition in strictly descending id order, all of that chat, and every
   * message left out has a smaller id than every one returned.
   */
  lemma RecentMessagesAreNewestById(parts: Partitions, chatId: Uuid, limit: int)
    requires WellFormed(parts) && ValidLimit(limit)
    ensures RecentMessages(parts, chatId, limit, Answers).Ok?
    ensures var r := RecentMessages(parts, chatId, limit, Answers).value;
            var p := Partition(parts, chatId);
      && |r| == (if |p| < limit then |p| else limit)
      && r == p[..|r|]
      && Clustered(r)
      && (forall i :: 0 <= i < |r| ==> r[i].chatId == Some(chatId))
      && (forall i, j :: 0 <= i < |r| <= j < |p| ==> IdBefore(p[j], r[i]))
  {
    var p := Partition(parts, chatId);
    var r := RecentMessages(parts, chatId, limit, Answers).value;
    assert r == Page(p, 0, limit);
    PrefixIsNewestById(p, |r|);
  }

  /**
   * The round trip of sending then looking up: a message the store
   * accepted is what a lookup of its id in its chat's partition finds.
   */
  lemma {:induction false} SentMessageIsFound(parts: Partitions, m: Message)
    requires WellFormed(parts) && Keyed(m)
    ensures Send(parts, m, Answers).1 == Ok(m)
    ensures HasRow(Send(parts, m, Answers).0, m.messageId.value)
    ensures FindIn(Partition(Send(parts, m, Answers).0, m.chatId.value), m.messageId.value) == Some(m)
  {
    var after := Store(parts, m);
    StoreKeepsTable(parts, m);
    var found := FindIn(Partition(after, m.chatId.value), m.messageId.value);
    assert found.Some?;
    assert RowId(found.value) == RowId(m);
    assert m.chatId.value in after && m in after[m.chatId.value];
  }

  class MessageService {
    var partitions: Partitions
    ghost var calls: seq<RepoCall>

    ghost predicate Valid()
      reads this
    {
      WellFormed(partitions)
    }

    constructor ()
      ensures Valid() && partitions == map[] && calls == []
    {
      partitions := map[];
      calls := [];
    }

    /** sendAMessage: save the message and return exactly what the store saved. */
    method SendAMessage(m: Message, reply: Reply) returns (r: Result<Message>)
      requires Valid()
      modifies this
      ensures Valid()
      ensures (partitions, r) == Send(old(partitions), m, reply)
      ensures calls == old(calls) + [SaveMessage(m)]
    {
      calls := calls + [SaveMessage(m)];
      if reply == Answers && m.chatId.Some? && m.messageId.Some? {
        StoreKeepsTable(partitions, m);
        partitions := partitions[m.chatId.value := Upsert(Partition(partitions, m.chatId.value), m)];
        r := Ok(m);
      } else {
        r := Err(SaveMessageFailed);
      }
    }

    /** getMessageByID: the repository's row with that id, if any. */
    method GetMessageByID(id: Uuid, reply: Reply) returns (r: Result<Option<Message>>)
      modifies this`calls
      ensures calls == old(calls) + [FindMessageById(id)]
      ensures reply != Answers ==> r == Err(FetchMessageFailed)
      ensures reply == Answers ==> r.Ok? && (r.value.Some? <==> HasRow(partitions, id))
      ensures r.Ok? && r.value.Some? ==>
        r.value.value.messageId == Some(id) && exists c :: c in partitions && r.value.value in partitions[c]
    {
      calls := calls + [FindMessageById(id)];
      if reply != Answers {
        r := Err(FetchMessageFailed);
      } else if c :| c in partitions && FindIn(partitions[c], id).Some? {
        r := Ok(FindIn(partitions[c], id));
      } else {
        r := Ok(None);
      }
    }

    /** getMessageByChatID: every row of the chat's partition, each of that chat. */
    method GetMessageByChatID(chatId: Uuid, reply: Reply) returns (r: Result<seq<Message>>)
      requires Valid()
      modifies this`calls
      ensures calls == old(calls) + [FindByChatId(chatId)]
      ensures r == if reply == Answers then Ok(Partition(partitions, chatId)) else Err(FetchMessagesFailed)
      ensures r.Ok? ==> forall i :: 0 <= i < |r.value| ==> r.value[i].chatId == Some(chatId)
    {
      calls := calls + [FindByChatId(chatId)];
      if reply == Answers {
        r := Ok(Partition(partitions, chatId));
      } else {
        r := Err(FetchMessagesFailed);
      }
    }

    /**
     * getRecentMessages: an out-of-range limit fails at once and issues no
     * repository call; a valid one asks for page 0 of `limit` rows sorted
     * by messageId descending.
     */
    method GetRecentMessages(chatId: Uuid, limit: int, reply: Reply) returns (r: Result<seq<Message>>)
      modifies this`calls
      ensures r == RecentMessages(partitions, chatId, limit, reply)
      ensures !ValidLimit(limit) ==> calls == old(calls)
      ensures ValidLimit(limit) ==>
        calls == old(calls) + [FindByChatIdPaged(chatId, RecentRequest(limit))]
    {
      if !ValidLimit(limit) {
        r := Err(InvalidLimit);
        return;
      }
      calls := calls + [FindByChatIdPaged(chatId, RecentRequest(limit))];
      if reply == Answers {
        r := Ok(Page(Partition(partitions, chatId), 0, limit));
      } else {
        r := Err(FetchRecentFailed);
      }
    }
  }
}
