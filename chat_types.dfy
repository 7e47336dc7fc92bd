/**
 * Values shared by the group and message sides of the chat service: the
 * outcome of a reactive pipeline, identifiers, instants, how a call to a
 * backing store ends, the exceptions the services raise, and Spring's
 * page arithmetic.
 */
module ChatTypes {

  datatype Option<+T> = None | Some(value: T)

  /** What a Mono or Flux completes with: a value, or the exception it fails with. */
  datatype Result<+T> = Ok(value: T) | Err(error: Failure)

  /** A java.util.UUID, represented by its canonical text (what String.valueOf gives). */
  datatype Uuid = Uuid(text: string)

  /** A java.time.Instant, as nanoseconds since the epoch. */
  type Instant = int

  /** How one call to a backing store ends. */
  datatype Reply =
    | Answers   // the store replies normally
    | Fails     // the store signals an error
    | Stalls    // no reply before the enclosing `.timeout(...)` fires

  /**
   * The exceptions the services emit, one per fixed message in the source.
   * The create timeout is a ServiceExceptions, the page and limit
   * rejections are IllegalArgumentExceptions, and the rest are
   * RuntimeExceptions.
   */
  datatype Failure =
    | StoreError            // the repository's own exception, passed on unwrapped
    | CreateTimeout         // ServiceExceptions "Timeout while creating group"
    | GroupLookupFailed(id: Uuid)
    | GroupListFailed
    | GroupUpdateFailed
    | InvalidPageIndex      // PageRequest.of rejects a negative page index
    | InvalidPageSize       // PageRequest.of rejects a page size below one
    | SaveMessageFailed
    | FetchMessageFailed
    | FetchMessagesFailed
    | FetchRecentFailed
    | InvalidLimit

  /**
   * The fixed message attached to each failure; a store error keeps the
   * store's own message, which the model does not know.
   */
  function MessageOf(f: Failure): Option<string>
  {
    match f
    case StoreError => None
    case CreateTimeout => Some("Timeout while creating group")
    case GroupLookupFailed(id) => Some("Failed to find group by id: " + id.text)
    case GroupListFailed => Some("Failed to fetch all groups")
    case GroupUpdateFailed => Some("Failed to update group, ")
    case InvalidPageIndex => Some("Page index must not be less than zero")
    case InvalidPageSize => Some("Page size must not be less than one")
    case SaveMessageFailed => Some("Error saving message")
    case FetchMessageFailed => Some("Error fetching message")
    case FetchMessagesFailed => Some("Error fetching messages")
    case FetchRecentFailed => Some("Error fetching recent messages")
    case InvalidLimit => Some("Limit 1 .. 1000")
  }

  /**
   * A caller can tell the failures apart by message alone: two failures
   * with the same message are the same failure (for a lookup, of the same
   * id).
   */
  lemma {:induction false} MessagesIdentifyFailures(a: Failure, b: Failure)
    ensures MessageOf(a) == MessageOf(b) <==> a == b
  {
    var lookup := "Failed to find group by id: ";
    if a.GroupLookupFailed? && b.GroupLookupFailed? && MessageOf(a) == MessageOf(b) {
      assert (lookup + a.id.text)[|lookup|..] == a.id.text;
      assert (lookup + b.id.text)[|lookup|..] == b.id.text;
    } else if a.GroupLookupFailed? != b.GroupLookupFailed? {
      var l, o := if a.GroupLookupFailed? then a else b, if a.GroupLookupFailed? then b else a;
      assert MessageOf(l).value[0] == 'F' && MessageOf(l).value[11] == 'i';
      assert MessageOf(o).None? || MessageOf(o).value[0] != 'F' || MessageOf(o).value[11] != 'i' by {
        match o
        case GroupListFailed => assert "Failed to fetch all groups"[11] == 'e';
        case GroupUpdateFailed => assert "Failed to update group, "[11] == 'p';
        case _ =>
      }
    }
  }

  /**
   * The rows a PageRequest.of(page, size) selects from an ordered result:
   * it skips page * size rows and keeps at most size of the rest.
   */
  function Page<T>(rows: seq<T>, page: nat, size: nat): (r: seq<T>)
    ensures |r| <= size
    ensures page * size <= |rows| ==> |r| == (if |rows| - page * size < size then |rows| - page * size else size)
    ensures page * size <= |rows| ==> r == rows[page * size .. page * size + |r|]
    ensures page * size >= |rows| ==> r == []
  {
    var start := page * size;
    if start >= |rows| then []
    else if start + size <= |rows| then rows[start .. start + size]
    else rows[start..]
  }
}
