/**
 * The chat WebSocket endpoint (ChatWebSocketHandler.java).  Every text
 * frame a session receives is parsed into a message, completed with a
 * fresh id and timestamps where the client left them out, saved through
 * the message service and, once saved, published as JSON on the sink that
 * every session's output subscribes to.  A frame that does not parse, or
 * whose save fails, is dropped without ending the session.
 *
 * The JSON mapper is a parameter (a decoder and an encoder that may each
 * fail); so are the random id and the clock readings of each frame, and
 * the store's reply to its save.
 */
module ChatSocket {
  import opened ChatTypes
  import opened MessageTable
  import opened MessageServices

  /** The JSON mapper: reading a frame and writing a message, each of which may throw. */
  datatype Codec = Codec(decode: string -> Option<Message>, encode: Message -> Option<string>)

  /**
   * One received frame together with what the environment supplies while
   * it is handled: the random id, the two clock readings, and the store's
   * reply to the save.
   */
  datatype Arrival = Arrival(text: string, freshId: Uuid, firstRead: Instant, secondRead: Instant, reply: Reply)

  /**
   * parseAndPrepareMessage on the decoder's outcome: an unparsable frame
   * yields nothing; otherwise a missing id becomes the fresh random id, a
   * missing creation time the first clock reading and a missing update
   * time the second, while every value the client sent is kept.
   */
  function Prepared(decoded: Option<Message>, freshId: Uuid, firstRead: Instant, secondRead: Instant): (r: Option<Message>)
    ensures r.None? <==> decoded.None?
    ensures r.Some? ==>
      && r.value.messageId.Some? && r.value.createdAt.Some? && r.value.updatedAt.Some?
      && (decoded.value.messageId.Some? ==> r.value.messageId == decoded.value.messageId)
      && (decoded.value.messageId.None? ==> r.value.messageId == Some(freshId))
      && (decoded.value.createdAt.Some? ==> r.value.createdAt == decoded.value.createdAt)
      && (decoded.value.createdAt.None? ==> r.value.createdAt == Some(firstRead))
      && (decoded.value.updatedAt.Some? ==> r.value.updatedAt == decoded.value.updatedAt)
      && (decoded.value.updatedAt.None? ==> r.value.updatedAt == Some(secondRead))
      && r.value.chatId == decoded.value.chatId
      && r.value.senderId == decoded.value.senderId
      && r.value.content == decoded.value.content
      && r.value.status == decoded.value.status
  {
    match decoded
    case None => None
    case Some(m) =>
      var withId := if m.messageId.None? then m.(messageId := Some(freshId)) else m;
      var withCreated := if withId.createdAt.None? then withId.(createdAt := Some(firstRead)) else withId;
      var withUpdated := if withCreated.updatedAt.None? then withCreated.(updatedAt := Some(secondRead)) else withCreated;
      Some(withUpdated)
  }

  /** Preparing a prepared message again changes nothing, whatever the new id and clock. */
  lemma PreparedIsIdempotent(decoded: Option<Message>, freshId: Uuid, firstRead: Instant, secondRead: Instant,
                             otherId: Uuid, otherFirst: Instant, otherSecond: Instant)
    ensures Prepared(Prepared(decoded, freshId, firstRead, secondRead), otherId, otherFirst, otherSecond)
         == Prepared(decoded, freshId, firstRead, secondRead)
  {
  }

  /** The encoder writes m as a text the decoder reads back as m. */
  predicate EncodesFaithfully(codec: Codec, m: Message)
  {
    codec.encode(m).Some? ==> codec.decode(codec.encode(m).value) == Some(m)
  }

  /**
   * toJson: the encoder's text, or the placeholder "{}" when the encoder
   * throws.  With an encoder the decoder inverts, what subscribers receive
   * reads back as the message, unless it is the placeholder.
   */
  function ToJson(codec: Codec, m: Message): (text: string)
    ensures text == "{}" || codec.encode(m) == Some(text)
    ensures codec.encode(m).None? ==> text == "{}"
    ensures EncodesFaithfully(codec, m) ==> text == "{}" || codec.decode(text) == Some(m)
  {
    match codec.encode(m)
    case Some(text) => text
    case None => "{}"
  }

  /**
   * The step the input pipeline takes for one frame: parse and prepare,
   * save, and publish the saved message's JSON.  The result is the table
   * afterwards and what was published, if anything: a published frame is
   * exactly one save of its prepared message, and any other frame leaves
   * the table as it was.
   */
  function FrameStep(codec: Codec, parts: Partitions, a: Arrival): (r: (Partitions, Option<string>))
    ensures r.1.Some? <==> codec.decode(a.text).Some? && codec.decode(a.text).value.chatId.Some? && a.reply == Answers
    ensures r.1.Some? ==>
      var m := Prepared(codec.decode(a.text), a.freshId, a.firstRead, a.secondRead).value;
      Keyed(m) && r.0 == Store(parts, m) && r.1.value == ToJson(codec, m)
    ensures r.1.None? ==> r.0 == parts
  {
    match Prepared(codec.decode(a.text), a.freshId, a.firstRead, a.secondRead)
    case None => (parts, None)
    case Some(m) =>
      var (after, saved) := Send(parts, m, a.reply);
      if saved.Ok? then (after, Some(ToJson(codec, saved.value)))
      else (parts, None)
  }

  /** One frame keeps the message table well formed. */
  lemma FrameStepKeepsTableWellFormed(codec: Codec, parts: Partitions, a: Arrival)
    requires WellFormed(parts)
    ensures WellFormed(FrameStep(codec, parts, a).0)
  {
    var p := Prepared(codec.decode(a.text), a.freshId, a.firstRead, a.secondRead);
    if FrameStep(codec, parts, a).1.Some? {
      StoreKeepsTable(parts, p.value);
    }
  }

  /**
   * What is published for a frame is the JSON of that frame's prepared
   * message, which the table then holds in its chat's partition.
   */
  lemma FrameStepStoresWhatItPublishes(codec: Codec, parts: Partitions, a: Arrival)
    requires WellFormed(parts)
    ensures FrameStep(codec, parts, a).1.Some? ==>
      var m := Prepared(codec.decode(a.text), a.freshId, a.firstRead, a.secondRead).value;
      && m.chatId.Some?
      && m in Partition(FrameStep(codec, parts, a).0, m.chatId.value)
      && FrameStep(codec, parts, a).1.value == ToJson(codec, m)
  {
    if FrameStep(codec, parts, a).1.Some? {
      StoreKeepsTable(parts, Prepared(codec.decode(a.text), a.freshId, a.firstRead, a.secondRead).value);
    }
  }

  /** The frames of one session, handled in arrival order. */
  function Pump(codec: Codec, parts: Partitions, arrivals: seq<Arrival>): (Partitions, seq<string>)
    decreases |arrivals|
  {
    if arrivals == [] then (parts, [])
    else
      var (next, out) := FrameStep(codec, parts, arrivals[0]);
      var (last, outs) := Pump(codec, next, arrivals[1..]);
      (last, (if out.Some? then [out.value] else []) + outs)
  }

  /**
   * The frames that reach subscribers, defined without the table: those
   * that parse, name a chat and are accepted by the store, in arrival order.
   */
  function Announcements(codec: Codec, arrivals: seq<Arrival>): seq<string>
    decreases |arrivals|
  {
    if arrivals == [] then []
    else
      var a := arrivals[0];
      var d := codec.decode(a.text);
      (if d.Some? && d.value.chatId.Some? && a.reply == Answers
       then [ToJson(codec, Prepared(d, a.freshId, a.firstRead, a.secondRead).value)]
       else [])
      + Announcements(codec, arrivals[1..])
  }

  /** A session publishes exactly its announcements, whatever the table held. */
  lemma {:induction false} PumpPublishesAnnouncements(codec: Codec, parts: Partitions, arrivals: seq<Arrival>)
    ensures Pump(codec, parts, arrivals).1 == Announcements(codec, arrivals)
    decreases |arrivals|
  {
    if arrivals != [] {
      PumpPublishesAnnouncements(codec, FrameStep(codec, parts, arrivals[0]).0, arrivals[1..]);
    }
  }

  /** Handling a session's frames keeps the message table well formed. */
  lemma {:induction false} PumpKeepsTableWellFormed(codec: Codec, parts: Partitions, arrivals: seq<Arrival>)
    requires WellFormed(parts)
    ensures WellFormed(Pump(codec, parts, arrivals).0)
    decreases |arrivals|
  {
    if arrivals != [] {
      FrameStepKeepsTableWellFormed(codec, parts, arrivals[0]);
      PumpKeepsTableWellFormed(codec, FrameStep(codec, parts, arrivals[0]).0, arrivals[1..]);
    }
  }

  /**
   * A frame the mapper cannot read is invisible: the session goes on as if
   * it had never been sent, with the same table and the same output.
   */
  lemma {:induction false} MalformedFrameIsInvisible(codec: Codec, parts: Partitions, before: seq<Arrival>, bad: Arrival, after: seq<Arrival>)
    requires codec.decode(bad.text).None?
    ensures Pump(codec, parts, before + [bad] + after) == Pump(codec, parts, before + after)
    decreases |before|
  {
    if before == [] {
      assert before + [bad] + after == [bad] + after;
      assert ([bad] + after)[1..] == after;
      assert FrameStep(codec, parts, bad) == (parts, None);
      var rest := Pump(codec, parts, after);
      assert [] + rest.1 == rest.1;
      assert Pump(codec, parts, [bad] + after) == (rest.0, [] + rest.1);
      assert before + after == after;
    } else {
      var next := FrameStep(codec, parts, before[0]).0;
      MalformedFrameIsInvisible(codec, next, before[1..], bad, after);
      assert (before + [bad] + after)[1..] == before[1..] + [bad] + after;
      assert (before + after)[1..] == before[1..] + after;
    }
  }

  /** One handler instance: the shared sink's output so far and the service it saves through. */
  class ChatWebSocketHandler {
    const codec: Codec
    const service: MessageService
    var published: seq<string>

    ghost predicate Valid()
      reads this, service
    {
      service.Valid()
    }

    constructor (codec: Codec, service: MessageService)
      requires service.Valid()
      ensures Valid() && this.codec == codec && this.service == service && published == []
    {
      this.codec := codec;
      this.service := service;
      published := [];
    }

    /** parseAndPrepareMessage: decode, then set each missing field in turn. */
    method ParseAndPrepareMessage(text: string, freshId: Uuid, firstRead: Instant, secondRead: Instant)
      returns (r: Option<Message>)
      ensures r == Prepared(codec.decode(text), freshId, firstRead, secondRead)
    {
      var decoded := codec.decode(text);
      if decoded.None? {
        return None;
      }
      var msg := decoded.value;
      if msg.messageId.None? {
        msg := msg.(messageId := Some(freshId));
      }
      if msg.createdAt.None? {
        msg := msg.(createdAt := Some(firstRead));
      }
      if msg.updatedAt.None? {
        msg := msg.(updatedAt := Some(secondRead));
      }
      r := Some(msg);
    }

    /** The input pipeline's work for one frame. */
    method HandleFrame(a: Arrival)
      requires Valid()
      modifies this, service
      ensures Valid()
      ensures service.partitions == FrameStep(codec, old(service.partitions), a).0
      ensures var out := FrameStep(codec, old(service.partitions), a).1;
        published == old(published) + (if out.Some? then [out.value] else [])
    {
      var msg := ParseAndPrepareMessage(a.text, a.freshId, a.firstRead, a.secondRead);
      if msg.Some? {
        var saved := service.SendAMessage(msg.value, a.reply);
        if saved.Ok? {
          published := published + [ToJson(codec, saved.value)];
        }
      }
    }

    /** handle: the frames of one session, one after another. */
    method Handle(arrivals: seq<Arrival>)
      requires Valid()
      modifies this, service
      ensures Valid()
      ensures service.partitions == Pump(codec, old(service.partitions), arrivals).0
      ensures published == old(published) + Pump(codec, old(service.partitions), arrivals).1
    {
      var i := 0;
      while i < |arrivals|
        invariant 0 <= i <= |arrivals|
        invariant Valid()
        invariant Pump(codec, service.partitions, arrivals[i..]).0 == Pump(codec, old(service.partitions), arrivals).0
        invariant published + Pump(codec, service.partitions, arrivals[i..]).1
               == old(published) + Pump(codec, old(service.partitions), arrivals).1
      {
        assert arrivals[i..][1..] == arrivals[i + 1..];
        ghost var out := FrameStep(codec, service.partitions, arrivals[i]).1;
        ghost var rest := Pump(codec, FrameStep(codec, service.partitions, arrivals[i]).0, arrivals[i + 1..]).1;
        HandleFrame(arrivals[i]);
        assert published + rest == old(published) + Pump(codec, old(service.partitions), arrivals).1;
        i := i + 1;
      }
    }
  }
}
