/** The wire form of an outbox event: what the publisher writes and what the consumer reads back. */
module StreamMessage {
  import opened Base
  import Tables
  import Publisher

  /** A field value as the Redis client may deliver it; `Other` is printed with the default format. */
  datatype Value = Str(text: string) | Bytes(text: string) | Other(text: string)

  datatype Message = Message(id: string, values: map<string, Value>)

  datatype StreamEvent = StreamEvent(
    messageId: string, eventId: string, aggregateType: string, aggregateId: string, eventType: string,
    payload: string, createdAt: int)

  datatype ParseError = Missing(field: string) | InvalidPayload | InvalidTime

  /** JSON and RFC 3339 as functions; nothing is known about them but what `Faithful` says. */
  datatype Codec = Codec(
    valid: string -> bool,
    encode: Tables.Payload -> string, decode: string -> Option<Tables.Payload>,
    formatTime: int -> string, parseTime: string -> Option<int>)

  /** Encoding and decoding are inverse, encodings are valid and not empty. */
  ghost predicate Faithful(c: Codec) {
    && (forall p: Tables.Payload :: c.encode(p) != "" && c.valid(c.encode(p)) && c.decode(c.encode(p)) == Some(p))
    && (forall t: int :: c.formatTime(t) != "" && c.parseTime(c.formatTime(t)) == Some(t))
  }

  function RequiredString(values: map<string, Value>, key: string): Result<string, ParseError> {
    if key in values && values[key].text != "" then Ok(values[key].text) else Err(Missing(key))
  }

  function Parse(c: Codec, m: Message): Result<StreamEvent, ParseError> {
    match RequiredString(m.values, "event_id")
    case Err(e) => Err(e)
    case Ok(eventId) =>
      match RequiredString(m.values, "aggregate_type")
      case Err(e) => Err(e)
      case Ok(aggregateType) =>
        match RequiredString(m.values, "aggregate_id")
        case Err(e) => Err(e)
        case Ok(aggregateId) =>
          match RequiredString(m.values, "event_type")
          case Err(e) => Err(e)
          case Ok(eventType) =>
            match RequiredString(m.values, "payload")
            case Err(e) => Err(e)
            case Ok(payload) =>
              if !c.valid(payload) then Err(InvalidPayload)
              else
                match RequiredString(m.values, "created_at")
                case Err(e) => Err(e)
                case Ok(createdAt) =>
                  match c.parseTime(createdAt)
                  case None => Err(InvalidTime)
                  case Some(t) => Ok(StreamEvent(m.id, eventId, aggregateType, aggregateId, eventType, payload, t))
  }

  const REQUIRED: set<string> := {"event_id", "aggregate_type", "aggregate_id", "event_type", "payload", "created_at"}

  /** A message parses exactly when its six fields are there, its payload is valid and its time reads. */
  lemma ParsesExactly(c: Codec, m: Message)
    ensures Parse(c, m).Ok? <==>
              && (forall f :: f in REQUIRED ==> f in m.values && m.values[f].text != "")
              && c.valid(m.values["payload"].text)
              && c.parseTime(m.values["created_at"].text).Some?
  {
    var v := m.values;
    assert (forall f :: f in REQUIRED ==> RequiredString(v, f).Ok?) <==>
             && RequiredString(v, "event_id").Ok? && RequiredString(v, "aggregate_type").Ok?
             && RequiredString(v, "aggregate_id").Ok? && RequiredString(v, "event_type").Ok?
             && RequiredString(v, "payload").Ok? && RequiredString(v, "created_at").Ok?;
    assert forall f :: f in REQUIRED ==> (RequiredString(v, f).Ok? <==> f in v && v[f].text != "");
  }

  datatype PublishError = PayloadNotJson

  /** The fields XADD gets; an empty payload becomes JSON null. */
  function PublishFields(c: Codec, id: string, aggregateType: string, aggregateId: string, eventType: string,
                         payload: string, createdAt: int): Result<map<string, Value>, PublishError> {
    var text := if payload == "" then "null" else payload;
    if !c.valid(text) then Err(PayloadNotJson)
    else
      Ok(map["event_id" := Str(id), "aggregate_type" := Str(aggregateType), "aggregate_id" := Str(aggregateId),
             "event_type" := Str(eventType), "payload" := Str(text), "created_at" := Str(c.formatTime(createdAt))])
  }

  /** Whatever was published under non-empty names is parsed back to exactly what was published. */
  lemma PublishThenParse(c: Codec, messageId: string, id: string, aggregateType: string, aggregateId: string,
                         eventType: string, payload: string, createdAt: int)
    requires Faithful(c)
    requires PublishFields(c, id, aggregateType, aggregateId, eventType, payload, createdAt).Ok?
    requires id != "" && aggregateType != "" && aggregateId != "" && eventType != ""
    ensures Parse(c, Message(messageId, PublishFields(c, id, aggregateType, aggregateId, eventType, payload,
        createdAt).value))
            == Ok(StreamEvent(messageId, id, aggregateType, aggregateId, eventType, if payload == "" then "null"
                else payload, createdAt))
  {
    var fields := PublishFields(c, id, aggregateType, aggregateId, eventType, payload, createdAt).value;
    assert RequiredString(fields, "event_id") == Ok(id);
    assert RequiredString(fields, "aggregate_type") == Ok(aggregateType);
    assert RequiredString(fields, "aggregate_id") == Ok(aggregateId);
    assert RequiredString(fields, "event_type") == Ok(eventType);
    assert RequiredString(fields, "payload") == Ok(if payload == "" then "null" else payload);
    assert RequiredString(fields, "created_at") == Ok(c.formatTime(createdAt));
  }

  /** The message a stream entry is, on the wire. */
  function Wire(c: Codec, messageId: string, e: Publisher.Entry): Result<Message, PublishError> {
    match PublishFields(c, e.id, e.event.aggregateType, e.event.aggregateId, e.event.eventType,
        c.encode(e.event.payload), e.createdAt)
    case Err(x) => Err(x)
    case Ok(fields) => Ok(Message(messageId, fields))
  }

  lemma EntryParsesBack(c: Codec, messageId: string, e: Publisher.Entry)
    requires Faithful(c) && e.id != "" && e.event.aggregateType != "" && e.event.aggregateId != ""
        && e.event.eventType != ""
    ensures Wire(c, messageId, e).Ok?
    ensures var r := Parse(c, Wire(c, messageId, e).value);
            && r == Ok(StreamEvent(messageId, e.id, e.event.aggregateType, e.event.aggregateId, e.event.eventType,
                                   c.encode(e.event.payload), e.createdAt))
            && c.decode(r.value.payload) == Some(e.event.payload)
  {
    PublishThenParse(c, messageId, e.id, e.event.aggregateType, e.event.aggregateId, e.event.eventType,
                     c.encode(e.event.payload), e.createdAt);
  }
}
