/** The values that wait in a destination's queue: PDUs, and ephemeral units with
    the bookkeeping that falls due once they are delivered. */
module Units {

  datatype Option<+T> = None | Some(value: T)

  function Max(a: int, b: int): int {
    if a < b then b else a
  }

  /** A raw JSON value. Encoding one that is not valid JSON fails. */
  datatype Json = Json(text: string, valid: bool)

  datatype Kind =
    | DirectToDevice
    | DeviceListUpdate
    | SigningKeyUpdate
    | UnstableSigningKeyUpdate
    | Presence
    | Receipt
    | Typing
    | OtherKind(name: string)

  /** Kinds that stand for rows of a table and are never merged or replaced. */
  predicate Durable(k: Kind) {
    k.DirectToDevice? || k.DeviceListUpdate? || k.SigningKeyUpdate? || k.UnstableSigningKeyUpdate?
  }

  datatype Content =
    | Raw(json: Json)
    | ReceiptBody(rooms: map<string, map<string, map<string, Json>>>)
    | PresenceBody(push: map<string, Json>)

  /** What goes on the wire. */
  datatype Unit = Unit(kind: Kind, content: Content)

  /** An event waiting to go; room is the room_id inside its JSON. */
  datatype PDU = PDU(eventID: string, ordering: int, room: string, json: string)

  datatype ReceiptEntry = ReceiptEntry(thread: string, content: Json)

  /** room -> receipt type -> user -> entry. */
  type ReceiptMap = map<string, map<string, map<string, ReceiptEntry>>>

  /** An ephemeral unit waiting to go. A mark of zero means it carries none. */
  datatype EDU = EDU(
    unit: Unit,
    toDeviceUpTo: int,
    deviceListUpTo: int,
    key: string,
    receipts: Option<ReceiptMap>,
    presence: Option<map<string, Json>>)

  predicate Plain(e: EDU) {
    e.receipts.None? && e.presence.None?
  }

  predicate Unmarked(e: EDU) {
    e.toDeviceUpTo == 0 && e.deviceListUpTo == 0
  }

  /** Whether encoding the unit for a transaction succeeds. */
  predicate Encodable(e: EDU) {
    if e.presence.Some? then
      forall u <- e.presence.value :: e.presence.value[u].valid
    else if e.receipts.None? then
      true
    else
      forall room <- e.receipts.value ::
        forall rtype <- e.receipts.value[room] ::
          forall u <- e.receipts.value[room][rtype] ::
            e.receipts.value[room][rtype][u].content.valid
  }

  /** The wire form of a waiting unit. A merged receipt unit loses its thread ids. */
  function Materialise(e: EDU): Unit {
    if e.presence.Some? then
      Unit(Presence, PresenceBody(e.presence.value))
    else if e.receipts.None? then
      e.unit
    else
      Unit(Receipt, ReceiptBody(
             map room | room in e.receipts.value ::
               map rtype | rtype in e.receipts.value[room] ::
                 map u | u in e.receipts.value[room][rtype] ::
                   e.receipts.value[room][rtype][u].content))
  }
}
