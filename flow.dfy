/**
 * `Slot`: a connection terminal of a flow node, with an optional peer slot
 * (by id) and an optional bound property path. The `label`, `id` and `type`
 * fields belong to the `FlowObject` superclass; they are modelled as stored
 * verbatim by its constructor and returned unchanged by its getters.
 */
module Flow {

  import opened Wrappers

  /** The two reserved slot types. Nothing in `Slot` enforces them. */
  const TypeSink: string := "urn:openremote:flow:slot:sink"
  const TypeSource: string := "urn:openremote:flow:slot:source"

  /** A snapshot of every modelled field of a slot; `null` is `None`. */
  datatype SlotState = SlotState(
    slotLabel: Option<string>,
    id: Option<string>,
    slotType: Option<string>,
    connectable: bool,
    peerId: Option<string>,
    propertyPath: Option<string>)

  class Slot {
    var slotLabel: Option<string>
    var id: Option<string>
    var slotType: Option<string>
    var connectable: bool
    var peerId: Option<string>
    var propertyPath: Option<string>

    /** Every modelled field of the slot, as one value. */
    function State(): SlotState
      reads this
    {
      SlotState(slotLabel, id, slotType, connectable, peerId, propertyPath)
    }

    /** The slot is linked to a peer. */
    predicate IsConnected()
      reads this
    {
      peerId.Some?
    }

    /** The protected no-argument constructor: only the `connectable = true` initialiser runs. */
    constructor ()
      ensures State() == SlotState(None, None, None, true, None, None)
    {
      slotLabel, id, slotType := None, None, None;
      connectable, peerId, propertyPath := true, None, None;
    }

    /** `Slot(id, type)`: no label, connectable, no peer, no property path. */
    constructor OfIdType(id: Option<string>, slotType: Option<string>)
      ensures State() == SlotState(None, id, slotType, true, None, None)
      ensures !IsConnected()
    {
      this.slotLabel, this.id, this.slotType := None, id, slotType;
      connectable, peerId, propertyPath := true, None, None;
    }

    /** `Slot(label, id, type)`: delegates with `propertyPath = null`. */
    constructor Labelled(slotLabel: Option<string>, id: Option<string>, slotType: Option<string>)
      ensures State() == SlotState(slotLabel, id, slotType, true, None, None)
      ensures !IsConnected()
    {
      this.slotLabel, this.id, this.slotType := slotLabel, id, slotType;
      connectable, peerId, propertyPath := true, None, None;
    }

    /** `Slot(label, id, type, propertyPath)`: connectable, no peer, the given property path. */
    constructor WithPropertyPath(slotLabel: Option<string>, id: Option<string>, slotType: Option<string>,
                                 propertyPath: Option<string>)
      ensures State() == SlotState(slotLabel, id, slotType, true, None, propertyPath)
      ensures !IsConnected()
    {
      this.slotLabel, this.id, this.slotType := slotLabel, id, slotType;
      connectable, peerId, this.propertyPath := true, None, propertyPath;
    }

    /** `Slot(id, type, connectable)`: delegates with `label = null`. */
    constructor OfIdTypeConnectable(id: Option<string>, slotType: Option<string>, connectable: bool)
      ensures State() == SlotState(None, id, slotType, connectable, None, None)
      ensures !IsConnected()
    {
      this.slotLabel, this.id, this.slotType := None, id, slotType;
      this.connectable, peerId, propertyPath := connectable, None, None;
    }

    /** `Slot(label, id, type, connectable)`: the given flag, no peer, no property path. */
    constructor WithConnectable(slotLabel: Option<string>, id: Option<string>, slotType: Option<string>,
                                connectable: bool)
      ensures State() == SlotState(slotLabel, id, slotType, connectable, None, None)
      ensures !IsConnected()
    {
      this.slotLabel, this.id, this.slotType := slotLabel, id, slotType;
      this.connectable, peerId, propertyPath := connectable, None, None;
    }

    /**
     * `Slot(id, peer, label)`: a connectable slot of the peer's type pointing
     * at the peer's id. The peer is only read, so no reciprocal link is made.
     */
    constructor PeerOf(id: Option<string>, peer: Slot, slotLabel: Option<string>)
      ensures State() == SlotState(slotLabel, id, peer.slotType, true, peer.id, None)
      ensures slotType == peer.slotType && peerId == peer.id
      ensures peer.State() == old(peer.State())
    {
      this.slotLabel, this.id, this.slotType := slotLabel, id, peer.slotType;
      connectable, peerId, propertyPath := true, peer.id, None;
    }

    /** `Slot(label, id, type, connectable, peerId, propertyPath)`: the canonical constructor stores every argument. */
    constructor Full(slotLabel: Option<string>, id: Option<string>, slotType: Option<string>,
                     connectable: bool, peerId: Option<string>, propertyPath: Option<string>)
      ensures State() == SlotState(slotLabel, id, slotType, connectable, peerId, propertyPath)
    {
      this.slotLabel, this.id, this.slotType := slotLabel, id, slotType;
      this.connectable, this.peerId, this.propertyPath := connectable, peerId, propertyPath;
    }

    /** Only `connectable` changes. */
    method SetConnectable(connectable: bool)
      modifies this
      ensures State() == old(State()).(connectable := connectable)
    {
      this.connectable := connectable;
    }

    /** Only `peerId` changes; no check against `connectable`, and `None` disconnects. */
    method SetPeerId(peerId: Option<string>)
      modifies this
      ensures State() == old(State()).(peerId := peerId)
      ensures IsConnected() <==> peerId.Some?
    {
      this.peerId := peerId;
    }

    /** Only `propertyPath` changes. */
    method SetPropertyPath(propertyPath: Option<string>)
      modifies this
      ensures State() == old(State()).(propertyPath := propertyPath)
    {
      this.propertyPath := propertyPath;
    }
  }
}
