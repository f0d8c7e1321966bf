/** The per-message tag store the routers write diagnostic attributes into. */
module CtxTags {
  import opened Optional

  /** The three keys every router revision writes. */
  const EventDataTypeKey := "evt.data.type"
  const InnerEventTypeKey := "evt.data.inner_event.type"
  const InnerEventDataKey := "evt.data.inner_event.data"

  /** A tag value: a type name, a nil payload, or the fields logged for a payload. */
  datatype TagValue =
    | TypeName(name: string)
    | NilData
    | MentionFields(user: string, channel: string, text: string)
    | ReactionFields(user: string, reaction: string, itemUser: string)

  /**
   * The store after a router's writes: the outer and the inner type name,
   * then, when the router writes one, the payload's data tag.
   */
  function Written(before: map<string, TagValue>, outerType: string, innerType: string, data: Option<TagValue>): (after: map<string, TagValue>)
    ensures EventDataTypeKey in after && after[EventDataTypeKey] == TypeName(outerType)
    ensures InnerEventTypeKey in after && after[InnerEventTypeKey] == TypeName(innerType)
    ensures data.Some? ==> InnerEventDataKey in after && after[InnerEventDataKey] == data.value
    ensures data.None? ==> (InnerEventDataKey in after <==> InnerEventDataKey in before)
    ensures data.None? && InnerEventDataKey in before ==> after[InnerEventDataKey] == before[InnerEventDataKey]
    ensures forall k :: k in before && k != EventDataTypeKey && k != InnerEventTypeKey && k != InnerEventDataKey
                        ==> k in after && after[k] == before[k]
    ensures forall k :: k in after ==> k in before || k == EventDataTypeKey || k == InnerEventTypeKey || k == InnerEventDataKey
  {
    var typed := before[EventDataTypeKey := TypeName(outerType)][InnerEventTypeKey := TypeName(innerType)];
    if data.Some? then typed[InnerEventDataKey := data.value] else typed
  }

  /** The tag store extracted from the request context; `Set` overwrites a key. */
  class Tags {
    var values: map<string, TagValue>

    constructor ()
      ensures values == map[]
    {
      values := map[];
    }

    method Set(key: string, value: TagValue)
      modifies this
      ensures values == old(values)[key := value]
    {
      values := values[key := value];
    }
  }
}
