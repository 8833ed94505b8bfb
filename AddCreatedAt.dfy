/** The bundled `addCreatedAt` handler: stamps a payload that carries a
    `context` with the time it is given. */
module CreatedAt {
  import opened JsValue
  import opened Events

  /** A payload `addCreatedAt` stamps: an object whose `context` is not undefined. */
  predicate HasContext(data: Value) {
    data.Obj? && Prop(data, "context") != Undefined
  }

  /** What `addCreatedAt` does to a payload, given the current time `now`. */
  function Stamp(data: Value, now: Value): Step {
    if data.Null? then Step(data, true)
    else if HasContext(data) then Step(Obj(data.props["createdAt" := now]), false)
    else Step(data, false)
  }

  /** Reading `context` of a `null` payload throws; a payload that is not
      an object with a `context` is left alone; otherwise `createdAt` is
      added or overwritten and every other property is kept. */
  lemma StampSpec(data: Value, now: Value)
    ensures var r := Stamp(data, now);
      && (r.threw <==> data.Null?)
      && (!HasContext(data) ==> r.data == data)
      && (HasContext(data) ==>
            && r.data.Obj?
            && r.data.props.Keys == data.props.Keys + {"createdAt"}
            && r.data.props["createdAt"] == now
            && (forall k :: k in data.props && k != "createdAt" ==> r.data.props[k] == data.props[k]))
  {
  }

  /** `addCreatedAt(event)` with `now` standing for the clock. The event is
      an object by its type, so the assertion on it always passes; reading
      `context` of a `null` payload throws, reported as `threw`. */
  method AddCreatedAt(event: Event, now: Value) returns (threw: bool)
    modifies event
    ensures Step(event.data, threw) == Stamp(old(event.data), now)
  {
    threw := false;
    var config := event.data;
    if config != Undefined {
      if config.Null? {
        threw := true;
        return;
      }
      if Prop(config, "context") != Undefined {
        config := Obj(config.props["createdAt" := now]);
        event.SetData(config);
      }
    }
  }
}
