/** The event envelope passed along a handler chain: a name fixed at
    construction and a payload every handler may replace. */
module Events {
  import opened JsValue

  /** What running one handler leaves behind: the event's payload after it
      ran, and whether it threw (or its promise rejected). */
  datatype Step = Step(data: Value, threw: bool)

  /** The name `new Event(config)` takes: `config.name`, or `'event'` when
      that is falsy. */
  function EventName(config: map<string, Value>): (name: Value)
    ensures Truthy(name)
    ensures Truthy(Prop(Obj(config), "name")) ==> name == config["name"]
    ensures !Truthy(Prop(Obj(config), "name")) ==> name == Str("event")
  {
    var n := Prop(Obj(config), "name");
    if Truthy(n) then n else Str("event")
  }

  class Event {
    /** There is a getter and no setter for the name, so it is a constant. */
    const name: Value
    var data: Value

    /** `new Event(config)`, the config object given by its own properties. */
    constructor(config: map<string, Value>)
      ensures name == EventName(config)
      ensures data == Prop(Obj(config), "data")
    {
      name := EventName(config);
      data := Prop(Obj(config), "data");
    }

    /** The `data` setter. */
    method SetData(d: Value)
      modifies this
      ensures data == d
    {
      data := d;
    }
  }
}
