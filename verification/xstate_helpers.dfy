/**
 * The xstate helpers of src/xstate_helpers.ts: `narrowEvent`, which checks
 * an event's type against the expected ones, and `useConfig`, which copies
 * implementations into a machine's five option maps in place.
 */
module XstateHelpers {
  import opened Common

  /** The `types` argument of `narrowEvent`: one type name or a list of them. */
  datatype EventTypes = OneType(name: string) | TypeList(names: seq<string>)

  /** `Array.isArray(types) ? types : [types]`. */
  function Names(types: EventTypes): (r: seq<string>)
    ensures types.OneType? ==> r == [types.name]
    ensures types.TypeList? ==> r == types.names
  {
    match types
    case OneType(name) => [name]
    case TypeList(names) => names
  }

  /** The message of the error `narrowEvent` throws. */
  function NarrowMessage(expected: seq<string>, got: string): string
  {
    "Expected event" + (if |expected| > 1 then "s" else "") + " \"" + JoinWith(expected, ", ") + "\" but got \"" + got + "\"."
  }

  /**
   * `narrowEvent`: the event itself when its type is one of the expected
   * ones, the thrown error otherwise. `typeOf` reads the event's `type`.
   */
  function NarrowEvent<E>(event: E, typeOf: E -> string, types: EventTypes): (r: Result<E, string>)
    ensures r.Ok? <==> typeOf(event) in Names(types)
    ensures r.Ok? ==> r.value == event
    ensures r.Err? ==> r.error == NarrowMessage(Names(types), typeOf(event))
  {
    var expected := Names(types);
    if typeOf(event) !in expected then Err(NarrowMessage(expected, typeOf(event))) else Ok(event)
  }

  /** A single type name is treated exactly like a one-element list. */
  lemma NarrowOneIsList<E>(event: E, typeOf: E -> string, name: string)
    ensures NarrowEvent(event, typeOf, OneType(name)) == NarrowEvent(event, typeOf, TypeList([name]))
    ensures NarrowEvent(event, typeOf, OneType(name)).Ok? <==> typeOf(event) == name
  {
  }

  /** The message says "events" exactly when more than one type was expected, then lists them. */
  lemma NarrowMessageShape(expected: seq<string>, got: string)
    ensures StartsWith(NarrowMessage(expected, got), "Expected event")
    ensures NarrowMessage(expected, got)[14] == 's' <==> |expected| > 1
    ensures EndsWith(NarrowMessage(expected, got), "\" but got \"" + got + "\".")
  {
    var plural := if |expected| > 1 then "s" else "";
    var m := NarrowMessage(expected, got);
    var tail := " \"" + JoinWith(expected, ", ") + "\" but got \"" + got + "\".";
    assert m == "Expected event" + (plural + tail);
    assert m[14] == (plural + tail)[0];
    var suffix := "\" but got \"" + got + "\".";
    assert m == ("Expected event" + plural + " \"" + JoinWith(expected, ", ")) + suffix;
  }

  /** An implementation supplied for an action, guard, activity, service or delay. */
  datatype Implementation = Implementation(tag: nat)

  /**
   * `Object.assign(target, source)`: every key of `source` overwrites, every
   * other key of `target` stays, and an undefined source changes nothing.
   */
  function Assign(target: map<string, Implementation>, source: Option<map<string, Implementation>>): (r: map<string, Implementation>)
    ensures source.None? ==> r == target
    ensures source.Some? ==> r.Keys == target.Keys + source.value.Keys
    ensures source.Some? ==> forall k :: k in source.value ==> r[k] == source.value[k]
    ensures forall k :: k in target && (source.None? || k !in source.value) ==> k in r && r[k] == target[k]
  {
    match source
    case None => target
    case Some(s) => target + s
  }

  /** The option groups a `useConfig` call may supply, each possibly omitted. */
  datatype ConfigOptions = ConfigOptions(
    actions: Option<map<string, Implementation>>,
    guards: Option<map<string, Implementation>>,
    activities: Option<map<string, Implementation>>,
    services: Option<map<string, Implementation>>,
    delays: Option<map<string, Implementation>>)

  /** `service.machine.options`: the five implementation maps `useConfig` updates in place. */
  class MachineOptions {
    var actions: map<string, Implementation>
    var guards: map<string, Implementation>
    var activities: map<string, Implementation>
    var services: map<string, Implementation>
    var delays: map<string, Implementation>

    constructor ()
      ensures actions == map[] && guards == map[] && activities == map[] && services == map[] && delays == map[]
    {
      actions, guards, activities, services, delays := map[], map[], map[], map[], map[];
    }

    /** `useConfig`: each supplied group is assigned onto its map; an omitted group leaves its map alone. */
    method UseConfig(options: ConfigOptions)
      modifies this
      ensures actions == Assign(old(actions), options.actions)
      ensures guards == Assign(old(guards), options.guards)
      ensures activities == Assign(old(activities), options.activities)
      ensures services == Assign(old(services), options.services)
      ensures delays == Assign(old(delays), options.delays)
    {
      actions := Assign(actions, options.actions);
      guards := Assign(guards, options.guards);
      activities := Assign(activities, options.activities);
      services := Assign(services, options.services);
      delays := Assign(delays, options.delays);
    }
  }

  /** Supplying the same group twice is the same as supplying it once. */
  lemma AssignIdempotent(target: map<string, Implementation>, source: Option<map<string, Implementation>>)
    ensures Assign(Assign(target, source), source) == Assign(target, source)
  {
  }

  /** Two successive assignments act as one whose later keys win. */
  lemma AssignTwice(target: map<string, Implementation>, first: map<string, Implementation>, second: map<string, Implementation>)
    ensures Assign(Assign(target, Some(first)), Some(second)) == Assign(target, Some(first + second))
  {
  }
}
