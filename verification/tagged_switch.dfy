/** `switchLightType` as written: the mode is the string `currentLightType`
    and the switch over it has no default case (src/scene.js:43 and 99-136).
    This module shows that, from start-up, it behaves exactly like the
    closed-enum controller. */
module TaggedSwitch {
  import opened Wrappers
  import opened LightModes
  import opened LightRig
  import opened LightController

  /** The four lights plus the raw string tag. */
  datatype TaggedState = TaggedState(rig: Rig, tag: string)

  /** Start-up as written: all lights off, hemispheric on, tag 'hemispheric'. */
  function TaggedInit(): (t: TaggedState)
    ensures Parse(t.tag) == Some(Hemispheric)
  {
    TaggedState(SetEnabled(DisableAll(Configured()), Hemispheric, true), "hemispheric")
  }

  /** The switch over string tags. A tag that matches no case leaves every
      light disabled and the tag unchanged. */
  function SwitchTagged(t: TaggedState): TaggedState
  {
    var cleared := DisableAll(t.rig);
    if t.tag == "hemispheric" then TaggedState(SetEnabled(cleared, Directional, true), "directional")
    else if t.tag == "directional" then TaggedState(SetEnabled(cleared, Point, true), "point")
    else if t.tag == "point" then TaggedState(SetEnabled(cleared, Spot, true), "spot")
    else if t.tag == "spot" then TaggedState(SetEnabled(cleared, Hemispheric, true), "hemispheric")
    else TaggedState(cleared, t.tag)
  }

  /** The enum state a tagged state stands for, when its tag is one of the
      four case labels. */
  function Abstract(t: TaggedState): (r: Option<State>)
    ensures r.Some? <==> Parse(t.tag).Some?
    ensures r.Some? ==> r.value.rig == t.rig && Name(r.value.current) == t.tag
  {
    match Parse(t.tag)
    case Some(m) => NameParse(t.tag, m); Some(State(t.rig, m))
    case None => None
  }

  /** Start-up as written is start-up of the enum model. */
  lemma TaggedInitRefines()
    ensures Abstract(TaggedInit()) == Some(Init())
  {
  }

  /** On each of the four recognised tags, the string switch does what the
      enum switch does: it enables the successor light and stores the
      successor's name. */
  lemma SwitchTaggedRefines(t: TaggedState)
    requires Abstract(t).Some?
    ensures Abstract(SwitchTagged(t)) == Some(Switch(Abstract(t).value))
  {
    match Abstract(t).value.current
    case Hemispheric =>
    case Directional =>
    case Point =>
    case Spot =>
  }

  /** The missing default: any other tag turns every light off and keeps the
      tag, so the single-light invariant would be lost. */
  lemma UnknownTagDarkens(t: TaggedState)
    requires Parse(t.tag).None?
    ensures SwitchTagged(t).tag == t.tag
    ensures forall k :: !Get(SwitchTagged(t).rig, k).enabled
    ensures EnabledCount(SwitchTagged(t).rig) == 0
  {
  }

  /** The keydown listener over the tagged state. */
  function OnKeyTagged(t: TaggedState, key: string): TaggedState
  {
    if IsSwitchKey(key) then SwitchTagged(t) else t
  }

  function RunTagged(t: TaggedState, keys: seq<string>): TaggedState
    decreases |keys|
  {
    if |keys| == 0 then t else RunTagged(OnKeyTagged(t, keys[0]), keys[1..])
  }

  /** Along any session of key events, a tagged state with a recognised tag
      keeps a recognised tag and tracks the enum model step for step. */
  lemma {:induction false} RunTaggedRefines(t: TaggedState, keys: seq<string>)
    requires Abstract(t).Some?
    ensures Abstract(RunTagged(t, keys)) == Some(Run(Abstract(t).value, keys))
    decreases |keys|
  {
    if |keys| > 0 {
      if IsSwitchKey(keys[0]) {
        SwitchTaggedRefines(t);
      }
      RunTaggedRefines(OnKeyTagged(t, keys[0]), keys[1..]);
    }
  }

  /** From start-up the tag is always one of the four case labels, so the
      missing default is never reached, and exactly the light the tag names
      is enabled. */
  lemma TaggedReachableWellFormed(keys: seq<string>)
    ensures Parse(RunTagged(TaggedInit(), keys).tag).Some?
    ensures OnlyEnabled(RunTagged(TaggedInit(), keys).rig,
                        Parse(RunTagged(TaggedInit(), keys).tag).value)
  {
    TaggedInitRefines();
    RunTaggedRefines(TaggedInit(), keys);
    RunKeepsInvariant(Init(), keys);
    var t := RunTagged(TaggedInit(), keys);
    NameParse(t.tag, Run(Init(), keys).current);
  }
}
