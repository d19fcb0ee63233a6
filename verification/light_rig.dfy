/** The four lights the scene creates and the flag operations the light
    switch performs on them (src/scene.js:25-42 and 100-104). */
module LightRig {
  import opened LightModes

  /** One light: the intensity it is configured with and whether it is
      enabled. Its position, direction and cone are not modelled. */
  datatype Light = Light(intensity: real, enabled: bool)

  /** One light of each kind, as held by the closure of `createScene`. */
  datatype Rig = Rig(hemispheric: Light, directional: Light, point: Light, spot: Light)

  /** The light of the given kind. */
  function Get(rig: Rig, m: LightMode): Light
  {
    match m
    case Hemispheric => rig.hemispheric
    case Directional => rig.directional
    case Point => rig.point
    case Spot => rig.spot
  }

  /** `setEnabled(on)` on the light of kind `m`: that flag takes the new
      value and nothing else in the rig changes. */
  function SetEnabled(rig: Rig, m: LightMode, on: bool): (r: Rig)
    ensures Get(r, m) == Light(Get(rig, m).intensity, on)
    ensures forall k :: k != m ==> Get(r, k) == Get(rig, k)
  {
    match m
    case Hemispheric => rig.(hemispheric := rig.hemispheric.(enabled := on))
    case Directional => rig.(directional := rig.directional.(enabled := on))
    case Point => rig.(point := rig.point.(enabled := on))
    case Spot => rig.(spot := rig.spot.(enabled := on))
  }

  /** Two rigs whose lights agree on everything but the enabled flags. */
  predicate SameSettings(a: Rig, b: Rig)
  {
    forall k :: Get(a, k).intensity == Get(b, k).intensity
  }

  /** The four `setEnabled(false)` calls that open the switch: every light is
      off afterwards and the configuration is untouched. */
  function DisableAll(rig: Rig): (r: Rig)
    ensures forall k :: !Get(r, k).enabled
    ensures SameSettings(rig, r)
  {
    var r1 := SetEnabled(rig, Hemispheric, false);
    var r2 := SetEnabled(r1, Directional, false);
    var r3 := SetEnabled(r2, Point, false);
    SetEnabled(r3, Spot, false)
  }

  /** The light of kind `m` is on and every other light is off. */
  predicate OnlyEnabled(rig: Rig, m: LightMode)
  {
    forall k :: Get(rig, k).enabled <==> k == m
  }

  /** Number of enabled lights. */
  function EnabledCount(rig: Rig): (n: nat)
    ensures n <= 4
  {
    (if rig.hemispheric.enabled then 1 else 0)
    + (if rig.directional.enabled then 1 else 0)
    + (if rig.point.enabled then 1 else 0)
    + (if rig.spot.enabled then 1 else 0)
  }

  /** "Only `m` is on" is the same as "exactly one light is on, and it is `m`". */
  lemma OnlyEnabledIsExactlyOne(rig: Rig, m: LightMode)
    ensures OnlyEnabled(rig, m) <==> EnabledCount(rig) == 1 && Get(rig, m).enabled
  {
    if OnlyEnabled(rig, m) {
      assert Get(rig, Hemispheric).enabled <==> m == Hemispheric;
      assert Get(rig, Directional).enabled <==> m == Directional;
      assert Get(rig, Point).enabled <==> m == Point;
      assert Get(rig, Spot).enabled <==> m == Spot;
    }
    if EnabledCount(rig) == 1 && Get(rig, m).enabled {
      forall k ensures Get(rig, k).enabled <==> k == m {
        match k
        case Hemispheric =>
        case Directional =>
        case Point =>
        case Spot =>
      }
    }
  }

  /** The flags of a rig in which only `m` is on are fixed by `m` alone: two
      such rigs with the same configuration are equal. */
  lemma OnlyEnabledDetermines(a: Rig, b: Rig, m: LightMode)
    requires OnlyEnabled(a, m) && OnlyEnabled(b, m)
    requires SameSettings(a, b)
    ensures a == b
  {
    assert Get(a, Hemispheric) == Get(b, Hemispheric);
    assert Get(a, Directional) == Get(b, Directional);
    assert Get(a, Point) == Get(b, Point);
    assert Get(a, Spot) == Get(b, Spot);
  }
}
