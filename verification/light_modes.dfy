/** The four light modes of the demo scene, their cyclic order and the string
    tags the scene uses for them (src/scene.js:43 and 107-127). */
module LightModes {
  import opened Wrappers

  /** One constructor per light the scene creates; the source names them by
      the tags 'hemispheric', 'directional', 'point' and 'spot'. */
  datatype LightMode = Hemispheric | Directional | Point | Spot

  /** Position of a mode in the cycle the L key walks through, hemispheric
      first. This is the reference order the successor is checked against. */
  function Index(m: LightMode): (i: nat)
    ensures i < 4
  {
    match m
    case Hemispheric => 0
    case Directional => 1
    case Point => 2
    case Spot => 3
  }

  function FromIndex(i: nat): (m: LightMode)
    requires i < 4
    ensures Index(m) == i
  {
    if i == 0 then Hemispheric
    else if i == 1 then Directional
    else if i == 2 then Point
    else Spot
  }

  /** Distinct modes sit at distinct positions of the cycle. */
  lemma IndexInjective(a: LightMode, b: LightMode)
    ensures Index(a) == Index(b) <==> a == b
  {
  }

  /** The mode a switch moves to: hemispheric -> directional -> point -> spot
      -> hemispheric. Total, unlike the source's switch over strings. */
  function Next(m: LightMode): (r: LightMode)
    ensures Index(r) == (Index(m) + 1) % 4
    ensures r != m
  {
    match m
    case Hemispheric => Directional
    case Directional => Point
    case Point => Spot
    case Spot => Hemispheric
  }

  /** The mode reached after `n` switches from `m`. */
  function NextN(m: LightMode, n: nat): (r: LightMode)
    ensures Index(r) == (Index(m) + n) % 4
  {
    if n == 0 then m else Next(NextN(m, n - 1))
  }

  /** The cycle has period exactly four: `n` switches lead back to the
      starting mode if and only if `n` is a multiple of four. */
  lemma {:induction false} CyclePeriod(m: LightMode, n: nat)
    ensures NextN(m, n) == m <==> n % 4 == 0
  {
    IndexInjective(NextN(m, n), m);
  }

  /** The string tag the source keeps in `currentLightType` for each mode. */
  function Name(m: LightMode): string
  {
    match m
    case Hemispheric => "hemispheric"
    case Directional => "directional"
    case Point => "point"
    case Spot => "spot"
  }

  /** Which mode, if any, a tag stands for: exactly the four case labels of
      the source's switch are recognised. */
  function Parse(tag: string): (r: Option<LightMode>)
    ensures r.Some? ==> Name(r.value) == tag
  {
    if tag == "hemispheric" then Some(Hemispheric)
    else if tag == "directional" then Some(Directional)
    else if tag == "point" then Some(Point)
    else if tag == "spot" then Some(Spot)
    else None
  }

  /** The four tags and the four modes correspond one to one: a tag parses
      to a mode exactly when it is that mode's name. */
  lemma NameParse(tag: string, m: LightMode)
    ensures Parse(tag) == Some(m) <==> Name(m) == tag
  {
  }

  /** Every mode's name parses back to the mode. */
  lemma ParseName(m: LightMode)
    ensures Parse(Name(m)) == Some(m)
  {
    NameParse(Name(m), m);
  }
}
