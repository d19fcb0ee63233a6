/** The light-mode state machine of `createScene`: the starting state
    (src/scene.js:25-43), `switchLightType` (src/scene.js:99-129) and the
    keydown listener that drives it (src/scene.js:132-136). */
module LightController {
  import opened LightModes
  import opened LightRig

  /** The four lights plus the closure variable `currentLightType`, whose
      string tag is represented by the mode it names. */
  datatype State = State(rig: Rig, current: LightMode)

  /** The controller's invariant: exactly the light named by the current
      mode is enabled. */
  predicate Invariant(s: State)
  {
    OnlyEnabled(s.rig, s.current)
  }

  /** The intensity each light is given right after it is constructed. */
  function DefaultIntensity(m: LightMode): real
  {
    match m
    case Hemispheric => 0.9
    case Directional => 0.8
    case Point => 1.0
    case Spot => 1.2
  }

  /** A freshly constructed light: the engine builds every light enabled. */
  function Construct(m: LightMode): Light
  {
    Light(DefaultIntensity(m), true)
  }

  /** The lights as configured by `createScene`, before any is switched. */
  function Configured(): (rig: Rig)
    ensures forall k :: Get(rig, k).intensity == DefaultIntensity(k)
  {
    Rig(Construct(Hemispheric), Construct(Directional), Construct(Point), Construct(Spot))
  }

  /** Start-up: every light is disabled, then the hemispheric light alone is
      enabled and the mode is set to 'hemispheric'. */
  function Init(): (s: State)
    ensures Invariant(s)
    ensures s.current == Hemispheric
    ensures Get(s.rig, Hemispheric).enabled
    ensures EnabledCount(s.rig) == 1
    ensures Get(s.rig, Hemispheric).intensity == 0.9 && Get(s.rig, Directional).intensity == 0.8
    ensures Get(s.rig, Point).intensity == 1.0 && Get(s.rig, Spot).intensity == 1.2
    ensures SameSettings(s.rig, Configured())
  {
    var allOff := DisableAll(Configured());
    var s := State(SetEnabled(allOff, Hemispheric, true), Hemispheric);
    OnlyEnabledIsExactlyOne(s.rig, Hemispheric);
    s
  }

  /** `switchLightType`: clear all four flags, then enable the successor of
      the current mode and record it as current. The result satisfies the
      invariant whatever flags it starts from, the light that was current is
      off, and no light's configuration changes. */
  function Switch(s: State): (r: State)
    ensures Invariant(r)
    ensures r.current == Next(s.current)
    ensures !Get(r.rig, s.current).enabled
    ensures SameSettings(s.rig, r.rig)
  {
    var cleared := DisableAll(s.rig);
    match s.current
    case Hemispheric => State(SetEnabled(cleared, Directional, true), Directional)
    case Directional => State(SetEnabled(cleared, Point, true), Point)
    case Point => State(SetEnabled(cleared, Spot, true), Spot)
    case Spot => State(SetEnabled(cleared, Hemispheric, true), Hemispheric)
  }

  /** After a switch exactly one light is on, and it is the new mode's. */
  lemma SwitchEnablesExactlyOne(s: State)
    ensures EnabledCount(Switch(s).rig) == 1
    ensures Get(Switch(s).rig, Next(s.current)).enabled
  {
    OnlyEnabledIsExactlyOne(Switch(s).rig, Switch(s).current);
  }

  /** Two states that satisfy the invariant, agree on the mode and agree on
      the light configuration are the same state. */
  lemma InvariantDetermines(a: State, b: State)
    requires Invariant(a) && Invariant(b)
    requires a.current == b.current
    requires SameSettings(a.rig, b.rig)
    ensures a == b
  {
    OnlyEnabledDetermines(a.rig, b.rig, a.current);
  }

  /** `n` switches in a row. */
  function SwitchN(s: State, n: nat): State
  {
    if n == 0 then s else Switch(SwitchN(s, n - 1))
  }

  /** After `n` switches the mode has advanced `n` places in the cycle and the
      configuration is unchanged; from the first switch on, the invariant
      holds. */
  lemma {:induction false} SwitchNAdvances(s: State, n: nat)
    ensures SwitchN(s, n).current == NextN(s.current, n)
    ensures SameSettings(s.rig, SwitchN(s, n).rig)
    ensures n > 0 ==> Invariant(SwitchN(s, n))
  {
    if n > 0 {
      SwitchNAdvances(s, n - 1);
    }
  }

  /** Four switches restore the mode from every state, and restore the
      whole state, all four flags included, exactly when it satisfies the
      invariant. No shorter positive run of switches returns to the start. */
  lemma SwitchPeriod(s: State, n: nat)
    requires n > 0
    ensures SwitchN(s, 4).current == s.current
    ensures SwitchN(s, n) == s <==> n % 4 == 0 && Invariant(s)
  {
    SwitchNAdvances(s, 4);
    CyclePeriod(s.current, 4);
    SwitchNAdvances(s, n);
    CyclePeriod(s.current, n);
    if n % 4 == 0 && Invariant(s) {
      InvariantDetermines(SwitchN(s, n), s);
    }
  }

  /** The keydown filter: only the keys 'l' and 'L' switch the light. */
  predicate IsSwitchKey(key: string)
  {
    key == "l" || key == "L"
  }

  /** The filter is a case-insensitive match on the single letter L. */
  lemma SwitchKeyIsLetterL(key: string)
    ensures IsSwitchKey(key) <==> |key| == 1 && (key[0] == 'l' || key[0] == 'L')
  {
    if |key| == 1 && (key[0] == 'l' || key[0] == 'L') {
      assert key == [key[0]];
    }
  }

  /** One keydown event: a switch key performs exactly one switch, any other
      key leaves the mode and every flag as they were. */
  function OnKey(s: State, key: string): (r: State)
    ensures r.current == if |key| == 1 && (key[0] == 'l' || key[0] == 'L') then Next(s.current) else s.current
    ensures IsSwitchKey(key) ==> Invariant(r) && !Get(r.rig, s.current).enabled
    ensures SameSettings(s.rig, r.rig)
    ensures !IsSwitchKey(key) ==> r == s
  {
    if IsSwitchKey(key) then Switch(s) else s
  }

  /** A key event changes the mode if and only if it is a switch key. */
  lemma OnKeyChangesModeIffSwitchKey(s: State, key: string)
    ensures OnKey(s, key).current != s.current <==> IsSwitchKey(key)
  {
  }

  /** The keydown events of a session, handled in order. */
  function Run(s: State, keys: seq<string>): State
    decreases |keys|
  {
    if |keys| == 0 then s else Run(OnKey(s, keys[0]), keys[1..])
  }

  /** How many events of a session are switch keys. */
  function SwitchCount(keys: seq<string>): (n: nat)
    ensures n <= |keys|
    decreases |keys|
  {
    if |keys| == 0 then 0
    else (if IsSwitchKey(keys[0]) then 1 else 0) + SwitchCount(keys[1..])
  }

  /** Handling a session of key events is the same as switching once per
      switch key in it. */
  lemma {:induction false} RunIsSwitchN(s: State, keys: seq<string>)
    ensures Run(s, keys) == SwitchN(s, SwitchCount(keys))
    decreases |keys|
  {
    if |keys| > 0 {
      RunIsSwitchN(OnKey(s, keys[0]), keys[1..]);
      SwitchNShift(s, SwitchCount(keys[1..]));
    }
  }

  /** Switching first and then `n` more times is `n + 1` switches. */
  lemma {:induction false} SwitchNShift(s: State, n: nat)
    ensures SwitchN(Switch(s), n) == SwitchN(s, n + 1)
  {
    if n > 0 {
      SwitchNShift(s, n - 1);
    }
  }

  /** The invariant holds after any finite sequence of key events from a
      state that satisfies it, and the configuration never changes. */
  lemma RunKeepsInvariant(s: State, keys: seq<string>)
    requires Invariant(s)
    ensures Invariant(Run(s, keys))
    ensures SameSettings(s.rig, Run(s, keys).rig)
  {
    RunIsSwitchN(s, keys);
    SwitchNAdvances(s, SwitchCount(keys));
  }

  /** A session without any switch key changes nothing. */
  lemma RunIgnoresOtherKeys(s: State, keys: seq<string>)
    requires forall i :: 0 <= i < |keys| ==> !IsSwitchKey(keys[i])
    ensures Run(s, keys) == s
  {
    RunIsSwitchN(s, keys);
    NoSwitchKeyCountsZero(keys);
  }

  lemma {:induction false} NoSwitchKeyCountsZero(keys: seq<string>)
    requires forall i :: 0 <= i < |keys| ==> !IsSwitchKey(keys[i])
    ensures SwitchCount(keys) == 0
    decreases |keys|
  {
    if |keys| > 0 {
      assert !IsSwitchKey(keys[0]);
      forall i | 0 <= i < |keys[1..]| ensures !IsSwitchKey(keys[1..][i]) {
        assert keys[1..][i] == keys[i + 1];
      }
      NoSwitchKeyCountsZero(keys[1..]);
    }
  }

  /** The state in which the configured lights are set up and only the
      light of mode `m` is on. */
  function Lit(m: LightMode): (s: State)
    ensures Invariant(s) && s.current == m
    ensures SameSettings(s.rig, Configured())
  {
    State(SetEnabled(DisableAll(Configured()), m, true), m)
  }

  /** From start-up, after any session the scene shows exactly the light
      whose position in the cycle is the number of L presses modulo four. */
  lemma RunFromInit(keys: seq<string>)
    ensures Run(Init(), keys) == Lit(FromIndex(SwitchCount(keys) % 4))
  {
    var s := Init();
    RunIsSwitchN(s, keys);
    SwitchNAdvances(s, SwitchCount(keys));
    if SwitchCount(keys) == 0 {
      InvariantDetermines(s, Lit(Hemispheric));
    } else {
      InvariantDetermines(Run(s, keys), Lit(FromIndex(SwitchCount(keys) % 4)));
    }
  }

  /** The scene around the lights (camera, meshes, materials, the imported
      model), opaque to the controller. */
  datatype Scene<World> = Scene(lighting: State, world: World)

  /** A keydown event delivered to the whole scene: it acts on the lighting
      as `OnKey` does and leaves everything else exactly as it was. */
  function Press<World>(sc: Scene<World>, key: string): (r: Scene<World>)
    ensures r.world == sc.world
    ensures r.lighting == OnKey(sc.lighting, key)
  {
    Scene(OnKey(sc.lighting, key), sc.world)
  }

  /** A session of keydown events delivered to the whole scene. */
  function RunScene<World>(sc: Scene<World>, keys: seq<string>): Scene<World>
    decreases |keys|
  {
    if |keys| == 0 then sc else RunScene(Press(sc, keys[0]), keys[1..])
  }

  /** However many keys are pressed, the rest of the scene stays exactly as
      it was and the lighting evolves as the controller alone would. */
  lemma {:induction false} RunSceneOnlyTouchesLighting<World>(sc: Scene<World>, keys: seq<string>)
    ensures RunScene(sc, keys).world == sc.world
    ensures RunScene(sc, keys).lighting == Run(sc.lighting, keys)
    decreases |keys|
  {
    if |keys| > 0 {
      RunSceneOnlyTouchesLighting(Press(sc, keys[0]), keys[1..]);
    }
  }
}
