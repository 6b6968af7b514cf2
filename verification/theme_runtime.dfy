/** The web theme runtime (src/theme/web/ThemeProvider.tsx).

    The provider owns a preference (system, light or dark) and the theme it resolves
    to. It is modelled as a record of state with pure transitions:
    - `Initial`: the first render, before any effect has run;
    - `Mount`: the client-side initialisation, which reads the persisted preference,
      resolves it, applies it to the DOM sink and subscribes to the system signal;
    - `SetPreference`: the setter handed to consumers;
    - `SystemChange`: the system colour-scheme signal taking a new value.
    The persisted store is a map from key to string, the system signal a boolean, the
    subscription a flag, and the DOM sink a `Document`. */
module ThemeRuntime {

  import opened Wrappers
  import opened ThemeTypes
  import opened DomTheme

  /** The storage key used when the caller gives none. */
  const DefaultStorageKey: string := "mts-theme"

  /** The provider's two configuration props; fixed for the lifetime of the runtime. */
  datatype Config = Config(storageKey: string, defaultPreference: ThemePreference)

  /** The configuration when the caller gives no props. */
  const DefaultConfig: Config := Config(DefaultStorageKey, PreferSystem)

  /** The persisted key/value store (the browser's local storage). */
  type Store = map<string, string>

  /** The provider's state together with the parts of its environment it reads and writes.
      `isClient` records that the initialisation effect has run; `subscribed` that a
      listener on the system signal is installed; `systemDark` is the current value of the
      system signal. */
  datatype Runtime = Runtime(
    config: Config,
    isClient: bool,
    preference: ThemePreference,
    resolvedTheme: ResolvedTheme,
    subscribed: bool,
    store: Store,
    systemDark: bool,
    dom: Document)

  /** resolveTheme: a fixed preference is its own theme; `system` follows the signal,
      falling back to light when there is no window. */
  function ResolveTheme(preference: ThemePreference, hasWindow: bool, systemDark: bool): (r: ResolvedTheme)
    ensures preference == PreferDark ==> r == Dark
    ensures preference == PreferLight ==> r == Light
    ensures preference == PreferSystem ==> (r == Dark <==> hasWindow && systemDark)
  {
    match preference
    case PreferDark => Dark
    case PreferLight => Light
    case PreferSystem => if hasWindow && systemDark then Dark else Light
  }

  /** The preference the initialisation adopts: the stored value when it is exactly one of
      the three names, the configured default otherwise (missing key or any other string). */
  function StoredPreference(store: Store, config: Config): (r: ThemePreference)
    ensures config.storageKey in store && IsPreferenceName(store[config.storageKey]) ==>
              PreferenceName(r) == store[config.storageKey]
    ensures !(config.storageKey in store && IsPreferenceName(store[config.storageKey])) ==>
              r == config.defaultPreference
  {
    if config.storageKey in store then
      ParsePreference(store[config.storageKey]).GetOr(config.defaultPreference)
    else
      config.defaultPreference
  }

  /** The consistency the runtime keeps once it has initialised: the resolved theme is what
      the preference resolves to, the DOM shows it, and a listener on the system signal is
      installed exactly while the preference is `system`. */
  predicate Coherent(rt: Runtime) {
    && (rt.isClient ==> rt.resolvedTheme == ResolveTheme(rt.preference, rt.dom.hasWindow, rt.systemDark))
    && (rt.isClient && rt.dom.hasWindow ==> GetThemeFromDom(rt.dom) == rt.resolvedTheme)
    && (rt.subscribed <==> rt.isClient && rt.preference == PreferSystem && rt.dom.hasWindow)
  }

  /** The first render: the default preference, the light theme, no effect run yet. */
  function Initial(config: Config, store: Store, systemDark: bool, dom: Document): (r: Runtime)
    ensures Coherent(r)
    ensures !r.isClient && !r.subscribed
    ensures r.preference == config.defaultPreference && r.resolvedTheme == Light
    ensures r.config == config && r.systemDark == systemDark
    ensures r.store == store && r.dom == dom
  {
    Runtime(config, false, config.defaultPreference, Light, false, store, systemDark, dom)
  }

  /** A re-render with new `preference` and `isClient` state, followed by the two effects
      that depend on exactly those: resolve-and-apply, and the system-signal subscription.
      Setting state to the values it already has re-renders nothing and runs no effect. */
  function Commit(rt: Runtime, preference: ThemePreference, isClient: bool): (r: Runtime)
    ensures preference == rt.preference && isClient == rt.isClient ==> r == rt
    ensures r.preference == preference && r.isClient == isClient
    ensures r.config == rt.config && r.store == rt.store && r.systemDark == rt.systemDark
    ensures (preference != rt.preference || isClient != rt.isClient) && isClient ==>
              && r.resolvedTheme == ResolveTheme(preference, rt.dom.hasWindow, rt.systemDark)
              && (rt.dom.hasWindow ==> GetThemeFromDom(r.dom) == r.resolvedTheme)
              && (r.subscribed <==> preference == PreferSystem && rt.dom.hasWindow)
    ensures (preference != rt.preference || isClient != rt.isClient) && isClient ==>
              r.dom == ApplyThemeToDom(rt.dom, r.resolvedTheme)
    ensures (preference != rt.preference || isClient != rt.isClient) && !isClient ==>
              r.resolvedTheme == rt.resolvedTheme && r.dom == rt.dom && !r.subscribed
  {
    if preference == rt.preference && isClient == rt.isClient then rt
    else
      var hasWindow := rt.dom.hasWindow;
      var resolved := if isClient then ResolveTheme(preference, hasWindow, rt.systemDark) else rt.resolvedTheme;
      var dom := if isClient then ApplyThemeToDom(rt.dom, resolved) else rt.dom;
      rt.(preference := preference, isClient := isClient, resolvedTheme := resolved, dom := dom,
          subscribed := isClient && preference == PreferSystem && hasWindow)
  }

  /** The initialisation effect. It runs once, when the provider first mounts on the client:
      with a window it adopts the stored preference (or the default), then resolves and
      applies it and subscribes when the preference is `system`. */
  function Mount(rt: Runtime): (r: Runtime)
    requires !rt.isClient
    ensures r.isClient
    ensures r.config == rt.config && r.store == rt.store && r.systemDark == rt.systemDark
    ensures rt.dom.hasWindow ==> r.preference == StoredPreference(rt.store, rt.config)
    ensures !rt.dom.hasWindow ==> r.preference == rt.preference
    ensures r.resolvedTheme == ResolveTheme(r.preference, rt.dom.hasWindow, rt.systemDark)
    ensures rt.dom.hasWindow ==> GetThemeFromDom(r.dom) == r.resolvedTheme
    ensures r.dom == ApplyThemeToDom(rt.dom, r.resolvedTheme)
    ensures r.subscribed <==> r.preference == PreferSystem && rt.dom.hasWindow
    ensures Coherent(r)
  {
    var preference := if rt.dom.hasWindow then StoredPreference(rt.store, rt.config) else rt.preference;
    Commit(rt, preference, true)
  }

  /** The store after persisting a newly chosen preference: the key is removed when the
      choice equals the configured default and written otherwise. Nothing is persisted
      without a window. */
  function Persist(store: Store, config: Config, hasWindow: bool, preference: ThemePreference): (r: Store)
    ensures !hasWindow ==> r == store
    ensures hasWindow && preference == config.defaultPreference ==> config.storageKey !in r
    ensures hasWindow && preference != config.defaultPreference ==>
              config.storageKey in r && r[config.storageKey] == PreferenceName(preference)
    ensures r - {config.storageKey} == store - {config.storageKey}
  {
    if !hasWindow then store
    else if preference == config.defaultPreference then store - {config.storageKey}
    else store[config.storageKey := PreferenceName(preference)]
  }

  /** setPreference: updates the preference, persists it, and lets the effects re-resolve,
      re-apply and move the subscription. */
  function SetPreference(rt: Runtime, preference: ThemePreference): (r: Runtime)
    ensures r.preference == preference
    ensures r.config == rt.config && r.isClient == rt.isClient && r.systemDark == rt.systemDark
    ensures r.store == Persist(rt.store, rt.config, rt.dom.hasWindow, preference)
    ensures !rt.isClient ==> r.dom == rt.dom && r.resolvedTheme == rt.resolvedTheme
    ensures preference == rt.preference ==> r == rt.(store := r.store)
    ensures preference != rt.preference && rt.isClient ==> r.dom == ApplyThemeToDom(rt.dom, r.resolvedTheme)
    ensures Coherent(rt) ==> Coherent(r)
    ensures Coherent(rt) && rt.isClient ==>
              && r.resolvedTheme == ResolveTheme(preference, rt.dom.hasWindow, rt.systemDark)
              && (rt.dom.hasWindow ==> GetThemeFromDom(r.dom) == r.resolvedTheme)
              && (r.subscribed <==> preference == PreferSystem && rt.dom.hasWindow)
  {
    var stored := rt.(store := Persist(rt.store, rt.config, rt.dom.hasWindow, preference));
    Commit(stored, preference, rt.isClient)
  }

  /** The system colour-scheme signal takes a new value. Only a subscribed runtime hears it:
      it then resolves to the new value and re-applies the sink. The preference never changes. */
  function SystemChange(rt: Runtime, systemDark: bool): (r: Runtime)
    ensures r.systemDark == systemDark
    ensures r.preference == rt.preference && r.config == rt.config && r.store == rt.store
    ensures r.isClient == rt.isClient && r.subscribed == rt.subscribed
    ensures rt.subscribed ==> r.resolvedTheme == (if systemDark then Dark else Light)
    ensures rt.subscribed && rt.dom.hasWindow ==> GetThemeFromDom(r.dom) == r.resolvedTheme
    ensures rt.subscribed ==> r.dom == ApplyThemeToDom(rt.dom, r.resolvedTheme)
    ensures !rt.subscribed ==> r.resolvedTheme == rt.resolvedTheme && r.dom == rt.dom
    ensures Coherent(rt) ==> Coherent(r)
  {
    if rt.subscribed then
      var resolved := if systemDark then Dark else Light;
      rt.(systemDark := systemDark, resolvedTheme := resolved, dom := ApplyThemeToDom(rt.dom, resolved))
    else
      rt.(systemDark := systemDark)
  }

  /** A preference chosen on the client is what a fresh load of the same store adopts:
      removing the key for the default and writing it otherwise both read back as the choice. */
  lemma PersistedPreferenceReloads(rt: Runtime, preference: ThemePreference)
    requires rt.dom.hasWindow
    ensures StoredPreference(SetPreference(rt, preference).store, rt.config) == preference
  {
    var store := SetPreference(rt, preference).store;
    if preference != rt.config.defaultPreference {
      PreferenceNameRoundTrip(preference);
      assert ParsePreference(store[rt.config.storageKey]) == Some(preference);
    }
  }

  /** Leaving `system` tears the subscription down: no later signal change moves the
      resolved theme or the DOM. */
  lemma LeavingSystemIgnoresSignal(rt: Runtime, preference: ThemePreference, systemDark: bool)
    requires Coherent(rt) && rt.isClient
    requires preference != PreferSystem
    ensures var r := SetPreference(rt, preference);
            !r.subscribed
            && SystemChange(r, systemDark).resolvedTheme == r.resolvedTheme
            && SystemChange(r, systemDark).dom == r.dom
  {
  }

  /** The events the runtime reacts to. */
  datatype Event = MountEvent | SetPreferenceEvent(preference: ThemePreference) | SystemChangeEvent(systemDark: bool)

  /** One event. The initialisation effect runs only once: a second mount event does nothing. */
  function Step(rt: Runtime, e: Event): Runtime {
    match e
    case MountEvent => if rt.isClient then rt else Mount(rt)
    case SetPreferenceEvent(p) => SetPreference(rt, p)
    case SystemChangeEvent(d) => SystemChange(rt, d)
  }

  /** A sequence of events, applied in order. */
  function Run(rt: Runtime, events: seq<Event>): Runtime
    decreases |events|
  {
    if |events| == 0 then rt else Run(Step(rt, events[0]), events[1..])
  }

  /** Starting from the first render, every sequence of events keeps the runtime coherent:
      after any preference change or signal change the resolved theme matches the preference,
      the DOM shows it, and the subscription exists exactly while the preference is `system`. */
  lemma {:induction false} RunKeepsCoherent(rt: Runtime, events: seq<Event>)
    requires Coherent(rt)
    ensures Coherent(Run(rt, events))
    decreases |events|
  {
    if |events| > 0 {
      var next := Step(rt, events[0]);
      assert Coherent(next);
      RunKeepsCoherent(next, events[1..]);
    }
  }

  /** Events never change the configuration and never touch any store key but the
      configured one. */
  lemma {:induction false} RunTouchesOnlyStorageKey(rt: Runtime, events: seq<Event>)
    ensures Run(rt, events).config == rt.config
    ensures Run(rt, events).store - {rt.config.storageKey} == rt.store - {rt.config.storageKey}
    decreases |events|
  {
    if |events| > 0 {
      var next := Step(rt, events[0]);
      assert next.config == rt.config;
      assert next.store - {rt.config.storageKey} == rt.store - {rt.config.storageKey};
      RunTouchesOnlyStorageKey(next, events[1..]);
    }
  }

  /** Events only ever write the theme marker through the sink: whether a window exists and
      every other attribute of the root element stay as they were. */
  lemma {:induction false} RunFramesDocument(rt: Runtime, events: seq<Event>)
    ensures Run(rt, events).dom.hasWindow == rt.dom.hasWindow
    ensures Run(rt, events).dom.rootAttributes - {ThemeAttribute} == rt.dom.rootAttributes - {ThemeAttribute}
    decreases |events|
  {
    if |events| > 0 {
      var next := Step(rt, events[0]);
      assert next.dom.hasWindow == rt.dom.hasWindow;
      assert next.dom.rootAttributes - {ThemeAttribute} == rt.dom.rootAttributes - {ThemeAttribute};
      RunFramesDocument(next, events[1..]);
    }
  }

  /** The stored-value cases of initialisation, with the default configuration: under a
      light signal "dark" is adopted and "nope" falls back to `system`; under a dark signal
      "light" is adopted and leaves no marker, while "system" and a missing key both
      resolve to dark. */
  lemma InitialisationExamples(dom: Document)
    requires dom.hasWindow
    ensures var r := Mount(Initial(DefaultConfig, map[DefaultStorageKey := "dark"], false, dom));
            r.preference == PreferDark && r.resolvedTheme == Dark && GetThemeFromDom(r.dom) == Dark
    ensures var r := Mount(Initial(DefaultConfig, map[DefaultStorageKey := "nope"], false, dom));
            r.preference == PreferSystem && r.resolvedTheme == Light
    ensures var r := Mount(Initial(DefaultConfig, map[DefaultStorageKey := "light"], true, dom));
            r.preference == PreferLight && r.resolvedTheme == Light && ThemeAttribute !in r.dom.rootAttributes
    ensures var r := Mount(Initial(DefaultConfig, map[DefaultStorageKey := "system"], true, dom));
            r.preference == PreferSystem && r.resolvedTheme == Dark && GetThemeFromDom(r.dom) == Dark
    ensures var r := Mount(Initial(DefaultConfig, map[], true, dom));
            r.preference == PreferSystem && r.resolvedTheme == Dark && GetThemeFromDom(r.dom) == Dark
  {
  }

  /** The persistence and live-update scenarios, with the default configuration and an
      empty store. Under a light signal, choosing dark stores "dark" and shows dark, and
      choosing `system` again removes the key. Under a light signal, initialisation
      subscribes and shows light; the signal turning dark then shows dark with the
      preference unchanged; choosing light then leaves no listener, so a further signal
      change moves nothing. */
  lemma EndToEndScenario(dom: Document)
    requires dom.hasWindow
    ensures var dark := SetPreference(Mount(Initial(DefaultConfig, map[], false, dom)), PreferDark);
            && dark.preference == PreferDark
            && dark.store == map["mts-theme" := "dark"]
            && dark.resolvedTheme == Dark
            && GetThemeFromDom(dark.dom) == Dark
    ensures var back := SetPreference(SetPreference(Mount(Initial(DefaultConfig, map[], false, dom)), PreferDark), PreferSystem);
            back.preference == PreferSystem && "mts-theme" !in back.store
    ensures var mounted := Mount(Initial(DefaultConfig, map[], false, dom));
            && mounted.preference == PreferSystem
            && mounted.subscribed
            && mounted.resolvedTheme == Light
            && GetThemeFromDom(mounted.dom) == Light
            && ThemeAttribute !in mounted.dom.rootAttributes
    ensures var changed := SystemChange(Mount(Initial(DefaultConfig, map[], false, dom)), true);
            && changed.preference == PreferSystem
            && changed.resolvedTheme == Dark
            && GetThemeFromDom(changed.dom) == Dark
    ensures var light := SetPreference(SystemChange(Mount(Initial(DefaultConfig, map[], false, dom)), true), PreferLight);
            && light.preference == PreferLight
            && !light.subscribed
            && light.resolvedTheme == Light
            && ThemeAttribute !in light.dom.rootAttributes
            && SystemChange(light, false).resolvedTheme == Light
            && SystemChange(light, true).dom == light.dom
  {
  }
}
