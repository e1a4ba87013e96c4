/**
 * The settings service: a record merged key by key from a stored snapshot
 * over defaults, updated by partial records, saved through a provider after
 * every update, and pushed to subscribed listeners. Listeners are identified
 * by number, and calling one is recorded as a notification.
 */
module SettingsService {
  import opened Wrappers
  import opened SettingsModel

  /** `{ ...base, ...partial }`: a key present in `partial` wins, every other key keeps its value. */
  function Merge(base: Settings, partial: PartialSettings): Settings {
    Settings(
      partial.theme.GetOr(base.theme),
      partial.language.GetOr(base.language),
      partial.loggingLevel.GetOr(base.loggingLevel),
      partial.animationSpeed.GetOr(base.animationSpeed),
      partial.atomMode.GetOr(base.atomMode),
      partial.enableLogging.GetOr(base.enableLogging),
      partial.visualizationMode.GetOr(base.visualizationMode),
      partial.quantumAnimationIntensity.GetOr(base.quantumAnimationIntensity),
      partial.reducedMotion.GetOr(base.reducedMotion))
  }

  /** A full record as the provider stores it: every key present. */
  function Snapshot(s: Settings): PartialSettings {
    PartialSettings(Some(s.theme), Some(s.language), Some(s.loggingLevel), Some(s.animationSpeed), Some(s.atomMode),
      Some(s.enableLogging), Some(s.visualizationMode), Some(s.quantumAnimationIntensity), Some(s.reducedMotion))
  }

  /** An update sets exactly the keys present in the partial record and leaves every other key as it was. */
  lemma MergeKeyByKey(base: Settings, partial: PartialSettings)
    ensures forall k :: Get(Merge(base, partial), k) == GetPartial(partial, k).GetOr(Get(base, k))
  {
    forall k ensures Get(Merge(base, partial), k) == GetPartial(partial, k).GetOr(Get(base, k)) {
      match k
      case ThemeKey =>
      case LanguageKey =>
      case LoggingLevelKey =>
      case AnimationSpeedKey =>
      case AtomModeKey =>
      case EnableLoggingKey =>
      case VisualizationModeKey =>
      case QuantumAnimationIntensityKey =>
      case ReducedMotionKey =>
    }
  }

  /** A snapshot holds every key with its value. */
  lemma SnapshotKeyByKey(s: Settings)
    ensures forall k :: GetPartial(Snapshot(s), k) == Some(Get(s, k))
  {
    forall k ensures GetPartial(Snapshot(s), k) == Some(Get(s, k)) {
      match k
      case ThemeKey =>
      case LanguageKey =>
      case LoggingLevelKey =>
      case AnimationSpeedKey =>
      case AtomModeKey =>
      case EnableLoggingKey =>
      case VisualizationModeKey =>
      case QuantumAnimationIntensityKey =>
      case ReducedMotionKey =>
    }
  }

  /** Loading what was saved gives back the saved record, whatever the defaults. */
  lemma ReloadRoundTrip(defaults: Settings, s: Settings)
    ensures Merge(defaults, Snapshot(s)) == s
  {
    MergeKeyByKey(defaults, Snapshot(s));
    SnapshotKeyByKey(s);
    SettingsExtensionality(Merge(defaults, Snapshot(s)), s);
  }

  /** With no snapshot (or an empty one) the state is the defaults. */
  lemma MergeNoKeys(defaults: Settings)
    ensures Merge(defaults, NoKeys) == defaults
  {
    MergeKeyByKey(defaults, NoKeys);
    SettingsExtensionality(Merge(defaults, NoKeys), defaults);
  }

  /** Applying the same update twice is applying it once. */
  lemma MergeIdempotent(base: Settings, partial: PartialSettings)
    ensures Merge(Merge(base, partial), partial) == Merge(base, partial)
  {
    MergeKeyByKey(base, partial);
    MergeKeyByKey(Merge(base, partial), partial);
    SettingsExtensionality(Merge(Merge(base, partial), partial), Merge(base, partial));
  }

  /** The listener list without any occurrence of `listener`, the others in their order. */
  function Without(listeners: seq<Listener>, listener: Listener): (kept: seq<Listener>)
    ensures |kept| <= |listeners|
    ensures forall other :: other in kept <==> other in listeners && other != listener
  {
    if listeners == [] then []
    else (if listeners[0] == listener then [] else [listeners[0]]) + Without(listeners[1..], listener)
  }

  type Listener = nat

  /** One call of a listener with the settings it was given. */
  datatype Notification = Notification(listener: Listener, settings: Settings)

  /** One call per listener, in registration order, all with the same settings. */
  function Broadcast(listeners: seq<Listener>, s: Settings): (calls: seq<Notification>)
    ensures |calls| == |listeners|
    ensures forall i :: 0 <= i < |calls| ==> calls[i].listener == listeners[i] && calls[i].settings == s
  {
    seq(|listeners|, i requires 0 <= i < |listeners| => Notification(listeners[i], s))
  }

  /** Unsubscribing removes every occurrence and keeps every other listener as often as before. */
  lemma WithoutCounts(listeners: seq<Listener>, listener: Listener)
    ensures multiset(Without(listeners, listener))[listener] == 0
    ensures forall other :: other != listener ==> multiset(Without(listeners, listener))[other] == multiset(listeners)[other]
  {
    WithoutCountOf(listeners, listener, listener);
    forall other | other != listener
      ensures multiset(Without(listeners, listener))[other] == multiset(listeners)[other]
    {
      WithoutCountOf(listeners, listener, other);
    }
  }

  /** How often one listener occurs after unsubscribing `listener`. */
  lemma {:induction false} WithoutCountOf(listeners: seq<Listener>, listener: Listener, other: Listener)
    ensures multiset(Without(listeners, listener))[other] == if other == listener then 0 else multiset(listeners)[other]
  {
    if listeners != [] {
      var first: seq<Listener> := [listeners[0]];
      var head: seq<Listener> := if listeners[0] == listener then [] else first;
      var rest := Without(listeners[1..], listener);
      WithoutCountOf(listeners[1..], listener, other);
      assert Without(listeners, listener) == head + rest;
      assert multiset(head + rest) == multiset(head) + multiset(rest);
      assert listeners == first + listeners[1..];
      assert multiset(listeners) == multiset(first) + multiset(listeners[1..]);
    }
  }

  /** Unsubscribing keeps the order: it distributes over concatenation. */
  lemma {:induction false} WithoutAppend(a: seq<Listener>, b: seq<Listener>, listener: Listener)
    ensures Without(a + b, listener) == Without(a, listener) + Without(b, listener)
  {
    if a == [] {
      assert a + b == b;
    } else {
      assert (a + b)[0] == a[0];
      assert (a + b)[1..] == a[1..] + b;
      WithoutAppend(a[1..], b, listener);
    }
  }

  /** Unsubscribing twice is unsubscribing once, and an absent listener changes nothing. */
  lemma {:induction false} WithoutIdempotent(listeners: seq<Listener>, listener: Listener)
    ensures Without(Without(listeners, listener), listener) == Without(listeners, listener)
    ensures listener !in listeners ==> Without(listeners, listener) == listeners
  {
    if listeners != [] {
      var rest := Without(listeners[1..], listener);
      WithoutIdempotent(listeners[1..], listener);
      if listeners[0] != listener {
        var kept := [listeners[0]] + rest;
        assert Without(listeners, listener) == kept;
        assert kept != [] && kept[0] == listeners[0] && kept[1..] == rest;
        assert Without(kept, listener) == [listeners[0]] + Without(rest, listener);
      } else {
        assert Without(listeners, listener) == [] + rest == rest;
      }
      if listener !in listeners {
        assert listener !in listeners[1..];
        assert listeners == [listeners[0]] + listeners[1..];
      }
    }
  }

  /** `ISettingsProvider`, kept in memory: `load` returns what the last `save` stored. */
  class SettingsProvider {
    var stored: Option<PartialSettings>

    constructor (initial: Option<PartialSettings>)
      ensures stored == initial
    {
      stored := initial;
    }

    method Load() returns (snapshot: Option<PartialSettings>)
      ensures snapshot == stored
    {
      snapshot := stored;
    }

    method Save(s: Settings)
      modifies this
      ensures stored == Some(Snapshot(s))
    {
      stored := Some(Snapshot(s));
    }
  }

  class SettingsService {
    const provider: SettingsProvider
    var listeners: seq<Listener>
    var state: Settings
    /** Every listener call made so far, in order. */
    var delivered: seq<Notification>

    /** The stored snapshot merged over the defaults. */
    constructor (provider: SettingsProvider, defaults: Settings)
      ensures this.provider == provider && listeners == [] && delivered == []
      ensures state == Merge(defaults, provider.stored.GetOr(NoKeys))
    {
      this.provider := provider;
      var stored := provider.Load();
      state := Merge(defaults, stored.GetOr(NoKeys));
      listeners := [];
      delivered := [];
    }

    method GetSettings() returns (s: Settings)
      ensures s == state
    {
      s := state;
    }

    /**
     * Merge the partial record, save the result, call every listener in order
     * with it, and return it.
     */
    method UpdateSettings(partial: PartialSettings) returns (r: Settings)
      modifies this, provider
      ensures state == Merge(old(state), partial)
      ensures provider.stored == Some(Snapshot(state))
      ensures listeners == old(listeners)
      ensures delivered == old(delivered) + Broadcast(listeners, state)
      ensures r == state
    {
      state := Merge(state, partial);
      provider.Save(state);
      var i := 0;
      while i < |listeners|
        invariant 0 <= i <= |listeners|
        invariant delivered == old(delivered) + Broadcast(listeners[..i], state)
        invariant state == Merge(old(state), partial) && listeners == old(listeners)
        invariant provider.stored == Some(Snapshot(state))
      {
        delivered := delivered + [Notification(listeners[i], state)];
        i := i + 1;
      }
      assert listeners[..i] == listeners;
      r := state;
    }

    /** Register a listener and call it at once with the current settings. */
    method Subscribe(listener: Listener)
      modifies this
      ensures listeners == old(listeners) + [listener]
      ensures delivered == old(delivered) + [Notification(listener, state)]
      ensures state == old(state)
    {
      listeners := listeners + [listener];
      delivered := delivered + [Notification(listener, state)];
    }

    /** The function `subscribe` returns. */
    method Unsubscribe(listener: Listener)
      modifies this
      ensures listeners == Without(old(listeners), listener)
      ensures state == old(state) && delivered == old(delivered)
    {
      listeners := Without(listeners, listener);
    }
  }
}
