/**
 * The user settings record, its partial form (a key that is absent is
 * `None`), and a key-by-key view of both.
 */
module SettingsModel {
  import opened Wrappers

  datatype Theme = Light | Dark | System

  datatype AtomMode = Realistic | Simplified

  datatype LoggingLevel = Debug | Info | Warn | Error

  datatype VisualizationMode = Bohr | Quantum

  datatype Settings = Settings(
    theme: Theme,
    language: string,
    loggingLevel: LoggingLevel,
    animationSpeed: real,
    atomMode: AtomMode,
    enableLogging: bool,
    visualizationMode: VisualizationMode,
    quantumAnimationIntensity: real,
    reducedMotion: bool)

  /** `Partial<SettingsState>`, and also a stored snapshot, which may lack keys. */
  datatype PartialSettings = PartialSettings(
    theme: Option<Theme>,
    language: Option<string>,
    loggingLevel: Option<LoggingLevel>,
    animationSpeed: Option<real>,
    atomMode: Option<AtomMode>,
    enableLogging: Option<bool>,
    visualizationMode: Option<VisualizationMode>,
    quantumAnimationIntensity: Option<real>,
    reducedMotion: Option<bool>)

  const NoKeys: PartialSettings := PartialSettings(None, None, None, None, None, None, None, None, None)

  datatype Key =
    | ThemeKey | LanguageKey | LoggingLevelKey | AnimationSpeedKey | AtomModeKey
    | EnableLoggingKey | VisualizationModeKey | QuantumAnimationIntensityKey | ReducedMotionKey

  datatype Value =
    | ThemeValue(theme: Theme)
    | TextValue(text: string)
    | LevelValue(level: LoggingLevel)
    | NumberValue(number: real)
    | ModeValue(mode: AtomMode)
    | FlagValue(flag: bool)
    | VisualizationValue(visualization: VisualizationMode)

  /** The value of one key of a full record. */
  function Get(s: Settings, k: Key): Value {
    match k
    case ThemeKey => ThemeValue(s.theme)
    case LanguageKey => TextValue(s.language)
    case LoggingLevelKey => LevelValue(s.loggingLevel)
    case AnimationSpeedKey => NumberValue(s.animationSpeed)
    case AtomModeKey => ModeValue(s.atomMode)
    case EnableLoggingKey => FlagValue(s.enableLogging)
    case VisualizationModeKey => VisualizationValue(s.visualizationMode)
    case QuantumAnimationIntensityKey => NumberValue(s.quantumAnimationIntensity)
    case ReducedMotionKey => FlagValue(s.reducedMotion)
  }

  /** The value of one key of a partial record, if the key is present. */
  function GetPartial(p: PartialSettings, k: Key): Option<Value> {
    match k
    case ThemeKey => if p.theme.Some? then Some(ThemeValue(p.theme.value)) else None
    case LanguageKey => if p.language.Some? then Some(TextValue(p.language.value)) else None
    case LoggingLevelKey => if p.loggingLevel.Some? then Some(LevelValue(p.loggingLevel.value)) else None
    case AnimationSpeedKey => if p.animationSpeed.Some? then Some(NumberValue(p.animationSpeed.value)) else None
    case AtomModeKey => if p.atomMode.Some? then Some(ModeValue(p.atomMode.value)) else None
    case EnableLoggingKey => if p.enableLogging.Some? then Some(FlagValue(p.enableLogging.value)) else None
    case VisualizationModeKey => if p.visualizationMode.Some? then Some(VisualizationValue(p.visualizationMode.value)) else None
    case QuantumAnimationIntensityKey =>
      if p.quantumAnimationIntensity.Some? then Some(NumberValue(p.quantumAnimationIntensity.value)) else None
    case ReducedMotionKey => if p.reducedMotion.Some? then Some(FlagValue(p.reducedMotion.value)) else None
  }

  /** Two records that agree on every key are the same record. */
  lemma SettingsExtensionality(a: Settings, b: Settings)
    requires forall k :: Get(a, k) == Get(b, k)
    ensures a == b
  {
    assert Get(a, ThemeKey) == Get(b, ThemeKey);
    assert Get(a, LanguageKey) == Get(b, LanguageKey);
    assert Get(a, LoggingLevelKey) == Get(b, LoggingLevelKey);
    assert Get(a, AnimationSpeedKey) == Get(b, AnimationSpeedKey);
    assert Get(a, AtomModeKey) == Get(b, AtomModeKey);
    assert Get(a, EnableLoggingKey) == Get(b, EnableLoggingKey);
    assert Get(a, VisualizationModeKey) == Get(b, VisualizationModeKey);
    assert Get(a, QuantumAnimationIntensityKey) == Get(b, QuantumAnimationIntensityKey);
    assert Get(a, ReducedMotionKey) == Get(b, ReducedMotionKey);
  }
}
