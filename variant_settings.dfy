/** The settings reader of `src/settings.ts`: a parsed JSON configuration,
    fixed when the reader is made, from which `getAlertSettings` picks the
    fields of an alert type or of one of its variants and `getAnimationRaw`
    an animation's raw settings, each missing field replaced by its
    default. */
module VariantSettings {
  import opened Js
  import opened Keyframes
  import opened CssText

  /** The fields an alert type or a variant may carry; a missing or null
      field is `None`. */
  datatype AlertFields = AlertFields(
    color: Option<seq<int>>,
    audioSources: Option<seq<string>>,
    imageSources: Option<seq<string>>,
    animation: Option<string>,
    timeout: Option<int>)

  /** One entry of `alerts`: the type's own fields and its variants, each
      an object of the same fields. */
  datatype AlertTypeJson = AlertTypeJson(fields: AlertFields, variants: map<string, AlertFields>)

  /** One entry of `animations`. */
  datatype AnimationJson = AnimationJson(
    duration: Option<int>,
    timingFunction: Option<string>,
    iterationCount: Option<IterationCount>,
    keyframes: Option<seq<Keyframe>>)

  datatype RootJson = RootJson(alerts: Option<map<string, AlertTypeJson>>, animations: Option<map<string, AnimationJson>>)

  /** The configuration held by the reader: `None` when loading failed. */
  type Config = Option<RootJson>

  /** `AlertConfig` */
  datatype AlertSettings = AlertSettings(color: seq<int>, audioSources: seq<string>, imageSources: seq<string>, animation: string, timeout: int)

  /** `AnimationConfig`; a missing timing function stays `null` (`None`). */
  datatype RawAnimation = RawAnimation(name: string, duration: int, timingFunction: Option<string>, iterationCount: IterationCount, keyframes: seq<Keyframe>)

  /** `this.config?.alerts?.[type]` */
  function TypeEntry(config: Config, alertType: string): (r: Option<AlertTypeJson>)
    ensures r.Some? <==> config.Some? && config.value.alerts.Some? && alertType in config.value.alerts.value
    ensures r.Some? ==> r.value == config.value.alerts.value[alertType]
  {
    if config.Some? && config.value.alerts.Some? && alertType in config.value.alerts.value
    then Some(config.value.alerts.value[alertType])
    else None
  }

  /** The fields `getAlertSettings` reads: a variant's when a non-empty
      variant name is given and the type has it, otherwise the type's own,
      and none for an unknown type. The variant is looked up only when its
      name is given and non-empty. */
  function ChosenFields(config: Config, alertType: string, variant: Option<string>): (r: Option<AlertFields>)
    ensures TypeEntry(config, alertType).None? ==> r.None?
    ensures TypeEntry(config, alertType).Some? ==>
      var t := TypeEntry(config, alertType).value;
      r == if variant.Some? && variant.value != "" && variant.value in t.variants then Some(t.variants[variant.value]) else Some(t.fields)
  {
    var byVariant :=
      if variant.Some? && variant.value != "" then
        match TypeEntry(config, alertType)
        case Some(t) => if variant.value in t.variants then Some(t.variants[variant.value]) else None
        case None => None
      else None;
    if byVariant.Some? then byVariant
    else
      match TypeEntry(config, alertType)
      case Some(t) => Some(t.fields)
      case None => None
  }

  const DefaultColor: seq<int> := [255, 255, 255]
  const DefaultTimeout: int := 2000

  /** `getAlertSettings(type, variant)`: every field of the chosen object,
      or its default when the field (or the object) is missing. */
  function GetAlertSettings(config: Config, alertType: string, variant: Option<string>): (s: AlertSettings)
    ensures var f := ChosenFields(config, alertType, variant);
      && s.color == (if f.Some? && f.value.color.Some? then f.value.color.value else DefaultColor)
      && s.audioSources == (if f.Some? && f.value.audioSources.Some? then f.value.audioSources.value else [])
      && s.imageSources == (if f.Some? && f.value.imageSources.Some? then f.value.imageSources.value else [])
      && s.animation == (if f.Some? && f.value.animation.Some? then f.value.animation.value else "")
      && s.timeout == (if f.Some? && f.value.timeout.Some? then f.value.timeout.value else DefaultTimeout)
  {
    var f := ChosenFields(config, alertType, variant).OrElse(AlertFields(None, None, None, None, None));
    AlertSettings(f.color.OrElse(DefaultColor), f.audioSources.OrElse([]), f.imageSources.OrElse([]), f.animation.OrElse(""), f.timeout.OrElse(DefaultTimeout))
  }

  /** An unknown type, or no configuration at all, gives every default,
      whatever the variant. */
  lemma UnknownTypeDefaults(config: Config, alertType: string, variant: Option<string>)
    requires TypeEntry(config, alertType).None?
    ensures GetAlertSettings(config, alertType, variant) == AlertSettings([255, 255, 255], [], [], "", 2000)
  {
  }

  /** An empty variant name is no variant. */
  lemma EmptyVariantIsNoVariant(config: Config, alertType: string)
    ensures GetAlertSettings(config, alertType, Some("")) == GetAlertSettings(config, alertType, None)
  {
  }

  /** A variant the type does not have falls back to the type's fields. */
  lemma UnknownVariantFallsBack(config: Config, alertType: string, variant: string)
    requires TypeEntry(config, alertType).Some? && variant !in TypeEntry(config, alertType).value.variants
    ensures GetAlertSettings(config, alertType, Some(variant)) == GetAlertSettings(config, alertType, None)
  {
  }

  /** A variant replaces the type's fields as a whole: a field the variant
      lacks takes its default, not the type's value. */
  lemma VariantDoesNotInherit(config: Config, alertType: string, variant: string)
    requires TypeEntry(config, alertType).Some? && variant != "" && variant in TypeEntry(config, alertType).value.variants
    requires TypeEntry(config, alertType).value.variants[variant].timeout.None?
    ensures GetAlertSettings(config, alertType, Some(variant)).timeout == 2000
  {
  }

  const DefaultDuration: int := 2000

  /** `getAnimationRaw(name)`: null for a missing animation; otherwise the
      name asked for and every field of the entry, or its default (duration
      2000, timing null, one iteration, no keyframes). */
  function GetAnimationRaw(config: Config, animationName: string): (r: Option<RawAnimation>)
    ensures r.Some? <==> config.Some? && config.value.animations.Some? && animationName in config.value.animations.value
    ensures r.Some? ==>
      var a := config.value.animations.value[animationName];
      && r.value.name == animationName
      && r.value.duration == (if a.duration.Some? then a.duration.value else DefaultDuration)
      && r.value.timingFunction == a.timingFunction
      && r.value.iterationCount == (if a.iterationCount.Some? then a.iterationCount.value else Count(1))
      && r.value.keyframes == (if a.keyframes.Some? then a.keyframes.value else [])
  {
    if config.None? || config.value.animations.None? || animationName !in config.value.animations.value then None
    else
      var a := config.value.animations.value[animationName];
      Some(RawAnimation(animationName, a.duration.OrElse(DefaultDuration), a.timingFunction, a.iterationCount.OrElse(Count(1)), a.keyframes.OrElse([])))
  }

  /** An entry with no fields gives every default. */
  lemma EmptyAnimationDefaults(config: Config, animationName: string)
    requires config.Some? && config.value.animations.Some? && animationName in config.value.animations.value
    requires config.value.animations.value[animationName] == AnimationJson(None, None, None, None)
    ensures GetAnimationRaw(config, animationName) == Some(RawAnimation(animationName, 2000, None, Count(1), []))
  {
  }
}
