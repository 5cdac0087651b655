/**
 * The weather state machine: the weather types and their tables, the random change to a
 * successor weather, the change gate and precipitation update run every frame, and the
 * lightning timer of thunderstorms. f32 values are modelled as exact reals; each random draw
 * is a parameter.
 */
module Weather {

  datatype WeatherType =
    Clear | PartlyCloudy | Cloudy | Overcast | Rain | HeavyRain | Thunderstorm | Snow | HeavySnow | Fog | Sandstorm

  const AllWeather: seq<WeatherType> :=
    [Clear, PartlyCloudy, Cloudy, Overcast, Rain, HeavyRain, Thunderstorm, Snow, HeavySnow, Fog, Sandstorm]

  /** `display_name`. */
  function DisplayName(w: WeatherType): (r: string)
    ensures |r| > 0
  {
    match w
    case Clear => "Clear"
    case PartlyCloudy => "Partly Cloudy"
    case Cloudy => "Cloudy"
    case Overcast => "Overcast"
    case Rain => "Rain"
    case HeavyRain => "Heavy Rain"
    case Thunderstorm => "Thunderstorm"
    case Snow => "Snow"
    case HeavySnow => "Heavy Snow"
    case Fog => "Fog"
    case Sandstorm => "Sandstorm"
  }

  /** No two weather types share a display name. */
  lemma DisplayNameInjective(a: WeatherType, b: WeatherType)
    ensures DisplayName(a) == DisplayName(b) <==> a == b
  {
  }

  /** `has_precipitation`: rain, heavy rain, thunderstorm, snow and heavy snow. */
  predicate HasPrecipitation(w: WeatherType) {
    w == Rain || w == HeavyRain || w == Thunderstorm || w == Snow || w == HeavySnow
  }

  /** `is_storm`: thunderstorm, heavy rain and heavy snow. */
  predicate IsStorm(w: WeatherType) {
    w == Thunderstorm || w == HeavyRain || w == HeavySnow
  }

  /** Every storm brings precipitation; fog, sandstorms and the cloud levels do not. */
  lemma StormHasPrecipitation(w: WeatherType)
    ensures IsStorm(w) ==> HasPrecipitation(w)
    ensures w in {Clear, PartlyCloudy, Cloudy, Overcast, Fog, Sandstorm} <==> !HasPrecipitation(w)
  {
  }

  /** The weather types `change_weather_randomly` may move to from `w`, in the game's order. */
  function Successors(w: WeatherType): (r: seq<WeatherType>)
    ensures 3 <= |r| <= 5
    ensures w in r
  {
    match w
    case Clear => [Clear, PartlyCloudy, Cloudy]
    case PartlyCloudy => [Clear, PartlyCloudy, Cloudy, Overcast]
    case Cloudy => [PartlyCloudy, Cloudy, Overcast, Rain]
    case Overcast => [Cloudy, Overcast, Rain, HeavyRain, Thunderstorm]
    case Rain => [Cloudy, Overcast, Rain, HeavyRain, Thunderstorm]
    case HeavyRain => [Overcast, Rain, HeavyRain, Thunderstorm]
    case Thunderstorm => [Overcast, Rain, HeavyRain, Thunderstorm]
    case Snow => [Cloudy, Overcast, Snow, HeavySnow]
    case HeavySnow => [Overcast, Snow, HeavySnow]
    case Fog => [Clear, PartlyCloudy, Fog]
    case Sandstorm => [Clear, PartlyCloudy, Sandstorm]
  }

  /** The successor a random draw `pick` selects: always one of the listed successors. */
  function PickSuccessor(w: WeatherType, pick: nat): (r: WeatherType)
    ensures r in Successors(w)
  {
    Successors(w)[pick % |Successors(w)|]
  }

  /** From clear weather the only successors are clear, partly cloudy and cloudy: no precipitation, no storm. */
  lemma ClearSuccessorsAreDry(pick: nat)
    ensures PickSuccessor(Clear, pick) in {Clear, PartlyCloudy, Cloudy}
    ensures !HasPrecipitation(PickSuccessor(Clear, pick))
  {
  }

  /** The precipitation intensity a fully reached target weather brings. */
  function PrecipitationBase(target: WeatherType): (r: real)
    ensures 0.0 <= r <= 0.9
    ensures r > 0.0 <==> HasPrecipitation(target)
    ensures IsStorm(target) ==> r >= 0.7
    ensures HasPrecipitation(target) && !IsStorm(target) ==> r <= 0.5
  {
    match target
    case Rain => 0.5
    case HeavyRain => 0.9
    case Thunderstorm => 0.8
    case Snow => 0.4
    case HeavySnow => 0.7
    case _ => 0.0
  }

  /** Transition progress after one frame: advanced and capped at 1 while under 1, else untouched. */
  function AdvanceProgress(p: real, step: real): (r: real)
    ensures p < 1.0 ==> r <= 1.0
    ensures p >= 1.0 ==> r == p
    ensures p < 1.0 && step >= 0.0 ==> p <= r
    ensures p < 1.0 && step >= 1.0 - p ==> r == 1.0
  {
    if p < 1.0 then (if p + step < 1.0 then p + step else 1.0) else p
  }

  /** The frame's gate for a weather change: long enough since the last one, transition done, no storm. */
  predicate MayChange(sinceChange: real, minDuration: real, progress: real, target: WeatherType) {
    sinceChange > minDuration && progress >= 1.0 && !IsStorm(target)
  }

  /** `WeatherSystem`, reduced to the fields the change logic and the precipitation table touch. */
  class WeatherSystem {
    var currentWeather: WeatherType
    var targetWeather: WeatherType
    var transitionProgress: real
    var transitionSpeed: real
    var precipitationIntensity: real
    var timeSinceWeatherChange: real
    var minWeatherDuration: real

    /** Once the default is in place, the current weather is clear and the target one of its successors. */
    ghost predicate NearClear()
      reads this
    {
      currentWeather == Clear && targetWeather in Successors(Clear)
    }

    /** `Default`: clear, fully transitioned, no precipitation, a five-minute minimum between changes. */
    constructor()
      ensures currentWeather == Clear && targetWeather == Clear
      ensures transitionProgress == 1.0 && transitionSpeed == 0.01 && precipitationIntensity == 0.0
      ensures timeSinceWeatherChange == 0.0 && minWeatherDuration == 300.0
      ensures NearClear()
    {
      currentWeather, targetWeather := Clear, Clear;
      transitionProgress, transitionSpeed := 1.0, 0.01;
      precipitationIntensity := 0.0;
      timeSinceWeatherChange, minWeatherDuration := 0.0, 300.0;
    }

    /**
     * `change_weather_randomly`: starts a transition to the successor of the current weather that
     * `pick` selects. The current weather is written back unchanged.
     */
    method ChangeWeatherRandomly(pick: nat)
      modifies this
      ensures targetWeather == PickSuccessor(old(currentWeather), pick)
      ensures currentWeather == old(currentWeather)
      ensures transitionProgress == 0.0 && timeSinceWeatherChange == 0.0
      ensures transitionSpeed == old(transitionSpeed) && precipitationIntensity == old(precipitationIntensity)
      ensures minWeatherDuration == old(minWeatherDuration)
      ensures old(NearClear()) ==> NearClear()
    {
      var current := currentWeather;
      var possible := Successors(current);
      var newWeather := possible[pick % |possible|];
      currentWeather := current;
      targetWeather := newWeather;
      transitionProgress := 0.0;
      timeSinceWeatherChange := 0.0;
    }

    /** The change as evidently intended (see `ChangeCorrected`): the old target becomes the current weather. */
    method ChangeWeatherCorrected(pick: nat)
      modifies this
      ensures (currentWeather, targetWeather) == ChangeCorrected(old(currentWeather), old(targetWeather), pick)
      ensures transitionProgress == 0.0 && timeSinceWeatherChange == 0.0
      ensures transitionSpeed == old(transitionSpeed) && precipitationIntensity == old(precipitationIntensity)
      ensures minWeatherDuration == old(minWeatherDuration)
    {
      var reached := targetWeather;
      var possible := Successors(reached);
      currentWeather := reached;
      targetWeather := possible[pick % |possible|];
      transitionProgress := 0.0;
      timeSinceWeatherChange := 0.0;
    }

    /**
     * The weather part of `update_weather_system` for a frame of `delta` seconds: advance the
     * transition and scale the target's precipitation by it, count the time since the last change,
     * and change the weather when the gate is open and the draw `roll` is under `0.001 * delta`.
     */
    method UpdateWeather(delta: real, roll: real, pick: nat) returns (changed: bool)
      modifies this
      ensures var p := AdvanceProgress(old(transitionProgress), old(transitionSpeed) * delta);
        changed <==> MayChange(old(timeSinceWeatherChange) + delta, old(minWeatherDuration), p, old(targetWeather))
                     && roll < 0.001 * delta
      ensures changed ==> (targetWeather == PickSuccessor(old(currentWeather), pick)
        && transitionProgress == 0.0 && timeSinceWeatherChange == 0.0)
      ensures !changed ==> (targetWeather == old(targetWeather)
        && transitionProgress == AdvanceProgress(old(transitionProgress), old(transitionSpeed) * delta)
        && timeSinceWeatherChange == old(timeSinceWeatherChange) + delta)
      ensures old(transitionProgress) < 1.0 ==>
        precipitationIntensity == PrecipitationBase(old(targetWeather)) * AdvanceProgress(old(transitionProgress), old(transitionSpeed) * delta)
      ensures old(transitionProgress) >= 1.0 ==> precipitationIntensity == old(precipitationIntensity)
      ensures IsStorm(old(targetWeather)) ==> !changed
      ensures currentWeather == old(currentWeather) && transitionSpeed == old(transitionSpeed)
      ensures minWeatherDuration == old(minWeatherDuration)
      ensures old(NearClear()) ==> NearClear()
    {
      if transitionProgress < 1.0 {
        transitionProgress := transitionProgress + transitionSpeed * delta;
        transitionProgress := if transitionProgress < 1.0 then transitionProgress else 1.0;
        precipitationIntensity := PrecipitationBase(targetWeather) * transitionProgress;
      }
      timeSinceWeatherChange := timeSinceWeatherChange + delta;
      changed := false;
      if timeSinceWeatherChange > minWeatherDuration && transitionProgress >= 1.0 && !IsStorm(targetWeather) {
        var chance := 0.001 * delta;
        if roll < chance {
          ChangeWeatherRandomly(pick);
          changed := true;
        }
      }
    }
  }

  /** With the game's change operation, a world started from the default never leaves the clear-weather successors. */
  lemma NearClearNeverPrecipitates(s: WeatherSystem)
    requires s.NearClear()
    ensures !HasPrecipitation(s.targetWeather) && s.targetWeather != Thunderstorm
  {
  }

  /**
   * The same drive from the default, through two changes, as a value: the weather a draw
   * sequence leads to when, as written, the current weather is never updated.
   */
  function TargetAfterAsWritten(current: WeatherType, target: WeatherType, picks: seq<nat>): (r: WeatherType)
    ensures |picks| > 0 ==> r in Successors(current)
    ensures |picks| == 0 ==> r == target
    decreases |picks|
  {
    if |picks| == 0 then target else TargetAfterAsWritten(current, PickSuccessor(current, picks[0]), picks[1..])
  }

  /** From the default, no sequence of changes ever reaches rain as written. */
  lemma NoRainFromDefaultAsWritten(picks: seq<nat>)
    ensures TargetAfterAsWritten(Clear, Clear, picks) != Rain
  {
  }

  /**
   * The change as evidently intended: the transition it starts leaves from the weather just
   * reached (the old target, which the gate requires to be fully reached), so the current weather
   * becomes the old target and the new target is one of its successors.
   */
  function ChangeCorrected(current: WeatherType, target: WeatherType, pick: nat): (r: (WeatherType, WeatherType))
    ensures r.0 == target && r.1 in Successors(target)
  {
    (target, PickSuccessor(target, pick))
  }

  /** The target reached by a sequence of corrected changes. */
  function TargetAfterCorrected(current: WeatherType, target: WeatherType, picks: seq<nat>): (r: WeatherType)
    ensures |picks| == 0 ==> r == target
    decreases |picks|
  {
    if |picks| == 0 then target
    else
      var next := ChangeCorrected(current, target, picks[0]);
      TargetAfterCorrected(next.0, next.1, picks[1..])
  }

  /** With the corrected change, rain is two changes away from the default (clear, cloudy, rain). */
  lemma RainReachableCorrected()
    ensures TargetAfterCorrected(Clear, Clear, [2, 3]) == Rain
  {
    assert ChangeCorrected(Clear, Clear, 2) == (Clear, Cloudy);
    assert ChangeCorrected(Clear, Cloudy, 3) == (Cloudy, Rain);
    assert [2, 3][1..] == [3] && [3][1..] == [];
  }

  /** With the corrected change, a thunderstorm is three changes away from the default (via cloudy and overcast). */
  lemma ThunderstormReachableCorrected()
    ensures TargetAfterCorrected(Clear, Clear, [2, 2, 4]) == Thunderstorm
  {
    assert ChangeCorrected(Clear, Clear, 2) == (Clear, Cloudy);
    assert ChangeCorrected(Clear, Cloudy, 2) == (Cloudy, Overcast);
    assert ChangeCorrected(Cloudy, Overcast, 4) == (Overcast, Thunderstorm);
    assert [2, 2, 4][1..] == [2, 4] && [2, 4][1..] == [4] && [4][1..] == [];
  }

  /** `WeatherEffects`, reduced to the lightning timer. */
  class WeatherEffects {
    var lightningFrequency: real
    var timeSinceLastLightning: real

    /** `Default`: a ten-second lightning interval, the timer at zero. */
    constructor()
      ensures lightningFrequency == 10.0 && timeSinceLastLightning == 0.0
    {
      lightningFrequency := 10.0;
      timeSinceLastLightning := 0.0;
    }

    /** `trigger_lightning`: resets the timer. */
    method TriggerLightning()
      modifies this
      ensures timeSinceLastLightning == 0.0 && lightningFrequency == old(lightningFrequency)
    {
      timeSinceLastLightning := 0.0;
    }

    /**
     * `update_lightning_effects` for a frame of `delta` seconds: nothing happens unless the target
     * weather is a thunderstorm; then the timer advances and, once it reaches the interval, a draw
     * `roll` under 0.3 strikes lightning and resets the timer.
     */
    method UpdateLightning(target: WeatherType, delta: real, roll: real) returns (struck: bool)
      modifies this
      ensures struck <==> target == Thunderstorm && old(timeSinceLastLightning) + delta >= lightningFrequency && roll < 0.3
      ensures target != Thunderstorm ==> timeSinceLastLightning == old(timeSinceLastLightning)
      ensures struck ==> timeSinceLastLightning == 0.0
      ensures target == Thunderstorm && !struck ==> timeSinceLastLightning == old(timeSinceLastLightning) + delta
      ensures lightningFrequency == old(lightningFrequency)
    {
      struck := false;
      if target != Thunderstorm {
        return;
      }
      timeSinceLastLightning := timeSinceLastLightning + delta;
      if timeSinceLastLightning >= lightningFrequency {
        if roll < 0.3 {
          TriggerLightning();
          struck := true;
        }
      }
    }
  }
}
