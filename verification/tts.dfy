/**
 * Records shared by all providers and the base provider's property
 * setter (pkg/tts/tts.go). Go's float64 values are modelled as reals:
 * the setter only copies them, it computes nothing with them.
 */
module Tts {
  import opened Wrappers

  /** Construction parameters of a provider; never changed after construction. */
  datatype TtsConfig = TtsConfig(
    apiKey: string,
    region: string,
    languageCode: string,
    voiceId: string,
    outputFormat: string,
    engine: string)

  /** Runtime audio knobs: 1.0 means unmodified. */
  datatype AudioConfig = AudioConfig(rate: real, pitch: real, volume: real, deviceId: string)

  /** The provider-specific object a Voice carries along; only its provider looks inside. */
  datatype NativeVoice = NoNativeVoice | NativeHandle(handle: nat)

  datatype Voice = Voice(
    id: string,
    name: string,
    language: string,
    gender: string,
    provider: string,
    nativeVoice: NativeVoice)

  /** The dynamic type and value of the `interface{}` passed to SetProperty. */
  datatype PropertyValue =
    | Float64Value(x: real)
    | Float32Value(x: real)
    | IntValue(n: int)
    | StringValue(s: string)
    | BoolValue(b: bool)
    | NilValue

  /** The settable properties: the closed set of names SetProperty dispatches on. */
  datatype Property = Rate | Pitch | Volume

  /** The audio configuration NewBaseProvider starts with. */
  function DefaultAudioConfig(): AudioConfig
  {
    AudioConfig(1.0, 1.0, 1.0, "")
  }

  /** The name SetProperty recognises for a property. */
  function PropertyName(p: Property): string
  {
    match p
    case Rate => "rate"
    case Pitch => "pitch"
    case Volume => "volume"
  }

  /** The property a name selects, if any: the cases of SetProperty's switch. */
  function ParseProperty(name: string): (p: Option<Property>)
    ensures p.Some? ==> PropertyName(p.value) == name
    ensures p.None? ==> forall q: Property :: PropertyName(q) != name
  {
    if name == "rate" then Some(Rate)
    else if name == "pitch" then Some(Pitch)
    else if name == "volume" then Some(Volume)
    else None
  }

  /** Every property's name selects that property. */
  lemma ParsePropertyName(p: Property)
    ensures ParseProperty(PropertyName(p)) == Some(p)
  {
  }

  /** Reads one property out of a configuration. */
  function Get(c: AudioConfig, p: Property): real
  {
    match p
    case Rate => c.rate
    case Pitch => c.pitch
    case Volume => c.volume
  }

  /** The error text of a rejected SetProperty call. */
  function InvalidPropertyMessage(name: string): string
  {
    "invalid property or value type: " + name
  }

  /**
   * The audio configuration after SetProperty(name, v), or its error: the
   * name must be one of rate/pitch/volume and the value must hold a float64.
   */
  function SetPropertyResult(c: AudioConfig, name: string, v: PropertyValue): Result<AudioConfig, string>
  {
    match ParseProperty(name)
    case None => Err(InvalidPropertyMessage(name))
    case Some(p) =>
      if !v.Float64Value? then Err(InvalidPropertyMessage(name))
      else match p
        case Rate => Ok(c.(rate := v.x))
        case Pitch => Ok(c.(pitch := v.x))
        case Volume => Ok(c.(volume := v.x))
  }

  /** SetProperty is accepted exactly for a recognised name with a float64 value. */
  lemma SetPropertyAccepts(c: AudioConfig, name: string, v: PropertyValue)
    ensures SetPropertyResult(c, name, v).Ok? <==> (name == "rate" || name == "pitch" || name == "volume") && v.Float64Value?
    ensures SetPropertyResult(c, name, v).Err? ==> SetPropertyResult(c, name, v).error == "invalid property or value type: " + name
  {
  }

  /**
   * Reading back after a successful SetProperty gives the value set; the
   * other two properties and the device id are unchanged.
   */
  lemma SetThenGet(c: AudioConfig, p: Property, x: real)
    ensures SetPropertyResult(c, PropertyName(p), Float64Value(x)).Ok?
    ensures var c' := SetPropertyResult(c, PropertyName(p), Float64Value(x)).value;
            && Get(c', p) == x
            && (forall q :: q != p ==> Get(c', q) == Get(c, q))
            && c'.deviceId == c.deviceId
  {
  }

  /** Values that are not float64 (int, float32, string, bool, nil) are rejected for every name. */
  lemma NonFloat64Rejected(c: AudioConfig, name: string, v: PropertyValue)
    requires !v.Float64Value?
    ensures SetPropertyResult(c, name, v).Err?
  {
  }

  /** Setting the same property to the same value twice is the same as setting it once. */
  lemma SetPropertyIdempotent(c: AudioConfig, name: string, v: PropertyValue)
    requires SetPropertyResult(c, name, v).Ok?
    ensures SetPropertyResult(SetPropertyResult(c, name, v).value, name, v) == SetPropertyResult(c, name, v)
  {
  }

  /** Setting two different properties gives the same configuration in either order. */
  lemma SetPropertiesCommute(c: AudioConfig, p: Property, q: Property, x: real, y: real)
    requires p != q
    ensures var pq := SetPropertyResult(SetPropertyResult(c, PropertyName(p), Float64Value(x)).value, PropertyName(q), Float64Value(y));
            var qp := SetPropertyResult(SetPropertyResult(c, PropertyName(q), Float64Value(y)).value, PropertyName(p), Float64Value(x));
            pq == qp
  {
  }

  /** The shared state every provider embeds. */
  class BaseProvider {
    var config: TtsConfig
    var audioConfig: AudioConfig

    /** NewBaseProvider: the given config, rate = pitch = volume = 1.0, no device id. */
    constructor (config: TtsConfig)
      ensures this.config == config
      ensures audioConfig == DefaultAudioConfig()
    {
      this.config := config;
      audioConfig := AudioConfig(1.0, 1.0, 1.0, "");
    }

    /** SetProperty: an error is returned as `Some(text)`, nil as `None`. */
    method SetProperty(property: string, value: PropertyValue) returns (err: Option<string>)
      modifies this
      ensures config == old(config)
      ensures SetPropertyResult(old(audioConfig), property, value).Ok? ==>
                err == None && audioConfig == SetPropertyResult(old(audioConfig), property, value).value
      ensures SetPropertyResult(old(audioConfig), property, value).Err? ==>
                err == Some(SetPropertyResult(old(audioConfig), property, value).error) && audioConfig == old(audioConfig)
    {
      if property == "rate" {
        if value.Float64Value? {
          audioConfig := audioConfig.(rate := value.x);
          return None;
        }
      } else if property == "pitch" {
        if value.Float64Value? {
          audioConfig := audioConfig.(pitch := value.x);
          return None;
        }
      } else if property == "volume" {
        if value.Float64Value? {
          audioConfig := audioConfig.(volume := value.x);
          return None;
        }
      }
      return Some("invalid property or value type: " + property);
    }
  }
}
