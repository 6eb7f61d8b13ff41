/**
 * The provider registry: a table from provider type to constructor, with
 * registration (insert or overwrite) and creation (look up, then call).
 * The repository holds it twice with the same behaviour: the
 * `providerRegistry` of pkg/tts/provider.go, and the `providerFactories`
 * of pkg/tts/registry.go read by pkg/tts/factory.go. One registry object
 * models both. The process-wide map becomes a field of that object.
 */
module Registry {
  import opened Tts

  /** A provider tag (Go's `type ProviderType string`). */
  type ProviderType = string

  const ProviderAWS: ProviderType := "aws"
  const ProviderGoogle: ProviderType := "google"
  const ProviderMicrosoft: ProviderType := "microsoft"
  const ProviderIBM: ProviderType := "ibm"
  const ProviderElevenLabs: ProviderType := "elevenlabs"
  const ProviderWitAI: ProviderType := "witai"
  const ProviderESpeak: ProviderType := "espeak"
  const ProviderSherpa: ProviderType := "sherpa"

  /** The eight tags, in declaration order. */
  function KnownProviderTypes(): (tags: seq<ProviderType>)
    ensures |tags| == 8
    ensures forall i, j :: 0 <= i < j < |tags| ==> tags[i] != tags[j]
  {
    [ProviderAWS, ProviderGoogle, ProviderMicrosoft, ProviderIBM,
     ProviderElevenLabs, ProviderWitAI, ProviderESpeak, ProviderSherpa]
  }

  /** A provider instance; its behaviour lies outside this model. */
  datatype ProviderInstance = ProviderInstance(handle: nat)

  /** What a constructor returns: a provider, or its error text. */
  datatype Construction = Constructed(provider: ProviderInstance) | ConstructionFailed(message: string)

  /** A provider constructor: func(TTSConfig) (TTSProvider, error). */
  type Constructor = TtsConfig -> Construction

  /** The error of a lookup that finds no constructor. */
  function UnsupportedMessage(t: ProviderType): string
  {
    "unsupported provider type: " + t
  }

  /** NewTTSProvider over a given table: the constructor's own result, or the unsupported-type error. */
  function Lookup(table: map<ProviderType, Constructor>, t: ProviderType, config: TtsConfig): Construction
  {
    if t !in table then ConstructionFailed(UnsupportedMessage(t)) else table[t](config)
  }

  /** After registering c under t, creating t returns c(config), success or error alike. */
  lemma CreateAfterRegister(table: map<ProviderType, Constructor>, t: ProviderType, c: Constructor, config: TtsConfig)
    ensures Lookup(table[t := c], t, config) == c(config)
  {
  }

  /** Registering under t leaves the lookup of every other tag as it was. */
  lemma RegisterLeavesOthers(table: map<ProviderType, Constructor>, t: ProviderType, c: Constructor, u: ProviderType, config: TtsConfig)
    requires u != t
    ensures Lookup(table[t := c], u, config) == Lookup(table, u, config)
  {
  }

  /** An unregistered tag gives the unsupported-type error and no provider. */
  lemma CreateUnregistered(table: map<ProviderType, Constructor>, t: ProviderType, config: TtsConfig)
    requires t !in table
    ensures Lookup(table, t, config) == ConstructionFailed("unsupported provider type: " + t)
  {
  }

  /** Creation depends only on the entry for the requested tag. */
  lemma LookupIsLocal(a: map<ProviderType, Constructor>, b: map<ProviderType, Constructor>, t: ProviderType, config: TtsConfig)
    requires (t in a <==> t in b) && (t in a ==> a[t] == b[t])
    ensures Lookup(a, t, config) == Lookup(b, t, config)
  {
  }

  /** Registering the same pair twice gives the same table as registering it once. */
  lemma RegisterIdempotent(table: map<ProviderType, Constructor>, t: ProviderType, c: Constructor)
    ensures table[t := c][t := c] == table[t := c]
  {
  }

  /** A registration adds at most one tag and removes none. */
  lemma RegisterGrowsByAtMostOne(table: map<ProviderType, Constructor>, t: ProviderType, c: Constructor)
    ensures table.Keys <= table[t := c].Keys
    ensures table[t := c].Keys == table.Keys + {t}
    ensures |table[t := c].Keys| <= |table.Keys| + 1
    ensures |table[t := c].Keys| == |table.Keys| + (if t in table then 0 else 1)
  {
    var keys := table[t := c].Keys;
    assert keys == table.Keys + {t};
    if t in table {
      assert keys == table.Keys;
    } else {
      assert |table.Keys + {t}| == |table.Keys| + |{t}|;
    }
  }

  /** The registry object: the map and its two operations. */
  class ProviderRegistry {
    var constructors: map<ProviderType, Constructor>

    /** `make(map[ProviderType]providerConstructor)`. */
    constructor ()
      ensures constructors == map[]
    {
      constructors := map[];
    }

    /** RegisterProvider: insert or overwrite the entry for t. */
    method RegisterProvider(t: ProviderType, c: Constructor)
      modifies this
      ensures constructors == old(constructors)[t := c]
    {
      constructors := constructors[t := c];
    }

    /** NewTTSProvider: a read-only lookup followed by one call of the constructor found. */
    method NewTtsProvider(t: ProviderType, config: TtsConfig) returns (r: Construction)
      ensures t !in constructors ==> r == ConstructionFailed(UnsupportedMessage(t))
      ensures t in constructors ==> r == constructors[t](config)
      ensures r == Lookup(constructors, t, config)
    {
      if t !in constructors {
        return ConstructionFailed("unsupported provider type: " + t);
      }
      var make := constructors[t];
      r := make(config);
    }
  }
}
