// The externality registry and its valuation
// (core/ethics/externality_pricer.py). `_log` only prints and is not part
// of this model.
module ExternalityPricing {
  import opened Values

  /** `Externality`: magnitude in [-1, 1] by convention; the counts are
    * optional. */
  datatype Externality = Externality(id: string, description: string, kind: string, magnitude: real,
                                     beneficiaries: Option<int>, harmedParties: Option<int>,
                                     notes: Option<string>)

  /** `x or 0` for an optional count. */
  function OrZero(n: Option<int>): int {
    if n.Some? then n.value else 0
  }

  /** `magnitude · (1 + beneficiaries − harmed_parties)`, absent counts
    * taken as 0. */
  function Valuation(ext: Externality): (r: real)
    ensures ext.beneficiaries.None? && ext.harmedParties.None? ==> r == ext.magnitude
    ensures OrZero(ext.beneficiaries) == OrZero(ext.harmedParties) ==> r == ext.magnitude
  {
    ext.magnitude * (1 + OrZero(ext.beneficiaries) - OrZero(ext.harmedParties)) as real
  }

  /** A positive magnitude with more beneficiaries than harmed parties never
    * scores below its magnitude, and a negative one with that balance never
    * scores above it. */
  lemma ValuationSign(ext: Externality)
    requires OrZero(ext.beneficiaries) >= OrZero(ext.harmedParties)
    ensures ext.magnitude >= 0.0 ==> Valuation(ext) >= ext.magnitude
    ensures ext.magnitude <= 0.0 ==> Valuation(ext) <= ext.magnitude
  {
    var f := (1 + OrZero(ext.beneficiaries) - OrZero(ext.harmedParties)) as real;
    assert f >= 1.0;
    assert Valuation(ext) - ext.magnitude == ext.magnitude * (f - 1.0);
    if ext.magnitude >= 0.0 {
      assert ext.magnitude * (f - 1.0) >= 0.0;
    } else {
      assert ext.magnitude * (f - 1.0) <= 0.0;
    }
  }

  /** `value_score(ext_id)` against a registry. */
  function ScoreOf(registry: map<string, Externality>, id: string): (r: Result<real>)
    ensures id !in registry ==> r == Err(KeyError(id))
    ensures id in registry ==> r == Ok(Valuation(registry[id]))
  {
    if id in registry then Ok(Valuation(registry[id])) else Err(KeyError(id))
  }

  /** `ExternalityPricer`: the registry of externalities by id. */
  class Pricer {
    var registry: map<string, Externality>

    constructor ()
      ensures registry == map[]
    {
      registry := map[];
    }

    /** `register(ext)`: a new id is stored, an existing one raises and
      * leaves the registry as it was. */
    method Register(ext: Externality) returns (r: Result<()>)
      modifies this
      ensures ext.id in old(registry) ==> r == Err(ValueError) && registry == old(registry)
      ensures ext.id !in old(registry) ==> r == Ok(()) && registry == old(registry)[ext.id := ext]
    {
      if ext.id in registry {
        return Err(ValueError);
      }
      registry := registry[ext.id := ext];
      return Ok(());
    }

    /** `value_score(ext_id)` */
    method ValueScore(id: string) returns (r: Result<real>)
      ensures r == ScoreOf(registry, id)
    {
      if id !in registry {
        return Err(KeyError(id));
      }
      var ext := registry[id];
      return Ok(Valuation(ext));
    }
  }

  /** After registering a new id, its score is the new record's and every
    * other score is unchanged. */
  lemma RegisteredScore(registry: map<string, Externality>, ext: Externality, id: string)
    requires ext.id !in registry
    ensures ScoreOf(registry[ext.id := ext], ext.id) == Ok(Valuation(ext))
    ensures id != ext.id ==> ScoreOf(registry[ext.id := ext], id) == ScoreOf(registry, id)
  {
  }

  /** The example of the module: 0.85 · (1 + 120) = 102.85. */
  lemma ExampleScore()
    ensures Valuation(Externality("pos001", "Improved access to public knowledge", "positive", 0.85,
                                  Some(120), None, None)) == 102.85
  {
  }
}
