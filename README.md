# Randomized slashing genesis for simulation runs

This project models the randomized genesis of the Cosmos SDK slashing module, as used by
the chain simulator (`x/slashing/simulation/genesis.go`). It also proves properties of
that model. There are two parts.

- **Five samplers.** Each turns one draw of the run's random source into one slashing
  parameter:
  - the signed-blocks window is `RandIntBetween(r, 10, 1000)`;
  - the minimum signed ratio is `Intn(10)` tenths;
  - the downtime jail duration is `RandIntBetween(r, 60, 86400)` seconds;
  - the double-sign slash fraction is `1 / (Intn(50) + 1)`;
  - the downtime slash fraction is `1 / (Intn(200) + 1)`.
- **The assembler `RandomizedGenState`.** It visits the five parameter keys in a fixed
  order. For each key it reuses the value already in the run's shared parameter store
  (`AppParams`), or runs the matching sampler when the key is absent. It builds `Params`
  with the run's unbonding time, builds a genesis with no signing history, and files the
  encoded genesis under the module name `slashing` in the run's genesis bag.

Modules:

- `MathRand` (`rand.dfy`): the random source. It is a class holding the raw output
  stream of the seeded generator and a cursor. `Intn(n)` takes the next output modulo n.
- `Decimal` (`decimal.dfy`): `sdk.Dec`, modelled as an integer scaled by 10^18. It
  covers `NewDec`, `NewDecWithPrec` and `Quo`. `Quo` truncates toward zero and then
  rounds to 18 digits, half to even. Lemmas bound its error.
- `Simulation` (`simulation.dfy`): the simulator helpers the file calls. These are
  `RandIntBetween` and the parameter store with its get-or-generate lookup. Stored values
  are held as already-decoded values. A stored value decodes into a variable when its kind
  matches the variable's type (`Fits`).
- `SlashingTypes` (`types.dfy`): `Params`, `GenesisState`, the module name, and the JSON
  payload of the genesis.
- `SlashingSimulation` (`genesis.dfy`):
  - the keys;
  - each sampler as a specification function `...At(source, pos)` plus the `Gen...`
    method that takes the draw;
  - the resolution of the five lookups as a function (`ResolveFrom`, `ResolveParams`);
  - the `GeneratorInput` class;
  - the `RandomizedGenState` method, proved against that function.
- `SlashingSimulationProperties` (`properties.dfy`): lemmas about resolution (reuse, draw
  order, abort, replay, keys of other modules) and two whole-run methods (determinism,
  a run whose store holds none of the five keys).

Two points about the code that the model keeps:

- The two slash fractions are not the exact ratio 1/n. They are computed with
  `sdk.Dec.Quo`, which rounds to 18 fractional digits, so each fraction is 1/n rounded.
  The model rounds the same way. Its contracts give the bounds that hold: 1/n within half
  a unit in the 18th digit; in [1/50, 1] and [1/200, 1]; exactly 1 only when the draw is 0.
- A sampled value is not written back into the parameter store. `genesis.go` assigns it
  only to its local variable (lines 64-76). The body of `GetOrGenerate` is not part of
  this model, so the model leaves the store unchanged.

## Model

| member | source | states |
|---|---|---|
| `MathRand.IntnAt` | x/slashing/simulation/genesis.go:34 | `Intn(n)` for n > 0 yields a value in [0, n) |
| `MathRand.Rand.constructor` | x/slashing/simulation/genesis.go:53 | a fresh source over a given stream starts at position 0 |
| `MathRand.Rand.Intn` | x/slashing/simulation/genesis.go:34 | `Intn` yields the draw at the cursor and consumes exactly one position |
| `Simulation.RandIntBetweenAt` | x/slashing/simulation/genesis.go:29 | `RandIntBetween(r, min, max)` with min < max yields a value in [min, max) |
| `Simulation.AsInt` | x/slashing/simulation/genesis.go:63 | a stored value decodes into the `int64` window exactly when it is an integer, and decoding gives back the value stored |
| `Simulation.AsDec` | x/slashing/simulation/genesis.go:66 | a stored value decodes into an `sdk.Dec` variable exactly when it is a decimal, and decoding gives back the value stored |
| `Simulation.AsDuration` | x/slashing/simulation/genesis.go:69 | a stored value decodes into the `time.Duration` variable exactly when it is a duration, and decoding gives back the value stored |
| `Simulation.GetOrGenerateOutcome` | x/slashing/simulation/genesis.go:63-76 | one `GetOrGenerate` lookup fails exactly when the stored value does not decode. A stored value is reused without a draw; an absent key takes one draw and yields the generator's value |
| `Simulation.RandIntBetween` | x/slashing/simulation/genesis.go:39 | the method yields `RandIntBetweenAt` at the cursor and consumes one position |
| `Decimal.PrecisionMultiplier` | x/slashing/simulation/genesis.go:34 | the scale 10^(18-prec) times 10^prec is exactly 10^18 |
| `Decimal.NewDec` | x/slashing/simulation/genesis.go:44 | `NewDec(i)` is `NewDecWithPrec(i, 0)` |
| `Decimal.NewDecWithPrec` | x/slashing/simulation/genesis.go:34 | `NewDecWithPrec(i, prec)` times 10^prec is exactly i (no rounding) |
| `Decimal.QuoTrunc` | x/slashing/simulation/genesis.go:44 | the truncated quotient leaves a remainder smaller than the divisor and never of the opposite sign to the dividend |
| `Decimal.ChopPrecisionAndRound` | x/slashing/simulation/genesis.go:44 | the result is the nearest integer to d / 10^18; a tie goes to the even one |
| `Decimal.Quo` | x/slashing/simulation/genesis.go:44 | in scaled integers, q·b is within \|b\|·(1/2 + 10^-18) of a·10^18; that is, `a.Quo(b)` is within half a unit in the 18th digit of a/b, plus the truncation before rounding |
| `Decimal.Reciprocal` | x/slashing/simulation/genesis.go:44 | `NewDec(1).Quo(NewDec(n))` is 1/n within half a unit in the 18th digit |
| `Decimal.ReciprocalRange` | x/slashing/simulation/genesis.go:48-50 | for 1 <= n <= N, with N dividing 10^18, 1/n lies in [1/N, 1] and is 1 exactly when n = 1 |
| `SlashingTypes.NewParams` | x/slashing/simulation/genesis.go:78-79 | each of the six arguments lands in its own field of `Params`; the first is the run's unbonding time |
| `SlashingTypes.NewGenesisState` | x/slashing/simulation/genesis.go:81 | the genesis holds the given parameters and the given signing-info and missed-block collections |
| `SlashingTypes.MarshalJSON` | x/slashing/simulation/genesis.go:84 | the encoded entry is a slashing genesis that decodes back to exactly the genesis encoded, so distinct genesis states encode differently |
| `SlashingSimulation.SignedBlocksWindowAt` | x/slashing/simulation/genesis.go:28-30 | the window is in [10, 1000) and fits an `int64` |
| `SlashingSimulation.GenSignedBlocksWindow` | x/slashing/simulation/genesis.go:28-30 | the method takes that draw at the cursor and consumes one position |
| `SlashingSimulation.MinSignedPerWindowAt` | x/slashing/simulation/genesis.go:32-35 | the ratio is exactly d/10 for the draw d = `Intn(10)`, and lies in [0.0, 0.9] |
| `SlashingSimulation.GenMinSignedPerWindow` | x/slashing/simulation/genesis.go:32-35 | the method takes that draw and consumes one position |
| `SlashingSimulation.DowntimeJailDurationAt` | x/slashing/simulation/genesis.go:37-40 | the duration is a whole number of seconds in [60 s, 24 h), positive, and fits an `int64` |
| `SlashingSimulation.GenDowntimeJailDuration` | x/slashing/simulation/genesis.go:37-40 | the method takes that draw and consumes one position |
| `SlashingSimulation.SlashFractionDoubleSignAt` | x/slashing/simulation/genesis.go:42-45 | the fraction is 1/n for n = draw + 1 in [1, 50], rounded; it lies in [1/50, 1], is positive, and is 1 exactly when the draw is 0 |
| `SlashingSimulation.GenSlashFractionDoubleSign` | x/slashing/simulation/genesis.go:42-45 | the method takes that draw and consumes one position |
| `SlashingSimulation.SlashFractionDowntimeAt` | x/slashing/simulation/genesis.go:47-50 | the fraction is 1/n for n = draw + 1 in [1, 200], rounded; it lies in [1/200, 1], is positive, and is 1 exactly when the draw is 0 |
| `SlashingSimulation.GenSlashFractionDowntime` | x/slashing/simulation/genesis.go:47-50 | the method takes that draw and consumes one position |
| `SlashingSimulation.SampledValue` | x/slashing/simulation/genesis.go:63-76 | each generator closure's value decodes into the variable of its own key |
| `SlashingSimulation.ParamValues` | x/slashing/simulation/genesis.go:55-61 | a `Params` gives five values, one per key, each of its slot's type |
| `SlashingSimulation.ParamsOf` | x/slashing/simulation/genesis.go:78-79 | `NewParams` over the unbonding time and five slot values keeps the time and gives back exactly those values |
| `SlashingSimulation.ResolveFrom` | x/slashing/simulation/genesis.go:63-76 | a resolved run has one value per key |
| `SlashingSimulation.ResolveFromFilled` | x/slashing/simulation/genesis.go:63-76 | when the samplers fit their slots, every resolved value decodes into its key's slot |
| `SlashingSimulation.ResolveParams` | x/slashing/simulation/genesis.go:63-76 | the five lookups, when none fails, give five values that fill the slots of `Params` |
| `SlashingSimulation.GeneratorInput.constructor` | x/slashing/simulation/genesis.go:53 | the input carries the given store, random source, unbonding time and genesis bag |
| `SlashingSimulation.GetOrGenerateSignedBlocksWindow` | x/slashing/simulation/genesis.go:63-64 | the lookup of the window: the stored value without a draw, or the sampler's draw at the cursor; a stored value that does not decode fails without a draw |
| `SlashingSimulation.GetOrGenerateMinSignedPerWindow` | x/slashing/simulation/genesis.go:66-67 | the same for the min-signed ratio |
| `SlashingSimulation.GetOrGenerateDowntimeJailDuration` | x/slashing/simulation/genesis.go:69-70 | the same for the jail duration |
| `SlashingSimulation.GetOrGenerateSlashFractionDoubleSign` | x/slashing/simulation/genesis.go:72-73 | the same for the double-sign fraction |
| `SlashingSimulation.GetOrGenerateSlashFractionDowntime` | x/slashing/simulation/genesis.go:75-76 | the same for the downtime fraction |
| `SlashingSimulation.RandomizedGenState` | x/slashing/simulation/genesis.go:53-85 | after the run, the source's cursor is where the five lookups left it. On success the run sets the entry under `slashing` (adding it, or replacing one already there) and changes no other entry: the genesis of the resolved parameters with the run's unbonding time and empty signing-info and missed-block maps. On a failed decode the failing key is reported and the bag is unchanged |
| `SlashingSimulationProperties.KeysDistinct` | x/slashing/simulation/genesis.go:19-25 | the five keys are pairwise distinct |
| `SlashingSimulationProperties.ResolveFromDraws` | x/slashing/simulation/genesis.go:63-76 | resolution takes exactly one draw per absent key |
| `SlashingSimulationProperties.ResolveFromKeeps` | x/slashing/simulation/genesis.go:63-76 | later lookups never change a value already resolved |
| `SlashingSimulationProperties.ResolveFromChosenHere` | x/slashing/simulation/genesis.go:63-76 | the key being looked up gets its stored value, or else the draw at the current position |
| `SlashingSimulationProperties.ResolveFromChosen` | x/slashing/simulation/genesis.go:63-76 | each later key gets its stored value, or else the draw at the position after the draws of the absent keys before it |
| `SlashingSimulationProperties.ResolvedValues` | x/slashing/simulation/genesis.go:63-79 | get-or-generate, all five at once: each parameter is the stored value if present, otherwise the sampler's draw in key order. The unbonding time passes through, and exactly one draw is taken per absent key |
| `SlashingSimulationProperties.ResolveFromOutcome` | x/slashing/simulation/genesis.go:63-76 | resolution succeeds if and only if every stored value decodes. Otherwise it stops at the first key whose stored value does not, after the draws of the absent keys before it |
| `SlashingSimulationProperties.ResolveOutcome` | x/slashing/simulation/genesis.go:63-76 | the same for the five keys of the module, from the start |
| `SlashingSimulationProperties.AbsentNone` | x/slashing/simulation/genesis.go:63-76 | keys that are all present take no draw |
| `SlashingSimulationProperties.AbsentAll` | x/slashing/simulation/genesis.go:63-76 | with an empty store, every key takes one draw |
| `SlashingSimulationProperties.ResolveFromAgree` | x/slashing/simulation/genesis.go:63-76 | resolution reads the store only at the keys still to be looked up |
| `SlashingSimulationProperties.OtherKeysIgnored` | x/slashing/simulation/genesis.go:63-76 | stores that agree on the five keys give the same result, failure and stream position |
| `SlashingSimulationProperties.ReplayStored` | x/slashing/simulation/genesis.go:63-79 | a store that already holds the values of some `Params` p gives p back, whatever the stream, and takes no draw |
| `SlashingSimulationProperties.FreshFrom` | x/slashing/simulation/genesis.go:63-76 | with an empty store, the k-th key gets the draw at position k past the start |
| `SlashingSimulationProperties.FreshDraws` | x/slashing/simulation/genesis.go:28-79 | with none of the five keys stored (other modules' keys may be), the parameters are the draws at the next five positions, in the order window, min-signed, jail, double-sign, downtime. All five lie in their sampler's range |
| `SlashingSimulationProperties.RunTwice` | x/slashing/simulation/genesis.go:53-85 | two runs from independently built inputs over the same stream and store give the same bag and the same outcome. A run writes no key other than `slashing` and keeps every other entry of the bag |
| `SlashingSimulationProperties.FreshRun` | x/slashing/simulation/genesis.go:53-85 | a run whose store holds none of the five keys (other modules' keys may be), over any stream, never fails. It files a genesis with the run's unbonding time, parameters in the sampled ranges, and no signing history |

## Left out

- `MathRand.Rand.Intn`: Go's `Intn` takes 31- or 63-bit outputs and may reject some of them to stay unbiased, consuming more than one output. The model consumes one stream position per call and takes the output modulo n. The range [0, n) and the order of draws are kept; the exact values Go derives from a seed, and their uniformity, are not.
- `Simulation.RandIntBetween`: its body lives in the simulator package, not in this file. It is modelled as `r.Intn(max - min) + min`, the half-open contract the file relies on.
- A concrete seed: Go's generator is not modelled, so `FreshRun` covers a run with none of the five keys stored, for every stream and every unbonding time.
- `Decimal.Quo`: the panic when the result exceeds the 255+60-bit limit of `sdk.Dec` is not modelled. The quotients here are at most 1.
- `SlashingTypes.MarshalJSON`: JSON encoding is modelled as an injective wrapper around the genesis value. The indented encoding and `fmt.Printf` diagnostic at line 83 are output only and are left out, and so is any encode/decode round trip of the codec.
- `SlashingSimulation.RandomizedGenState`: `MustUnmarshalJSON` panics on a stored value it cannot decode. The model returns the failing key instead and leaves the bag unchanged, which is what an aborted run leaves behind. The draws taken before the failure still advance the cursor.
- The store's `GetOrGenerate` treats a key stored with a nil value as absent. The model has no nil value.
- The store's internals (JSON decoding, any caching or write-back of generated values): not in this file. A stored value is already decoded, and the store is never changed.
- `GeneratorInput` fields this file does not read (accounts, initial stake, number of bonded validators, genesis time) are not modelled.
- The codec `input.Cdc`, passed to every `GetOrGenerate` call (lines 63-76) and used to encode the genesis (lines 83-84), is not a field of the model. Decoding a stored value is replaced by the already-decoded `Value` and the `Fits` check, and encoding by `MarshalJSON`.
- Whether a stored value decodes is modelled as a match of its kind (integer, decimal, duration) against the variable's type. The codec's own decoding rules are not modelled, for example the int64 width of a stored integer or the JSON text of a decimal. `ResolveOutcome`'s if-and-only-if rests on this kind match.
- The slashing types package is not part of this model. The first field of `Params` is named `unbondTime` after the value `genesis.go` passes into it (`input.UnbondTime`, line 78), not after that field's own name in the package.
- `types.NewParams` and `types.NewGenesisState` are treated as record constructors. Their validation is not part of this file.
