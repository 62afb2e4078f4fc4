// Properties of the slashing module's randomized genesis: how each parameter is
// resolved against the shared store, in which order draws are taken, when the run
// aborts, and what the assembled parameters look like.

module SlashingSimulationProperties {
  import opened MathRand
  import opened Decimal
  import opened Simulation
  import opened SlashingTypes
  import opened SlashingSimulation

  /** How many of the keys with index in [i, k) are absent from the store: the draws they take. */
  function AbsentBetween(app: AppParams, keys: seq<string>, i: nat, k: nat): nat
    requires i <= k <= |keys|
    decreases k - i
  {
    if i == k then 0 else (if keys[i] in app then 0 else 1) + AbsentBetween(app, keys, i + 1, k)
  }

  /**
   * The value the k-th key ends up with when the lookups from the i-th key on start at
   * position pos: the stored one when the key is present, otherwise its sampler's draw
   * at the position after the draws of the absent keys between them.
   */
  function ChosenValue(app: AppParams, keys: seq<string>, sample: (nat, nat) -> Value,
                       i: nat, pos: nat, k: nat): Value
    requires i <= k < |keys|
  {
    if keys[k] in app then app[keys[k]]
    else sample(k, pos + AbsentBetween(app, keys, i, k))
  }

  /** Every stored value among the keys from index i on decodes into its slot. */
  predicate DecodableFrom(app: AppParams, keys: seq<string>, i: nat)
  {
    forall k :: i <= k < |keys| && keys[k] in app ==> DecodesAs(k, app[keys[k]])
  }

  lemma KeysDistinct()
    ensures forall i, j :: 0 <= i < j < |ParamKeys| ==> ParamKeys[i] != ParamKeys[j]
  {
  }

  /** From the i-th lookup on, one draw is taken per absent key. */
  lemma {:induction false} ResolveFromDraws(app: AppParams, keys: seq<string>, sample: (nat, nat) -> Value,
                                            i: nat, pos: nat, slots: seq<Value>)
    requires |slots| == i <= |keys|
    requires ResolveFrom(app, keys, sample, i, pos, slots).Resolved?
    ensures var res := ResolveFrom(app, keys, sample, i, pos, slots);
      res.pos == pos + AbsentBetween(app, keys, i, |keys|)
    decreases |keys| - i
  {
    if i < |keys| {
      var step := Lookup(app, keys, sample, i, pos).value;
      ResolveFromDraws(app, keys, sample, i + 1, step.pos, slots + [step.value]);
    }
  }

  /** The later lookups leave the k-th value, if already resolved, as it is. */
  lemma {:induction false} ResolveFromKeeps(app: AppParams, keys: seq<string>, sample: (nat, nat) -> Value,
                                            i: nat, pos: nat, slots: seq<Value>, k: nat)
    requires |slots| == i <= |keys| && k < i
    requires ResolveFrom(app, keys, sample, i, pos, slots).Resolved?
    ensures ResolveFrom(app, keys, sample, i, pos, slots).values[k] == slots[k]
    decreases |keys| - i
  {
    if i < |keys| {
      var step := Lookup(app, keys, sample, i, pos).value;
      ResolveFromKeeps(app, keys, sample, i + 1, step.pos, slots + [step.value], k);
    }
  }

  /** The i-th key ends up with its chosen value: the stored one, or the draw at pos. */
  lemma ResolveFromChosenHere(app: AppParams, keys: seq<string>, sample: (nat, nat) -> Value,
                              i: nat, pos: nat, slots: seq<Value>)
    requires |slots| == i < |keys|
    requires ResolveFrom(app, keys, sample, i, pos, slots).Resolved?
    ensures ResolveFrom(app, keys, sample, i, pos, slots).values[i] == ChosenValue(app, keys, sample, i, pos, i)
  {
    var step := Lookup(app, keys, sample, i, pos).value;
    var slots' := slots + [step.value];
    ResolveFromKeeps(app, keys, sample, i + 1, step.pos, slots', i);
  }

  /** The k-th key, if its lookup is the i-th or a later one, ends up with its chosen value. */
  lemma {:induction false} ResolveFromChosen(app: AppParams, keys: seq<string>, sample: (nat, nat) -> Value,
                                             i: nat, pos: nat, slots: seq<Value>, k: nat)
    requires |slots| == i <= k < |keys|
    requires ResolveFrom(app, keys, sample, i, pos, slots).Resolved?
    ensures ResolveFrom(app, keys, sample, i, pos, slots).values[k] == ChosenValue(app, keys, sample, i, pos, k)
    decreases |keys| - i
  {
    if k == i {
      ResolveFromChosenHere(app, keys, sample, i, pos, slots);
    } else {
      var step := Lookup(app, keys, sample, i, pos).value;
      var slots' := slots + [step.value];
      ResolveFromChosen(app, keys, sample, i + 1, step.pos, slots', k);
      assert AbsentBetween(app, keys, i, k) == AbsentBetween(app, keys, i, i + 1) + AbsentBetween(app, keys, i + 1, k);
    }
  }

  /**
   * Get-or-generate and draw order: each of the five parameters is its chosen value
   * (the stored one if present, else the draw at the next position), the unbonding
   * time is passed through, and exactly one draw is taken per absent key.
   */
  lemma ResolvedValues(app: AppParams, source: nat -> nat, pos: nat, unbondTime: int)
    requires ResolveParams(app, source, pos).Resolved?
    ensures var res := ResolveParams(app, source, pos);
      var p := ParamsOf(unbondTime, res.values);
      && p.unbondTime == unbondTime
      && res.pos == pos + AbsentBetween(app, ParamKeys, 0, ParamCount)
      && forall i :: 0 <= i < ParamCount ==> ParamValues(p)[i] == ChosenValue(app, ParamKeys, Sampler(source), 0, pos, i)
  {
    ResolveFromDraws(app, ParamKeys, Sampler(source), 0, pos, []);
    forall i | 0 <= i < ParamCount
      ensures ResolveParams(app, source, pos).values[i] == ChosenValue(app, ParamKeys, Sampler(source), 0, pos, i)
    {
      ResolveFromChosen(app, ParamKeys, Sampler(source), 0, pos, [], i);
    }
  }

  lemma {:induction false} ResolveFromOutcome(app: AppParams, keys: seq<string>, sample: (nat, nat) -> Value,
                                              i: nat, pos: nat, slots: seq<Value>)
    requires |slots| == i <= |keys|
    ensures var res := ResolveFrom(app, keys, sample, i, pos, slots);
      && (res.Resolved? <==> DecodableFrom(app, keys, i))
      && (res.Undecodable? ==>
            exists k :: i <= k < |keys|
              && res.key == keys[k] && keys[k] in app && !DecodesAs(k, app[keys[k]])
              && res.pos == pos + AbsentBetween(app, keys, i, k)
              && forall j :: i <= j < k && keys[j] in app ==> DecodesAs(j, app[keys[j]]))
    decreases |keys| - i
  {
    if i < |keys| {
      var res := ResolveFrom(app, keys, sample, i, pos, slots);
      match Lookup(app, keys, sample, i, pos)
      case None =>
        assert res.Undecodable? && res.key == keys[i] && res.pos == pos + AbsentBetween(app, keys, i, i);
      case Some(step) =>
        ResolveFromOutcome(app, keys, sample, i + 1, step.pos, slots + [step.value]);
        if res.Undecodable? {
          var k :| i + 1 <= k < |keys|
            && res.key == keys[k] && keys[k] in app && !DecodesAs(k, app[keys[k]])
            && res.pos == step.pos + AbsentBetween(app, keys, i + 1, k)
            && forall j :: i + 1 <= j < k && keys[j] in app ==> DecodesAs(j, app[keys[j]]);
          assert res.pos == pos + AbsentBetween(app, keys, i, k);
        }
    }
  }

  /**
   * The run gets past the five lookups exactly when every stored value among the five
   * keys decodes; otherwise it aborts at the first key, in the fixed order, whose stored
   * value does not, after the draws of the absent keys before it.
   */
  lemma ResolveOutcome(app: AppParams, source: nat -> nat, pos: nat)
    ensures var res := ResolveParams(app, source, pos);
      && (res.Resolved? <==> DecodableFrom(app, ParamKeys, 0))
      && (res.Undecodable? ==>
            exists k :: 0 <= k < |ParamKeys|
              && res.key == ParamKeys[k] && ParamKeys[k] in app && !DecodesAs(k, app[ParamKeys[k]])
              && res.pos == pos + AbsentBetween(app, ParamKeys, 0, k)
              && forall j :: 0 <= j < k && ParamKeys[j] in app ==> DecodesAs(j, app[ParamKeys[j]]))
  {
    ResolveFromOutcome(app, ParamKeys, Sampler(source), 0, pos, []);
  }

  // ---------------------------------------------------------------------------
  // Draw counting.

  /** With every key in [i, k) present, no draw is taken between them. */
  lemma {:induction false} AbsentNone(app: AppParams, keys: seq<string>, i: nat, k: nat)
    requires i <= k <= |keys|
    requires forall j :: i <= j < k ==> keys[j] in app
    ensures AbsentBetween(app, keys, i, k) == 0
    decreases k - i
  {
    if i < k {
      AbsentNone(app, keys, i + 1, k);
    }
  }

  /** With the store empty, every key in [i, k) takes a draw. */
  lemma {:induction false} AbsentAll(keys: seq<string>, i: nat, k: nat)
    requires i <= k <= |keys|
    ensures AbsentBetween(map[], keys, i, k) == k - i
    decreases k - i
  {
    if i < k {
      AbsentAll(keys, i + 1, k);
    }
  }

  // ---------------------------------------------------------------------------
  // Keys other than the five.

  /** Two stores hold the same entries (or none) at the keys from index i on. */
  predicate AgreeFrom(app1: AppParams, app2: AppParams, keys: seq<string>, i: nat)
  {
    forall k :: i <= k < |keys| ==>
      (keys[k] in app1 <==> keys[k] in app2) && (keys[k] in app1 ==> app1[keys[k]] == app2[keys[k]])
  }

  /** Resolution from the i-th key on reads the store only at the keys from i on. */
  lemma {:induction false} ResolveFromAgree(app1: AppParams, app2: AppParams, keys: seq<string>,
                                            sample: (nat, nat) -> Value, i: nat, pos: nat, slots: seq<Value>)
    requires |slots| == i <= |keys| && AgreeFrom(app1, app2, keys, i)
    ensures ResolveFrom(app1, keys, sample, i, pos, slots) == ResolveFrom(app2, keys, sample, i, pos, slots)
    decreases |keys| - i
  {
    if i < |keys| {
      assert Lookup(app1, keys, sample, i, pos) == Lookup(app2, keys, sample, i, pos);
      match Lookup(app1, keys, sample, i, pos)
      case None =>
      case Some(step) =>
        ResolveFromAgree(app1, app2, keys, sample, i + 1, step.pos, slots + [step.value]);
    }
  }

  /**
   * What other modules keep in the shared store does not matter: stores that agree on
   * the five keys resolve to the same parameters, failure and stream position.
   */
  lemma OtherKeysIgnored(app1: AppParams, app2: AppParams, source: nat -> nat, pos: nat)
    requires AgreeFrom(app1, app2, ParamKeys, 0)
    ensures ResolveParams(app1, source, pos) == ResolveParams(app2, source, pos)
  {
    ResolveFromAgree(app1, app2, ParamKeys, Sampler(source), 0, pos, []);
  }

  // ---------------------------------------------------------------------------
  // Reuse of stored values.

  /** The store holds the five values of p under the five keys. */
  predicate Stores(app: AppParams, p: Params)
  {
    forall k :: 0 <= k < ParamCount ==> ParamKeys[k] in app && app[ParamKeys[k]] == ParamValues(p)[k]
  }

  /**
   * Replay: a store that already holds the values of p yields p back (with the run's
   * unbonding time), whatever the stream, and takes no draw.
   */
  lemma ReplayStored(app: AppParams, source: nat -> nat, pos: nat, p: Params)
    requires Stores(app, p)
    ensures var res := ResolveParams(app, source, pos);
      && res == Resolved(ParamValues(p), pos)
      && ParamsOf(p.unbondTime, res.values) == p
  {
    var vs := ParamValues(p);
    assert DecodableFrom(app, ParamKeys, 0) by {
      forall k | 0 <= k < |ParamKeys| && ParamKeys[k] in app
        ensures DecodesAs(k, app[ParamKeys[k]])
      {
        assert app[ParamKeys[k]] == vs[k];
      }
    }
    ResolveOutcome(app, source, pos);
    ResolvedValues(app, source, pos, p.unbondTime);
    AbsentNone(app, ParamKeys, 0, ParamCount);
    var res := ResolveParams(app, source, pos);
    assert res.values == vs by {
      forall k | 0 <= k < ParamCount
        ensures res.values[k] == vs[k]
      {
        assert ParamValues(ParamsOf(p.unbondTime, res.values)) == res.values;
        assert ChosenValue(app, ParamKeys, Sampler(source), 0, pos, k) == vs[k];
      }
    }
    var q := ParamsOf(p.unbondTime, vs);
    assert ParamValues(q)[0] == vs[0] && ParamValues(q)[1] == vs[1] && ParamValues(q)[2] == vs[2]
        && ParamValues(q)[3] == vs[3] && ParamValues(q)[4] == vs[4];
  }

  // ---------------------------------------------------------------------------
  // A store without the five keys.

  /** The ranges the five samplers draw from. */
  predicate InSampledRanges(p: Params)
  {
    && 10 <= p.signedBlocksWindow < 1000
    && LessEq(NewDec(0), p.minSignedPerWindow) && LessEq(p.minSignedPerWindow, NewDecWithPrec(9, 1))
    && 60 * Second <= p.downtimeJailDuration < 60 * 60 * 24 * Second
    && LessEq(Dec(One / 50), p.slashFractionDoubleSign) && LessEq(p.slashFractionDoubleSign, NewDec(1))
    && LessEq(Dec(One / 200), p.slashFractionDowntime) && LessEq(p.slashFractionDowntime, NewDec(1))
  }

  /** With the store empty, the k-th key gets the draw at pos + k. */
  lemma FreshFrom(keys: seq<string>, sample: (nat, nat) -> Value, pos: nat)
    ensures var res := ResolveFrom(map[], keys, sample, 0, pos, []);
      && res.Resolved? && res.pos == pos + |keys|
      && forall k :: 0 <= k < |keys| ==> res.values[k] == sample(k, pos + k)
  {
    ResolveFromOutcome(map[], keys, sample, 0, pos, []);
    ResolveFromDraws(map[], keys, sample, 0, pos, []);
    AbsentAll(keys, 0, |keys|);
    forall k | 0 <= k < |keys|
      ensures ResolveFrom(map[], keys, sample, 0, pos, []).values[k] == sample(k, pos + k)
    {
      ResolveFromChosen(map[], keys, sample, 0, pos, [], k);
      AbsentAll(keys, 0, k);
    }
  }

  /**
   * With none of the five keys stored (other modules' keys may be), the five parameters are the draws at the next
   * five positions, in the order window, min-signed, jail, double-sign, downtime, and
   * each lies in its sampler's range.
   */
  lemma FreshDraws(app: AppParams, source: nat -> nat, pos: nat, unbondTime: int)
    requires forall k :: 0 <= k < ParamCount ==> ParamKeys[k] !in app
    ensures var res := ResolveParams(app, source, pos);
      && res.Resolved? && res.pos == pos + ParamCount
      && var p := ParamsOf(unbondTime, res.values);
      && p.unbondTime == unbondTime
      && p.signedBlocksWindow == SignedBlocksWindowAt(source, pos)
      && p.minSignedPerWindow == MinSignedPerWindowAt(source, pos + 1)
      && p.downtimeJailDuration == DowntimeJailDurationAt(source, pos + 2)
      && p.slashFractionDoubleSign == SlashFractionDoubleSignAt(source, pos + 3)
      && p.slashFractionDowntime == SlashFractionDowntimeAt(source, pos + 4)
      && InSampledRanges(p)
  {
    OtherKeysIgnored(app, map[], source, pos);
    FreshFrom(ParamKeys, Sampler(source), pos);
    var vs := ResolveParams(map[], source, pos).values;
    assert vs[0] == SampledValue(0, source, pos);
    assert vs[1] == SampledValue(1, source, pos + 1);
    assert vs[2] == SampledValue(2, source, pos + 2);
    assert vs[3] == SampledValue(3, source, pos + 3);
    assert vs[4] == SampledValue(4, source, pos + 4);
  }

  // ---------------------------------------------------------------------------
  // Whole runs.

  /**
   * Two runs over the same stream, each with its own random source, with the same store,
   * unbonding time and genesis bag, end alike. Either run writes the bag only under the
   * module's name.
   */
  method RunTwice(app: AppParams, source: nat -> nat, unbondTime: int, genState: map<string, Payload>)
    returns (state1: map<string, Payload>, failed1: Option<string>,
             state2: map<string, Payload>, failed2: Option<string>)
    ensures state1 == state2 && failed1 == failed2
    ensures forall key :: key in genState && key != ModuleName ==> key in state1 && state1[key] == genState[key]
    ensures state1.Keys <= genState.Keys + {ModuleName}
  {
    var r1 := new Rand(source);
    var input1 := new GeneratorInput(app, r1, unbondTime, genState);
    failed1 := RandomizedGenState(input1);
    state1 := input1.genState;
    var r2 := new Rand(source);
    var input2 := new GeneratorInput(app, r2, unbondTime, genState);
    failed2 := RandomizedGenState(input2);
    state2 := input2.genState;
  }

  /**
   * A run whose store holds none of the five keys (it may hold other modules' keys) never fails, and files a genesis with
   * the run's unbonding time, sampled parameters and no signing history.
   */
  method FreshRun(app: AppParams, source: nat -> nat, unbondTime: int, genState: map<string, Payload>)
    returns (state: map<string, Payload>, failed: Option<string>)
    requires forall k :: 0 <= k < ParamCount ==> ParamKeys[k] !in app
    ensures failed == None && ModuleName in state && state[ModuleName].SlashingJson?
    ensures var g := state[ModuleName].genesis;
      && g.params.unbondTime == unbondTime && InSampledRanges(g.params)
      && g.signingInfos == map[] && g.missedBlocks == map[]
  {
    var r := new Rand(source);
    var input := new GeneratorInput(app, r, unbondTime, genState);
    FreshDraws(app, source, 0, unbondTime);
    failed := RandomizedGenState(input);
    state := input.genState;
  }
}
