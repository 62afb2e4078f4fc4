// Randomized genesis parameters of the slashing module for simulation runs: five
// samplers, one per parameter, and the assembler that resolves each parameter against
// the run's shared store, builds the genesis and files it under the module's name.

module SlashingSimulation {
  import opened MathRand
  import opened Decimal
  import opened Simulation
  import opened SlashingTypes

  // Keys of the five parameters in the shared store.
  const SignedBlocksWindow: string := "signed_blocks_window"
  const MinSignedPerWindow: string := "min_signed_per_window"
  const DowntimeJailDuration: string := "downtime_jail_duration"
  const SlashFractionDoubleSign: string := "slash_fraction_double_sign"
  const SlashFractionDowntime: string := "slash_fraction_downtime"

  /** How many parameters the assembler resolves. */
  const ParamCount: nat := 5

  /** The five keys, in the order the assembler resolves them. */
  const ParamKeys: seq<string> :=
    [SignedBlocksWindow, MinSignedPerWindow, DowntimeJailDuration,
     SlashFractionDoubleSign, SlashFractionDowntime]

  /** `time.Second`, in nanoseconds. */
  const Second: int := 1_000_000_000

  /** The largest `int64`, the width of `time.Duration` and of the window. */
  const MaxInt64: int := 0x7FFF_FFFF_FFFF_FFFF

  // ---------------------------------------------------------------------------
  // Samplers. Each `...At` function is the value its sampler draws when the stream
  // holds `source` and the cursor is at `pos`; each `Gen...` method takes that draw.

  /** A signed-blocks window in [10, 1000). */
  function SignedBlocksWindowAt(source: nat -> nat, pos: nat): (w: int)
    ensures 10 <= w < 1000 && w <= MaxInt64
  {
    RandIntBetweenAt(source, pos, 10, 1000)
  }

  method GenSignedBlocksWindow(r: Rand) returns (w: int)
    modifies r
    ensures w == SignedBlocksWindowAt(r.source, old(r.cursor))
    ensures r.cursor == old(r.cursor) + 1
  {
    w := RandIntBetween(r, 10, 1000);
  }

  /** A ratio d/10 with one decimal digit d = Intn(10), so in [0.0, 0.9]. */
  function MinSignedPerWindowAt(source: nat -> nat, pos: nat): (m: Dec)
    ensures m.i * 10 == IntnAt(source, pos, 10) * One
    ensures LessEq(NewDec(0), m) && LessEq(m, NewDecWithPrec(9, 1))
  {
    NewDecWithPrec(IntnAt(source, pos, 10), 1)
  }

  method GenMinSignedPerWindow(r: Rand) returns (m: Dec)
    modifies r
    ensures m == MinSignedPerWindowAt(r.source, old(r.cursor))
    ensures r.cursor == old(r.cursor) + 1
  {
    var d := r.Intn(10);
    m := NewDecWithPrec(d, 1);
  }

  /** A whole number of seconds in [60 s, 24 h), in nanoseconds; it fits a `time.Duration`. */
  function DowntimeJailDurationAt(source: nat -> nat, pos: nat): (ns: int)
    ensures 60 * Second <= ns < 60 * 60 * 24 * Second
    ensures ns % Second == 0
    ensures 0 < ns <= MaxInt64
  {
    RandIntBetweenAt(source, pos, 60, 60 * 60 * 24) * Second
  }

  method GenDowntimeJailDuration(r: Rand) returns (ns: int)
    modifies r
    ensures ns == DowntimeJailDurationAt(r.source, old(r.cursor))
    ensures r.cursor == old(r.cursor) + 1
  {
    var s := RandIntBetween(r, 60, 60 * 60 * 24);
    ns := s * Second;
  }

  /**
   * 1/n for n = Intn(50) + 1 in [1, 50], rounded to 18 digits: in [1/50, 1], and 1
   * exactly when the draw is 0.
   */
  function SlashFractionDoubleSignAt(source: nat -> nat, pos: nat): (f: Dec)
    ensures var n := IntnAt(source, pos, 50) + 1; 2 * Abs(f.i * n - One) <= n
    ensures LessEq(Dec(One / 50), f) && LessEq(f, NewDec(1)) && Less(NewDec(0), f)
    ensures f == NewDec(1) <==> IntnAt(source, pos, 50) == 0
  {
    var n := IntnAt(source, pos, 50) + 1;
    Reciprocal(n);
    ReciprocalRange(n, 50);
    Quo(NewDec(1), NewDec(n))
  }

  method GenSlashFractionDoubleSign(r: Rand) returns (f: Dec)
    modifies r
    ensures f == SlashFractionDoubleSignAt(r.source, old(r.cursor))
    ensures r.cursor == old(r.cursor) + 1
  {
    var d := r.Intn(50);
    f := Quo(NewDec(1), NewDec(d + 1));
  }

  /**
   * 1/n for n = Intn(200) + 1 in [1, 200], rounded to 18 digits: in [1/200, 1], and 1
   * exactly when the draw is 0.
   */
  function SlashFractionDowntimeAt(source: nat -> nat, pos: nat): (f: Dec)
    ensures var n := IntnAt(source, pos, 200) + 1; 2 * Abs(f.i * n - One) <= n
    ensures LessEq(Dec(One / 200), f) && LessEq(f, NewDec(1)) && Less(NewDec(0), f)
    ensures f == NewDec(1) <==> IntnAt(source, pos, 200) == 0
  {
    var n := IntnAt(source, pos, 200) + 1;
    Reciprocal(n);
    ReciprocalRange(n, 200);
    Quo(NewDec(1), NewDec(n))
  }

  method GenSlashFractionDowntime(r: Rand) returns (f: Dec)
    modifies r
    ensures f == SlashFractionDowntimeAt(r.source, old(r.cursor))
    ensures r.cursor == old(r.cursor) + 1
  {
    var d := r.Intn(200);
    f := Quo(NewDec(1), NewDec(d + 1));
  }

  // ---------------------------------------------------------------------------
  // Assembler.

  /** What the sampler of the i-th key draws at position pos, as a parameter value. */
  function SampledValue(i: nat, source: nat -> nat, pos: nat): (v: Value)
    ensures DecodesAs(i, v)
  {
    if i == 0 then IntValue(SignedBlocksWindowAt(source, pos))
    else if i == 1 then DecValue(MinSignedPerWindowAt(source, pos))
    else if i == 2 then DurationValue(DowntimeJailDurationAt(source, pos))
    else if i == 3 then DecValue(SlashFractionDoubleSignAt(source, pos))
    else DecValue(SlashFractionDowntimeAt(source, pos))
  }

  /** The five samplers as one function of the key index and the stream position. */
  function Sampler(source: nat -> nat): (nat, nat) -> Value
  {
    (i: nat, pos: nat) => SampledValue(i, source, pos)
  }

  /** A sampler whose draws always decode into the slot of their key. */
  ghost predicate SamplerFits(sample: (nat, nat) -> Value)
  {
    forall i, pos :: DecodesAs(i, sample(i, pos))
  }

  /** The type of the variable the i-th key's value is decoded into. */
  function SlotOf(i: nat): Slot
  {
    if i == 0 then Int64Slot else if i == 2 then DurationSlot else DecSlot
  }

  /** A value decodes into the slot of the i-th key. */
  predicate DecodesAs(i: nat, v: Value)
  {
    Fits(v, SlotOf(i))
  }

  /** Values that fill the first |slots| parameter slots. */
  predicate SlotsFilled(slots: seq<Value>)
  {
    |slots| <= ParamCount && forall i :: 0 <= i < |slots| ==> DecodesAs(i, slots[i])
  }

  /** The five parameter values of p, in key order. */
  function ParamValues(p: Params): (vs: seq<Value>)
    ensures |vs| == ParamCount && SlotsFilled(vs)
  {
    [IntValue(p.signedBlocksWindow), DecValue(p.minSignedPerWindow),
     DurationValue(p.downtimeJailDuration), DecValue(p.slashFractionDoubleSign),
     DecValue(p.slashFractionDowntime)]
  }

  /** `types.NewParams` applied to the external unbonding time and the five slots. */
  function ParamsOf(unbondTime: int, slots: seq<Value>): (p: Params)
    requires |slots| == ParamCount && SlotsFilled(slots)
    ensures p.unbondTime == unbondTime && ParamValues(p) == slots
  {
    assert DecodesAs(0, slots[0]) && DecodesAs(1, slots[1]) && DecodesAs(2, slots[2])
        && DecodesAs(3, slots[3]) && DecodesAs(4, slots[4]);
    NewParams(unbondTime, slots[0].i, slots[1].d, slots[2].ns, slots[3].d, slots[4].d)
  }

  /**
   * The get-or-generate lookup of the i-th of `keys` with the cursor at pos. The spec
   * of the assembler takes the key list as a parameter; the assembler itself uses
   * `ParamKeys`.
   */
  function Lookup(app: AppParams, keys: seq<string>, sample: (nat, nat) -> Value,
                  i: nat, pos: nat): Option<Step>
    requires i < |keys|
  {
    GetOrGenerate(app, keys[i], SlotOf(i), sample(i, pos), pos)
  }

  /**
   * What resolving the five parameters yields: their values in key order and the stream
   * position after the last draw, or the first key whose stored value does not decode
   * (the run aborts there) and the position reached by then.
   */
  datatype Resolution = Resolved(values: seq<Value>, pos: nat) | Undecodable(key: string, pos: nat)

  /**
   * The lookups of the i-th key and those after it, in their fixed order, each at the
   * position the previous ones left; `slots` holds the values of the keys before i.
   */
  function ResolveFrom(app: AppParams, keys: seq<string>, sample: (nat, nat) -> Value,
                       i: nat, pos: nat, slots: seq<Value>): (res: Resolution)
    requires |slots| == i <= |keys|
    ensures res.Resolved? ==> |res.values| == |keys|
    decreases |keys| - i
  {
    if i == |keys| then Resolved(slots, pos)
    else match Lookup(app, keys, sample, i, pos)
      case None => Undecodable(keys[i], pos)
      case Some(Step(v, next)) => ResolveFrom(app, keys, sample, i + 1, next, slots + [v])
  }

  /** With a sampler that fits, resolved values fill all five slots. */
  lemma {:induction false} ResolveFromFilled(app: AppParams, keys: seq<string>, sample: (nat, nat) -> Value,
                                             i: nat, pos: nat, slots: seq<Value>)
    requires |keys| == ParamCount && SamplerFits(sample) && |slots| == i <= |keys| && SlotsFilled(slots)
    ensures var res := ResolveFrom(app, keys, sample, i, pos, slots);
      res.Resolved? ==> SlotsFilled(res.values)
    decreases |keys| - i
  {
    if i < |keys| {
      match Lookup(app, keys, sample, i, pos)
      case None =>
      case Some(Step(v, next)) =>
        assert SlotsFilled(slots + [v]);
        ResolveFromFilled(app, keys, sample, i + 1, next, slots + [v]);
    }
  }

  /** The five get-or-generate lookups of `RandomizedGenState`, from position pos. */
  function ResolveParams(app: AppParams, source: nat -> nat, pos: nat): (res: Resolution)
    ensures res.Resolved? ==> |res.values| == ParamCount && SlotsFilled(res.values)
  {
    assert SamplerFits(Sampler(source));
    ResolveFromFilled(app, ParamKeys, Sampler(source), 0, pos, []);
    ResolveFrom(app, ParamKeys, Sampler(source), 0, pos, [])
  }

  /** The part of the simulator's generator input this module uses. */
  class GeneratorInput {
    const appParams: AppParams              // parameters fixed earlier in the run
    const r: Rand                           // the run's random source
    const unbondTime: int                   // unbonding time of the run, in nanoseconds
    var genState: map<string, Payload>      // genesis entries, by module name

    constructor (appParams: AppParams, r: Rand, unbondTime: int, genState: map<string, Payload>)
      ensures this.appParams == appParams && this.r == r
      ensures this.unbondTime == unbondTime && this.genState == genState
    {
      this.appParams := appParams;
      this.r := r;
      this.unbondTime := unbondTime;
      this.genState := genState;
    }
  }

  // One `GetOrGenerate` call of the assembler each, with the closure that runs the
  // sampler: `None` when the stored value does not decode into the slot.

  method GetOrGenerateSignedBlocksWindow(app: AppParams, r: Rand) returns (got: Option<int>)
    modifies r
    ensures match Lookup(app, ParamKeys, Sampler(r.source), 0, old(r.cursor))
            case None => got == None && r.cursor == old(r.cursor)
            case Some(step) => got.Some? && step.value == IntValue(got.value) && r.cursor == step.pos
  {
    if SignedBlocksWindow in app {
      got := AsInt(app[SignedBlocksWindow]);
    } else {
      var v := GenSignedBlocksWindow(r);
      got := Some(v);
    }
  }

  method GetOrGenerateMinSignedPerWindow(app: AppParams, r: Rand) returns (got: Option<Dec>)
    modifies r
    ensures match Lookup(app, ParamKeys, Sampler(r.source), 1, old(r.cursor))
            case None => got == None && r.cursor == old(r.cursor)
            case Some(step) => got.Some? && step.value == DecValue(got.value) && r.cursor == step.pos
  {
    if MinSignedPerWindow in app {
      got := AsDec(app[MinSignedPerWindow]);
    } else {
      var v := GenMinSignedPerWindow(r);
      got := Some(v);
    }
  }

  method GetOrGenerateDowntimeJailDuration(app: AppParams, r: Rand) returns (got: Option<int>)
    modifies r
    ensures match Lookup(app, ParamKeys, Sampler(r.source), 2, old(r.cursor))
            case None => got == None && r.cursor == old(r.cursor)
            case Some(step) => got.Some? && step.value == DurationValue(got.value) && r.cursor == step.pos
  {
    if DowntimeJailDuration in app {
      got := AsDuration(app[DowntimeJailDuration]);
    } else {
      var v := GenDowntimeJailDuration(r);
      got := Some(v);
    }
  }

  method GetOrGenerateSlashFractionDoubleSign(app: AppParams, r: Rand) returns (got: Option<Dec>)
    modifies r
    ensures match Lookup(app, ParamKeys, Sampler(r.source), 3, old(r.cursor))
            case None => got == None && r.cursor == old(r.cursor)
            case Some(step) => got.Some? && step.value == DecValue(got.value) && r.cursor == step.pos
  {
    if SlashFractionDoubleSign in app {
      got := AsDec(app[SlashFractionDoubleSign]);
    } else {
      var v := GenSlashFractionDoubleSign(r);
      got := Some(v);
    }
  }

  method GetOrGenerateSlashFractionDowntime(app: AppParams, r: Rand) returns (got: Option<Dec>)
    modifies r
    ensures match Lookup(app, ParamKeys, Sampler(r.source), 4, old(r.cursor))
            case None => got == None && r.cursor == old(r.cursor)
            case Some(step) => got.Some? && step.value == DecValue(got.value) && r.cursor == step.pos
  {
    if SlashFractionDowntime in app {
      got := AsDec(app[SlashFractionDowntime]);
    } else {
      var v := GenSlashFractionDowntime(r);
      got := Some(v);
    }
  }

  /**
   * `RandomizedGenState`: resolves the five parameters, then files the slashing genesis
   * (those parameters, no signing history) under `ModuleName`. A stored value that does
   * not decode aborts the run: its key is returned and no entry is written.
   */
  method RandomizedGenState(input: GeneratorInput) returns (failedKey: Option<string>)
    modifies input`genState, input.r
    ensures var res := ResolveParams(input.appParams, input.r.source, old(input.r.cursor));
      && input.r.cursor == res.pos
      && match res
         case Resolved(values, _) =>
           && failedKey == None
           && input.genState == old(input.genState)[ModuleName :=
                MarshalJSON(NewGenesisState(ParamsOf(input.unbondTime, values), map[], map[]))]
         case Undecodable(key, _) =>
           && failedKey == Some(key)
           && input.genState == old(input.genState)
  {
    var app := input.appParams;
    ghost var resolution := ResolveParams(app, input.r.source, input.r.cursor);
    ghost var slots: seq<Value> := [];

    var signedBlocksWindowGot := GetOrGenerateSignedBlocksWindow(app, input.r);
    if signedBlocksWindowGot.None? { return Some(SignedBlocksWindow); }
    var signedBlocksWindow := signedBlocksWindowGot.value;
    slots := slots + [IntValue(signedBlocksWindow)];
    assert resolution == ResolveFrom(app, ParamKeys, Sampler(input.r.source), 1, input.r.cursor, slots);

    var minSignedPerWindowGot := GetOrGenerateMinSignedPerWindow(app, input.r);
    if minSignedPerWindowGot.None? { return Some(MinSignedPerWindow); }
    var minSignedPerWindow := minSignedPerWindowGot.value;
    slots := slots + [DecValue(minSignedPerWindow)];
    assert resolution == ResolveFrom(app, ParamKeys, Sampler(input.r.source), 2, input.r.cursor, slots);

    var downtimeJailDurationGot := GetOrGenerateDowntimeJailDuration(app, input.r);
    if downtimeJailDurationGot.None? { return Some(DowntimeJailDuration); }
    var downtimeJailDuration := downtimeJailDurationGot.value;
    slots := slots + [DurationValue(downtimeJailDuration)];
    assert resolution == ResolveFrom(app, ParamKeys, Sampler(input.r.source), 3, input.r.cursor, slots);

    var slashFractionDoubleSignGot := GetOrGenerateSlashFractionDoubleSign(app, input.r);
    if slashFractionDoubleSignGot.None? { return Some(SlashFractionDoubleSign); }
    var slashFractionDoubleSign := slashFractionDoubleSignGot.value;
    slots := slots + [DecValue(slashFractionDoubleSign)];
    assert resolution == ResolveFrom(app, ParamKeys, Sampler(input.r.source), 4, input.r.cursor, slots);

    var slashFractionDowntimeGot := GetOrGenerateSlashFractionDowntime(app, input.r);
    if slashFractionDowntimeGot.None? { return Some(SlashFractionDowntime); }
    var slashFractionDowntime := slashFractionDowntimeGot.value;
    slots := slots + [DecValue(slashFractionDowntime)];
    assert resolution == ResolveFrom(app, ParamKeys, Sampler(input.r.source), 5, input.r.cursor, slots);

    var params := NewParams(input.unbondTime, signedBlocksWindow, minSignedPerWindow,
                            downtimeJailDuration, slashFractionDoubleSign, slashFractionDowntime);
    var slashingGenesis := NewGenesisState(params, map[], map[]);
    input.genState := input.genState[ModuleName := MarshalJSON(slashingGenesis)];
    failedKey := None;
  }
}
