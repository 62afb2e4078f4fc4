// Helpers of the simulation framework that the slashing genesis code calls:
// `RandIntBetween` and the cross-module parameter store `AppParams` with its
// get-or-generate lookup.

module Simulation {
  import opened MathRand
  import opened Decimal

  datatype Option<T> = None | Some(value: T)

  /** A parameter value some module has fixed for this run, as its JSON decodes. */
  datatype Value = IntValue(i: int) | DecValue(d: Dec) | DurationValue(ns: int)

  /** The store of parameters shared by every module of one simulation run. */
  type AppParams = map<string, Value>

  /** Decoding a stored value into an `int64` slot; any other kind does not decode. */
  function AsInt(v: Value): (r: Option<int>)
    ensures r.Some? <==> Fits(v, Int64Slot)
    ensures r.Some? ==> IntValue(r.value) == v
  {
    if v.IntValue? then Some(v.i) else None
  }

  /** Decoding a stored value into an `sdk.Dec` slot. */
  function AsDec(v: Value): (r: Option<Dec>)
    ensures r.Some? <==> Fits(v, DecSlot)
    ensures r.Some? ==> DecValue(r.value) == v
  {
    if v.DecValue? then Some(v.d) else None
  }

  /** Decoding a stored value into a `time.Duration` slot. */
  function AsDuration(v: Value): (r: Option<int>)
    ensures r.Some? <==> Fits(v, DurationSlot)
    ensures r.Some? ==> DurationValue(r.value) == v
  {
    if v.DurationValue? then Some(v.ns) else None
  }

  /** The value `RandIntBetween(r, min, max)` yields with the cursor at `pos`. */
  function RandIntBetweenAt(source: nat -> nat, pos: nat, min: int, max: int): (v: int)
    requires min < max
    ensures min <= v < max
  {
    IntnAt(source, pos, max - min) + min
  }

  /** `RandIntBetween(r, min, max)`: a value in [min, max) from one draw. */
  method RandIntBetween(r: Rand, min: int, max: int) returns (v: int)
    requires min < max
    modifies r
    ensures v == RandIntBetweenAt(r.source, old(r.cursor), min, max)
    ensures r.cursor == old(r.cursor) + 1
  {
    v := r.Intn(max - min);
    v := v + min;
  }

  /** The Go type of the variable a stored value is decoded into. */
  datatype Slot = Int64Slot | DecSlot | DurationSlot

  /** A stored value decodes into a variable of that type. */
  predicate Fits(v: Value, slot: Slot)
  {
    match slot
    case Int64Slot => v.IntValue?
    case DecSlot => v.DecValue?
    case DurationSlot => v.DurationValue?
  }

  /** A parameter value obtained, and the stream position after obtaining it. */
  datatype Step = Step(value: Value, pos: nat)

  /**
   * `AppParams.GetOrGenerate(key, slot, r, generator)`: a stored value is decoded into
   * the slot and no draw is taken; otherwise the generator runs at the current position
   * `pos`, yielding `generated`, and takes one draw. A stored value that does not decode
   * into the slot is a failure (`None`), which aborts the run.
   */
  function GetOrGenerate(app: AppParams, key: string, slot: Slot, generated: Value, pos: nat): Option<Step>
  {
    if key in app then
      if Fits(app[key], slot) then Some(Step(app[key], pos)) else None
    else Some(Step(generated, pos + 1))
  }

  /**
   * What one lookup promises: it fails exactly on a stored value that does not decode; a
   * stored value is reused without a draw; an absent key takes one draw and yields the
   * generator's value.
   */
  lemma GetOrGenerateOutcome(app: AppParams, key: string, slot: Slot, generated: Value, pos: nat)
    ensures var r := GetOrGenerate(app, key, slot, generated, pos);
      && (r.None? <==> key in app && !Fits(app[key], slot))
      && (r.Some? && key in app ==> r.value.value == app[key] && r.value.pos == pos)
      && (key !in app ==> r == Some(Step(generated, pos + 1)))
  {
  }
}
