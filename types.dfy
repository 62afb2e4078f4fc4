// The slashing module's parameter and genesis records, as the genesis code builds them.

module SlashingTypes {
  import opened Decimal

  /** The key of the slashing module's entry in the genesis-state bag. */
  const ModuleName: string := "slashing"

  /**
   * Slashing parameters; durations are in nanoseconds. The first field is the one the
   * genesis code fills with the run's unbonding time (the first argument of `NewParams`);
   * it is named after that value.
   */
  datatype Params = Params(
    unbondTime: int,
    signedBlocksWindow: int,
    minSignedPerWindow: Dec,
    downtimeJailDuration: int,
    slashFractionDoubleSign: Dec,
    slashFractionDowntime: Dec)

  /** Signing record of one validator. */
  datatype ValidatorSigningInfo = ValidatorSigningInfo(
    address: string, startHeight: int, indexOffset: int,
    jailedUntil: int, tombstoned: bool, missedBlocksCounter: int)

  /** One entry of a validator's missed-block bit array. */
  datatype MissedBlock = MissedBlock(index: int, missed: bool)

  /** The slashing module's genesis: its parameters and the signing history, keyed by address. */
  datatype GenesisState = GenesisState(
    params: Params,
    signingInfos: map<string, ValidatorSigningInfo>,
    missedBlocks: map<string, seq<MissedBlock>>)

  /** An encoded genesis entry: the slashing genesis as JSON, or another module's bytes. */
  datatype Payload = SlashingJson(genesis: GenesisState) | OtherJson(bytes: seq<bv8>)

  /** `types.NewParams`: the record built from its six fields. */
  function NewParams(unbondTime: int, signedBlocksWindow: int, minSignedPerWindow: Dec,
                     downtimeJailDuration: int, slashFractionDoubleSign: Dec,
                     slashFractionDowntime: Dec): (p: Params)
    ensures p.unbondTime == unbondTime && p.signedBlocksWindow == signedBlocksWindow
    ensures p.minSignedPerWindow == minSignedPerWindow && p.downtimeJailDuration == downtimeJailDuration
    ensures p.slashFractionDoubleSign == slashFractionDoubleSign && p.slashFractionDowntime == slashFractionDowntime
  {
    Params(unbondTime, signedBlocksWindow, minSignedPerWindow, downtimeJailDuration,
           slashFractionDoubleSign, slashFractionDowntime)
  }

  /** `types.NewGenesisState`; a nil collection is the empty one. */
  function NewGenesisState(params: Params, signingInfos: map<string, ValidatorSigningInfo>,
                           missedBlocks: map<string, seq<MissedBlock>>): (g: GenesisState)
    ensures g.params == params && g.signingInfos == signingInfos && g.missedBlocks == missedBlocks
  {
    GenesisState(params, signingInfos, missedBlocks)
  }

  /**
   * `cdc.MustMarshalJSON(genesis)`: the payload is a slashing genesis entry that decodes
   * back to exactly `genesis`, so distinct genesis states encode to distinct payloads.
   */
  function MarshalJSON(genesis: GenesisState): (p: Payload)
    ensures p.SlashingJson? && p.genesis == genesis
  {
    SlashingJson(genesis)
  }
}
