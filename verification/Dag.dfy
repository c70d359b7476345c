/** The selected-parent chain, as the GHOSTDAG data store records it. */
module Dag {
  import opened Utxo

  datatype GhostdagData = GhostdagData(blueScore: nat, selectedParent: Option<Hash>)

  type GhostdagStore = map<Hash, GhostdagData>

  const VIRTUAL_GENESIS: Hash := Hash([
    0xfe, 0xfe, 0xfe, 0xfe, 0xfe, 0xfe, 0xfe, 0xfe, 0xfe, 0xfe, 0xfe, 0xfe, 0xfe, 0xfe, 0xfe, 0xfe,
    0xfe, 0xfe, 0xfe, 0xfe, 0xfe, 0xfe, 0xfe, 0xfe, 0xfe, 0xfe, 0xfe, 0xfe, 0xfe, 0xfe, 0xfe, 0xfe])

  /** A block's blue score is above its selected parent's: what makes every walk down the chain end. */
  ghost predicate BlueScoresRise(gd: GhostdagStore) {
    forall h :: h in gd && gd[h].selectedParent.Some? && gd[h].selectedParent.value in gd ==>
      gd[gd[h].selectedParent.value].blueScore < gd[h].blueScore
  }

  /** The termination measure of a walk that stands at `h`. */
  ghost function Remaining(gd: GhostdagStore, h: Hash): (r: nat) {
    if h in gd then gd[h].blueScore + 1 else 0
  }
}
