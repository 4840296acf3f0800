/** The three static key tables of `hevc_bitrate_count.py` and the bucket a
    syntax-element name is counted in. */
module KeyTables {
  /** Syntax elements related to prediction (`prediction_keys`). */
  const PredictionKeys: seq<string> := [
    "CABAC_BITS__SKIP_FLAG",
    "CABAC_BITS__MERGE_FLAG",
    "CABAC_BITS__MERGE_INDEX",
    "CABAC_BITS__MVP_IDX",
    "CABAC_BITS__PRED_MODE",
    "CABAC_BITS__INTRA_DIR_ANG",
    "CABAC_BITS__INTER_DIR",
    "CABAC_BITS__REF_FRM_IDX",
    "CABAC_BITS__MVD",
    "CABAC_BITS__MVD_EP",
    "CABAC_BITS__CROSS_COMPONENT_PREDICTION"
  ]

  /** Syntax elements related to the residual (`residual_keys`). */
  const ResidualKeys: seq<string> := [
    "CABAC_BITS__TQ_BYPASS_FLAG",
    "CABAC_BITS__TRANSFORM_SUBDIV_FLAG",
    "CABAC_BITS__QT_ROOT_CBF",
    "CABAC_BITS__DELTA_QP_EP",
    "CABAC_BITS__CHROMA_QP_ADJUSTMENT",
    "CABAC_BITS__QT_CBF",
    "CABAC_BITS__TRANSFORM_SKIP_FLAGS",
    "CABAC_BITS__LAST_SIG_X_Y",
    "CABAC_BITS__SIG_COEFF_GROUP_FLAG",
    "CABAC_BITS__SIG_COEFF_MAP_FLAG",
    "CABAC_BITS__GT1_FLAG",
    "CABAC_BITS__GT2_FLAG",
    "CABAC_BITS__SIGN_BIT",
    "CABAC_BITS__ESCAPE_BITS",
    "EXPLICIT_RDPCM_BITS",
    "CABAC_EP_BIT_ALIGNMENT",
    "CABAC_BITS__ALIGNED_SIGN_BIT",
    "CABAC_BITS__ALIGNED_ESCAPE_BITS"
  ]

  /** Syntax elements left out of the totals (`excluded_keys`). */
  const ExcludedKeys: seq<string> := [
    "NAL_UNIT_TOTAL_BODY"
  ]

  lemma PredictionNotResidual(name: string)
    requires name in PredictionKeys
    ensures name !in ResidualKeys
  {
  }

  /** No name is in two of the tables. */
  lemma KeyTablesDisjoint(name: string)
    ensures name in PredictionKeys ==> name !in ResidualKeys && name !in ExcludedKeys
    ensures name in ResidualKeys ==> name !in ExcludedKeys
  {
    if name in PredictionKeys {
      PredictionNotResidual(name);
    }
  }

  datatype Bucket = Prediction | Residual | Other

  /** The bucket of a name that is counted: the `elif` chain over
      prediction_keys and residual_keys. Since the tables are disjoint, the
      order of the two tests does not matter. */
  function Classify(name: string): (b: Bucket)
    ensures b == Prediction <==> name in PredictionKeys
    ensures b == Residual <==> name in ResidualKeys
    ensures b == Other <==> name !in PredictionKeys && name !in ResidualKeys
  {
    KeyTablesDisjoint(name);
    if name in PredictionKeys then Prediction
    else if name in ResidualKeys then Residual
    else Other
  }

  /** An excluded name, when it is classified at all, falls in `other`. */
  lemma ExcludedIsOther(name: string)
    requires name in ExcludedKeys
    ensures Classify(name) == Other
  {
    KeyTablesDisjoint(name);
  }
}
