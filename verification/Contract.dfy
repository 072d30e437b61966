/** The nine-field analysis identity, the engine build half of it, and the worker's failure kinds. */
module Contract {

  datatype Perspective = P1 | P2

  datatype Identity = Identity(
    replayId: string,
    perspective: Perspective,
    searchBudgetMsPerTurn: int,
    opponentSamples: int,
    threads: int,
    usageStatsCutoff: int,
    usageStatsDataset: string,
    pokeEngineTag: string,
    seed: int)

  /** What a worker image carries and what a claim filters on. */
  datatype Build = Build(pokeEngineTag: string, usageStatsDataset: string)

  function BuildOf(identity: Identity): Build {
    Build(identity.pokeEngineTag, identity.usageStatsDataset)
  }

  /** The kinds a worker can report for a job. */
  datatype ErrorKind =
    | ReplayNotFound
    | EngineUnavailable
    | EngineDataMissing
    | AnalysisRejected
    | AnalysisParseFailed
    | EngineCrashed
    | EngineInternalError

  predicate Retryable(kind: ErrorKind) {
    kind == EngineDataMissing || kind == EngineUnavailable
  }
}
