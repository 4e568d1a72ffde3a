/** The records of the orchestration layer: its configuration and the summary of a run. */
module SoundifyRecords {
  import opened Outcome

  /** Configuration: page size, candidates per search, retry budget and the pause between retries. */
  datatype SoundifyConfig = SoundifyConfig(batchSize: int, searchCandidates: int, maxRetries: int, retryDelay: real)

  /** The defaults `SoundifyConfig()` has. */
  const DefaultConfig: SoundifyConfig := SoundifyConfig(50, 5, 3, 1.0)

  /** `config or SoundifyConfig()`: a given configuration is used, otherwise the defaults. */
  function ConfigOrDefault(config: Option<SoundifyConfig>): (c: SoundifyConfig)
    ensures config.Some? ==> c == config.value
    ensures config.None? ==> c.batchSize == 50 && c.searchCandidates == 5 && c.maxRetries == 3
  {
    if config.Some? then config.value else DefaultConfig
  }

  /** The summary of a playlist creation. */
  datatype PlaylistCreationResult = PlaylistCreationResult(playlistId: string, playlistUrl: string, totalTracks: int)
}
