/** The audio constants of config/settings.py. */
module Settings {
  /** Samples per second of the capture stream. */
  const SAMPLE_RATE: nat := 16000
  /** Channels per frame of the capture stream. */
  const CHANNELS: nat := 1
  /** Longest push-to-talk recording, in seconds. */
  const RECORD_MAX_SECONDS: real := 10.0
}
