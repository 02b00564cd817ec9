/** The WAV header of the `hound` crate, which both generations convert their own audio
    description to and from. */
module Wav {
  import opened Ints

  datatype SampleFormat = Float | Int

  datatype WavSpec = WavSpec(channels: u16, sampleRate: u32, bitsPerSample: u16, sampleFormat: SampleFormat)
}
