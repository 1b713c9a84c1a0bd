/**
 * The computable part of `generate_pitch_samples` in
 * src/instruments/player.rs: which sample file is used for a requested
 * pitch, by how many half steps its sound is shifted, the channel-count
 * check and the stereo-to-mono downmix.
 *
 * The file system, the FLAC decoder and the pitch shifter are inputs: the
 * outcome of looking up the sample files, a function from a pitch to the
 * decoded contents of its sample file, and a function standing for
 * `PitchShifter::shift_pitch`.
 */
module Player {
  import opened Results
  import opened Pitches
  import opened Intervals

  /**
   * The ways `generate_pitch_samples` ends without samples: the three errors
   * it returns, and `SampleFileMissing`, the panic of
   * `FlacReader::open(...).unwrap()` on a file the function has just found
   * to be missing.
   */
  datatype PlaybackError = SampleFolderNotFound | SampleFolderUnreadable | UnsupportedChannelCount | SampleFileMissing

  /**
   * What the sample folder offers for the requested pitch: its own file, or
   * no such file and then the pitch `get_the_nearest_pitch` chooses (its
   * body is not part of this model), or no such file and a folder listing
   * that fails. The chosen pitch may be the requested one itself (as when
   * the folder lists no other sample), whose file is the missing one.
   */
  datatype SampleLookup = ExactFile | NearestFile(nearest: Pitch) | ListingFailed

  /** The stream information of a FLAC file. */
  datatype StreamInfo = StreamInfo(sampleRate: nat, channels: nat, bitsPerSample: nat)

  /** A decoded sample file: its stream information and its normalised samples, interleaved by channel. */
  datatype SampleFile = SampleFile(info: StreamInfo, samples: seq<real>)

  /** The pitch whose sample file is read. */
  function ChosenPitch(requested: Pitch, lookup: SampleLookup): Pitch {
    if lookup.NearestFile? then lookup.nearest else requested
  }

  /**
   * The file lookup and `shift_steps` (lines 70-91): the shift starts at
   * zero; when the requested pitch has no file it becomes the half-step
   * count between the requested and the nearest pitch, negated when the
   * nearest pitch lies below. It is therefore the signed distance from the
   * requested pitch up to the pitch of the sample.
   */
  method ChooseSample(requested: Pitch, lookup: SampleLookup) returns (r: Result<(Pitch, int), PlaybackError>)
    ensures lookup.ExactFile? ==> r == Ok((requested, 0))
    ensures lookup.ListingFailed? ==> r == Err(SampleFolderUnreadable)
    ensures lookup.NearestFile? ==> r == Ok((lookup.nearest, Coord(lookup.nearest) - Coord(requested)))
  {
    var shiftSteps := 0;
    var chosen := requested;
    if !lookup.ExactFile? {
      if lookup.ListingFailed? {
        return Err(SampleFolderUnreadable);
      }
      chosen := lookup.nearest;
      shiftSteps := GetNumberOfSemitones(NewInterval(requested, chosen), false);
      if Lt(chosen, requested) {
        shiftSteps := -shiftSteps;
      }
    }
    return Ok((chosen, shiftSteps));
  }

  /**
   * The shift is negative exactly when the sample lies below the requested
   * pitch, and its size is the half-step count of the interval between them.
   */
  lemma ShiftSign(requested: Pitch, nearest: Pitch)
    ensures Coord(nearest) - Coord(requested) < 0 <==> Lt(nearest, requested)
    ensures Abs(Coord(nearest) - Coord(requested)) == GetNumberOfSemitones(NewInterval(requested, nearest), false)
  {
    SemitonesSymmetric(requested, nearest);
    SemitonesSymmetric(nearest, requested);
  }

  /** The samples at even positions, in order: the first channel of an interleaved stereo stream. */
  function KeepEvenIndexed<T>(s: seq<T>): (r: seq<T>)
    ensures |r| == (|s| + 1) / 2
    ensures forall i :: 0 <= i < |r| ==> r[i] == s[2 * i]
  {
    if |s| <= 1 then s else [s[0]] + KeepEvenIndexed(s[2..])
  }

  /** Lines 100-102: a stereo stream keeps its first channel; any other stream is left as it is. */
  function Downmix(samples: seq<real>, channels: nat): (mono: seq<real>)
    ensures channels == 2 ==> |mono| == (|samples| + 1) / 2 && forall i :: 0 <= i < |mono| ==> mono[i] == samples[2 * i]
    ensures channels != 2 ==> mono == samples
  {
    if channels == 2 then KeepEvenIndexed(samples) else samples
  }

  /**
   * The nearest pitch names the very file just found missing: its name is
   * the requested pitch's, so opening it fails.
   */
  predicate ChosenFileMissing(requested: Pitch, lookup: SampleLookup) {
    lookup.NearestFile? && lookup.nearest == requested
  }

  /**
   * `generate_pitch_samples`. A missing sample folder is an error before
   * anything else; then the sample file is chosen and the shift computed;
   * opening a chosen file that is known to be missing fails;
   * a file with more than two channels is an error; otherwise the first
   * channel is shifted by the negated shift, that is from the sample's
   * pitch back to the requested one, into a buffer that starts as a copy of
   * it, and the result is the file's sample rate and that buffer.
   */
  method GeneratePitchSamples(
    folderExists: bool,
    requested: Pitch,
    lookup: SampleLookup,
    decode: Pitch -> SampleFile,
    shifter: (nat, int, seq<real>, seq<real>) -> seq<real>
  ) returns (r: Result<(nat, seq<real>), PlaybackError>)
    requires forall rate, amount, input, output :: |shifter(rate, amount, input, output)| == |output|
    ensures !folderExists ==> r == Err(SampleFolderNotFound)
    ensures folderExists && lookup.ListingFailed? ==> r == Err(SampleFolderUnreadable)
    ensures folderExists && ChosenFileMissing(requested, lookup) ==> r == Err(SampleFileMissing)
    ensures
      && folderExists && !lookup.ListingFailed? && !ChosenFileMissing(requested, lookup)
      && decode(ChosenPitch(requested, lookup)).info.channels > 2
      ==> r == Err(UnsupportedChannelCount)
    ensures r.Ok? <==>
      && folderExists && !lookup.ListingFailed? && !ChosenFileMissing(requested, lookup)
      && decode(ChosenPitch(requested, lookup)).info.channels <= 2
    ensures r.Ok? ==>
      var file := decode(ChosenPitch(requested, lookup));
      var mono := Downmix(file.samples, file.info.channels);
      && r.value.0 == file.info.sampleRate
      && r.value.1 == shifter(file.info.sampleRate, Coord(requested) - Coord(ChosenPitch(requested, lookup)), mono, mono)
      && |r.value.1| == |mono|
  {
    if !folderExists {
      return Err(SampleFolderNotFound);
    }
    var choice := ChooseSample(requested, lookup);
    if choice.Err? {
      return Err(choice.error);
    }
    var (chosen, shiftSteps) := choice.value;
    if !lookup.ExactFile? && chosen == requested {
      return Err(SampleFileMissing);
    }
    var file := decode(chosen);
    if file.info.channels > 2 {
      return Err(UnsupportedChannelCount);
    }
    var samples := file.samples;
    if file.info.channels == 2 {
      samples := KeepEvenIndexed(samples);
    }
    var outSamples := samples;
    outSamples := shifter(file.info.sampleRate, -shiftSteps, samples, outSamples);
    return Ok((file.info.sampleRate, outSamples));
  }
}
