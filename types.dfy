/**
 * Values shared by the platform back ends: byte strings, the device kinds,
 * the discovered-device value and the directory/prefix pairs searched.
 */
module Types {

  /** A byte. Characters below 256 stand for bytes so that ASCII literals are byte strings. */
  type Byte = c: char | c as int < 256

  type Bytes = seq<Byte>

  /** `str::starts_with` on byte strings. */
  predicate StartsWith(s: Bytes, prefix: Bytes) {
    |prefix| <= |s| && s[..|prefix|] == prefix
  }

  /** The category of device searched for. */
  datatype Kind = Input | Audio | Midi | Camera

  /** A discovered device: the full path of its special file. */
  datatype Found = Found(path: Bytes)

  /** One candidate watch: the directory watched and the filename prefix that selects devices in it. */
  datatype Target = Target(dir: Bytes, prefix: Bytes)

  /** An open file, identified by its descriptor. */
  datatype File = File(fd: int)

  const DevInput: Bytes := "/dev/input/"
  const DevSnd: Bytes := "/dev/snd/"
  const DevRoot: Bytes := "/dev/"

  const EventPrefix: Bytes := "event"
  const PcmPrefix: Bytes := "pcm"
  const MidiPrefix: Bytes := "midi"
  const VideoPrefix: Bytes := "video"
}
