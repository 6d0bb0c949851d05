/**
 * The older `Lookit` API: a future registered with a process-wide driver,
 * whose connector reads one inotify record whenever the descriptor is ready
 * and sends each matching device path on a channel. The driver, the channel
 * and the system calls are inputs.
 */
module LookitLib {
  import opened Wrappers
  import opened Types
  import opened Inotify
  import Linux

  /** A device found by `Lookit`: its full path. */
  datatype It = It(path: Bytes)

  /** What `Lookit::new` hands the driver: the connector's directory, prefix and inotify descriptor. */
  datatype Lookit = Lookit(path: Bytes, prefix: Bytes, listen: nat)

  // ---------------------------------------------------------------- construction

  /**
   * `Lookit::new`: `None` exactly when `inotify_add_watch` fails. `listen`
   * is the descriptor `inotify_init1` returned.
   */
  function New(path: Bytes, prefix: Bytes, listen: nat, addWatch: Linux.AddWatch): (r: Option<Lookit>)
    ensures r.None? <==> addWatch(path, InAttrib) == -1
    ensures r.Some? ==> r.value.path == path && r.value.prefix == prefix && r.value.listen == listen
  {
    if addWatch(path, InAttrib) == -1 then None else Some(Lookit(path, prefix, listen))
  }

  function WithInput(listen: nat, addWatch: Linux.AddWatch): (r: Option<Lookit>)
    ensures r.None? <==> addWatch("/dev/input/", 4) == -1
    ensures r.Some? ==> r.value == Lookit("/dev/input/", "event", listen)
  {
    New(DevInput, EventPrefix, listen, addWatch)
  }

  function WithAudio(listen: nat, addWatch: Linux.AddWatch): (r: Option<Lookit>)
    ensures r.None? <==> addWatch("/dev/snd/", 4) == -1
    ensures r.Some? ==> r.value == Lookit("/dev/snd/", "pcm", listen)
  {
    New(DevSnd, PcmPrefix, listen, addWatch)
  }

  /**
   * `with_midi`: /dev/snd/ first, /dev/ only when /dev/snd/ cannot be
   * watched. Each attempt opens its own inotify descriptor.
   */
  function WithMidi(listenSnd: nat, listenRoot: nat, addWatch: Linux.AddWatch): (r: Option<Lookit>)
    ensures addWatch("/dev/snd/", 4) != -1 ==> r == Some(Lookit("/dev/snd/", "midi", listenSnd))
    ensures addWatch("/dev/snd/", 4) == -1 && addWatch("/dev/", 4) != -1 ==> r == Some(Lookit("/dev/", "midi", listenRoot))
    ensures addWatch("/dev/snd/", 4) == -1 && addWatch("/dev/", 4) == -1 ==> r.None?
  {
    var snd := New(DevSnd, MidiPrefix, listenSnd, addWatch);
    if snd.Some? then snd else New(DevRoot, MidiPrefix, listenRoot, addWatch)
  }

  function WithCamera(listen: nat, addWatch: Linux.AddWatch): (r: Option<Lookit>)
    ensures r.None? <==> addWatch("/dev/", 4) == -1
    ensures r.Some? ==> r.value == Lookit("/dev/", "video", listen)
  {
    New(DevRoot, VideoPrefix, listen, addWatch)
  }

  /** The directory and prefix a constructor settled on. */
  function TargetOf(r: Option<Lookit>): Option<Target> {
    match r
    case None => None
    case Some(l) => Some(Target(l.path, l.prefix))
  }

  /** The four constructors search exactly where the Linux searcher searches for the same kind. */
  lemma SameTableAsLinux(listen: nat, listenRoot: nat, addWatch: Linux.AddWatch)
    ensures TargetOf(WithInput(listen, addWatch)) == Linux.Select(Input, addWatch)
    ensures TargetOf(WithAudio(listen, addWatch)) == Linux.Select(Audio, addWatch)
    ensures TargetOf(WithMidi(listen, listenRoot, addWatch)) == Linux.Select(Midi, addWatch)
    ensures TargetOf(WithCamera(listen, addWatch)) == Linux.Select(Camera, addWatch)
  {
    Linux.SelectTable(addWatch);
  }

  // ---------------------------------------------------------------- the connector's callback

  /**
   * What one callback sends: for a read of exactly `size_of::<InotifyEv>()`
   * bytes whose filename has the prefix, the filename under the directory;
   * nothing otherwise.
   */
  function Delivery(path: Bytes, prefix: Bytes, count: int, record: Bytes): (d: Option<It>)
    requires |record| == RecordSize && (count == RecordSize ==> NameTerminated(record))
    ensures count != RecordSize ==> d.None?
    ensures d.Some? ==> StartsWith(d.value.path, path)
    ensures d.Some? ==> var name := d.value.path[|path|..];
      StartsWith(name, prefix) && '\0' !in name && |name| < NameSize
    ensures d.Some? && '\0' !in path ==> '\0' !in d.value.path
  {
    if count == RecordSize && StartsWith(FileName(record), prefix) then
      Some(It(path + FileName(record)))
    else None
  }

  /**
   * A full-size record the kernel wrote for a file is delivered exactly when
   * the file's name has the prefix, and then under the connector's directory.
   */
  lemma DeliveryOfEvent(path: Bytes, prefix: Bytes, ev: InotifyEv, name: Bytes)
    requires Valid(ev) && |name| < NameSize && '\0' !in name
    requires ev.name[..|name|] == name && ev.name[|name|] == '\0'
    ensures NameTerminated(Layout(ev))
    ensures Delivery(path, prefix, RecordSize, Layout(ev))
         == if StartsWith(name, prefix) then Some(It(path + name)) else None
  {
    FileNameOfEvent(ev, name);
  }

  /** On a full-size read, this connector and the Linux searcher's watch step report the same path. */
  lemma SameDecodingAsLinux(path: Bytes, prefix: Bytes, record: Bytes)
    requires NameTerminated(record)
    ensures Linux.WellFormed(Linux.WatchInput(true, RecordSize, record))
    ensures match Delivery(path, prefix, RecordSize, record)
      case Some(it) => Linux.WatchStep(path, prefix, Linux.WatchInput(true, RecordSize, record)) == Linux.Ready(Found(it.path))
      case None => Linux.WatchStep(path, prefix, Linux.WatchInput(true, RecordSize, record)) == Linux.Pending
  {
  }

  /**
   * `Connector`, with the effects of its callback on the world it talks to:
   * the items the channel accepted, whether the driver still watches the
   * descriptor, and how often the descriptor was closed.
   */
  class Connector {
    const path: Bytes
    const prefix: Bytes
    const listen: nat
    var sent: seq<It>
    var registered: bool
    var closes: nat

    /** The descriptor is watched until it is closed, and it is closed at most once. */
    ghost predicate Valid()
      reads this
    {
      closes <= 1 && (registered <==> closes == 0)
    }

    /** The connector `Lookit::new` builds, registered with the driver. */
    constructor (l: Lookit)
      ensures Valid() && registered && closes == 0 && sent == []
      ensures path == l.path && prefix == l.prefix && listen == l.listen
    {
      path := l.path;
      prefix := l.prefix;
      listen := l.listen;
      sent := [];
      registered := true;
      closes := 0;
    }

    /**
     * `callback`, run by the driver while the descriptor is registered.
     * `count` and `record` are what `read` returned and wrote, `sendOk`
     * whether the channel accepted the item. `None` tells the driver to stop.
     */
    method Callback(count: int, record: Bytes, sendOk: bool) returns (r: Option<()>)
      requires Valid() && registered
      requires |record| == RecordSize && (count == RecordSize ==> NameTerminated(record))
      modifies this
      ensures Valid()
      ensures var d := Delivery(path, prefix, count, record);
        && (r.None? <==> d.Some? && !sendOk)
        && sent == (if d.Some? && sendOk then old(sent) + [d.value] else old(sent))
        && registered == r.Some?
        && closes == old(closes) + (if r.None? then 1 else 0)
    {
      if count == RecordSize {
        var filename := FileName(record);
        if StartsWith(filename, prefix) {
          var it := It(path + filename);
          if !sendOk {
            registered := false;
            closes := closes + 1;
            return None;
          }
          sent := sent + [it];
        }
      }
      return Some(());
    }
  }

  // ---------------------------------------------------------------- opening a found device

  const ORdonly: int := 0
  const OWronly: int := 1
  const ORdwr: int := 2
  const ONonblock: int := 0x800
  const OCloexec: int := 0x8_0000

  /** The three flag words: 0o2004002, 0o2004000 and 0o2004001. */
  const ReadWriteFlags: int := 0x8_0802
  const ReadOnlyFlags: int := 0x8_0800
  const WriteOnlyFlags: int := 0x8_0801

  /**
   * The flag words are O_CLOEXEC | O_NONBLOCK with the access modes O_RDWR,
   * O_RDONLY and O_WRONLY; they differ only in the two access-mode bits. The
   * read-only word is also the flag word given to `inotify_init1`.
   */
  lemma FlagWords()
    ensures ReadWriteFlags == OCloexec + ONonblock + ORdwr
    ensures ReadOnlyFlags == OCloexec + ONonblock + ORdonly
    ensures WriteOnlyFlags == OCloexec + ONonblock + OWronly
    ensures ReadWriteFlags % 4 == ORdwr && ReadOnlyFlags % 4 == ORdonly && WriteOnlyFlags % 4 == OWronly
    ensures ReadWriteFlags / 4 == ReadOnlyFlags / 4 == WriteOnlyFlags / 4
    ensures ReadOnlyFlags == InitFlags
  {
  }

  /** `open(2)`: the descriptor, or -1 on failure. */
  type SysOpen = (Bytes, int) -> int

  /** An open outcome: `None` exactly when `open(2)` returned -1, else the descriptor it returned. */
  predicate OpenedWith(it: It, flags: int, open: SysOpen, r: Option<int>) {
    if open(it.path, flags) == -1 then r.None? else r == Some(open(it.path, flags))
  }

  /** `open_flags`; the path must hold no zero byte, or `CString::new(..).unwrap()` panics. */
  function OpenFlags(it: It, flags: int, open: SysOpen): (r: Option<int>)
    requires '\0' !in it.path
    ensures OpenedWith(it, flags, open, r)
  {
    var fd := open(it.path, flags);
    if fd == -1 then None else Some(fd)
  }

  function Open(it: It, open: SysOpen): (r: Option<int>)
    requires '\0' !in it.path
    ensures OpenedWith(it, 0x8_0802, open, r)
  {
    OpenFlags(it, ReadWriteFlags, open)
  }

  function OpenR(it: It, open: SysOpen): (r: Option<int>)
    requires '\0' !in it.path
    ensures OpenedWith(it, 0x8_0800, open, r)
  {
    OpenFlags(it, ReadOnlyFlags, open)
  }

  function OpenW(it: It, open: SysOpen): (r: Option<int>)
    requires '\0' !in it.path
    ensures OpenedWith(it, 0x8_0801, open, r)
  {
    OpenFlags(it, WriteOnlyFlags, open)
  }

  /** `file_open*`: the descriptor wrapped as a `File`, which takes ownership of it. */
  function AsFile(fd: Option<int>): (r: Option<File>)
    ensures r.Some? <==> fd.Some?
    ensures r.Some? ==> r.value.fd == fd.value
  {
    match fd
    case None => None
    case Some(d) => Some(File(d))
  }

  function FileOpen(it: It, open: SysOpen): (r: Option<File>)
    requires '\0' !in it.path
    ensures r.None? <==> open(it.path, 0x8_0802) == -1
    ensures r.Some? ==> r.value == File(open(it.path, 0x8_0802))
  {
    AsFile(Open(it, open))
  }

  function FileOpenR(it: It, open: SysOpen): (r: Option<File>)
    requires '\0' !in it.path
    ensures r.None? <==> open(it.path, 0x8_0800) == -1
    ensures r.Some? ==> r.value == File(open(it.path, 0x8_0800))
  {
    AsFile(OpenR(it, open))
  }

  function FileOpenW(it: It, open: SysOpen): (r: Option<File>)
    requires '\0' !in it.path
    ensures r.None? <==> open(it.path, 0x8_0801) == -1
    ensures r.Some? ==> r.value == File(open(it.path, 0x8_0801))
  {
    AsFile(OpenW(it, open))
  }

  /** Every delivered device can be opened without the `unwrap` panicking, for the directories searched. */
  lemma DeliveredPathsHaveNoZeroByte(l: Lookit, count: int, record: Bytes)
    requires l.path in {DevInput, DevSnd, DevRoot}
    requires |record| == RecordSize && (count == RecordSize ==> NameTerminated(record))
    ensures Delivery(l.path, l.prefix, count, record).Some? ==> '\0' !in Delivery(l.path, l.prefix, count, record).value.path
  {
  }
}
