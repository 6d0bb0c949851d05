/**
 * The Linux back end: a searcher that first lists the device directory and
 * then, once the listing is exhausted, watches it with inotify. The OS
 * effects are inputs: the directory listing, whether `inotify_add_watch`
 * succeeds, epoll readiness and what `read` returns.
 */
module Linux {
  import opened Wrappers
  import opened Types
  import opened Inotify

  /** One item of the `ReadDir` iterator. */
  datatype Entry =
    | Unreadable  // an `Err` item, dropped by `flatten`
    | Entry(name: Bytes, nameIsUnicode: bool, pathIsUnicode: bool)

  /**
   * The searcher's `read_dir` field: the entries the iterator has not yet
   * handed out, or `NoListing` when `read_dir` failed or the listing was
   * exhausted (the source stores an `Err` in both cases).
   */
  datatype ReadDir = Listing(rest: seq<Entry>) | NoListing

  datatype Poll = Pending | Ready(found: Found)

  /**
   * What the OS reports to one watch step: whether epoll says the inotify
   * descriptor is ready, the count `read` returns, and the
   * `size_of::<InotifyEv>()` bytes of the buffer after the read.
   */
  datatype WatchInput = WatchInput(ready: bool, count: int, record: Bytes)

  /** The buffer has the struct's size, and a record that is decoded has a terminated name. */
  predicate WellFormed(w: WatchInput) {
    |w.record| == RecordSize && (w.ready && w.count > 0 ==> NameTerminated(w.record))
  }

  /** `inotify_add_watch(listen, dir, mask)`: its return value, -1 on failure. */
  type AddWatch = (Bytes, nat) -> int

  // ---------------------------------------------------------------- construction

  /** The (directory, prefix) pairs `Searcher::new` tries for a kind, in order. */
  function Candidates(kind: Kind): seq<Target> {
    match kind
    case Input => [Target(DevInput, EventPrefix)]
    case Audio => [Target(DevSnd, PcmPrefix)]
    case Midi => [Target(DevSnd, MidiPrefix), Target(DevRoot, MidiPrefix)]
    case Camera => [Target(DevRoot, VideoPrefix)]
  }

  /** The first candidate whose directory can be watched. */
  function FirstWatchable(cs: seq<Target>, addWatch: AddWatch): (r: Option<nat>)
    ensures r.Some? ==> r.value < |cs| && addWatch(cs[r.value].dir, InAttrib) != -1
    ensures forall j | 0 <= j < (if r.Some? then r.value else |cs|) :: addWatch(cs[j].dir, InAttrib) == -1
  {
    if cs == [] then None
    else if addWatch(cs[0].dir, InAttrib) != -1 then Some(0)
    else
      match FirstWatchable(cs[1..], addWatch)
      case None => None
      case Some(k) => Some(k + 1)
  }

  /** The target `Searcher::new` settles on, or `None` when no candidate can be watched. */
  function Select(kind: Kind, addWatch: AddWatch): (r: Option<Target>)
    ensures r.Some? ==> r.value in Candidates(kind) && addWatch(r.value.dir, InAttrib) != -1
    ensures r.None? <==> forall c | c in Candidates(kind) :: addWatch(c.dir, InAttrib) == -1
  {
    var cs := Candidates(kind);
    match FirstWatchable(cs, addWatch)
    case None => None
    case Some(k) => Some(cs[k])
  }

  /**
   * The kind-to-directory table: Input, Audio and Camera have one candidate;
   * Midi uses /dev/ only when /dev/snd/ cannot be watched.
   */
  lemma SelectTable(addWatch: AddWatch)
    ensures Select(Input, addWatch) == (if addWatch("/dev/input/", 4) == -1 then None else Some(Target("/dev/input/", "event")))
    ensures Select(Audio, addWatch) == (if addWatch("/dev/snd/", 4) == -1 then None else Some(Target("/dev/snd/", "pcm")))
    ensures Select(Camera, addWatch) == (if addWatch("/dev/", 4) == -1 then None else Some(Target("/dev/", "video")))
    ensures Select(Midi, addWatch) ==
      if addWatch("/dev/snd/", 4) != -1 then Some(Target("/dev/snd/", "midi"))
      else if addWatch("/dev/", 4) != -1 then Some(Target("/dev/", "midi"))
      else None
  {
    var midi := Candidates(Midi);
    if addWatch(DevSnd, InAttrib) == -1 {
      assert midi[1..] == [Target(DevRoot, MidiPrefix)];
    }
  }

  /** Every candidate directory ends in '/'. */
  lemma CandidateDirsEndInSlash(kind: Kind, c: Target)
    requires c in Candidates(kind)
    ensures |c.dir| > 0 && c.dir[|c.dir| - 1] == '/'
  {
  }

  // ---------------------------------------------------------------- scan phase

  /** `Path::join` of a directory and an entry name (the name holds no '/'). */
  function Join(dir: Bytes, name: Bytes): Bytes {
    if dir == [] || dir[|dir| - 1] == '/' then dir + name else dir + "/" + name
  }

  /** For the directories searched, the path a listing entry gets is the path a watch event gets. */
  lemma JoinCandidate(kind: Kind, c: Target, name: Bytes)
    requires c in Candidates(kind)
    ensures Join(c.dir, name) == c.dir + name
  {
    CandidateDirsEndInSlash(kind, c);
  }

  /** A listed entry the scan reports: readable, with a Unicode name and path, and the prefix. */
  predicate Qualifies(prefix: Bytes, e: Entry) {
    e.Entry? && e.nameIsUnicode && e.pathIsUnicode && StartsWith(e.name, prefix)
  }

  /** The index of the first qualifying entry, or `|entries|` when there is none. */
  function FirstQualifying(prefix: Bytes, entries: seq<Entry>): (k: nat)
    ensures k <= |entries|
    ensures forall j | 0 <= j < k :: !Qualifies(prefix, entries[j])
    ensures k < |entries| ==> Qualifies(prefix, entries[k])
  {
    if entries == [] then 0
    else if Qualifies(prefix, entries[0]) then 0
    else 1 + FirstQualifying(prefix, entries[1..])
  }

  /** The paths of the qualifying entries, in listing order. */
  function Matches(dir: Bytes, prefix: Bytes, entries: seq<Entry>): seq<Bytes> {
    if entries == [] then []
    else (if Qualifies(prefix, entries[0]) then [Join(dir, entries[0].name)] else [])
         + Matches(dir, prefix, entries[1..])
  }

  /** The matches are the first qualifying entry's path followed by the matches after it. */
  lemma {:induction false} MatchesFromFirst(dir: Bytes, prefix: Bytes, entries: seq<Entry>)
    ensures var k := FirstQualifying(prefix, entries);
      Matches(dir, prefix, entries) ==
        if k < |entries| then [Join(dir, entries[k].name)] + Matches(dir, prefix, entries[k + 1..]) else []
  {
    if entries != [] && !Qualifies(prefix, entries[0]) {
      var tail := entries[1..];
      MatchesFromFirst(dir, prefix, tail);
      var k := FirstQualifying(prefix, tail);
      assert FirstQualifying(prefix, entries) == k + 1;
      assert Matches(dir, prefix, entries) == Matches(dir, prefix, tail);
      if k < |tail| {
        assert tail[k] == entries[k + 1];
        assert tail[k + 1..] == entries[k + 2..];
      }
    }
  }

  // ---------------------------------------------------------------- the state machine

  /** The searcher's state: its fixed directory and prefix, and the listing. */
  datatype SearchState = SearchState(path: Bytes, prefix: Bytes, readDir: ReadDir)

  /**
   * The watch half of a poll: with the descriptor ready and a positive read,
   * the record's filename, if it has the prefix, is reported under the
   * searcher's directory.
   */
  function WatchStep(path: Bytes, prefix: Bytes, w: WatchInput): (p: Poll)
    requires WellFormed(w)
    ensures !w.ready || w.count <= 0 ==> p == Pending
    ensures p.Ready? ==> StartsWith(p.found.path, path)
    ensures p.Ready? ==> var name := p.found.path[|path|..];
      StartsWith(name, prefix) && '\0' !in name && |name| < NameSize
  {
    if w.ready && w.count > 0 && StartsWith(FileName(w.record), prefix) then
      Ready(Found(path + FileName(w.record)))
    else Pending
  }

  /**
   * A record the kernel wrote for a file is reported exactly when the file's
   * name has the prefix, and then under the searcher's directory.
   */
  lemma WatchStepOnEvent(path: Bytes, prefix: Bytes, count: int, ev: InotifyEv, name: Bytes)
    requires count > 0 && Valid(ev) && |name| < NameSize && '\0' !in name
    requires ev.name[..|name|] == name && ev.name[|name|] == '\0'
    ensures WellFormed(WatchInput(true, count, Layout(ev)))
    ensures WatchStep(path, prefix, WatchInput(true, count, Layout(ev)))
         == if StartsWith(name, prefix) then Ready(Found(path + name)) else Pending
  {
    FileNameOfEvent(ev, name);
  }

  /** One `poll_next`: scan on from where the last poll stopped, else latch and take one watch step. */
  function Step(s: SearchState, w: WatchInput): (r: (Poll, SearchState))
    requires WellFormed(w)
    ensures r.1.path == s.path && r.1.prefix == s.prefix
    ensures s.readDir.NoListing? ==> r.1 == s
    ensures r.1.readDir.Listing? ==>
      && s.readDir.Listing? && r.0.Ready?
      && |r.1.readDir.rest| < |s.readDir.rest|
      && r.1.readDir.rest == s.readDir.rest[|s.readDir.rest| - |r.1.readDir.rest|..]
  {
    match s.readDir
    case NoListing => (WatchStep(s.path, s.prefix, w), s)
    case Listing(rest) =>
      var k := FirstQualifying(s.prefix, rest);
      if k < |rest| then
        (Ready(Found(Join(s.path, rest[k].name))), s.(readDir := Listing(rest[k + 1..])))
      else (WatchStep(s.path, s.prefix, w), s.(readDir := NoListing))
  }

  /**
   * A poll that yields from the listing does not consult the watch device:
   * its outcome is the same whatever epoll and `read` would have reported.
   */
  lemma ScanYieldIgnoresWatch(s: SearchState, w: WatchInput, w': WatchInput)
    requires WellFormed(w) && WellFormed(w')
    requires Step(s, w).1.readDir.Listing?
    ensures Step(s, w') == Step(s, w)
  {
  }

  /** Polling repeatedly: the results and the final state. */
  function Run(s: SearchState, ws: seq<WatchInput>): (r: (seq<Poll>, SearchState))
    requires forall i | 0 <= i < |ws| :: WellFormed(ws[i])
    ensures |r.0| == |ws| && r.1.path == s.path && r.1.prefix == s.prefix
    decreases |ws|
  {
    if ws == [] then ([], s)
    else
      var (p, t) := Step(s, ws[0]);
      var (ps, u) := Run(t, ws[1..]);
      ([p] + ps, u)
  }

  /** Once latched, a searcher never scans again: it only takes watch steps and keeps its state. */
  lemma {:induction false} LatchedForever(s: SearchState, ws: seq<WatchInput>)
    requires s.readDir.NoListing?
    requires forall i | 0 <= i < |ws| :: WellFormed(ws[i])
    ensures Run(s, ws).1 == s
    ensures forall i | 0 <= i < |ws| :: Run(s, ws).0[i] == WatchStep(s.path, s.prefix, ws[i])
  {
    if ws != [] {
      LatchedForever(s, ws[1..]);
      var ps := Run(s, ws).0;
      assert ps == [WatchStep(s.path, s.prefix, ws[0])] + Run(s, ws[1..]).0;
      forall i | 0 < i < |ws| ensures ps[i] == WatchStep(s.path, s.prefix, ws[i]) {
        assert ps[i] == Run(s, ws[1..]).0[i - 1] && ws[1..][i - 1] == ws[i];
      }
    }
  }

  /**
   * Polling a searcher that still lists: the first polls report the
   * qualifying entries one per poll, in listing order and each once; the poll
   * after the last of them latches, and from then on each poll is one watch
   * step.
   */
  lemma {:induction false} PollSequence(s: SearchState, ws: seq<WatchInput>)
    requires s.readDir.Listing?
    requires forall i | 0 <= i < |ws| :: WellFormed(ws[i])
    ensures var m := Matches(s.path, s.prefix, s.readDir.rest);
      var (ps, t) := Run(s, ws);
      && (forall i | 0 <= i < |ws| && i < |m| :: ps[i] == Ready(Found(m[i])))
      && (forall i | |m| <= i < |ws| :: ps[i] == WatchStep(s.path, s.prefix, ws[i]))
      && (if |ws| <= |m| then t.readDir.Listing? else t == s.(readDir := NoListing))
    decreases |ws|
  {
    var rest := s.readDir.rest;
    var m := Matches(s.path, s.prefix, rest);
    MatchesFromFirst(s.path, s.prefix, rest);
    if ws != [] {
      var k := FirstQualifying(s.prefix, rest);
      var (p, t) := Step(s, ws[0]);
      var ps := Run(s, ws).0;
      assert ps == [p] + Run(t, ws[1..]).0;
      if k < |rest| {
        PollSequence(t, ws[1..]);
        assert m == [Join(s.path, rest[k].name)] + Matches(s.path, s.prefix, t.readDir.rest);
        forall i | 0 < i < |ws| ensures ps[i] == Run(t, ws[1..]).0[i - 1] && ws[i] == ws[1..][i - 1] {
        }
      } else {
        assert m == [];
        LatchedForever(t, ws[1..]);
        forall i | 0 < i < |ws| ensures ps[i] == Run(t, ws[1..]).0[i - 1] && ws[i] == ws[1..][i - 1] {
        }
      }
    }
  }

  // ---------------------------------------------------------------- the searcher object

  class Searcher {
    const path: Bytes
    const prefix: Bytes
    var readDir: ReadDir

    function Model(): SearchState
      reads this
    {
      SearchState(path, prefix, readDir)
    }

    constructor (path: Bytes, prefix: Bytes, readDir: ReadDir)
      ensures Model() == SearchState(path, prefix, readDir)
    {
      this.path := path;
      this.prefix := prefix;
      this.readDir := readDir;
    }

    /** `Searcher::with`: `None` exactly when the directory cannot be watched. */
    static method With(path: Bytes, prefix: Bytes, addWatch: AddWatch, listDir: Bytes -> ReadDir)
      returns (s: Option<Searcher>)
      ensures s.None? <==> addWatch(path, InAttrib) == -1
      ensures s.Some? ==> fresh(s.value) && s.value.Model() == SearchState(path, prefix, listDir(path))
    {
      if addWatch(path, InAttrib) == -1 {
        return None;
      }
      var searcher := new Searcher(path, prefix, listDir(path));
      return Some(searcher);
    }

    /** `Searcher::new`: tries the kind's candidates in order. */
    static method New(kind: Kind, addWatch: AddWatch, listDir: Bytes -> ReadDir)
      returns (s: Option<Searcher>)
      ensures s.None? <==> Select(kind, addWatch).None?
      ensures s.Some? ==> fresh(s.value)
      ensures s.Some? ==> var t := Select(kind, addWatch).value;
        s.value.Model() == SearchState(t.dir, t.prefix, listDir(t.dir))
    {
      SelectTable(addWatch);
      match kind
      case Input => s := With(DevInput, EventPrefix, addWatch, listDir);
      case Audio => s := With(DevSnd, PcmPrefix, addWatch, listDir);
      case Midi =>
        s := With(DevSnd, MidiPrefix, addWatch, listDir);
        if s.None? {
          s := With(DevRoot, MidiPrefix, addWatch, listDir);
        }
      case Camera => s := With(DevRoot, VideoPrefix, addWatch, listDir);
    }

    /** `poll_next`. */
    method PollNext(w: WatchInput) returns (p: Poll)
      requires WellFormed(w)
      modifies this
      ensures (p, Model()) == Step(old(Model()), w)
    {
      if readDir.Listing? {
        var rest := readDir.rest;
        var i := 0;
        while i < |rest|
          invariant 0 <= i <= |rest|
          invariant readDir == old(readDir)
          invariant forall j | 0 <= j < i :: !Qualifies(prefix, rest[j])
        {
          var file := rest[i];
          i := i + 1;
          if file.Unreadable? {
            continue;
          }
          if !file.nameIsUnicode {
            continue;
          }
          if file.pathIsUnicode && StartsWith(file.name, prefix) {
            readDir := Listing(rest[i..]);
            return Ready(Found(Join(path, file.name)));
          }
        }
        readDir := NoListing;
      }
      if w.ready && w.count > 0 {
        var filename := FileName(w.record);
        if StartsWith(filename, prefix) {
          return Ready(Found(path + filename));
        }
      }
      return Pending;
    }
  }

  // ---------------------------------------------------------------- opening a found device

  /** The options `open_flags` gives `OpenOptions`. */
  datatype OpenOptions = OpenOptions(read: bool, write: bool, customFlags: int)

  /** `custom_flags(2048)`: O_NONBLOCK. */
  const ONonblock: int := 2048

  /** `OpenOptions::open`: the descriptor of the opened file, or `None` when the open fails. */
  type Opener = (Bytes, OpenOptions) -> Option<int>

  /** An open outcome: the file on success, and otherwise the very `Found` that was passed in. */
  predicate OpenedWith(f: Found, options: OpenOptions, open: Opener, r: Result<File, Found>) {
    match open(f.path, options)
    case Some(fd) => r == Ok(File(fd))
    case None => r == Err(f)
  }

  function OpenFlags(f: Found, read: bool, write: bool, open: Opener): (r: Result<File, Found>)
    ensures OpenedWith(f, OpenOptions(read, write, ONonblock), open, r)
  {
    match open(f.path, OpenOptions(read, write, ONonblock))
    case Some(fd) => Ok(File(fd))
    case None => Err(f)
  }

  function FileOpen(f: Found, open: Opener): (r: Result<File, Found>)
    ensures OpenedWith(f, OpenOptions(true, true, ONonblock), open, r)
  {
    OpenFlags(f, true, true, open)
  }

  function FileOpenR(f: Found, open: Opener): (r: Result<File, Found>)
    ensures OpenedWith(f, OpenOptions(true, false, ONonblock), open, r)
  {
    OpenFlags(f, true, false, open)
  }

  function FileOpenW(f: Found, open: Opener): (r: Result<File, Found>)
    ensures OpenedWith(f, OpenOptions(false, true, ONonblock), open, r)
  {
    OpenFlags(f, false, true, open)
  }

  /**
   * `open`, `open_r` and `open_w` as written: `file_open*().map(|x| x.as_raw_fd())`.
   * The closure owns the `File` and drops it on return, so the descriptor it
   * hands out is closed. `table` is the set of descriptors open in the process.
   */
  function RawOpenAsWritten(f: Found, read: bool, write: bool, open: Opener, table: set<int>)
    : (r: (Result<int, Found>, set<int>))
    ensures r.0.Err? ==> r.0.error == f && r.1 == table && open(f.path, OpenOptions(read, write, ONonblock)).None?
    ensures r.0.Ok? ==> open(f.path, OpenOptions(read, write, ONonblock)) == Some(r.0.value)
    ensures r.0.Ok? ==> r.1 == table - {r.0.value}
  {
    match OpenFlags(f, read, write, open)
    case Ok(file) => (Ok(file.fd), (table + {file.fd}) - {file.fd})
    case Err(g) => (Err(g), table)
  }

  /** As written, a successful raw open returns a descriptor that is no longer open. */
  lemma RawOpenReturnsClosedDescriptor(f: Found, read: bool, write: bool, open: Opener, table: set<int>, fd: int)
    requires open(f.path, OpenOptions(read, write, ONonblock)) == Some(fd)
    ensures RawOpenAsWritten(f, read, write, open, table).0 == Ok(fd)
    ensures fd !in RawOpenAsWritten(f, read, write, open, table).1
  {
  }

  /**
   * A raw open outcome as intended: on success the descriptor `open` returned,
   * still open; on failure the very `Found` that was passed in, with the
   * table as it was.
   */
  predicate RawOpenedWith(f: Found, options: OpenOptions, open: Opener, table: set<int>, r: (Result<int, Found>, set<int>)) {
    match open(f.path, options)
    case Some(fd) => r == (Ok(fd), table + {fd})
    case None => r == (Err(f), table)
  }

  /**
   * The raw open as intended: ownership of the descriptor passes to the
   * caller (`into_raw_fd`), so it stays open.
   */
  function RawOpen(f: Found, read: bool, write: bool, open: Opener, table: set<int>)
    : (r: (Result<int, Found>, set<int>))
    ensures RawOpenedWith(f, OpenOptions(read, write, ONonblock), open, table, r)
    ensures r.0.Ok? ==> r.0.value in r.1
  {
    match OpenFlags(f, read, write, open)
    case Ok(file) => (Ok(file.fd), table + {file.fd})
    case Err(g) => (Err(g), table)
  }

  /** `open` (read and write), corrected: the descriptor stays open. */
  function Open(f: Found, open: Opener, table: set<int>): (r: (Result<int, Found>, set<int>))
    ensures RawOpenedWith(f, OpenOptions(true, true, ONonblock), open, table, r)
  {
    RawOpen(f, true, true, open, table)
  }

  /** `open_r` (read only), corrected: the descriptor stays open. */
  function OpenR(f: Found, open: Opener, table: set<int>): (r: (Result<int, Found>, set<int>))
    ensures RawOpenedWith(f, OpenOptions(true, false, ONonblock), open, table, r)
  {
    RawOpen(f, true, false, open, table)
  }

  /** `open_w` (write only), corrected: the descriptor stays open. */
  function OpenW(f: Found, open: Opener, table: set<int>): (r: (Result<int, Found>, set<int>))
    ensures RawOpenedWith(f, OpenOptions(false, true, ONonblock), open, table, r)
  {
    RawOpen(f, false, true, open, table)
  }
}
