# lookit: discovering device files under /dev

This project models the device-discovery core of the `lookit` Rust crate.
You ask for a kind of device (input, audio, MIDI, camera). The crate watches the matching
directory under `/dev` with Linux inotify and reports each device file whose name has the
kind's prefix. The model is written in Dafny and proved with it.

Three source files are modelled:

- `src/linux.rs` is the current Linux back end. `Searcher::new` maps a kind to one or two
  (directory, prefix) candidates and keeps the first whose directory can be watched.
  `poll_next` first walks the directory listing to the next qualifying entry. It yields at
  most one entry per poll and resumes there on the next poll. When the listing runs out it
  latches into the watch phase. From then on each poll checks epoll readiness once,
  does one `read` into a `struct inotify_event` buffer, and decodes that single record.
  `Found::open*` opens a found path; a failed open hands the same `Found` back.
- `src/lib.rs` is the older `Lookit` API. It has the same kind-to-directory table. Its driver
  callback acts only on a read of exactly `size_of::<InotifyEv>()` = 272 bytes. It sends
  matching paths on a channel, and when a send fails it unregisters and closes its descriptor.
  `It::open*` uses fixed `open(2)` flag words.
- `src/mock.rs` is the stub platform: no searcher for any kind, and `open` always fails.

Every operating-system effect is a parameter of the model:

- `inotify_add_watch`: a function from (directory, mask) to its return value, -1 on failure.
- `read_dir`: a function from a directory to a listing, or to `NoListing` when it fails.
- One watch step: epoll readiness, the count `read` returned, and the 272 bytes of the buffer.
- The channel send: a boolean.
- `open`: a function from path and options to the descriptor it returns.

Paths and names are byte strings. A byte is a character below 256, so the ASCII constants
(`"/dev/input/"`, `"event"`, …) are byte strings too. The record is decoded field by field as
laid out in the Linux inotify(7) manual page, on a little-endian host: watch descriptor,
mask, cookie and name length at offsets 0, 4, 8 and 12, then a 256-byte null-padded name
at offset 16.

Modules and files:

| file | module | models |
|---|---|---|
| wrappers.dfy | `Wrappers` | `Option`, `Result` |
| types.dfy | `Types` | bytes, `Kind`, `Found`, `File`, the directory and prefix constants |
| inotify.dfy | `Inotify` | `struct inotify_event` in both back ends; the name before its first zero byte (`strlen`) |
| linux.dfy | `Linux` | `src/linux.rs` |
| lookit_lib.dfy | `LookitLib` | `src/lib.rs` |
| mock.dfy | `Mock` | `src/mock.rs` |

Each watch step reads a fixed 272 bytes and decodes only the first record. The watch
uses mask 4 (IN_ATTRIB). The model follows this.

## Model

| member | source | states |
|---|---|---|
| `Inotify.Word32OfLe32` | src/linux.rs:183-187 | a 32-bit header field read back from its four little-endian bytes is the value stored |
| `Inotify.Le32OfWord32` | src/linux.rs:183-187 | every four bytes are the little-endian encoding of the value they decode to |
| `Inotify.Layout` | src/linux.rs:180-189 | an event's memory is 272 bytes with the name array at offset 16 |
| `Inotify.Parse` | src/lib.rs:168-177 | reading a 272-byte buffer as the struct gives a valid event whose name array is bytes 16..272 |
| `Inotify.ParseLayout` | src/linux.rs:180-189 | decoding an event's memory gives back that event |
| `Inotify.LayoutParse` | src/linux.rs:180-189 | every 272-byte buffer is the memory of exactly the event it decodes to |
| `Inotify.Strlen` | src/linux.rs:165 | `strlen` on a name array that holds a zero byte is the index of the first zero byte |
| `Inotify.FileName` | src/linux.rs:164-166 | the filename is the name field's bytes before the first zero: shorter than 256, zero-free, followed by a zero |
| `Inotify.FileNameOfEvent` | src/lib.rs:204-206 | for an event whose name is `n` followed by null padding, the filename decoded from its memory is `n` |
| `Linux.FirstWatchable` | src/linux.rs:96-105 | candidates are tried in order: the chosen one can be watched and every earlier one returned -1 |
| `Linux.Select` | src/linux.rs:96-105 | construction picks a watchable candidate of the kind, and fails exactly when every candidate returns -1 |
| `Linux.SelectTable` | src/linux.rs:98-104 | Input → (/dev/input/, event), Audio → (/dev/snd/, pcm), Camera → (/dev/, video); Midi → (/dev/snd/, midi), or (/dev/, midi) only when /dev/snd/ cannot be watched |
| `Linux.CandidateDirsEndInSlash` | src/linux.rs:99-103 | every candidate directory ends in '/' |
| `Linux.JoinCandidate` | src/linux.rs:143-145 | for the directories searched, a listed entry's path is the directory followed by the name, the same path a watch event for that name gives |
| `Linux.FirstQualifying` | src/linux.rs:137-148 | the scan stops at the first entry that is readable, has a Unicode name and path, and has the prefix; every entry before it fails one of these |
| `Linux.MatchesFromFirst` | src/linux.rs:137-148 | all qualifying entries, in order, are the first one stopped at followed by the qualifying entries after it |
| `Linux.WatchStep` | src/linux.rs:155-174 | not ready or a read ≤ 0 gives `Pending`; a `Found` is the searcher's directory followed by a zero-free name under 256 bytes that has the prefix |
| `Linux.WatchStepOnEvent` | src/linux.rs:159-170 | for a record the kernel wrote for file `n`, a ready poll with a positive read yields `Found(path ++ n)` iff `n` has the prefix, and `Pending` otherwise |
| `Linux.Step` | src/linux.rs:132-175 | a poll keeps directory and prefix; a latched searcher stays as it is; a poll that keeps scanning has yielded and left a strictly shorter suffix of the listing |
| `Linux.ScanYieldIgnoresWatch` | src/linux.rs:144-146 | a poll that yields from the listing gives the same outcome whatever the watch device would report |
| `Linux.Run` | src/linux.rs:132-175 | polling n times gives n results and never changes directory or prefix |
| `Linux.LatchedForever` | src/linux.rs:136-153 | once the listing is gone, the searcher never rescans: state unchanged, and each poll is exactly one watch step |
| `Linux.PollSequence` | src/linux.rs:136-153 | the first polls yield the qualifying entries one per poll, in listing order, each once; the next poll latches; every later poll is one watch step |
| `Linux.Searcher.constructor` | src/linux.rs:118-123 | a new searcher holds the given directory, prefix and listing |
| `Linux.Searcher.With` | src/linux.rs:107-126 | `None` exactly when `inotify_add_watch(path, 4)` returns -1; otherwise a fresh searcher with that path, prefix and the `read_dir` result |
| `Linux.Searcher.New` | src/linux.rs:96-105 | `None` exactly when no candidate of the kind can be watched; otherwise a searcher on the selected candidate |
| `Linux.Searcher.PollNext` | src/linux.rs:132-175 | the result and the new state are those of one `Step` from the old state |
| `Linux.OpenFlags` | src/linux.rs:41-52 | opening with the given read/write flags and O_NONBLOCK gives the file, or else the identical `Found` |
| `Linux.FileOpen` | src/linux.rs:70-72 | opens with (read, write) = (true, true); failure gives back the identical `Found` |
| `Linux.FileOpenR` | src/linux.rs:75-77 | opens with (true, false); failure gives back the identical `Found` |
| `Linux.FileOpenW` | src/linux.rs:80-82 | opens with (false, true); failure gives back the identical `Found` |
| `Linux.RawOpenAsWritten` | src/linux.rs:55-67 | as written: the descriptor `open` returned is handed out, and it is closed when the `File` drops; a failure gives back the same `Found` and leaves the table as it was |
| `Linux.RawOpenReturnsClosedDescriptor` | src/linux.rs:55-57 | as written, a successful raw open returns a descriptor that is no longer open |
| `Linux.RawOpen` | src/linux.rs:55-67 | as intended: on success the returned descriptor is open and is the one `open` gave; on failure the same `Found` comes back and no descriptor is added |
| `Linux.Open` | src/linux.rs:55-57 | raw open for read and write (corrected as in the finding) |
| `Linux.OpenR` | src/linux.rs:60-62 | raw open for read only (corrected) |
| `Linux.OpenW` | src/linux.rs:65-67 | raw open for write only (corrected) |
| `LookitLib.New` | src/lib.rs:56-78 | `None` exactly when `inotify_add_watch(path, 4)` returns -1; otherwise the connector gets that path, prefix and descriptor |
| `LookitLib.WithInput` | src/lib.rs:81-83 | watches /dev/input/ for names starting with "event" |
| `LookitLib.WithAudio` | src/lib.rs:86-88 | watches /dev/snd/ for "pcm" |
| `LookitLib.WithMidi` | src/lib.rs:91-93 | /dev/snd/ for "midi"; /dev/ for "midi" only when /dev/snd/ cannot be watched; `None` when neither can |
| `LookitLib.WithCamera` | src/lib.rs:96-98 | watches /dev/ for "video" |
| `LookitLib.SameTableAsLinux` | src/lib.rs:81-98 | the four constructors choose exactly the target the Linux searcher chooses for the same kind |
| `LookitLib.Delivery` | src/lib.rs:197-208 | nothing unless the read returned exactly 272 bytes; an item is the directory followed by a zero-free name that has the prefix |
| `LookitLib.DeliveryOfEvent` | src/lib.rs:198-208 | for a full record the kernel wrote for file `n`, `It(path ++ n)` is sent iff `n` has the prefix |
| `LookitLib.SameDecodingAsLinux` | src/lib.rs:204-208 | on a full-size read the old connector and the Linux watch step report the same path, or both nothing |
| `LookitLib.Connector.constructor` | src/lib.rs:67-77 | a new connector holds the lookit's path, prefix and descriptor; it is registered and nothing has been sent or closed |
| `LookitLib.Connector.Callback` | src/lib.rs:196-218 | returns `None` exactly when a matching item's send fails; only a successful send adds the item to the channel; on `None` the descriptor is unregistered and closed once, and otherwise nothing is closed |
| `LookitLib.FlagWords` | src/lib.rs:124-136 | 0o2004002, 0o2004000 and 0o2004001 are O_CLOEXEC, O_NONBLOCK and O_RDWR, O_RDONLY or O_WRONLY; they differ only in the access-mode bits 2/0/1; the read-only word is the 0o2004000 passed to `inotify_init1` |
| `LookitLib.OpenFlags` | src/lib.rs:114-121 | `None` exactly when `open` returns -1, otherwise `Some` of the returned descriptor |
| `LookitLib.Open` | src/lib.rs:124-126 | `open_flags` with 0o2004002 |
| `LookitLib.OpenR` | src/lib.rs:129-131 | `open_flags` with 0o2004000 |
| `LookitLib.OpenW` | src/lib.rs:134-136 | `open_flags` with 0o2004001 |
| `LookitLib.AsFile` | src/lib.rs:141 | a descriptor becomes a `File` owning it; none stays none |
| `LookitLib.FileOpen` | src/lib.rs:139-142 | a `File` on the descriptor opened with 0o2004002, or `None` when `open` returned -1 |
| `LookitLib.FileOpenR` | src/lib.rs:145-148 | the same with 0o2004000 |
| `LookitLib.FileOpenW` | src/lib.rs:151-154 | the same with 0o2004001 |
| `LookitLib.DeliveredPathsHaveNoZeroByte` | src/lib.rs:115 | a delivered path in the searched directories holds no zero byte, so `CString::new(..).unwrap()` in `open_flags` cannot panic on it |
| `Mock.Searcher` | src/mock.rs:16-20 | no searcher for any kind |
| `Mock.Open` | src/mock.rs:22-24 | always `Err`, carrying the very `Found` passed in |
| `Mock.OpenIgnoresEvents` | src/mock.rs:22 | the result does not depend on the requested events |

## Left out

- `inotify_init1`: its descriptor is a parameter (`listen`). The `assert_ne!` panic when init fails from lack of memory is not modelled.
- `Searcher::with` and `Lookit::new` do not close the inotify descriptor when `inotify_add_watch` fails. The model does not track that leak.
- `close` in `callback` is counted in `closes`. The `assert_eq!(0, ret)` panic on a failed close is not modelled.
- `String::from_utf8_lossy`: decoded filenames stay byte strings. With ASCII prefixes the prefix test is the same. A `Found` path that holds invalid UTF-8 bytes keeps them instead of getting replacement characters.
- `OsString::into_string` and `Path::to_str` are two flags on each listed entry. UTF-8 itself is not modelled.
- `std::fs::read_dir` is a parameter. Error items are `Unreadable` entries, and `PathBuf::join` is `Linux.Join`.
- `OpenOptions::open` is a parameter that receives (read, write, custom flags). Which extra flags the standard library adds is not modelled.
- `File::from_raw_fd` and `as_raw_fd` are modelled as wrapping and unwrapping the descriptor number.
- `Linux.Searcher.PollNext`: requires a zero byte in the name field whenever epoll is ready and `read` is positive. This holds even on polls that yield from the listing and never read. Without it, C's `strlen` would run past the buffer.
- In linux.rs the buffer is uninitialised (`MaybeUninit::uninit`). For an event with an empty name, the name field is whatever memory held, so the model treats the buffer bytes as arbitrary input.
- The `Driver` singleton (`Once`, `static mut`), the epoll `Device`, the `flume` channel, `Future for Lookit`, `Notifier`, `Pin`, `Exec` and wakers are all out. Readiness is a boolean and the channel is the `sent` sequence.
- Concurrency and reactor integration are not modelled.
- `Interface for Platform` in linux.rs (lines 29-37) only boxes `Searcher::new` behind dynamic dispatch, so it is not modelled separately.
- The crate-root `Device` and `Events` types used by mock.rs are not part of this model. The stub uses `File` for the device and a read/write pair for the events, and its searcher type is the Linux `Searcher`.
- examples/hello.rs is not part of this model.

## Findings

| source | as written | input that shows it | evidently intended | confidence | as-written member | corrected member |
|---|---|---|---|---|---|---|
| src/linux.rs:55-67 | `open`, `open_r` and `open_w` map the opened `File` through a closure that takes its raw descriptor. The `File` is dropped when the closure returns, which closes the descriptor whose number is then handed to the caller. | any path the OS opens, e.g. `open` succeeds with descriptor 3: the caller gets `Ok(3)` and descriptor 3 is no longer open | the caller owns an open descriptor (`into_raw_fd`) | not executed; high | `Linux.RawOpenReturnsClosedDescriptor` | `Linux.RawOpen` |
