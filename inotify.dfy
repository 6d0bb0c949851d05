/**
 * The record the kernel's inotify facility delivers, `struct inotify_event`
 * of the Linux inotify(7) manual page, as both back ends declare it: four
 * 4-byte fields (watch descriptor, event mask, cookie, name length) and then a
 * 256-byte null-padded name at offset 16. The source reinterprets the read
 * buffer's memory as this struct; here the same bytes are decoded field by
 * field (native byte order of a little-endian host).
 */
module Inotify {
  import opened Types

  const HeaderSize: nat := 16
  const NameSize: nat := 256
  /** `size_of::<InotifyEv>()`: the buffer size passed to every `read`. */
  const RecordSize: nat := HeaderSize + NameSize

  /** The event mask both back ends pass to `inotify_add_watch` (IN_ATTRIB). */
  const InAttrib: nat := 4
  /** The flags both back ends pass to `inotify_init1`: IN_CLOEXEC | IN_NONBLOCK, 0o2004000. */
  const InitFlags: nat := 0x8_0800

  const Word: nat := 0x1_0000_0000

  /** `struct inotify_event` with its name array. */
  datatype InotifyEv = InotifyEv(wd: int, mask: nat, cookie: nat, len: nat, name: Bytes)

  predicate Valid(ev: InotifyEv) {
    && -0x8000_0000 <= ev.wd < 0x8000_0000
    && ev.mask < Word && ev.cookie < Word && ev.len < Word
    && |ev.name| == NameSize
  }

  /** The four little-endian bytes of a 32-bit unsigned value. */
  function Le32(x: nat): (b: Bytes)
    requires x < Word
    ensures |b| == 4
  {
    [(x % 256) as char, ((x / 256) % 256) as char, ((x / 0x1_0000) % 256) as char, (x / 0x100_0000) as char]
  }

  /** The unsigned value of four little-endian bytes. */
  function Word32(b: Bytes): (x: nat)
    requires |b| == 4
    ensures x < Word
  {
    b[0] as int + 256 * (b[1] as int + 256 * (b[2] as int + 256 * (b[3] as int)))
  }

  lemma Word32OfLe32(x: nat)
    requires x < Word
    ensures Word32(Le32(x)) == x
  {
  }

  lemma SplitByte(lo: int, hi: nat)
    requires 0 <= lo < 256
    ensures (lo + 256 * hi) % 256 == lo && (lo + 256 * hi) / 256 == hi
  {
  }

  lemma Le32OfWord32(b: Bytes)
    requires |b| == 4
    ensures Le32(Word32(b)) == b
  {
    var h2 := b[2] as int + 256 * (b[3] as int);
    var h1 := b[1] as int + 256 * h2;
    var w := b[0] as int + 256 * h1;
    SplitByte(b[0] as int, h1);
    SplitByte(b[1] as int, h2);
    SplitByte(b[2] as int, b[3] as int);
    assert w / 0x1_0000 == (w / 256) / 256;
    assert w / 0x100_0000 == ((w / 256) / 256) / 256;
  }

  /** Two's complement bit pattern of a `c_int`. */
  function Unsigned(i: int): (u: nat)
    requires -0x8000_0000 <= i < 0x8000_0000
    ensures u < Word
  {
    if i < 0 then i + Word else i
  }

  /** The `c_int` whose two's complement bit pattern is `u`. */
  function Signed(u: nat): (i: int)
    requires u < Word
    ensures -0x8000_0000 <= i < 0x8000_0000
  {
    if u < 0x8000_0000 then u else u - Word
  }

  /** The bytes of an event as the struct lies in memory. */
  function Layout(ev: InotifyEv): (r: Bytes)
    requires Valid(ev)
    ensures |r| == RecordSize && r[HeaderSize..] == ev.name
  {
    Le32(Unsigned(ev.wd)) + Le32(ev.mask) + Le32(ev.cookie) + Le32(ev.len) + ev.name
  }

  /** The event a buffer of `size_of::<InotifyEv>()` bytes holds. */
  function Parse(rec: Bytes): (ev: InotifyEv)
    requires |rec| == RecordSize
    ensures Valid(ev) && ev.name == rec[HeaderSize..]
  {
    InotifyEv(Signed(Word32(rec[0..4])), Word32(rec[4..8]), Word32(rec[8..12]), Word32(rec[12..16]), rec[HeaderSize..])
  }

  /** Decoding the memory of an event gives back that event. */
  lemma ParseLayout(ev: InotifyEv)
    requires Valid(ev)
    ensures Parse(Layout(ev)) == ev
  {
    var r := Layout(ev);
    assert r[0..4] == Le32(Unsigned(ev.wd));
    assert r[4..8] == Le32(ev.mask);
    assert r[8..12] == Le32(ev.cookie);
    assert r[12..16] == Le32(ev.len);
    Word32OfLe32(Unsigned(ev.wd));
    Word32OfLe32(ev.mask);
    Word32OfLe32(ev.cookie);
    Word32OfLe32(ev.len);
  }

  /** Every buffer of the struct's size is the memory of exactly one event. */
  lemma LayoutParse(rec: Bytes)
    requires |rec| == RecordSize
    ensures Layout(Parse(rec)) == rec
  {
    Le32OfWord32(rec[0..4]);
    Le32OfWord32(rec[4..8]);
    Le32OfWord32(rec[8..12]);
    Le32OfWord32(rec[12..16]);
    assert rec == rec[0..4] + rec[4..8] + rec[8..12] + rec[12..16] + rec[HeaderSize..];
  }

  /** `s` holds a zero byte, so that C's `strlen` stays inside it. */
  predicate Terminated(s: Bytes) {
    exists i | 0 <= i < |s| :: s[i] == '\0'
  }

  /** C's `strlen`: the index of the first zero byte. */
  function Strlen(s: Bytes): (n: nat)
    requires Terminated(s)
    ensures n < |s| && s[n] == '\0'
    ensures forall j | 0 <= j < n :: s[j] != '\0'
    decreases |s|
  {
    if s[0] == '\0' then 0
    else
      assert Terminated(s[1..]) by {
        var i :| 0 <= i < |s| && s[i] == '\0';
        assert s[1..][i - 1] == '\0';
      }
      1 + Strlen(s[1..])
  }

  /** The name field of a record holds a terminating zero byte. */
  predicate NameTerminated(rec: Bytes) {
    |rec| == RecordSize && Terminated(rec[HeaderSize..])
  }

  /** The filename of the event in `rec`: the name field's bytes before its first zero byte. */
  function FileName(rec: Bytes): (name: Bytes)
    requires NameTerminated(rec)
    ensures |name| < NameSize && '\0' !in name
    ensures rec[HeaderSize..HeaderSize + |name|] == name && rec[HeaderSize + |name|] == '\0'
  {
    var ev := Parse(rec);
    ev.name[..Strlen(ev.name)]
  }

  /**
   * The filename decoded from the memory of an event is the name the event
   * carries: the bytes before the null padding, whatever the header says.
   */
  lemma FileNameOfEvent(ev: InotifyEv, name: Bytes)
    requires Valid(ev) && |name| < NameSize && '\0' !in name
    requires ev.name[..|name|] == name && ev.name[|name|] == '\0'
    ensures NameTerminated(Layout(ev)) && FileName(Layout(ev)) == name
  {
    var r := Layout(ev);
    assert r[HeaderSize..][|name|] == '\0';
  }
}
