/**
 * The stub platform, for systems without inotify: it never builds a
 * searcher and never opens a device.
 */
module Mock {
  import opened Wrappers
  import opened Types
  import Linux

  /** The access a caller asks `open` for. */
  datatype Events = Events(read: bool, write: bool)

  /** `searcher`: no searcher, for every kind. */
  function Searcher(kind: Kind): (r: Option<Linux.Searcher>)
    ensures r.None?
  {
    None
  }

  /** `open`: always fails, handing the device back unchanged. */
  function Open(found: Found, events: Events): (r: Result<File, Found>)
    ensures r.Err? && r.error == found
  {
    Err(found)
  }

  /** What `open` returns does not depend on the requested events. */
  lemma OpenIgnoresEvents(found: Found, a: Events, b: Events)
    ensures Open(found, a) == Open(found, b)
  {
  }
}
