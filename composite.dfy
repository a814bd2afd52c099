/**
  The file-system composite of ch_14_GoF_2/composite.cpp: a `File` has a fixed
  size, a `Directory` owns a list of entries and its size is the sum of theirs.

  Entries are values: a directory owns its children outright (its destructor
  deletes them), so a nested directory is modelled by the entries it holds.
  The directory being filled is a `Directory` object whose `entries` list
  `AddObject` appends to, and whose `Size` method runs the source's loop.
*/
module Composite {

  /** The size every `File` reports. */
  const FileSize: int := 1024

  /** A `FileSystemObject`: a file, or a directory with its entries in order. */
  datatype Entry = File | Dir(entries: seq<Entry>)

  /** The virtual `size()`: a file's constant size, or the sum over a directory's
      entries. */
  function SizeOf(e: Entry): (r: int)
    ensures r >= 0
    decreases e, 1
  {
    match e
    case File => FileSize
    case Dir(entries) => EntriesSize(entries)
  }

  /** The sum of `SizeOf` over `entries`, accumulated left to right. */
  function EntriesSize(entries: seq<Entry>): (r: int)
    ensures r >= 0
    decreases entries, 0
  {
    if entries == [] then 0
    else EntriesSize(entries[..|entries| - 1]) + SizeOf(entries[|entries| - 1])
  }

  /** The number of files reachable from `e` through nested directories. */
  function FileCount(e: Entry): nat
    decreases e, 1
  {
    match e
    case File => 1
    case Dir(entries) => EntriesFileCount(entries)
  }

  function EntriesFileCount(entries: seq<Entry>): nat
    decreases entries, 0
  {
    if entries == [] then 0
    else EntriesFileCount(entries[..|entries| - 1]) + FileCount(entries[|entries| - 1])
  }

  /** A size is always 1024 per file reachable from the object. */
  lemma {:induction false} SizeCountsFiles(e: Entry)
    ensures SizeOf(e) == FileSize * FileCount(e)
    decreases e, 1
  {
    match e
    case File =>
    case Dir(entries) => EntriesSizeCountsFiles(entries);
  }

  lemma {:induction false} EntriesSizeCountsFiles(entries: seq<Entry>)
    ensures EntriesSize(entries) == FileSize * EntriesFileCount(entries)
    decreases entries, 0
  {
    if entries != [] {
      EntriesSizeCountsFiles(entries[..|entries| - 1]);
      SizeCountsFiles(entries[|entries| - 1]);
    }
  }

  /** The virtual `add_object`: a directory appends the new entry at its end; a
      file keeps the base class's empty body and ignores it. */
  function WithObject(target: Entry, child: Entry): (r: Entry)
    ensures target.File? ==> r == File
    ensures target.Dir? ==> r.Dir? && |r.entries| == |target.entries| + 1
    ensures target.Dir? ==> r.entries[..|target.entries|] == target.entries && r.entries[|target.entries|] == child
  {
    match target
    case File => File
    case Dir(entries) => Dir(entries + [child])
  }

  /** Adding an entry to a directory adds its size; adding to a file changes nothing. */
  lemma WithObjectSize(target: Entry, child: Entry)
    ensures target.Dir? ==> SizeOf(WithObject(target, child)) == SizeOf(target) + SizeOf(child)
    ensures target.File? ==> SizeOf(WithObject(target, child)) == SizeOf(target)
  {
    if target.Dir? {
      var entries := target.entries + [child];
      assert entries[..|entries| - 1] == target.entries;
    }
  }

  /** A `Directory` object whose entry list is filled in place. */
  class Directory {
    var entries: seq<Entry>

    constructor ()
      ensures entries == []
    {
      entries := [];
    }

    /** The directory as a file-system value. */
    function Value(): (e: Entry)
      reads this
      ensures e.Dir? && e.entries == entries
    {
      Dir(entries)
    }

    /** `Directory::add_object`: `push_back` onto `m_entries`. */
    method AddObject(fso: Entry)
      modifies this
      ensures entries == old(entries) + [fso]
      ensures Value() == WithObject(old(Value()), fso)
    {
      entries := entries + [fso];
    }

    /** `Directory::size`: the loop that adds up the entries' sizes. */
    method Size() returns (total: int)
      ensures total == SizeOf(Value())
      ensures total == FileSize * FileCount(Value())
      ensures entries == [] ==> total == 0
    {
      total := 0;
      var i := 0;
      while i < |entries|
        invariant 0 <= i <= |entries|
        invariant total == EntriesSize(entries[..i])
      {
        assert entries[..i + 1][..i] == entries[..i];
        total := total + SizeOf(entries[i]);
        i := i + 1;
      }
      assert entries[..i] == entries;
      SizeCountsFiles(Value());
    }
  }

  /** `subdir()`: a fresh directory holding two files. */
  method Subdir() returns (d: Directory)
    ensures fresh(d) && d.entries == [File, File]
    ensures SizeOf(d.Value()) == 2 * FileSize
  {
    d := new Directory();
    d.AddObject(File);
    d.AddObject(File);
    assert [File, File][..1] == [File];
  }

  /** `main`'s tree: a root holding `subdir()` has size 2048. */
  method CompositeMain() returns (size: int)
    ensures size == 2048
  {
    var root := new Directory();
    var sub := Subdir();
    root.AddObject(sub.Value());
    WithObjectSize(Dir([]), sub.Value());
    size := root.Size();
  }
}
