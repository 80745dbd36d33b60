// The in-memory file system (internal/fsstat/fake.go), as the walk uses it: directory handles with
// a paging cursor, counted while open.

module FakeFs {
  import opened Options
  import opened FsErrors
  import opened FileTree

  datatype ReadEnd = More | AtEof | Failed(why: FsError)

  const CLOSED_HANDLE := FsError(false, false, None)

  class FakeFS {
    var openDirs: int
    var maxOpenDirs: int
    var readCalls: int

    constructor ()
      ensures openDirs == 0 && maxOpenDirs == 0 && readCalls == 0
    {
      openDirs, maxOpenDirs, readCalls := 0, 0, 0;
    }

    // `names` is the order this open returns the entries in: sorted or shuffled, never anything else.
    method OpenDir(tree: Tree, names: seq<Item>) returns (dir: FakeDir?, err: Option<FsError>)
      requires openDirs <= maxOpenDirs
      requires tree.Listing? ==> multiset(names) == multiset(tree.items)
      modifies this`openDirs, this`maxOpenDirs
      ensures tree.Unopenable? ==> err == Some(tree.why) && dir == null && openDirs == old(openDirs)
      ensures tree.Listing? ==> err == None && openDirs == old(openDirs) + 1
      ensures tree.Listing? ==> dir != null && fresh(dir) && dir.Valid() && !dir.closed && dir.cursor == 0
      ensures tree.Listing? ==> dir.fs == this && dir.names == names && dir.tail == tree.tail
      ensures maxOpenDirs == if openDirs > old(maxOpenDirs) then openDirs else old(maxOpenDirs)
    {
      match tree
      case Unopenable(e) =>
        return null, Some(e);
      case Listing(_, tail) =>
        openDirs := openDirs + 1;
        if openDirs > maxOpenDirs {
          maxOpenDirs := openDirs;
        }
        dir := new FakeDir(this, names, tail);
        err := None;
    }
  }

  class FakeDir {
    const fs: FakeFS
    const names: seq<Item>
    const tail: Tail
    var cursor: int
    var closed: bool

    ghost predicate Valid()
      reads this
    {
      0 <= cursor <= |names|
    }

    constructor (fs: FakeFS, names: seq<Item>, tail: Tail)
      ensures Valid() && cursor == 0 && !closed && this.fs == fs && this.names == names && this.tail == tail
    {
      this.fs, this.names, this.tail := fs, names, tail;
      cursor, closed := 0, false;
    }

    // The next page of at most n entries; the end of the listing is reported on the read after the last page.
    method ReadSome(n: int) returns (page: seq<Item>, end: ReadEnd)
      requires Valid() && n > 0
      modifies this`cursor, fs`readCalls
      ensures Valid() && cursor >= old(cursor)
      ensures closed ==> page == [] && end == Failed(CLOSED_HANDLE) && cursor == old(cursor)
      ensures !closed ==> page == names[old(cursor)..cursor]
      ensures !closed && old(cursor) < |names| ==>
        cursor == (if old(cursor) + n < |names| then old(cursor) + n else |names|) && end == More
      ensures !closed && old(cursor) == |names| ==>
        page == [] && end == match tail { case Eof => AtEof case ReadFails(e) => Failed(e) }
    {
      page := [];
      if closed {
        return page, Failed(CLOSED_HANDLE);
      }
      fs.readCalls := fs.readCalls + 1;
      if cursor >= |names| {
        match tail
        case Eof => return page, AtEof;
        case ReadFails(e) => return page, Failed(e);
      }
      var end' := cursor + n;
      if end' > |names| {
        end' := |names|;
      }
      var i := cursor;
      while i < end'
        invariant cursor <= i <= end' && cursor == old(cursor)
        invariant page == names[cursor..i]
      {
        page := page + [names[i]];
        i := i + 1;
      }
      cursor := end';
      end := More;
    }

    // Closing twice gives the handle back once.
    method Close()
      modifies this`closed, fs`openDirs
      ensures closed && fs.openDirs == old(fs.openDirs) - (if old(closed) then 0 else 1)
    {
      if closed {
        return;
      }
      closed := true;
      fs.openDirs := fs.openDirs - 1;
    }
  }
}
