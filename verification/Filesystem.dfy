/** One vault directory as the file protocols see it: names bound to inodes, inodes holding
    text. `rename` and `link` act as in POSIX.1-2017; a hash comparison of the source is a
    comparison of the hashed text. Marker names carry a fresh UUID in the source, so each marker
    is a name of its own here and only the formal names are open to external writers. */
module Filesystem {
  import opened Options

  type Ino = nat
  type Text = string

  /** Formal and Destination are vault paths; the others are private recovery markers. */
  datatype Name = Formal | Destination | Save | Staged | Quarantined

  const VAULT_PATHS := {Formal, Destination}

  datatype Disk = Disk(names: map<Name, Ino>, data: map<Ino, Text>) {
    ghost predicate Valid() {
      forall n :: n in names ==> names[n] in data
    }

    ghost predicate Named(i: Ino) {
      exists n :: n in names && names[n] == i
    }

    predicate Holds(n: Name, text: Text) {
      n in names && names[n] in data && data[names[n]] == text
    }

    /** rename(2): the new name replaces whatever it was bound to. */
    function Rename(from: Name, to: Name): Disk
      requires from in names
    {
      Disk((names - {from})[to := names[from]], data)
    }

    /** link(2): create-only, so the caller must have seen EEXIST otherwise. */
    function Link(from: Name, to: Name): Disk
      requires from in names && to !in names
    {
      Disk(names[to := names[from]], data)
    }

    /** unlink(2); removing a missing marker is a no-op for every caller in the model. */
    function Unlink(n: Name): Disk {
      Disk(names - {n}, data)
    }
  }

  /** A disk together with the generations an external writer itself threw away, by deleting or
      replacing them at a vault path. */
  datatype World = World(disk: Disk, discarded: set<Ino>)

  /** What an external writer may do in one step: put a new inode at a vault path, delete a vault
      path, or write in place into an inode that still has a name. */
  datatype External =
    Publish(path: Name, ino: Ino, text: Text) | Delete(path: Name) | WriteInPlace(ino: Ino, text: Text)

  /** `frozen` are the inodes inside one of the documented check/use windows, where the protocols
      assume that no old file descriptor writes. */
  ghost predicate ExternalStep(e: External, w: World, w': World, frozen: set<Ino>) {
    match e
    case Publish(path, ino, text) =>
      && path in VAULT_PATHS
      && ino !in w.disk.data
      && w'.disk == Disk(w.disk.names[path := ino], w.disk.data[ino := text])
      && w'.discarded == w.discarded + Bound(w.disk, path)
    case Delete(path) =>
      && path in VAULT_PATHS
      && path in w.disk.names
      && w'.disk == w.disk.Unlink(path)
      && w'.discarded == w.discarded + Bound(w.disk, path)
    case WriteInPlace(ino, text) =>
      && w.disk.Named(ino)
      && ino in w.disk.data
      && ino !in frozen
      && w'.disk == Disk(w.disk.names, w.disk.data[ino := text])
      && w'.discarded == w.discarded
  }

  function Bound(d: Disk, n: Name): set<Ino> {
    if n in d.names then {d.names[n]} else {}
  }
}
