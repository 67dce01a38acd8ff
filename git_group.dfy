/** The git-backed group the object writer stores into, reduced to an
    append-only log of the calls it receives. */
module GitStore {
  import opened AbcTypes

  datatype GroupEvent =
    | GroupAdded(name: string)     // addGroup(name)
    | DataAdded(bytes: seq<Byte>)  // addData(size, bytes)
    | Flushed                      // writeToDisk()

  class GitGroup {
    const name: string
    var log: seq<GroupEvent>

    constructor (name: string)
      ensures this.name == name && log == []
    {
      this.name := name;
      log := [];
    }

    /** Creates a named sub-group; the new group starts with an empty log. */
    method AddGroup(childName: string) returns (g: GitGroup)
      modifies this
      ensures fresh(g) && g.name == childName && g.log == []
      ensures log == old(log) + [GroupAdded(childName)]
    {
      g := new GitGroup(childName);
      log := log + [GroupAdded(childName)];
    }

    /** Appends one binary blob to this group. */
    method AddData(bytes: seq<Byte>)
      modifies this
      ensures log == old(log) + [DataAdded(bytes)]
    {
      log := log + [DataAdded(bytes)];
    }

    /** Flushes the group to the backing store. */
    method WriteToDisk()
      modifies this
      ensures log == old(log) + [Flushed]
    {
      log := log + [Flushed];
    }
  }
}
