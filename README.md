# OwData: the child table of a git-backed Alembic object writer

This project models, in Dafny, the write-side object data of the git-backed
Alembic archive writer (`OwData`, in `lib/Alembic/AbcCoreGit/OwData.cpp`).
An `OwData` belongs to one object of the archive. It keeps three tables in
lock-step:

- the headers of the children created so far, in creation order (name, full path, metadata);
- a weak handle per child name;
- a flat vector of 64-bit hash words, two per child.

Children are created under validated, unique names. Each child later reports
its own 128-bit hash into its slot (`fillHash`). `writeHeaders` then stores the
serialized child headers plus a 32-byte hash tail as one blob, and leaves the
bottom-up (Merkle-style) aggregate in the caller's hash accumulator.

Files:

- `abc_types.dfy`: bytes, 64-bit words, object headers and error kinds.
- `git_group.dfy`: the backing git group, reduced to a log of `addGroup`, `addData` and `writeToDisk` calls.
- `spooky.dfy`: the SpookyHash accumulator as seeds plus the words fed to it. Its final mixing is a function parameter (`Mixer`).
- `compound_writer.dfy`: the compound property writer (`CpwData`, `CpwImpl`) as seen by the object writer.
- `object_paths.dfy`: legal child names, the full-path rule, and its inverse (base name and parent path).
- `header_layout.dfy`: the byte layout of the header blob. Its inverse reads the tail words back.
- `ow_data.dfy`: the `OwData` class, its invariant `Valid()` and its operations.
- `usage.dfy`: client methods showing what callers can conclude from the contracts alone.

`Valid()` is the class invariant. It states that there are exactly two hash
words per child header. It ties each header to the weak-handle entry of its
name, and that entry back to the header's index. From this the child names are
pairwise distinct (`ChildNamesDistinct`).

## Model

| member | source | states |
|---|---|---|
| `OwDataModel.OwData.constructor` | lib/Alembic/AbcCoreGit/OwData.cpp:24-49 | The object's own group is added under the parent group (one `addGroup(name)` event) and the property data `.prop` is built over it; all tables start empty and the invariant holds |
| `OwDataModel.OwData.GetProperties` | lib/Alembic/AbcCoreGit/OwData.cpp:60-73 | A cached handle that is still live is returned unchanged; otherwise a fresh handle over the same property data is built and cached, so a second call while the first handle is held returns the same object |
| `OwDataModel.OwData.NumChildren` | lib/Alembic/AbcCoreGit/OwData.cpp:75-79 | The number of children, and the hash vector holds exactly twice that many words |
| `OwDataModel.OwData.ChildHeaderAt` | lib/Alembic/AbcCoreGit/OwData.cpp:81-93 | Fails with an out-of-range error exactly when `i >= NumChildren()`, otherwise yields the i-th header in creation order |
| `OwDataModel.OwData.IndexAndNameLookupAgree` | lib/Alembic/AbcCoreGit/OwData.cpp:81-108 | The header found at index i is found again by its name, at index i (names are unique) |
| `OwDataModel.FirstNamed` | lib/Alembic/AbcCoreGit/OwData.cpp:96-108 | The index of the first header with the given name; absent exactly when no header has that name |
| `OwDataModel.OwData.GetChildHeaderByName` | lib/Alembic/AbcCoreGit/OwData.cpp:95-108 | The linear scan returns the first header whose name matches, or none exactly when no header matches; it changes nothing |
| `OwDataModel.OwData.GetChild` | lib/Alembic/AbcCoreGit/OwData.cpp:110-121 | A handle is returned exactly when the name was created and its handle is still live; the handle carries that child's header and creation index |
| `OwDataModel.OwData.ReleasedChildKeepsHeader` | lib/Alembic/AbcCoreGit/OwData.cpp:110-121 | For a created child whose handle has died, `GetChild` is absent while the by-name lookup still finds its header at its creation index |
| `OwDataModel.OwData.ChildNamesDistinct` | lib/Alembic/AbcCoreGit/OwData.cpp:129-133 | Under the invariant, the names of any two children differ |
| `OwDataModel.OwData.CreateChild` | lib/Alembic/AbcCoreGit/OwData.cpp:123-169 | Checks in order: duplicate name (even if its handle has died), empty name, name containing '/'; any failure leaves every table and the group untouched. On success it adds one sub-group event, appends exactly one header (candidate's name and metadata, path from `ChildFullName`), one weak handle and two zero words, returns a fresh handle whose index is the old child count, and keeps the invariant |
| `ObjectPaths.FullNameRoundTrip` | lib/Alembic/AbcCoreGit/OwData.cpp:146-155 | A full path built for a legal child name under a non-empty parent path splits back into exactly that parent path and that name, so "/" as parent gives "/name" and any other parent gives "parent/name" |
| `OwDataModel.OwData.FillHash` | lib/Alembic/AbcCoreGit/OwData.cpp:222-231 | Succeeds exactly when the index is below the child count and twice the index is below the hash vector's length; then only words 2i and 2i+1 change, to the reported pair; otherwise nothing changes |
| `OwDataModel.ReportedPairsFlatten` | lib/Alembic/AbcCoreGit/OwData.cpp:192-195 | Once every child has filled its slot, the hash vector fed to the accumulator is exactly the reported pairs, in creation order |
| `OwDataModel.OwData.WriteHeaders` | lib/Alembic/AbcCoreGit/OwData.cpp:171-220 | Exactly one blob is added: all child headers serialized in creation order, then data-hash words 0 and 1 and child-hash words 2 and 3, the child hash being (0,0) when there are no children. The accumulator is re-seeded with (0,0) and holds the hash vector followed by only the two data-hash words. The property headers are written once |
| `HeaderLayout.BlobLayout` | lib/Alembic/AbcCoreGit/OwData.cpp:175-208 | The blob is the serialized headers followed by exactly 32 bytes (so never empty), and each of the four tail words reads back from its 8 bytes |
| `HeaderLayout.PackedHeadersAppend` | lib/Alembic/AbcCoreGit/OwData.cpp:177-181 | Serializing a run of headers is serializing its parts one after the other, so later children only extend the header part of the blob |
| `HeaderLayout.WordBytesRoundTrip` | lib/Alembic/AbcCoreGit/OwData.cpp:203-208 | Each word of the raw hash array is recovered from its eight bytes |
| `OwDataModel.OwData.WriteToDisk` | lib/Alembic/AbcCoreGit/OwData.cpp:233-238 | Delegates to the group's flush: exactly one flush event is logged |

## Left out

- OwDataModel.OwData.constructor: the `UNIMPLEMENTED("WritePropertyInfo()")` stub at line 45 and the top property header it would write are not modelled. The null-parent check at line 34 is expressed by the parameter's non-null type. A failed `addGroup` (lines 39-40) is not modelled: the group is not part of this model, and its `addGroup` is taken to succeed.
- The destructor (lines 52-58) and the shared/weak reference counting are not modelled. Handle liveness enters `GetChild` and `GetProperties` as a `live` set, the handles someone outside still owns.
- OwDataModel.OwData.ChildHeaderAt: the null-header assertion at line 90 cannot fire, because headers are values rather than pointers.
- OwDataModel.OwData.WriteToDisk: the "invalid group" assertion at line 236 cannot fire in the model, because the group is a non-null constant and only the destructor resets it.
- OwDataModel.OwData.CreateChild: `addGroup` (line 159) runs before the table appends (lines 162-166); since `addGroup` cannot fail here, no partial state is observable and the model does not distinguish that order. The owner handle `iParent` passed to the child handle is not kept; the child handle holds only its header, its group and its index.
- SpookyHash mixing (`Init`/`Update`/`Final` internals) is a parameter (`Mixer`) applied to the seeds and the words fed since `Init`. The byte-length arguments of `Update` (`m_hashes.size() * 8`, 16) are modelled as the corresponding word sequences.
- The byte order of the 32-byte tail depends on the host, because the source casts the word array to bytes. The model assumes a little-endian host.
- `WriteObjectHeader` and the metadata-map interning it performs are not part of this model. Header serialization is a function parameter (`HeaderEncoder`) and the metadata map argument is dropped.
- The property writers (`CpwData`, `CpwImpl`) are external: what `computeHash` feeds is an abstract word sequence, and `writePropertyHeaders` is recorded as a counter. The metadata passed to a new `CpwImpl` is a parameter, standing for `iParent->getMetaData()`.
- `TRACE` logging and the text of exception messages are not modelled; each throw site is an `Error` constructor.
- 64-bit `size_t` overflow of `iIndex * 2` in `fillHash` is not modelled; it cannot arise for an index below the child count.
- `writeHeaders` does not check that every child has already reported its hash. Neither does the model: unreported slots stay zero.
- The metadata argument of the constructor only feeds the stubbed property-info write, so the model's constructor does not take it.
- The accumulator is fed the hash vector and then only the two data-hash words (line 212), not all four tail words. The model follows the code here.
