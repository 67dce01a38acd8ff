/** The per-object child table of a git-backed object writer: the headers of
    the children created so far, a weak handle per child name, and a flat
    vector of two hash words per child, kept in lock-step. */
module OwDataModel {
  import opened AbcTypes
  import opened GitStore
  import opened Spooky
  import opened CompoundWriter
  import opened ObjectPaths
  import opened HeaderLayout

  /** The handle returned for a newly created child object. */
  class OwImpl {
    const header: ObjectHeader
    const group: GitGroup
    const index: nat

    constructor (header: ObjectHeader, group: GitGroup, index: nat)
      ensures this.header == header && this.group == group && this.index == index
    {
      this.header := header;
      this.group := group;
      this.index := index;
    }
  }

  /** Index of the first header named `name`. */
  function FirstNamed(headers: seq<ObjectHeader>, name: string): (r: Option<nat>)
    ensures r.Some? ==> r.value < |headers| && headers[r.value].name == name
    ensures r.Some? ==> forall j :: 0 <= j < r.value ==> headers[j].name != name
    ensures r.None? <==> forall j :: 0 <= j < |headers| ==> headers[j].name != name
  {
    if headers == [] then None
    else if headers[0].name == name then Some(0)
    else match FirstNamed(headers[1..], name)
      case Some(k) => Some(k + 1)
      case None => None
  }

  /** The hash of the children's hash vector; all zero when there are no children. */
  function ChildHash(mix: Mixer, hashes: seq<Word>): (Word, Word)
  {
    if hashes == [] then (0, 0) else mix(0, 0, hashes)
  }

  /** The hash vector obtained once child `i` has reported `pairs[i]`. */
  function Flatten(pairs: seq<(Word, Word)>): seq<Word>
  {
    if pairs == [] then [] else [pairs[0].0, pairs[0].1] + Flatten(pairs[1..])
  }

  /** Once every child has filled its slot, the hash vector fed to the
      accumulator is exactly the reported pairs in creation order. */
  lemma {:induction false} ReportedPairsFlatten(hashes: seq<Word>, pairs: seq<(Word, Word)>)
    requires |hashes| == 2 * |pairs|
    requires forall i :: 0 <= i < |pairs| ==> hashes[2 * i] == pairs[i].0 && hashes[2 * i + 1] == pairs[i].1
    ensures hashes == Flatten(pairs)
  {
    if pairs != [] {
      forall i | 0 <= i < |pairs| - 1
        ensures hashes[2..][2 * i] == pairs[1..][i].0 && hashes[2..][2 * i + 1] == pairs[1..][i].1
      {
        assert hashes[2 * (i + 1)] == pairs[i + 1].0;
        assert hashes[2 * (i + 1) + 1] == pairs[i + 1].1;
      }
      ReportedPairsFlatten(hashes[2..], pairs[1..]);
      assert hashes == [hashes[0], hashes[1]] + hashes[2..];
    }
  }

  class OwData {
    const group: GitGroup
    const data: CpwData
    /** Weak cache of the top compound property handle. */
    var top: CpwImpl?
    var childHeaders: seq<ObjectHeader>
    /** Weak handle per child name; entries are never removed. */
    var madeChildren: map<string, OwImpl>
    var hashes: seq<Word>

    ghost predicate Valid()
      reads this
    {
      && |hashes| == 2 * |childHeaders|
      && (forall i :: 0 <= i < |childHeaders| ==>
            && IsLegalName(childHeaders[i].name)
            && childHeaders[i].name in madeChildren
            && madeChildren[childHeaders[i].name].index == i)
      && (forall nm :: nm in madeChildren ==>
            && madeChildren[nm].index < |childHeaders|
            && madeChildren[nm].header == childHeaders[madeChildren[nm].index]
            && madeChildren[nm].header.name == nm)
      && (top != null ==> top.data == data)
    }

    /** Creates the object's own group under `parentGroup` and its property data. */
    constructor (parentGroup: GitGroup, name: string)
      modifies parentGroup
      ensures Valid()
      ensures fresh(group) && group.name == name && group.log == []
      ensures parentGroup.log == old(parentGroup.log) + [GroupAdded(name)]
      ensures fresh(data) && data.name == ".prop" && data.group == group
      ensures childHeaders == [] && madeChildren == map[] && hashes == [] && top == null
    {
      var g := parentGroup.AddGroup(name);
      group := g;
      data := new CpwData(".prop", g);
      top := null;
      childHeaders := [];
      madeChildren := map[];
      hashes := [];
    }

    /** Child names are pairwise distinct. */
    lemma ChildNamesDistinct()
      requires Valid()
      ensures forall i, j :: 0 <= i < j < |childHeaders| ==> childHeaders[i].name != childHeaders[j].name
    {
    }

    /** Returns the live handle cached for this object's properties, or
        builds a new one over the same property data and caches it weakly.
        `live` holds the handles someone outside still owns. */
    method GetProperties(parentMeta: MetaData, live: set<CpwImpl>) returns (ret: CpwImpl)
      requires Valid()
      modifies this`top
      ensures Valid()
      ensures ret.data == data && top == ret
      ensures old(top) != null && old(top) in live ==> ret == old(top)
      ensures !(old(top) != null && old(top) in live) ==> fresh(ret) && ret.metaData == parentMeta
    {
      if top != null && top in live {
        ret := top;
      } else {
        ret := new CpwImpl(data, parentMeta);
        top := ret;
      }
    }

    function NumChildren(): (n: nat)
      reads this
      requires Valid()
      ensures n == |childHeaders| && |hashes| == 2 * n
    {
      |childHeaders|
    }

    /** The i-th child header in creation order. */
    function ChildHeaderAt(i: nat): (r: Result<ObjectHeader, Error>)
      reads this
      ensures r.Failure? <==> i >= |childHeaders|
      ensures r.Failure? ==> r.error == IndexOutOfRange(i)
      ensures r.Success? ==> r.value == childHeaders[i]
    {
      if i >= |childHeaders| then Failure(IndexOutOfRange(i)) else Success(childHeaders[i])
    }

    /** Looking a child header up by its own name finds it at its own index. */
    lemma IndexAndNameLookupAgree(i: nat)
      requires Valid()
      requires i < |childHeaders|
      ensures ChildHeaderAt(i).Success?
      ensures FirstNamed(childHeaders, ChildHeaderAt(i).value.name) == Some(i)
    {
    }

    /** The first child header with the given name, by linear scan. */
    method GetChildHeaderByName(name: string) returns (r: Option<ObjectHeader>)
      ensures r.None? <==> FirstNamed(childHeaders, name).None?
      ensures r.Some? ==> r.value == childHeaders[FirstNamed(childHeaders, name).value]
    {
      var numChildren := |childHeaders|;
      var i := 0;
      while i < numChildren
        invariant 0 <= i <= numChildren == |childHeaders|
        invariant forall j :: 0 <= j < i ==> childHeaders[j].name != name
      {
        if childHeaders[i].name == name {
          var f := FirstNamed(childHeaders, name);
          assert f.Some?;
          assert f.value == i;
          return Some(childHeaders[i]);
        }
        i := i + 1;
      }
      return None;
    }

    /** The still-live handle of the child called `name`, if any. */
    function GetChild(name: string, live: set<OwImpl>): (r: Option<OwImpl>)
      reads this
      requires Valid()
      ensures r.Some? <==> name in madeChildren && madeChildren[name] in live
      ensures r.Some? ==> r.value in live && r.value.header.name == name
      ensures r.Some? ==> r.value.index < |childHeaders| && childHeaders[r.value.index] == r.value.header
    {
      if name !in madeChildren then None
      else
        var child := madeChildren[name];
        if child in live then Some(child) else None
    }

    /** A child whose handle has died is absent for `GetChild`, yet its
        header is still found by name, at its creation index. */
    lemma ReleasedChildKeepsHeader(name: string, live: set<OwImpl>)
      requires Valid()
      requires name in madeChildren && madeChildren[name] !in live
      ensures GetChild(name, live).None?
      ensures FirstNamed(childHeaders, name) == Some(madeChildren[name].index)
    {
    }

    /** Validates the candidate's name, then registers a new child: one
        header, one weak handle and two zero hash words. */
    method CreateChild(parentFull: string, candidate: ObjectHeader) returns (r: Result<OwImpl, Error>)
      requires Valid()
      modifies this, group
      ensures Valid()
      ensures top == old(top)
      ensures candidate.name in old(madeChildren) ==> r == Failure(DuplicateName(candidate.name))
      ensures candidate.name !in old(madeChildren) && candidate.name == "" ==> r == Failure(EmptyName)
      ensures candidate.name !in old(madeChildren) && candidate.name != "" && '/' in candidate.name ==>
                r == Failure(IllegalName(candidate.name))
      ensures r.Success? <==> candidate.name !in old(madeChildren) && IsLegalName(candidate.name)
      ensures r.Failure? ==>
                && childHeaders == old(childHeaders) && madeChildren == old(madeChildren)
                && hashes == old(hashes) && group.log == old(group.log)
      ensures r.Success? ==>
                && var h := ObjectHeader(candidate.name, ChildFullName(parentFull, candidate.name), candidate.metaData);
                && fresh(r.value)
                && r.value.header == h
                && r.value.index == old(|childHeaders|)
                && fresh(r.value.group) && r.value.group.name == candidate.name
                && childHeaders == old(childHeaders) + [h]
                && madeChildren == old(madeChildren)[candidate.name := r.value]
                && hashes == old(hashes) + [0, 0]
                && group.log == old(group.log) + [GroupAdded(candidate.name)]
    {
      var name := candidate.name;
      if name in madeChildren {
        return Failure(DuplicateName(name));
      }
      if name == "" {
        return Failure(EmptyName);
      } else if '/' in name {
        return Failure(IllegalName(name));
      }
      var header := ObjectHeader(name, ChildFullName(parentFull, name), candidate.metaData);
      var childGroup := group.AddGroup(name);
      var child := new OwImpl(header, childGroup, |childHeaders|);
      childHeaders := childHeaders + [header];
      madeChildren := madeChildren[name := child];
      hashes := hashes + [0];
      hashes := hashes + [0];
      r := Success(child);
    }

    /** Stores the hash reported by child `index` into its two slots. */
    method FillHash(index: nat, hash0: Word, hash1: Word) returns (r: Outcome<Error>)
      requires Valid()
      modifies this`hashes
      ensures Valid()
      ensures r.Pass? <==> index < |childHeaders| && 2 * index < old(|hashes|)
      ensures r.Fail? ==> r.error == InvalidHashIndex(index) && hashes == old(hashes)
      ensures r.Pass? ==> hashes == old(hashes)[2 * index := hash0][2 * index + 1 := hash1]
    {
      if !(index < |childHeaders| && index * 2 < |hashes|) {
        return Fail(InvalidHashIndex(index));
      }
      hashes := hashes[index * 2 := hash0];
      hashes := hashes[index * 2 + 1 := hash1];
      r := Pass;
    }

    /** Writes the children's headers and the 32-byte hash tail as one blob,
        leaves in `ioHash` the hash vector followed by the data hash, and
        has the property data write its own headers. */
    method WriteHeaders(encode: HeaderEncoder, mix: Mixer, ioHash: SpookyHash)
      modifies group, data, ioHash
      ensures data.hashInput == old(data.hashInput)
      ensures data.headerWrites == old(data.headerWrites) + 1
      ensures
        var dataHash := mix(0, 0, data.hashInput);
        var childHash := ChildHash(mix, hashes);
        group.log == old(group.log) +
          [DataAdded(HeaderBlob(encode, childHeaders, [dataHash.0, dataHash.1, childHash.0, childHash.1]))]
      ensures ioHash.seed0 == 0 && ioHash.seed1 == 0
      ensures ioHash.fed == hashes + [mix(0, 0, data.hashInput).0, mix(0, 0, data.hashInput).1]
    {
      var buf: seq<Byte> := [];
      for i := 0 to |childHeaders|
        invariant buf == PackedHeaders(encode, childHeaders[..i])
      {
        assert childHeaders[..i + 1][..i] == childHeaders[..i];
        buf := buf + encode(childHeaders[i]);
      }
      assert childHeaders[..|childHeaders|] == childHeaders;

      var dataHash := new SpookyHash();
      dataHash.Init(0, 0);
      data.ComputeHash(dataHash);
      assert dataHash.fed == data.hashInput;
      var (h0, h1) := dataHash.Final(mix);
      assert (h0, h1) == mix(0, 0, data.hashInput);

      ioHash.Init(0, 0);
      var h2: Word, h3: Word;
      if hashes != [] {
        ioHash.Update(hashes);
        assert ioHash.fed == hashes;
        var childHash := ioHash.Final(mix);
        h2, h3 := childHash.0, childHash.1;
      } else {
        h2, h3 := 0, 0;
      }

      var hashData := WordBytes([h0, h1, h2, h3]);
      ghost var packed := buf;
      for i := 0 to 32
        invariant buf == packed + hashData[..i]
      {
        buf := buf + [hashData[i]];
      }
      assert hashData[..32] == hashData;
      assert buf == HeaderBlob(encode, childHeaders, [h0, h1, h2, h3]);
      assert (h2, h3) == ChildHash(mix, hashes);

      ioHash.Update([h0, h1]);
      assert ioHash.fed == hashes + [h0, h1];

      if buf != [] {
        group.AddData(buf);
      }

      assert group.log == old(group.log) + [DataAdded(HeaderBlob(encode, childHeaders, [h0, h1, h2, h3]))];
      data.WritePropertyHeaders();
    }

    /** Flushes this object's group. */
    method WriteToDisk()
      modifies group
      ensures group.log == old(group.log) + [Flushed]
    {
      group.WriteToDisk();
    }
  }
}
