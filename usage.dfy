/** What a caller of the object writer can conclude from the contracts alone. */
module Usage {
  import opened AbcTypes
  import opened GitStore
  import opened Spooky
  import opened CompoundWriter
  import opened HeaderLayout
  import opened OwDataModel

  /** A child under the root, then a rejected duplicate and a rejected
      illegal name. */
  method RootWithOneChild()
  {
    var archive := new GitGroup("archive");
    var root := new OwData(archive, "ABC");

    var geo := root.CreateChild("/", ObjectHeader("geo", "", map[]));
    assert geo.Success? && root.NumChildren() == 1;
    assert root.childHeaders[0].fullName == "/geo";

    var again := root.CreateChild("/", ObjectHeader("geo", "", map[]));
    assert again == Failure(DuplicateName("geo")) && root.NumChildren() == 1;

    var nested := root.CreateChild("/", ObjectHeader("a/b", "", map[]));
    assert nested == Failure(IllegalName("a/b")) && root.NumChildren() == 1;
  }

  /** Two children report their hashes; writing the headers feeds exactly
      those words, in creation order, to the accumulator. */
  method TwoChildrenReportHashes(encode: HeaderEncoder, mix: Mixer)
  {
    var archive := new GitGroup("archive");
    var root := new OwData(archive, "ABC");
    var a := root.CreateChild("/", ObjectHeader("a", "", map[]));
    var b := root.CreateChild("/", ObjectHeader("b", "", map[]));
    assert a.Success? && b.Success? && root.NumChildren() == 2;

    var r0 := root.FillHash(0, 1, 2);
    var r1 := root.FillHash(1, 3, 4);
    assert r0.Pass? && r1.Pass? && root.hashes == [1, 2, 3, 4];

    var acc := new SpookyHash();
    root.WriteHeaders(encode, mix, acc);
    assert acc.fed[..4] == [1, 2, 3, 4];
  }

  /** A property handle that is still held is handed out again. */
  method PropertiesAreShared()
  {
    var archive := new GitGroup("archive");
    var obj := new OwData(archive, "ABC");
    var p1 := obj.GetProperties(map[], {});
    var p2 := obj.GetProperties(map[], {p1});
    assert p1 == p2 && p1.data == obj.data;
    var p3 := obj.GetProperties(map[], {});
    assert p3 != p1 && p3.data == p1.data;
  }

  /** A child whose handle was released is gone for GetChild but its
      header remains. */
  method ReleasedChild()
  {
    var archive := new GitGroup("archive");
    var root := new OwData(archive, "ABC");
    var geo := root.CreateChild("/", ObjectHeader("geo", "", map[]));
    assert geo.Success?;
    assert root.GetChild("geo", {geo.value}) == Some(geo.value);
    root.ReleasedChildKeepsHeader("geo", {});
    var h := root.GetChildHeaderByName("geo");
    assert root.GetChild("geo", {}) == None && h.Some? && h.value.fullName == "/geo";
  }
}
