/** The compound property writer of an object, seen from the object writer:
    its shared data (`CpwData`) and the reference-counted handle built over
    it (`CpwImpl`). How properties are written is not part of this model. */
module CompoundWriter {
  import opened AbcTypes
  import opened GitStore
  import opened Spooky

  class CpwData {
    const name: string
    const group: GitGroup
    /** The words `computeHash` feeds to an accumulator; determined by the
        properties written so far. */
    var hashInput: seq<Word>
    /** How many times the property headers were written. */
    var headerWrites: nat

    constructor (name: string, group: GitGroup)
      ensures this.name == name && this.group == group && headerWrites == 0
    {
      this.name := name;
      this.group := group;
      hashInput := [];
      headerWrites := 0;
    }

    method ComputeHash(h: SpookyHash)
      modifies h
      ensures h.seed0 == old(h.seed0) && h.seed1 == old(h.seed1)
      ensures h.fed == old(h.fed) + hashInput
    {
      h.Update(hashInput);
    }

    method WritePropertyHeaders()
      modifies this
      ensures hashInput == old(hashInput)
      ensures headerWrites == old(headerWrites) + 1
    {
      headerWrites := headerWrites + 1;
    }
  }

  /** A handle on the top compound property of an object. */
  class CpwImpl {
    const data: CpwData
    const metaData: MetaData

    constructor (data: CpwData, metaData: MetaData)
      ensures this.data == data && this.metaData == metaData
    {
      this.data := data;
      this.metaData := metaData;
    }
  }
}
