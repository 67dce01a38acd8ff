/** SpookyHash as a black box: an accumulator remembers its two seeds and
    the words fed to it since `Init`; `Final` applies a mixing function
    to exactly that state. The mixing itself is a parameter. */
module Spooky {
  import opened AbcTypes

  /** The 128-bit mixing primitive: (seed0, seed1, words fed) to two words. */
  type Mixer = (Word, Word, seq<Word>) -> (Word, Word)

  class SpookyHash {
    var seed0: Word
    var seed1: Word
    var fed: seq<Word>

    constructor ()
      ensures seed0 == 0 && seed1 == 0 && fed == []
    {
      seed0, seed1, fed := 0, 0, [];
    }

    method Init(s0: Word, s1: Word)
      modifies this
      ensures seed0 == s0 && seed1 == s1 && fed == []
    {
      seed0, seed1, fed := s0, s1, [];
    }

    method Update(words: seq<Word>)
      modifies this
      ensures seed0 == old(seed0) && seed1 == old(seed1)
      ensures fed == old(fed) + words
    {
      fed := fed + words;
    }

    /** `Final` does not disturb the accumulator: later `Update`s extend it. */
    function Final(mix: Mixer): (Word, Word)
      reads this
    {
      mix(seed0, seed1, fed)
    }
  }
}
