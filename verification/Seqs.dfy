/** The two ends of a sequence, as stacks use them. */
module Seqs {

  function Front<T>(s: seq<T>): seq<T> requires s != [] { s[..|s| - 1] }

  function Last<T>(s: seq<T>): T requires s != [] { s[|s| - 1] }
}
