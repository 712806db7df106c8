/** The vocabulary loaded from the configuration file: immutable after load. */
module Vocabulary {

  datatype Word = Word(name: string, description: string, link: string)

  datatype Category = Category(name: string, words: seq<Word>)

  /** Message of the panic raised by an out-of-range slice index. */
  const IndexPanic: string := "index out of bounds"
}
