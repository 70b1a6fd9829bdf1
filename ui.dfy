/** A text component (TextMeshPro) whose only modelled state is its text. */
module Ui {

  class TextLabel {
    var text: string

    constructor (initial: string)
      ensures text == initial
    {
      text := initial;
    }
  }
}
