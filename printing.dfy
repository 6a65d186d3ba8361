/** The line printer: an output stream (here a sink of finished lines) and the prefix
    written in front of every non-empty line. */
module Printing {

  /** The output stream; every line written so far, in order. */
  class Sink {
    var lines: seq<string>

    constructor ()
      ensures lines == []
    {
      lines := [];
    }
  }

  datatype Printer = Printer(sink: Sink, prefix: string) {

    /** `pr + str`: the same stream, with `str` added to the prefix. */
    function Plus(str: string): (r: Printer)
      ensures r.sink == sink && r.prefix == prefix + str
    {
      Printer(sink, prefix + str)
    }

    /** `line(str)`: one line, the prefix followed by `str`. */
    method Line(str: string)
      modifies sink
      ensures sink.lines == old(sink.lines) + [prefix + str]
    {
      sink.lines := sink.lines + [prefix + str];
    }

    /** `line()`: an empty line; the prefix is not written. */
    method Blank()
      modifies sink
      ensures sink.lines == old(sink.lines) + [""]
    {
      sink.lines := sink.lines + [""];
    }
  }

  /** Indentations compose: adding two prefixes one after the other is adding their concatenation. */
  lemma PlusCompose(pr: Printer, a: string, b: string)
    ensures pr.Plus(a).Plus(b) == pr.Plus(a + b)
  {
    assert pr.prefix + a + b == pr.prefix + (a + b);
  }
}
