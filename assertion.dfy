/**
 * AssertionFailure of lib/assert.cc: the exception JETREADER_ASSERT throws.
 * It keeps a stack of message parts and the message made from them.
 */
module Assertion {
  import opened StringUtils
  import PathUtils

  /** std::accumulate over the parts, starting from `init`: a left fold of concatenation. */
  function Accumulate(init: string, parts: seq<string>): (r: string)
    ensures |r| >= |init| && r[..|init|] == init
  {
    if parts == [] then init else Accumulate(init, parts[..|parts| - 1]) + parts[|parts| - 1]
  }

  /** The header part: where the assertion failed, with the file name only. */
  function Header(file: string, line: int): string
  {
    MakeString([Text("[assertion failure: "), Text(PathUtils.GetFileName(file)), Text("::"), Number(line), Text("] ")])
  }

  class AssertionFailure {
    var messageStack: seq<string>
    var message: string

    /** The message always reads as a space followed by every part of the stack in order. */
    predicate Valid()
      reads this
    {
      message == Accumulate(" ", messageStack)
    }

    constructor (file: string, line: int, failure: string, msg: string)
      ensures Valid()
      ensures messageStack == [Header(file, line), failure, " ", msg]
    {
      messageStack := [Header(file, line), failure, " ", msg];
      message := Accumulate(" ", [Header(file, line), failure, " ", msg]);
    }

    /** msg(): the parts folded onto a leading space. */
    function Msg(): (r: string)
      reads this
      ensures |r| >= 1 && r[0] == ' '
    {
      Accumulate(" ", messageStack)
    }

    /** append(): one more part, and the message follows. */
    method Append(part: string)
      requires Valid()
      modifies this
      ensures Valid()
      ensures messageStack == old(messageStack) + [part]
      ensures message == old(message) + part
    {
      messageStack := messageStack + [part];
      message := Msg();
      assert messageStack[..|messageStack| - 1] == old(messageStack);
    }

    /** what(): the stored message. */
    function What(): (r: string)
      requires Valid()
      reads this
      ensures r == Msg()
    {
      message
    }
  }

  /** Folding a longer stack continues from the message of the shorter one. */
  lemma {:induction false} AccumulateAppend(init: string, a: seq<string>, b: seq<string>)
    ensures Accumulate(init, a + b) == Accumulate(Accumulate(init, a), b)
    decreases |b|
  {
    if b == [] {
      assert a + b == a;
    } else {
      var b' := b[..|b| - 1];
      assert (a + b)[..|a + b| - 1] == a + b';
      AccumulateAppend(init, a, b');
    }
  }

  /** The message starts with the header, which names the file without its directories. */
  lemma MessageStartsWithHeader(file: string, line: int, failure: string, msg: string)
    ensures var m := Accumulate(" ", [Header(file, line), failure, " ", msg]);
      m == " " + Header(file, line) + failure + " " + msg
  {
    var h := Header(file, line);
    var parts := [h, failure, " ", msg];
    assert parts[..3] == [h, failure, " "];
    assert parts[..3][..2] == [h, failure];
    assert parts[..3][..2][..1] == [h];
    assert [h][..0] == [];
    assert Accumulate(" ", [h]) == " " + h;
    assert Accumulate(" ", [h, failure]) == " " + h + failure;
    assert Accumulate(" ", [h, failure, " "]) == " " + h + failure + " ";
  }
}
