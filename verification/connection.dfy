/**
 A connection's outbox and its counts (src/net/server.cpp, Outbox and Connection), method
 by method as the step system takes them.
 */
module Connections {
  import opened Chains
  import opened ServerModel

  class Connection {
    var items: seq<Answer>
    var closed: bool
    var outstanding: int
    var readerDone: bool
    // Entries the writer has taken, and where the connection's threads are.
    ghost var drained: seq<Answer>
    ghost var reader: ReaderPc
    ghost var rejections: seq<Rejection>
    ghost var writerDone: bool

    /** The connection as the step system sees it. */
    ghost function AsConn(): Conn
      reads this
    {
      Conn(reader, outstanding, readerDone, drained + items, |drained|, closed, rejections, writerDone)
    }

    constructor ()
      ensures AsConn() == NEW_CONN
    {
      items, closed, outstanding, readerDone := [], false, 0, false;
      drained, reader, rejections, writerDone := [], AtHeader, [], false;
    }

    /** Outbox::push. */
    method Push(answer: Answer)
      modifies this`items
      ensures AsConn() == PushAnswer(old(AsConn()), answer)
    {
      if closed {
        return;
      }
      assert drained + (items + [answer]) == drained + items + [answer];
      items := items + [answer];
    }

    /** Outbox::pop from the moment its wait ends: None once closed and drained. */
    method Pop() returns (answer: Option<Answer>)
      requires closed || items != []
      modifies this`items, this`drained
      ensures answer.None? <==> old(items) == []
      ensures answer.None? ==> AsConn() == old(AsConn())
      ensures answer.Some? ==> AsConn() == old(AsConn()).(written := old(AsConn()).written + 1)
      ensures answer.Some? ==> answer.value == old(AsConn()).answers[old(AsConn()).written]
    {
      if items == [] {
        return None;
      }
      answer := Some(items[0]);
      assert drained + items == (drained + [items[0]]) + items[1..];
      drained := drained + [items[0]];
      items := items[1..];
    }

    method JobSubmitted()
      modifies this`outstanding
      ensures AsConn() == old(AsConn()).(outstanding := old(outstanding) + 1)
    {
      outstanding := outstanding + 1;
    }

    method JobRetired()
      modifies this`outstanding, this`closed
      ensures AsConn() == CloseIfDone(old(AsConn()).(outstanding := old(outstanding) - 1))
    {
      outstanding := outstanding - 1;
      CloseOutboxIfDone();
    }

    method ReaderFinished()
      modifies this`readerDone, this`reader, this`closed
      ensures AsConn() == CloseIfDone(old(AsConn()).(readerDone := true, reader := Gone))
    {
      readerDone := true;
      reader := Gone;
      CloseOutboxIfDone();
    }

    method CloseOutboxIfDone()
      modifies this`closed
      ensures AsConn() == CloseIfDone(old(AsConn()))
    {
      if readerDone && outstanding == 0 {
        closed := true;
      }
    }
  }
}
