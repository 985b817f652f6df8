/**
 SrsStSocket (src/base/app_st_socket.cpp): the byte counters that feed the rate accounts.

 The State Threads call is replaced by its outcome: what it returned, the errno it left, and how many
 bytes it moved over the descriptor.
 */
module Socket {
  import opened Base

  const ERROR_SOCKET_READ := 1007
  const ERROR_SOCKET_READ_FULLY := 1008
  const ERROR_SOCKET_WRITE := 1009
  const ERROR_SOCKET_TIMEOUT := 1011

  const ETIME := 62
  const ECONNRESET := 104

  datatype Outcome = Outcome(nb: int, errno: int, moved: nat)

  /**
   What one State Threads call may do. A call that returns a count has moved that many bytes. One
   that returns -1 may have moved any number before it failed, as a write that times out half way.
   */
  type Io = o: Outcome | o.nb >= 0 ==> o.moved == o.nb witness Outcome(0, 0, 0)

  datatype Call =
    | Read(io: Io)
    | ReadFully(size: nat, io: Io)
    | Write(io: Io)
    | Writev(io: Io)

  /** The error code that the caller of the socket method sees. */
  function Code(c: Call): int {
    match c
    case ReadFully(size, io) =>
      if io.nb == size then ERROR_SUCCESS
      else if io.nb < 0 && io.errno == ETIME then ERROR_SOCKET_TIMEOUT
      else ERROR_SOCKET_READ_FULLY
    case _ =>
      if c.io.nb > 0 then ERROR_SUCCESS
      else if c.io.nb < 0 && c.io.errno == ETIME then ERROR_SOCKET_TIMEOUT
      else if c.Read? then ERROR_SOCKET_READ
      else ERROR_SOCKET_WRITE
  }

  /** The errno that the caller finds afterwards: an orderly close by the peer is made to look like a reset. */
  function Errno(c: Call): int {
    if c.Read? && c.io.nb == 0 then ECONNRESET
    else if c.ReadFully? && c.io.nb >= 0 && c.io.nb != c.size then ECONNRESET
    else c.io.errno
  }

  predicate Receives(c: Call) {
    c.Read? || c.ReadFully?
  }

  class StSocket {
    var recvBytes: int
    var sendBytes: int

    constructor ()
      ensures recvBytes == 0 && sendBytes == 0
    {
      recvBytes, sendBytes := 0, 0;
    }

    method Read(io: Io) returns (ret: int, nread: int, errno: int)
      modifies this
      ensures ret == Code(Call.Read(io)) && nread == io.nb && errno == Errno(Call.Read(io))
      ensures recvBytes == old(recvBytes) + Counted([Call.Read(io)], true)
      ensures recvBytes == old(recvBytes) + if io.nb > 0 then io.moved else 0
      ensures sendBytes == old(sendBytes)
    {
      CountedOne(Call.Read(io));
      ret, nread, errno := ERROR_SUCCESS, io.nb, io.errno;
      if nread <= 0 {
        if nread < 0 && errno == ETIME {
          return ERROR_SOCKET_TIMEOUT, nread, errno;
        }
        if nread == 0 {
          errno := ECONNRESET;
        }
        return ERROR_SOCKET_READ, nread, errno;
      }
      recvBytes := recvBytes + nread;
    }

    method ReadFully(size: nat, io: Io) returns (ret: int, nread: int, errno: int)
      modifies this
      ensures ret == Code(Call.ReadFully(size, io)) && nread == io.nb && errno == Errno(Call.ReadFully(size, io))
      ensures recvBytes == old(recvBytes) + Counted([Call.ReadFully(size, io)], true)
      ensures recvBytes == old(recvBytes) + if io.nb == size then io.moved else 0
      ensures sendBytes == old(sendBytes)
    {
      CountedOne(Call.ReadFully(size, io));
      ret, nread, errno := ERROR_SUCCESS, io.nb, io.errno;
      if nread != size {
        if nread < 0 && errno == ETIME {
          return ERROR_SOCKET_TIMEOUT, nread, errno;
        }
        if nread >= 0 {
          errno := ECONNRESET;
        }
        return ERROR_SOCKET_READ_FULLY, nread, errno;
      }
      recvBytes := recvBytes + nread;
    }

    method Write(io: Io) returns (ret: int, nwrite: int, errno: int)
      modifies this
      ensures ret == Code(Call.Write(io)) && nwrite == io.nb && errno == Errno(Call.Write(io))
      ensures sendBytes == old(sendBytes) + Counted([Call.Write(io)], false)
      ensures sendBytes == old(sendBytes) + if io.nb > 0 then io.moved else 0
      ensures recvBytes == old(recvBytes)
    {
      CountedOne(Call.Write(io));
      ret, nwrite, errno := ERROR_SUCCESS, io.nb, io.errno;
      if nwrite <= 0 {
        if nwrite < 0 && errno == ETIME {
          return ERROR_SOCKET_TIMEOUT, nwrite, errno;
        }
        return ERROR_SOCKET_WRITE, nwrite, errno;
      }
      sendBytes := sendBytes + nwrite;
    }

    method Writev(io: Io) returns (ret: int, nwrite: int, errno: int)
      modifies this
      ensures ret == Code(Call.Writev(io)) && nwrite == io.nb && errno == Errno(Call.Writev(io))
      ensures sendBytes == old(sendBytes) + Counted([Call.Writev(io)], false)
      ensures sendBytes == old(sendBytes) + if io.nb > 0 then io.moved else 0
      ensures recvBytes == old(recvBytes)
    {
      CountedOne(Call.Writev(io));
      ret, nwrite, errno := ERROR_SUCCESS, io.nb, io.errno;
      if nwrite <= 0 {
        if nwrite < 0 && errno == ETIME {
          return ERROR_SOCKET_TIMEOUT, nwrite, errno;
        }
        return ERROR_SOCKET_WRITE, nwrite, errno;
      }
      sendBytes := sendBytes + nwrite;
    }
  }

  /**
   What the caller can tell from the code: success exactly for a read or write that moved bytes, or a
   fixed-size read of just that size; a timeout exactly for a call that failed with ETIME. An orderly close
   by the peer is an error of a read, and looks like a reset.
   */
  lemma CodesTellApart(c: Call)
    ensures Code(c) == 0 <==> if c.ReadFully? then c.io.nb == c.size else c.io.nb > 0
    ensures Code(c) == 1011 <==> c.io.nb < 0 && c.io.errno == 62
    ensures c.Read? && c.io.nb == 0 ==> Code(c) == 1007 && Errno(c) == 104
    ensures c.ReadFully? && 0 <= c.io.nb != c.size ==> Code(c) == 1008 && Errno(c) == 104
    ensures c.io.nb < 0 && c.io.errno != 62 ==>
              Code(c) == (if c.Read? then 1007 else if c.ReadFully? then 1008 else 1009) && Errno(c) == c.io.errno
    ensures (c.Write? || c.Writev?) && c.io.nb == 0 ==> Code(c) == 1009
  {
  }

  // ----- whole histories of calls

  /** The bytes of the calls in one direction that returned success. */
  function Counted(calls: seq<Call>, recv: bool): (n: nat)
  {
    if calls == [] then 0
    else
      var c := calls[|calls| - 1];
      Counted(calls[..|calls| - 1], recv)
      + if Receives(c) == recv && Code(c) == ERROR_SUCCESS then c.io.moved else 0
  }

  lemma CountedOne(c: Call)
    ensures forall recv ::
              Counted([c], recv) == (if Receives(c) == recv && Code(c) == ERROR_SUCCESS then c.io.moved else 0)
  {
    assert [c][..0] == [];
    assert Counted([], true) == 0 && Counted([], false) == 0;
  }

  /** The bytes that moved over the descriptor, whether or not the call succeeded. */
  function Moved(calls: seq<Call>, recv: bool): nat {
    if calls == [] then 0
    else
      var c := calls[|calls| - 1];
      Moved(calls[..|calls| - 1], recv) + if Receives(c) == recv then c.io.moved else 0
  }

  /** A fixed-size read that the peer's close cut short, or any call that moved bytes and then failed. */
  predicate Lossy(c: Call) {
    c.io.moved > 0 && (c.io.nb < 0 || (c.ReadFully? && c.io.nb != c.size))
  }

  /**
   The counters never exceed the traffic, and in either direction they equal it exactly when no
   call was lossy: those bytes went over the descriptor but are never counted.
   */
  lemma {:induction false} CountersMeetTraffic(calls: seq<Call>, recv: bool)
    ensures Counted(calls, recv) <= Moved(calls, recv)
    ensures Counted(calls, recv) == Moved(calls, recv)
        <==> forall c :: c in calls && Receives(c) == recv ==> !Lossy(c)
  {
    if calls != [] {
      var before, last := calls[..|calls| - 1], calls[|calls| - 1];
      CountersMeetTraffic(before, recv);
      assert calls == before + [last];
      assert last in calls && forall c :: c in calls <==> c in before || c == last;
    }
  }

  /** Sends can be lost too: all bytes that a write moved before it timed out go missing. */
  lemma TimedOutWriteIsLost(moved: nat)
    requires moved > 0
    ensures var calls := [Call.Write(Outcome(-1, ETIME, moved))];
            Moved(calls, false) == moved && Counted(calls, false) == 0
  {
    var c := Call.Write(Outcome(-1, ETIME, moved));
    CountedOne(c);
    assert [c][..0] == [] && Moved([], false) == 0;
  }

  /** Counters only grow: this is what the rate accounts assume of their io. */
  lemma {:induction false} CountersNeverDecrease(calls: seq<Call>, n: nat, recv: bool)
    requires n <= |calls|
    ensures Counted(calls[..n], recv) <= Counted(calls, recv)
    decreases |calls| - n
  {
    if n == |calls| {
      assert calls[..n] == calls;
    } else {
      assert calls[..n + 1][..n] == calls[..n];
      CountersNeverDecrease(calls, n + 1, recv);
    }
  }
}
