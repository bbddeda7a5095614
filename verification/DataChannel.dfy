/**
 Socket ownership: the data channel and its managed sockets over an operating system that may fail any
 call.  Every socket the session creates for data is closed exactly once.
 */
module DataChannel {

  const INVALID: int := -1

  // The sockets of the operating system, with a record of every close and every accept.
  class Os {
    var open: set<int>
    var next: int
    var closes: seq<int>
    var accepts: seq<int>  // the listener of each accepted connection

    constructor ()
      ensures open == {} && next == 0 && closes == [] && accepts == []
    {
      open, next, closes, accepts := {}, 0, [], [];
    }

    method Create(fails: bool) returns (h: int)
      modifies this`open, this`next
      ensures fails ==> h == INVALID && open == old(open) && next == old(next)
      ensures !fails ==> h == old(next) && open == old(open) + {h} && next == old(next) + 1
    {
      if fails { return INVALID; }
      h := next;
      open, next := open + {h}, next + 1;
    }

    // Records the close whether or not the socket is open: closing twice shows in `closes`.
    method Close(h: int)
      modifies this`open, this`closes
      ensures open == old(open) - {h} && closes == old(closes) + [h]
    {
      open, closes := open - {h}, closes + [h];
    }

    method Accept(listener: int, fails: bool) returns (h: int)
      modifies this`open, this`next, this`accepts
      ensures fails || listener == INVALID ==>
                h == INVALID && open == old(open) && next == old(next) && accepts == old(accepts)
      ensures !(fails || listener == INVALID) ==>
                && h == old(next) && open == old(open) + {h} && next == old(next) + 1
                && accepts == old(accepts) + [listener]
    {
      if listener == INVALID { return INVALID; }
      h := Create(fails);
      if !fails { accepts := accepts + [listener]; }
    }
  }

  class ManagedSocket {
    var fd: int

    constructor (fd: int)
      ensures this.fd == fd
    {
      this.fd := fd;
    }

    // Also the destructor.
    method Close(os: Os)
      modifies this, os`open, os`closes
      ensures fd == INVALID
      ensures os.open == if old(fd) == INVALID then old(os.open) else old(os.open) - {old(fd)}
      ensures os.closes == if old(fd) == INVALID then old(os.closes) else old(os.closes) + [old(fd)]
    {
      if fd != INVALID {
        os.Close(fd);
        fd := INVALID;
      }
    }

    // Move assignment: closes what it held and takes over, leaving the source empty.
    method Take(os: Os, other: ManagedSocket)
      requires other != this
      modifies this, other, os`open, os`closes
      ensures fd == old(other.fd) && other.fd == INVALID
      ensures os.open == if old(fd) == INVALID then old(os.open) else old(os.open) - {old(fd)}
      ensures os.closes == if old(fd) == INVALID then old(os.closes) else old(os.closes) + [old(fd)]
    {
      Close(os);
      fd := other.fd;
      other.fd := INVALID;
    }
  }

  // What the system calls of one command do.
  datatype Faults = Faults(create: bool, bind: bool, listen: bool, connect: bool)

  // A command that touches the data channel; Data stands for LIST, NLST, RETR and STOR past their checks.
  datatype Command = Pasv(faults: Faults) | Port | Data(faults: Faults)

  // Everything in log after its first part.
  function Since(log: seq<int>, start: seq<int>): seq<int>
    requires start <= log
  {
    log[|start|..]
  }

  ghost predicate Distinct(log: seq<int>) { forall i, j :: 0 <= i < j < |log| ==> log[i] != log[j] }

  // Each socket created since n0 has been closed exactly once, except the ones held, which are open.
  ghost predicate Accounted(closes: seq<int>, n0: int, next: int, held: set<int>) {
    && n0 <= next && Distinct(closes)
    && (forall h :: h in closes <==> n0 <= h < next && h !in held)
    && (forall h :: h in held ==> n0 <= h < next)
  }

  lemma AccountedClose(closes: seq<int>, n0: int, next: int, held: set<int>, h: int)
    requires Accounted(closes, n0, next, held) && h in held
    ensures Accounted(closes + [h], n0, next, held - {h})
  {
  }

  lemma AccountedCreate(closes: seq<int>, n0: int, next: int, held: set<int>)
    requires Accounted(closes, n0, next, held)
    ensures Accounted(closes, n0, next + 1, held + {next})
  {
  }

  class DataChannel {
    const os: Os
    const passiveSocket: ManagedSocket
    var usePassive: bool
    // The system when the session began: the sockets of others, and how far the records went.
    ghost const others: set<int>
    ghost const n0: int
    ghost const closes0: seq<int>
    ghost const accepts0: seq<int>

    // The session holds exactly these sockets, has closed every other one it created exactly once, and
    // has taken at most one connection from each listener.
    ghost predicate Holding(held: set<int>)
      reads os
    {
      && 0 <= n0 && (forall h :: h in others ==> h < n0) && (forall h :: h in held ==> h >= n0)
      && closes0 <= os.closes && accepts0 <= os.accepts
      && os.open == others + held
      && Accounted(Since(os.closes, closes0), n0, os.next, held)
      && Distinct(Since(os.accepts, accepts0))
      && (forall a :: a in Since(os.accepts, accepts0) ==> n0 <= a < os.next)
    }

    ghost function Listener(): set<int>
      reads passiveSocket
    {
      if passiveSocket.fd == INVALID then {} else {passiveSocket.fd}
    }

    // Between commands the only socket held is the listener, which nobody has been accepted from yet.
    ghost predicate Valid()
      reads os, passiveSocket
    {
      Holding(Listener()) && passiveSocket.fd !in Since(os.accepts, accepts0)
    }

    constructor (os: Os)
      requires 0 <= os.next && forall h :: h in os.open ==> h < os.next
      ensures Valid() && this.os == os && fresh(passiveSocket) && passiveSocket.fd == INVALID && !usePassive
      ensures others == os.open && n0 == os.next && closes0 == os.closes && accepts0 == os.accepts
    {
      this.os := os;
      passiveSocket := new ManagedSocket(INVALID);
      usePassive := false;
      others, n0, closes0, accepts0 := os.open, os.next, os.closes, os.accepts;
    }

    method ClosePassive()
      requires Valid()
      modifies os`open, os`closes, passiveSocket
      ensures Valid() && passiveSocket.fd == INVALID && os.next == old(os.next) && os.accepts == old(os.accepts)
    {
      CloseHeld(Listener(), passiveSocket);
    }

    method CloseHeld(ghost held: set<int>, socket: ManagedSocket)
      requires Holding(held) && (socket.fd != INVALID ==> socket.fd in held)
      modifies os`open, os`closes, socket
      ensures Holding(held - {old(socket.fd)}) && socket.fd == INVALID
    {
      if socket.fd != INVALID {
        AccountedClose(Since(os.closes, closes0), n0, os.next, held, socket.fd);
        assert Since(os.closes + [socket.fd], closes0) == Since(os.closes, closes0) + [socket.fd];
        assert others + held - {socket.fd} == others + (held - {socket.fd});
      } else {
        assert held - {socket.fd} == held;
      }
      socket.Close(os);
    }

    method EnterPassive(faults: Faults) returns (ok: bool)
      requires Valid()
      modifies this`usePassive, os, passiveSocket
      ensures Valid() && (ok <==> !faults.create && !faults.bind && !faults.listen)
      ensures ok ==> passiveSocket.fd == old(os.next) && usePassive
      ensures !ok ==> passiveSocket.fd == INVALID && usePassive == old(usePassive)
    {
      ClosePassive();
      AccountedCreate(Since(os.closes, closes0), n0, os.next, {});
      var sock := os.Create(faults.create);
      if sock == INVALID { return false; }
      var managed := new ManagedSocket(sock);
      assert Holding({sock});
      if faults.bind || faults.listen {
        CloseHeld({sock}, managed);
        assert {sock} - {sock} == {};
        return false;
      }
      passiveSocket.Take(os, managed);
      usePassive := true;
      ok := true;
    }

    method EnterActive()
      requires Valid()
      modifies this`usePassive, os`open, os`closes, passiveSocket
      ensures Valid() && passiveSocket.fd == INVALID && !usePassive
    {
      ClosePassive();
      usePassive := false;
    }

    // Opens the data connection: afterwards an accepted-on listener is closed, and `ds` is held if valid.
    method Open(fails: bool) returns (ds: ManagedSocket)
      requires Valid()
      modifies os, passiveSocket
      ensures fresh(ds) && Holding(Listener() + (if ds.fd == INVALID then {} else {ds.fd}))
      ensures passiveSocket.fd !in Since(os.accepts, accepts0) && (ds.fd != INVALID ==> ds.fd != passiveSocket.fd)
      ensures usePassive ==> passiveSocket.fd == INVALID
      ensures ds.fd != INVALID <==> !fails && (usePassive ==> old(passiveSocket.fd) != INVALID)
    {
      ghost var listener := Listener();
      AccountedCreate(Since(os.closes, closes0), n0, os.next, listener);
      if usePassive {
        assert Since(os.accepts + [passiveSocket.fd], accepts0) == Since(os.accepts, accepts0) + [passiveSocket.fd];
        var h := os.Accept(passiveSocket.fd, fails);
        ds := new ManagedSocket(h);
        CloseHeld(listener + (if h == INVALID then {} else {h}), passiveSocket);
      } else {
        var h := os.Create(fails);  // connectSocket closes what it opened when it fails
        ds := new ManagedSocket(h);
      }
    }

    // One command; afterwards the data socket, if there was one, has been closed by its destructor.
    method Run(c: Command)
      requires Valid()
      modifies this`usePassive, os, passiveSocket
      ensures Valid()
    {
      match c
      case Pasv(faults) =>
        var ok := EnterPassive(faults);
      case Port =>
        EnterActive();
      case Data(faults) =>
        var ds := Open(faults.connect);
        ghost var held := Listener() + (if ds.fd == INVALID then {} else {ds.fd});
        assert held - {ds.fd} == Listener();
        CloseHeld(held, ds);
    }

    /** Over any sequence of commands, with any system calls failing: when the session has ended, every data
        and listener socket it created has been closed exactly once, none of them is still open, no other
        socket was touched, and no listener was accepted on more than once. */
    method RunSession(commands: seq<Command>)
      requires Valid() && passiveSocket.fd == INVALID
      modifies this`usePassive, os, passiveSocket
      ensures os.open == others && closes0 <= os.closes && accepts0 <= os.accepts
      ensures Distinct(Since(os.closes, closes0))
      ensures forall h :: h in Since(os.closes, closes0) <==> n0 <= h < os.next
      ensures Distinct(Since(os.accepts, accepts0))
    {
      var i := 0;
      while i < |commands|
        invariant Valid()
      {
        Run(commands[i]);
        i := i + 1;
      }
      ClosePassive();  // the destructor
    }
  }
}
