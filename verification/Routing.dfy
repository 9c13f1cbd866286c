/** One sequence of packets over two connections: movement may go by UDP, the rest goes by TCP. */
module Routing {
  import opened Utf8
  import opened Wire
  import opened Packets
  import opened Sequences
  import Proxy

  /** Each packet goes over one of two connections, in order; only movement goes over UDP. */
  predicate Routed(all: seq<Packet>, overTcp: seq<Packet>, overUdp: seq<Packet>) {
    if all == [] then overTcp == [] && overUdp == []
    else
      var n := |all| - 1;
      || (overTcp != [] && overTcp[|overTcp| - 1] == all[n] && Routed(all[..n], overTcp[..|overTcp| - 1], overUdp))
      || (overUdp != [] && overUdp[|overUdp| - 1] == all[n] && Proxy.IsMovement(all[n])
          && Routed(all[..n], overTcp, overUdp[..|overUdp| - 1]))
  }

  lemma RoutedGrows(all: seq<Packet>, overTcp: seq<Packet>, overUdp: seq<Packet>, one: seq<Packet>, tcp: seq<Packet>,
                    udp: seq<Packet>)
    requires Routed(all, overTcp, overUdp) && tcp + udp == one && |one| <= 1
    requires udp != [] ==> |one| == 1 && Proxy.IsMovement(one[0])
    ensures Routed(all + one, overTcp + tcp, overUdp + udp)
  {
    hide Routed, Proxy.IsMovement;
    assert |one| == |tcp| + |udp|;
    assert all + [] == all && overTcp + [] == overTcp && overUdp + [] == overUdp;
    if tcp != [] {
      assert tcp == one == [one[0]];
      RoutedByTcp(all, overTcp, overUdp, one[0]);
    } else if udp != [] {
      assert udp == one == [one[0]];
      RoutedByUdp(all, overTcp, overUdp, one[0]);
    }
  }

  lemma RoutedByTcp(all: seq<Packet>, overTcp: seq<Packet>, overUdp: seq<Packet>, p: Packet)
    requires Routed(all, overTcp, overUdp)
    ensures Routed(all + [p], overTcp + [p], overUdp)
  {
    assert (all + [p])[..|all|] == all && (overTcp + [p])[..|overTcp|] == overTcp;
  }

  lemma RoutedByUdp(all: seq<Packet>, overTcp: seq<Packet>, overUdp: seq<Packet>, p: Packet)
    requires Routed(all, overTcp, overUdp) && Proxy.IsMovement(p)
    ensures Routed(all + [p], overTcp, overUdp + [p])
  {
    hide Proxy.IsMovement;
    assert (all + [p])[..|all|] == all && (overUdp + [p])[..|overUdp|] == overUdp;
  }

  function NotMovement(): Packet -> bool {
    p => !Proxy.IsMovement(p)
  }

  lemma RoutedLast(all: seq<Packet>, overTcp: seq<Packet>, overUdp: seq<Packet>) returns (tcp: bool)
    requires Routed(all, overTcp, overUdp) && all != []
    ensures var n := |all| - 1;
            if tcp then overTcp != [] && overTcp[|overTcp| - 1] == all[n] && Routed(all[..n], overTcp[..|overTcp| - 1], overUdp)
            else overUdp != [] && overUdp[|overUdp| - 1] == all[n] && Proxy.IsMovement(all[n])
                 && Routed(all[..n], overTcp, overUdp[..|overUdp| - 1])
  {
    tcp := overTcp != [] && overTcp[|overTcp| - 1] == all[|all| - 1]
           && Routed(all[..|all| - 1], overTcp[..|overTcp| - 1], overUdp);
  }

  lemma RoutedNone(overTcp: seq<Packet>, overUdp: seq<Packet>)
    requires Routed([], overTcp, overUdp)
    ensures overTcp == [] && overUdp == []
  {
  }

  lemma Last<T>(s: seq<T>)
    requires s != []
    ensures s == s[..|s| - 1] + [s[|s| - 1]]
  {
  }

  /** Each connection carries its packets in the order they were written. */
  lemma {:induction false} RoutedInOrder(all: seq<Packet>, overTcp: seq<Packet>, overUdp: seq<Packet>)
    requires Routed(all, overTcp, overUdp)
    ensures |all| == |overTcp| + |overUdp| && Subseq(overTcp, all) && Subseq(overUdp, all)
  {
    hide Routed, Subseq;
    if all == [] {
      RoutedNone(overTcp, overUdp);
      SubseqSelf(all);
    } else {
      var n := |all| - 1;
      Last(all);
      var tcp := RoutedLast(all, overTcp, overUdp);
      if tcp {
        Last(overTcp);
        RoutedInOrder(all[..n], overTcp[..|overTcp| - 1], overUdp);
        SubseqSnoc(overTcp[..|overTcp| - 1], all[..n], all[n]);
        SubseqSnoc(overUdp, all[..n], all[n]);
      } else {
        Last(overUdp);
        RoutedInOrder(all[..n], overTcp, overUdp[..|overUdp| - 1]);
        SubseqSnoc(overTcp, all[..n], all[n]);
        SubseqSnoc(overUdp[..|overUdp| - 1], all[..n], all[n]);
      }
    }
  }

  /** What is not movement all goes over TCP, in order. */
  lemma {:induction false} RoutedOverTcp(all: seq<Packet>, overTcp: seq<Packet>, overUdp: seq<Packet>)
    requires Routed(all, overTcp, overUdp)
    ensures Filter(NotMovement(), overTcp) == Filter(NotMovement(), all)
  {
    hide Routed, Filter;
    if all == [] {
      RoutedNone(overTcp, overUdp);
    } else {
      var n := |all| - 1;
      Last(all);
      FilterSnoc(NotMovement(), all[..n], all[n]);
      var tcp := RoutedLast(all, overTcp, overUdp);
      if tcp {
        Last(overTcp);
        RoutedOverTcp(all[..n], overTcp[..|overTcp| - 1], overUdp);
        FilterSnoc(NotMovement(), overTcp[..|overTcp| - 1], all[n]);
      } else {
        RoutedOverTcp(all[..n], overTcp, overUdp[..|overUdp| - 1]);
      }
    }
  }

  /** The packets of interest are split in the same way. */
  lemma {:induction false} RoutedFilter(keep: Packet -> bool, all: seq<Packet>, overTcp: seq<Packet>,
                                        overUdp: seq<Packet>)
    requires Routed(all, overTcp, overUdp)
    ensures Routed(Filter(keep, all), Filter(keep, overTcp), Filter(keep, overUdp))
  {
    hide Routed, Filter, Proxy.IsMovement;
    if all == [] {
      RoutedNone(overTcp, overUdp);
      FilterNone(keep, []);
    } else {
      var n := |all| - 1;
      var p := all[n];
      Last(all);
      FilterSnoc(keep, all[..n], p);
      var tcp := RoutedLast(all, overTcp, overUdp);
      if tcp {
        Last(overTcp);
        RoutedFilter(keep, all[..n], overTcp[..|overTcp| - 1], overUdp);
        FilterSnoc(keep, overTcp[..|overTcp| - 1], p);
        if keep(p) {
          assert Filter(keep, all) == Filter(keep, all[..n]) + [p];
          assert Filter(keep, overTcp) == Filter(keep, overTcp[..|overTcp| - 1]) + [p];
          RoutedByTcp(Filter(keep, all[..n]), Filter(keep, overTcp[..|overTcp| - 1]), Filter(keep, overUdp), p);
        } else {
          assert Filter(keep, all) == Filter(keep, all[..n]);
          assert Filter(keep, overTcp) == Filter(keep, overTcp[..|overTcp| - 1]);
        }
      } else {
        Last(overUdp);
        assert overUdp == overUdp[..|overUdp| - 1] + [p];
        RoutedFilter(keep, all[..n], overTcp, overUdp[..|overUdp| - 1]);
        FilterSnoc(keep, overUdp[..|overUdp| - 1], p);
        if keep(p) {
          assert Filter(keep, all) == Filter(keep, all[..n]) + [p];
          assert Filter(keep, overUdp) == Filter(keep, overUdp[..|overUdp| - 1]) + [p];
          RoutedByUdp(Filter(keep, all[..n]), Filter(keep, overTcp), Filter(keep, overUdp[..|overUdp| - 1]), p);
        } else {
          assert Filter(keep, all) == Filter(keep, all[..n]);
          assert Filter(keep, overUdp) == Filter(keep, overUdp[..|overUdp| - 1]);
        }
      }
    }
  }

  /** What comes before any movement goes by TCP, ahead of everything else. */
  lemma {:induction false} RoutedAfter(start: seq<Packet>, all: seq<Packet>, overTcp: seq<Packet>, overUdp: seq<Packet>)
    requires Routed(start + all, overTcp, overUdp)
    requires forall i :: 0 <= i < |start| ==> !Proxy.IsMovement(start[i])
    ensures start <= overTcp && Routed(all, overTcp[|start|..], overUdp)
    decreases |start| + |all|
  {
    hide Routed, Proxy.IsMovement;
    if all == [] {
      assert start + all == start;
      RoutedAllTcp(start, overTcp, overUdp);
      RoutedNothing();
    } else {
      var n := |all| - 1;
      var whole := start + all;
      assert whole[..|whole| - 1] == start + all[..n] && whole[|whole| - 1] == all[n];
      Last(all);
      var tcp := RoutedLast(whole, overTcp, overUdp);
      if tcp {
        var m := |overTcp| - 1;
        Last(overTcp);
        RoutedAfter(start, all[..n], overTcp[..m], overUdp);
        assert overTcp[|start|..] == overTcp[..m][|start|..] + [all[n]];
        RoutedByTcp(all[..n], overTcp[..m][|start|..], overUdp, all[n]);
      } else {
        var m := |overUdp| - 1;
        Last(overUdp);
        RoutedAfter(start, all[..n], overTcp, overUdp[..m]);
        RoutedByUdp(all[..n], overTcp[|start|..], overUdp[..m], all[n]);
      }
    }
  }

  lemma RoutedNothing()
    ensures Routed([], [], [])
  {
  }

  lemma {:induction false} RoutedAllTcp(all: seq<Packet>, overTcp: seq<Packet>, overUdp: seq<Packet>)
    requires Routed(all, overTcp, overUdp) && forall i :: 0 <= i < |all| ==> !Proxy.IsMovement(all[i])
    ensures overTcp == all && overUdp == []
  {
    hide Routed, Proxy.IsMovement;
    if all == [] {
      RoutedNone(overTcp, overUdp);
    } else {
      var n := |all| - 1;
      Last(all);
      var tcp := RoutedLast(all, overTcp, overUdp);
      if tcp {
        Last(overTcp);
        RoutedAllTcp(all[..n], overTcp[..|overTcp| - 1], overUdp);
      } else {
        assert false;
      }
    }
  }

  function OnlyMovement(): Packet -> bool {
    p => Proxy.IsMovement(p)
  }

  /** If no movement goes by TCP, exactly the movement goes by UDP, in order. */
  lemma {:induction false} RoutedOverUdp(all: seq<Packet>, overTcp: seq<Packet>, overUdp: seq<Packet>)
    requires Routed(all, overTcp, overUdp)
    requires forall i :: 0 <= i < |overTcp| ==> !Proxy.IsMovement(overTcp[i])
    ensures overUdp == Filter(OnlyMovement(), all)
  {
    hide Routed, Filter;
    if all == [] {
      RoutedNone(overTcp, overUdp);
      FilterNone(OnlyMovement(), all);
    } else {
      var n := |all| - 1;
      Last(all);
      FilterSnoc(OnlyMovement(), all[..n], all[n]);
      var tcp := RoutedLast(all, overTcp, overUdp);
      if tcp {
        Last(overTcp);
        RoutedOverUdp(all[..n], overTcp[..|overTcp| - 1], overUdp);
      } else {
        Last(overUdp);
        RoutedOverUdp(all[..n], overTcp, overUdp[..|overUdp| - 1]);
      }
    }
  }

  /** If nothing goes by UDP, everything goes by TCP. */
  lemma {:induction false} RoutedWithoutUdp(all: seq<Packet>, overTcp: seq<Packet>)
    requires Routed(all, overTcp, [])
    ensures overTcp == all
  {
    hide Routed;
    if all == [] {
      RoutedNone(overTcp, []);
    } else {
      Last(all);
      var tcp := RoutedLast(all, overTcp, []);
      Last(overTcp);
      RoutedWithoutUdp(all[..|all| - 1], overTcp[..|overTcp| - 1]);
    }
  }
}
