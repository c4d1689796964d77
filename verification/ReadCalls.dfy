/**
  * Whole calls of `ReadRingTransport` as runs of protocol steps: what the methods
  * do to an endpoint keeps the two-endpoint invariant.
  */
module ReadCalls {
  import opened WorkLog
  import opened ReadRing
  import opened ReadProtocol
  import opened ReadTransport

  /** `wcs` are the next completions of the connection for `x`. */
  ghost predicate ReadyFor(x: Node, y: Node, wcs: seq<Wc>) {
    && x.past.rdone + |wcs| <= y.exec <= |y.ep.tx.log|
    && forall i :: 0 <= i < |wcs| ==> wcs[i] == Arrives(y.ep.tx.log[x.past.rdone + i])
  }

  /** `sent` are the next send completions of `x`. */
  ghost predicate SentBy(x: Node, sent: seq<SendWc>) {
    && x.sdone + |sent| <= x.exec <= |x.ep.tx.log|
    && forall i :: 0 <= i < |sent| ==> sent[i] == SendOk(WrId(x.ep.tx.log[x.sdone + i]))
  }

  /** One reap numbers at most one arrival and never shrinks the released prefix. */
  lemma ReapCounts(c: Config, x: Node, w: Wr)
    requires x.ep.Ok(c)
    ensures var x' := x.(ep := ReapRecv(c, x.ep, Arrives(w)), past := PastReap(x, w));
            x'.ep.rx.arrivals <= x.ep.rx.arrivals + 1 && x'.past.freed >= x.past.freed
  {
    hide Head.Advance, CompletionTrackers.Tracker.Release;
  }

  /** `poll_recv` may reap as many completions as the window has room for. */
  lemma {:induction false} ReapAllKeeps(c: Config, x: Node, y: Node, wcs: seq<Wc>, n: nat) returns (x': Node)
    requires Inv(c, x, y) && ReadyFor(x, y, wcs) && n <= |wcs|
    requires x.ep.rx.arrivals + n <= x.past.freed + c.maxOut
    ensures x.ep.Ok(c) && x' == x.(ep := ReapAll(c, x.ep, wcs, n), past := x'.past)
    ensures x'.past.rdone == x.past.rdone + n && Inv(c, x', y)
    ensures x'.ep.rx.arrivals <= x.ep.rx.arrivals + n && x'.past.freed >= x.past.freed
  {
    hide Inv, ReapRecv;
    InvShaped(c, x, y);
    if n == 0 {
      x' := x;
    } else {
      var x1 := ReapAllKeeps(c, x, y, wcs, n - 1);
      var w := y.ep.tx.log[x1.past.rdone];
      InvShaped(c, x1, y);
      RecvKeeps(c, x1, y);
      ReapCounts(c, x1, w);
      x' := x1.(ep := ReapRecv(c, x1.ep, Arrives(w)), past := PastReap(x1, w));
    }
  }

  /** `poll_send_completion` */
  lemma {:induction false} ReapSendsKeeps(c: Config, x: Node, y: Node, sent: seq<SendWc>, n: nat) returns (x': Node)
    requires Inv(c, x, y) && SentBy(x, sent) && n <= |sent|
    ensures x.ep.Ok(c)
    ensures x' == x.(ep := ReapSends(c, x.ep, sent, n), sdone := x.sdone + n, seen := x'.seen)
    ensures x'.ep.tx.log == x.ep.tx.log && Inv(c, x', y)
  {
    hide Inv, WrId;
    InvShaped(c, x, y);
    if n == 0 {
      x' := x;
    } else {
      var x1 := ReapSendsKeeps(c, x, y, sent, n - 1);
      SendDoneKeeps(c, x1, y);
      x' := SentReaped(c, x1);
    }
  }
}
