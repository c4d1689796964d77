/**
  * The work scheduler of v2/message_transport.rs: `process` and `pop_work`. Three
  * preference flags, carried from poll to poll, decide which kind of work is served
  * next.
  */
module MessageScheduler {
  datatype Flags = Flags(credit: bool, io: bool, admission: bool)

  /** What could be served right now. */
  datatype Avail = Avail(admission: bool, credit: bool, io: bool, protocol: bool)

  datatype Served = Admission | CreditFlush | IoEvent | ProtocolEvent | Idle

  predicate IsWork(s: Served) { s.IoEvent? || s.ProtocolEvent? }

  /** `pop_work` */
  function Popped(preferIo: bool, a: Avail): Served {
    if preferIo then (if a.io then IoEvent else if a.protocol then ProtocolEvent else Idle)
    else (if a.protocol then ProtocolEvent else if a.io then IoEvent else Idle)
  }

  /** One unit of `process`: what is served, and the flags afterwards. */
  function Unit(f: Flags, a: Avail): (Served, Flags) {
    if f.admission && a.admission then (Admission, f.(admission := false))
    else if f.credit && a.credit then (CreditFlush, f.(credit := false, admission := true))
    else
      var w := Popped(f.io, a);
      if IsWork(w) then (w, Flags(true, w.ProtocolEvent?, true))
      else if a.admission then (Admission, f.(admission := false))
      else if a.credit then (CreditFlush, f)
      else (Idle, f)
  }

  /** What a unit serves was there to be served. */
  predicate Offers(a: Avail, s: Served) {
    match s
    case Admission => a.admission
    case CreditFlush => a.credit
    case IoEvent => a.io
    case ProtocolEvent => a.protocol
    case Idle => true
  }

  predicate Nothing(a: Avail) { !a.admission && !a.credit && !a.io && !a.protocol }

  /** A unit serves something available, and is idle if and only if nothing is. */
  lemma IdleIff(f: Flags, a: Avail)
    ensures Offers(a, Unit(f, a).0)
    ensures Unit(f, a).0.Idle? <==> Nothing(a)
    ensures Unit(f, a).0.Idle? ==> Unit(f, a).1 == f
  {
  }

  /** The flags before unit `n` of a run. */
  function FlagsAt(f: Flags, avail: seq<Avail>, n: nat): Flags
    requires n <= |avail|
  {
    if n == 0 then f else Unit(FlagsAt(f, avail, n - 1), avail[n - 1]).1
  }

  /** What unit `n` serves. */
  function ServedAt(f: Flags, avail: seq<Avail>, n: nat): Served
    requires n < |avail|
  {
    Unit(FlagsAt(f, avail, n), avail[n]).0
  }

  predicate Everything(a: Avail) { a.admission && a.credit && a.io && a.protocol }

  ghost predicate AllBusy(avail: seq<Avail>) { forall i :: 0 <= i < |avail| ==> Everything(avail[i]) }

  datatype Need = AnAdmission | AFlush | AnEvent

  predicate Meets(need: Need, s: Served) {
    match need
    case AnAdmission => s.Admission?
    case AFlush => s.CreditFlush?
    case AnEvent => IsWork(s)
  }

  /**
    * Fairness: with every kind of work continuously available, any four consecutive
    * units serve an event, a credit flush and an admission, whatever flags were
    * carried over.
    */
  lemma FairWindow(f: Flags, avail: seq<Avail>, n: nat, need: Need)
    requires AllBusy(avail) && n + 4 <= |avail|
    ensures exists k :: n <= k < n + 4 && Meets(need, ServedAt(f, avail, k))
  {
    var g := FlagsAt(f, avail, n);
    assert FlagsAt(f, avail, n + 1) == Unit(g, avail[n]).1;
    assert FlagsAt(f, avail, n + 2) == Unit(FlagsAt(f, avail, n + 1), avail[n + 1]).1;
    assert FlagsAt(f, avail, n + 3) == Unit(FlagsAt(f, avail, n + 2), avail[n + 2]).1;
    assert Everything(avail[n]) && Everything(avail[n + 1]) && Everything(avail[n + 2]) && Everything(avail[n + 3]);
    assert || Meets(need, ServedAt(f, avail, n)) || Meets(need, ServedAt(f, avail, n + 1))
           || Meets(need, ServedAt(f, avail, n + 2)) || Meets(need, ServedAt(f, avail, n + 3));
  }

  /** The preference changes hands only when an event is served, and then to the other kind. */
  lemma {:induction false} PreferenceHolds(f: Flags, avail: seq<Avail>, n: nat, m: nat)
    requires n < m < |avail| && IsWork(ServedAt(f, avail, n))
    requires forall k :: n < k < m ==> !IsWork(ServedAt(f, avail, k))
    ensures FlagsAt(f, avail, m).io == ServedAt(f, avail, n).ProtocolEvent?
    decreases m - n
  {
    if m > n + 1 {
      PreferenceHolds(f, avail, n, m - 1);
      assert !IsWork(ServedAt(f, avail, m - 1));
    }
  }

  /** Consecutive events alternate between the two kinds while both are available. */
  lemma EventsAlternate(f: Flags, avail: seq<Avail>, n: nat, m: nat)
    requires n < m < |avail| && IsWork(ServedAt(f, avail, n)) && IsWork(ServedAt(f, avail, m))
    requires forall k :: n < k < m ==> !IsWork(ServedAt(f, avail, k))
    requires avail[m].io && avail[m].protocol
    ensures ServedAt(f, avail, n).IoEvent? <==> ServedAt(f, avail, m).ProtocolEvent?
  {
    PreferenceHolds(f, avail, n, m);
  }

  /** After an event is served a waiting flush comes within two units. */
  lemma FlushFollowsEvent(f: Flags, avail: seq<Avail>, n: nat)
    requires n + 2 < |avail| && IsWork(ServedAt(f, avail, n)) && avail[n + 1].credit && avail[n + 2].credit
    ensures ServedAt(f, avail, n + 1).CreditFlush? || ServedAt(f, avail, n + 2).CreditFlush?
  {
    assert FlagsAt(f, avail, n + 1) == Unit(FlagsAt(f, avail, n), avail[n]).1;
    assert FlagsAt(f, avail, n + 2) == Unit(FlagsAt(f, avail, n + 1), avail[n + 1]).1;
  }

  /** While a flush waits, every unit but the last two is an admission. */
  lemma OnlyAdmissionsDelay(f: Flags, avail: seq<Avail>, n: nat, m: nat, k: nat)
    requires n <= k < m - 2 && m <= |avail|
    requires forall i :: n <= i < m ==> avail[i].credit && !ServedAt(f, avail, i).CreditFlush?
    ensures ServedAt(f, avail, k).Admission?
  {
    if !ServedAt(f, avail, k).Admission? {
      assert avail[k].credit && avail[k + 1].credit && avail[k + 2].credit;
      FlushFollowsEvent(f, avail, k);
    }
  }

  // ---------------------------------------------------------------------
  // Admissions come from a queue of submissions
  // ---------------------------------------------------------------------

  /**
    * An admission takes one submission off the queue, and a close may discard more;
    * past setup only events and flushes add any.
    */
  predicate QueueStep(s: Served, before: nat, after: nat) {
    match s
    case Admission => after < before
    case Idle => after <= before
    case _ => true
  }

  /** `q[i]` submissions are pending before unit `i`. */
  ghost predicate Submissions(f: Flags, avail: seq<Avail>, q: seq<nat>) {
    && |q| == |avail| + 1
    && forall i :: 0 <= i < |avail| ==>
         (avail[i].admission ==> q[i] > 0) && QueueStep(ServedAt(f, avail, i), q[i], q[i + 1])
  }

  lemma {:induction false} AdmissionsDeplete(f: Flags, avail: seq<Avail>, q: seq<nat>, n: nat, j: nat)
    requires Submissions(f, avail, q) && n + j <= |avail|
    requires forall i :: n <= i < n + j ==> ServedAt(f, avail, i).Admission?
    ensures q[n + j] + j <= q[n]
  {
    if j > 0 {
      AdmissionsDeplete(f, avail, q, n, j - 1);
      assert ServedAt(f, avail, n + j - 1).Admission?;
    }
  }

  /**
    * A pending flush is not held off for long: it is served within as many units as
    * submissions are pending, and three, whatever else is available and whatever the
    * events submit.
    */
  lemma FlushWithin(f: Flags, avail: seq<Avail>, q: seq<nat>, n: nat)
    requires Submissions(f, avail, q) && n < |q| && n + q[n] + 3 <= |avail|
    requires forall i :: n <= i < n + q[n] + 3 ==> avail[i].credit
    ensures exists k :: n <= k < n + q[n] + 3 && ServedAt(f, avail, k).CreditFlush?
  {
    var m := n + q[n];
    if forall k :: n <= k < m + 3 ==> !ServedAt(f, avail, k).CreditFlush? {
      forall k | n <= k < m + 1
        ensures ServedAt(f, avail, k).Admission?
      {
        OnlyAdmissionsDelay(f, avail, n, m + 3, k);
      }
      AdmissionsDeplete(f, avail, q, n, q[n] + 1);
    }
  }

  /** What is available in a run that makes a flush wait for `m` submissions, an event, and what the event submits. */
  function Delaying(m: nat): seq<Avail> {
    seq(m, _ => Avail(true, true, false, false))
    + [Avail(false, true, true, false), Avail(true, true, false, false), Avail(false, true, false, false)]
  }

  function DelayingQueue(m: nat): seq<nat> { seq(m, i requires 0 <= i < m => m - i) + [0, 1, 0, 0] }

  lemma {:induction false} DelayingFlags(m: nat, n: nat)
    requires n <= m
    ensures FlagsAt(Flags(false, false, false), Delaying(m), n) == Flags(false, false, false)
  {
    if n > 0 {
      DelayingFlags(m, n - 1);
    }
  }

  /** Unit `i` of that run. */
  lemma DelayingUnit(m: nat, i: nat)
    requires i < m + 3
    ensures var f, avail, q := Flags(false, false, false), Delaying(m), DelayingQueue(m);
            && |avail| == m + 3 && |q| == m + 4 && avail[i].credit && (avail[i].admission ==> q[i] > 0)
            && QueueStep(ServedAt(f, avail, i), q[i], q[i + 1]) && (ServedAt(f, avail, i).CreditFlush? ==> i == m + 2)
  {
    var f, avail := Flags(false, false, false), Delaying(m);
    if i <= m {
      DelayingFlags(m, i);
    } else {
      DelayingFlags(m, m);
      assert FlagsAt(f, avail, m + 1) == Flags(true, false, true);
      assert i == m + 2 ==> FlagsAt(f, avail, m + 2) == Flags(true, false, false);
    }
    hide FlagsAt;
    assert i < m ==> avail[i] == Avail(true, true, false, false) && DelayingQueue(m)[i] == m - i;
    assert i >= m ==> avail[i] == avail[m..][i - m];
  }

  /** Three units more than submissions are needed: for every number of them a run in which the flush is the last of these. */
  lemma FlushCanWait(m: nat)
    ensures var f, avail, q := Flags(false, false, false), Delaying(m), DelayingQueue(m);
            && Submissions(f, avail, q) && q[0] == m && |avail| == m + 3
            && (forall i :: 0 <= i < m + 3 ==> avail[i].credit)
            && (forall i :: 0 <= i < m + 2 ==> !ServedAt(f, avail, i).CreditFlush?)
  {
    hide ServedAt, QueueStep;
    var f, avail, q := Flags(false, false, false), Delaying(m), DelayingQueue(m);
    forall i: nat | i < m + 3
      ensures avail[i].credit && (avail[i].admission ==> q[i] > 0)
      ensures QueueStep(ServedAt(f, avail, i), q[i], q[i + 1]) && (ServedAt(f, avail, i).CreditFlush? ==> i == m + 2)
    {
      DelayingUnit(m, i);
    }
  }

  lemma AllServed(f: Flags, avail: seq<Avail>, n: nat)
    requires n <= |avail|
    ensures forall i :: 0 <= i < n ==> Offers(avail[i], ServedAt(f, avail, i))
    ensures n < |avail| ==> (ServedAt(f, avail, n).Idle? <==> Nothing(avail[n]))
  {
    hide Unit, FlagsAt, Offers;
    forall i | 0 <= i < n
      ensures Offers(avail[i], ServedAt(f, avail, i))
    {
      IdleIff(FlagsAt(f, avail, i), avail[i]);
    }
    if n < |avail| {
      IdleIff(FlagsAt(f, avail, n), avail[n]);
    }
  }

  class Scheduler {
    var preferCredit: bool
    var preferIo: bool
    var preferAdmission: bool

    ghost function Abs(): Flags
      reads this
    {
      Flags(preferCredit, preferIo, preferAdmission)
    }

    constructor ()
      ensures Abs() == Flags(false, false, false)
    {
      preferCredit, preferIo, preferAdmission := false, false, false;
    }

    method PopWork(a: Avail) returns (w: Served)
      modifies this`preferIo
      ensures w == Popped(old(preferIo), a)
      ensures preferIo == if IsWork(w) then w.ProtocolEvent? else old(preferIo)
    {
      w := Idle;
      if preferIo {
        if a.io {
          w := IoEvent;
        } else if a.protocol {
          w := ProtocolEvent;
        }
      } else {
        if a.protocol {
          w := ProtocolEvent;
        } else if a.io {
          w := IoEvent;
        }
      }
      match w
      case ProtocolEvent => preferIo := true;
      case IoEvent => preferIo := false;
      case _ =>
    }

    /** `process`: up to `budget` units, stopping when there is nothing to do. */
    method Process(budget: nat, avail: seq<Avail>) returns (served: seq<Served>)
      requires budget <= |avail|
      modifies this
      ensures |served| <= budget && Abs() == FlagsAt(old(Abs()), avail, |served|)
      ensures forall i :: 0 <= i < |served| ==> served[i] == ServedAt(old(Abs()), avail, i) && !served[i].Idle?
      ensures |served| < budget ==> ServedAt(old(Abs()), avail, |served|) == Idle
      // it serves what is there, and stops early only when nothing is
      ensures forall i :: 0 <= i < |served| ==> Offers(avail[i], served[i])
      ensures |served| < budget ==> Nothing(avail[|served|])
    {
      served := [];
      while |served| < budget
        invariant |served| <= budget && Abs() == FlagsAt(old(Abs()), avail, |served|)
        invariant forall i :: 0 <= i < |served| ==> served[i] == ServedAt(old(Abs()), avail, i) && !served[i].Idle?
      {
        var a := avail[|served|];
        if preferAdmission && a.admission {
          preferAdmission := false;
          served := served + [Admission];
          continue;
        }
        if preferCredit && a.credit {
          preferCredit, preferAdmission := false, true;
          served := served + [CreditFlush];
          continue;
        }
        var w := PopWork(a);
        if IsWork(w) {
          preferCredit, preferAdmission := true, true;
          served := served + [w];
        } else if a.admission {
          preferAdmission := false;
          served := served + [Admission];
        } else if a.credit {
          served := served + [CreditFlush];
        } else {
          break;
        }
      }
      AllServed(old(Abs()), avail, |served|);
    }
  }
}
