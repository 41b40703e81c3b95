/** Two joined endpoints over any number of reused cycles. */
module Cycles {
  import opened Messages
  import opened Conn
  import opened Net
  import opened Agreement
  import opened Delivery
  import Persistence

  // ------------------------------------------------------------------------ reuse

  /** Drained endpoints with the same view start their next cycle both or neither. */
  lemma ReuseTogether(env: Env, n: Net)
    requires NetInv(env, n) && Drained(env, n) && !EndUnseen(n)
    ensures StartNextCycle(n.c).1 <==> StartNextCycle(n.s).1
  {
    DrainedEndpointsAgree(env, n);
    Persistence.ReuseSucceedsExactly(n.c);
    Persistence.ReuseSucceedsExactly(n.s);
  }

  /** Endpoints that start their next cycle once drained are as good as new. */
  lemma ReusedIsFresh(env: Env, n: Net)
    requires NetInv(env, n) && Drained(env, n) && StartNextCycle(n.c).1 && StartNextCycle(n.s).1
    ensures FreshPair(StartNextCycle(n.c).0, StartNextCycle(n.s).0)
  {
  }

  // ----------------------------------------------------------------------- cycles

  /** Nothing is under way, and both endpoints start their next cycle. */
  ghost predicate Reuses(env: Env, n: Net) {
    && Sound(n.c) && Sound(n.s) && Drained(env, n)
    && StartNextCycle(n.c).1 && StartNextCycle(n.s).1
  }

  /** The steps of each cycle are ones the endpoints may take, and each cycle but the last is reused. */
  ghost predicate MayCycle(env: Env, c: Conn, s: Conn, cycles: seq<seq<NetOp>>)
    decreases |cycles|
  {
    cycles == [] ||
    (&& MayRun(env, Start(c, s), cycles[0])
     && (cycles[1..] == [] ||
         (var n := NetRun(env, Start(c, s), cycles[0]);
          Reuses(env, n) && MayCycle(env, StartNextCycle(n.c).0, StartNextCycle(n.s).0, cycles[1..]))))
  }

  /** What holds of one cycle: agreement, delivery, and reuse by both sides or neither. */
  ghost predicate CycleHolds(env: Env, c: Conn, s: Conn, ops: seq<NetOp>)
    requires MayRun(env, Start(c, s), ops)
  {
    var n := NetRun(env, Start(c, s), ops);
    var t := TrackRun(env, Track(Start(c, s), NO_STORY, NO_STORY), ops);
    && NeverFails(env, Start(c, s), ops) && Sound(n.c) && Sound(n.s)
    && Faithful(t.up) && Faithful(t.down)
    && (Drained(env, n) ==>
          && (SameView(n.c.state, n.s.state) <==> !EndUnseen(n))
          && (!EndUnseen(n) ==> (StartNextCycle(n.c).1 <==> StartNextCycle(n.s).1))
          && t.up.got == t.up.sent && t.down.got == t.down.sent)
  }

  ghost predicate AllHold(env: Env, c: Conn, s: Conn, cycles: seq<seq<NetOp>>)
    requires MayCycle(env, c, s, cycles)
    decreases |cycles|
  {
    cycles == [] ||
    (&& CycleHolds(env, c, s, cycles[0])
     && (cycles[1..] == [] ||
         (var n := NetRun(env, Start(c, s), cycles[0]);
          AllHold(env, StartNextCycle(n.c).0, StartNextCycle(n.s).0, cycles[1..]))))
  }

  lemma CycleKeeps(env: Env, c: Conn, s: Conn, ops: seq<NetOp>)
    requires Patient(env) && FreshPair(c, s) && MayRun(env, Start(c, s), ops)
    ensures CycleHolds(env, c, s, ops) && NetInv(env, NetRun(env, Start(c, s), ops))
  {
    StartInv(env, c, s);
    SentIsNeverRejected(env, Start(c, s), ops);
    RunsAgree(env, c, s, ops);
    RunsDeliver(env, c, s, ops);
    var n := NetRun(env, Start(c, s), ops);
    if Drained(env, n) && !EndUnseen(n) {
      ReuseTogether(env, n);
    }
  }

  /**
   Over any number of cycles, each reused once both endpoints are drained: in every
   one of them no poll fails, drained endpoints agree exactly but for ends unseen and
   then start the next cycle both or neither, and content arrives as it was sent.
   */
  lemma {:induction false} CyclesAgree(env: Env, c: Conn, s: Conn, cycles: seq<seq<NetOp>>)
    requires Patient(env) && FreshPair(c, s) && MayCycle(env, c, s, cycles)
    ensures AllHold(env, c, s, cycles)
    decreases |cycles|
  {
    if cycles == [] {
    } else {
      CycleKeeps(env, c, s, cycles[0]);
      if cycles[1..] != [] {
        var n := NetRun(env, Start(c, s), cycles[0]);
        ReusedIsFresh(env, n);
        CyclesAgree(env, StartNextCycle(n.c).0, StartNextCycle(n.s).0, cycles[1..]);
      }
    }
  }
}
