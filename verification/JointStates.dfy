/** The joint lifecycle as the engine stores it: four fields, updated in place. */
module JointStates {
  import opened States

  /** How far a state is from its fixed point; one pass of the loop suffices. */
  function Unsettled(s: ConnectionState): nat {
    if Settled(s) then 0 else 1
  }

  class JointState {
    var client: State
    var server: State
    var keepAlive: bool
    var proposals: SwitchProposals

    function Value(): ConnectionState
      reads this
    {
      ConnectionState(client, server, keepAlive, proposals)
    }

    constructor ()
      ensures Value() == INITIAL
    {
      client, server, keepAlive, proposals := Idle, Idle, true, NO_PROPOSALS;
    }

    constructor Copy(s: ConnectionState)
      ensures Value() == s
    {
      client, server, keepAlive, proposals := s.client, s.server, s.keepAlive, s.proposals;
    }

    method Assign(s: ConnectionState)
      modifies this
      ensures Value() == s
    {
      client, server, keepAlive, proposals := s.client, s.server, s.keepAlive, s.proposals;
    }

    /** The rules as the source runs them, pass after pass until nothing moves. */
    method Stabilize()
      modifies this
      ensures Value() == Stable(old(Value()))
    {
      while true
        invariant Stable(Value()) == Stable(old(Value()))
        decreases Unsettled(Value())
      {
        var before := Value();
        if client == Done && !proposals.IsEmpty() {
          client := MightSwitchProtocol;
        }
        if client == MightSwitchProtocol && server == SwitchedProtocol {
          client := SwitchedProtocol;
        } else if client == MightSwitchProtocol && proposals.IsEmpty() {
          client := Done;
        }
        if client == SwitchedProtocol && server == SwitchedProtocol {
          proposals := NO_PROPOSALS;
        }
        if !keepAlive {
          if client == Done {
            client := MustClose;
          }
          if server == Done {
            server := MustClose;
          }
        }
        if (client == Closed && (server == Done || server == Idle)) || (client == Error && server == Done) {
          server := MustClose;
        } else if ((client == Done || client == Idle) && server == Closed) || (client == Done && server == Error) {
          client := MustClose;
        }
        if Value() == before {
          return;
        }
      }
    }

    /** One event, applied to a copy so that a rejection commits nothing. */
    method Process(role: Role, event: StateEvent) returns (ok: bool)
      modifies this
      ensures var next := ProcessEvent(old(Value()), role, event);
              ok == next.Some? && Value() == if ok then next.value else old(Value())
    {
      if event == DataEvent && Value().Of(role) == SendBody {
        return true;
      }
      var next := new JointState.Copy(Value());
      var current := Value().Of(role);
      var transitioned := DirectTransition(role, current, event);
      if transitioned.None? {
        return false;
      }
      if role == Client && event.RequestEvent? {
        if next.server != Idle {
          return false;
        }
        next.proposals := event.proposals;
        next.server := State.SendResponse;
      } else if role == Server && event.SwitchEvent? {
        if !next.proposals.Contains(event.kind) {
          return false;
        }
      } else if role == Server && event.ResponseEvent? {
        if next.proposals.Contains(Connect) {
          next.keepAlive := false;
        }
        next.proposals := NO_PROPOSALS;
        if current == Idle {
          next.keepAlive := false;
        }
      }
      if role == Client {
        next.client := transitioned.value;
      } else {
        next.server := transitioned.value;
      }
      next.Stabilize();
      Assign(next.Value());
      return true;
    }

    method Disable()
      modifies this
      ensures Value() == DisableKeepAlive(old(Value()))
    {
      keepAlive := false;
      Stabilize();
    }

    method Fail(role: Role)
      modifies this
      ensures Value() == ProcessError(old(Value()), role)
    {
      keepAlive := false;
      if role == Client {
        client := Error;
      } else {
        server := Error;
      }
      Stabilize();
    }

    method Restart() returns (ok: bool)
      modifies this
      ensures ok == Reusable(old(Value())) && Value() == if ok then INITIAL else old(Value())
    {
      if client != Done || server != Done || !keepAlive || !proposals.IsEmpty() {
        return false;
      }
      Assign(INITIAL);
      return true;
    }
  }
}
