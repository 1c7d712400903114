/**
 The maintenance gate of one host's resource broker, as the upgrade agent uses it: a
 drain records the holder that opened it, and `begin` and `end` are refused to anybody
 but that holder. A drain opened without a stated holder is `unattributed`, which every
 root caller may end.
 */
module Broker {
  import opened Base

  const AGENT: string := "client-upgrade"
  const UNOWNED: string := "unattributed"

  datatype Gate = Open | Draining(owner: string)

  /** The drain belongs to somebody other than `owner`. */
  predicate Foreign(gate: Gate, owner: string) {
    gate.Draining? && gate.owner != owner && gate.owner != UNOWNED
  }

  /** `held_elsewhere`: the agent reads an unattributed drain as releasable. */
  predicate HeldElsewhere(gate: Gate) {
    Foreign(gate, AGENT)
  }

  /** `maintenance_begin`. Beginning a drain already in force never rewrites its holder. */
  function Begin(gate: Gate, owner: string): Option<Gate> {
    if Foreign(gate, owner) then None
    else if gate.Open? then Some(Draining(owner))
    else Some(gate)
  }

  /** `maintenance_end`. */
  function End(gate: Gate, owner: string): Option<Gate> {
    if Foreign(gate, owner) then None else Some(Open)
  }

  /** A broker that finds a durable open record at boot starts behind a hold for the agent. */
  function Boot(gate: Gate): Gate {
    if gate.Open? then Draining(AGENT) else gate
  }

  datatype Call = BeginBy(owner: string) | EndBy(owner: string)

  /** The answer to one request by some root caller; `None` is a refusal. */
  function Reply(gate: Gate, call: Call): Option<Gate> {
    match call case BeginBy(o) => Begin(gate, o) case EndBy(o) => End(gate, o)
  }

  /** A refused request changes nothing. */
  function Serve(gate: Gate, call: Call): Gate {
    if Reply(gate, call).Some? then Reply(gate, call).value else gate
  }

  function ServeAll(gate: Gate, calls: seq<Call>): Gate
    decreases |calls|
  {
    if calls == [] then gate else ServeAll(Serve(gate, calls[0]), calls[1..])
  }

  /** No call in `calls` speaks for `owner`. */
  ghost predicate OnlyOthers(calls: seq<Call>, owner: string) {
    forall i :: 0 <= i < |calls| ==> calls[i].owner != owner
  }

  lemma {:induction false} NamedDrainHolds(gate: Gate, calls: seq<Call>)
    requires gate.Draining? && gate.owner != UNOWNED && OnlyOthers(calls, gate.owner)
    ensures ServeAll(gate, calls) == gate
  {
    if calls != [] {
      assert calls[0].owner != gate.owner;
      assert Serve(gate, calls[0]) == gate;
      assert OnlyOthers(calls[1..], gate.owner) by {
        forall i | 0 <= i < |calls[1..]| ensures calls[1..][i].owner != gate.owner {
          assert calls[1..][i] == calls[i + 1];
        }
      }
      NamedDrainHolds(gate, calls[1..]);
    }
  }

  /**
   A drain the agent does not read as somebody else's survives every sequence of calls by
   other root callers exactly when the agent is its named holder. The agent accepts an
   unattributed drain as its hold without claiming it, and that hold any caller can end.
   */
  lemma AgentHoldSurvivesIffNamed(gate: Gate)
    requires gate.Draining? && !HeldElsewhere(gate)
    ensures (forall calls :: OnlyOthers(calls, AGENT) ==> ServeAll(gate, calls).Draining?)
            <==> gate.owner == AGENT
  {
    if gate.owner == AGENT {
      forall calls | OnlyOthers(calls, AGENT) ensures ServeAll(gate, calls).Draining? {
        NamedDrainHolds(gate, calls);
      }
    } else {
      var end := [EndBy("operator")];
      assert OnlyOthers(end, AGENT);
      assert ServeAll(gate, end) == ServeAll(Serve(gate, end[0]), []) == Open;
    }
  }

  lemma OwnersDiffer()
    ensures AGENT != UNOWNED
  {
    assert AGENT[0] != UNOWNED[0];
  }

  /** What `open_drain` leaves behind: the agent's own hold, except over an unattributed drain. */
  lemma BeginClaimsUnlessUnattributed(gate: Gate)
    ensures Begin(gate, AGENT).None? <==> HeldElsewhere(gate)
    ensures Begin(gate, AGENT).Some? ==>
              (Begin(gate, AGENT).value == Draining(AGENT) <==> gate != Draining(UNOWNED))
  {
    OwnersDiffer();
  }
}
