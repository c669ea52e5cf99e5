/** The proposal object that the queues, maps and heap of a server share by reference. */
module ProposalObject {
  import opened PaxosData

  class Proposal {
    var proposalId: nat
    var nodeId: nat
    var proposerId: nat
    var value: nat
    var createTime: nat
    var receiveTime: nat
    var proposeTime: nat
    var acceptTime: nat
    var decisionTime: nat
    var decisionAckTime: nat
    var numAck: nat
    var numDecisionAck: nat
    var propState: PropState

    function View(): Record
      reads this
    {
      Record(proposalId, nodeId, proposerId, value, createTime, receiveTime, proposeTime, acceptTime,
             decisionTime, decisionAckTime, numAck, numDecisionAck, propState)
    }

    constructor ()
      ensures View() == BLANK
    {
      proposalId, nodeId, proposerId, value := 0, 0, 0, 0;
      createTime, receiveTime, proposeTime, acceptTime := 0, 0, 0, 0;
      decisionTime, decisionAckTime, numAck, numDecisionAck := 0, 0, 0, 0;
      propState := Unset;
    }

    /** The heap's comparison: the other proposal comes first. */
    predicate After(other: Proposal)
      reads this, other
    {
      proposalId > other.proposalId
    }

    method SetProposalId(id: nat)
      modifies this`proposalId
      ensures View() == old(View()).(id := id)
    {
      proposalId := id;
    }

    method SetNodeId(server: nat)
      modifies this`nodeId
      ensures View() == old(View()).(nodeId := server)
    {
      nodeId := server;
    }

    method SetProposerId(server: nat)
      modifies this`proposerId
      ensures View() == old(View()).(proposerId := server)
    {
      proposerId := server;
    }

    method SetValue(v: nat)
      modifies this`value
      ensures View() == old(View()).(value := v)
    {
      value := v;
    }

    method SetCreateTime(t: nat)
      modifies this`createTime
      ensures View() == old(View()).(createTime := t)
    {
      createTime := t;
    }

    method SetReceiveTime(t: nat)
      modifies this`receiveTime
      ensures View() == old(View()).(receiveTime := t)
    {
      receiveTime := t;
    }

    method SetProposeTime(t: nat)
      modifies this`proposeTime
      ensures View() == old(View()).(proposeTime := t)
    {
      proposeTime := t;
    }

    method SetAcceptTime(t: nat)
      modifies this`acceptTime
      ensures View() == old(View()).(acceptTime := t)
    {
      acceptTime := t;
    }

    method SetDecisionTime(t: nat)
      modifies this`decisionTime
      ensures View() == old(View()).(decisionTime := t)
    {
      decisionTime := t;
    }

    method SetDecisionAckTime(t: nat)
      modifies this`decisionAckTime
      ensures View() == old(View()).(decisionAckTime := t)
    {
      decisionAckTime := t;
    }

    method SetNumAck(k: nat)
      modifies this`numAck
      ensures View() == old(View()).(numAck := k)
    {
      numAck := k;
    }

    method SetNumDecisionAck(k: nat)
      modifies this`numDecisionAck
      ensures View() == old(View()).(numDecisionAck := k)
    {
      numDecisionAck := k;
    }

    method SetPropState(s: PropState)
      modifies this`propState
      ensures View() == old(View()).(state := s)
    {
      propState := s;
    }

    method IncrementNumAck()
      modifies this`numAck
      ensures View() == old(View()).(numAck := old(numAck) + 1)
    {
      numAck := numAck + 1;
    }

    method IncrementNumDecisionAck()
      modifies this`numDecisionAck
      ensures View() == old(View()).(numDecisionAck := old(numDecisionAck) + 1)
    {
      numDecisionAck := numDecisionAck + 1;
    }
  }
}
