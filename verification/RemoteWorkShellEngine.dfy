/**
 The variables of the client projection as an object. publish is proved to be the step of
 ClientFence; the loops of invoke are steps of that transition system.
 */
module RemoteWorkShellEngine {
  import opened Base
  import opened ClientFence

  class RemoteWorkShellEngine {
    var revision: nat
    var stateRequestSequence: nat
    var acceptedStateRequestSequence: nat
    var readableRequestSequenceFloor: nat
    var ownerStateJson: string
    var notified: seq<string>

    ghost function State(): Client
      reads this
    {
      Client(revision, stateRequestSequence, acceptedStateRequestSequence, readableRequestSequenceFloor, ownerStateJson)
    }

    constructor (state: string, revision: nat)
      ensures State() == Opened(state, revision) && notified == []
    {
      this.revision, ownerStateJson, notified := revision, state, [];
      stateRequestSequence, acceptedStateRequestSequence, readableRequestSequenceFloor := 0, 0, 0;
    }

    method IssueRequest() returns (requestSequence: nat)
      modifies this`stateRequestSequence
      ensures State() == Issue(old(State()))
      ensures requestSequence == stateRequestSequence
    {
      stateRequestSequence := stateRequestSequence + 1;
      requestSequence := stateRequestSequence;
    }

    method Publish(next: string, nextRevision: nat, requestSequence: nat, source: Source) returns (changed: bool)
      modifies this
      ensures (State(), changed) == ClientFence.Publish(old(State()), next, nextRevision, requestSequence, source)
      ensures notified == old(notified) + (if changed then [next] else [])
      ensures ownerStateJson == (if changed then next else old(ownerStateJson))
      ensures source == Mutation ==> (changed <==> nextRevision >= old(revision))
      ensures source == Read && changed ==> next != old(ownerStateJson)
    {
      if nextRevision < revision { return false; }
      if nextRevision == revision && source == Read
         && (requestSequence <= acceptedStateRequestSequence || requestSequence < readableRequestSequenceFloor)
      {
        return false;
      }
      if nextRevision > revision { revision := nextRevision; }
      if source == Mutation { readableRequestSequenceFloor := stateRequestSequence + 1; }
      acceptedStateRequestSequence := Base.Max(acceptedStateRequestSequence, requestSequence);
      if source == Read && next == ownerStateJson { return false; }
      ownerStateJson := next;
      notified := notified + [next];
      changed := true;
    }

    // A mutation accepted without a state; the read that follows it is issued at once.
    method AcceptReceipt(receiptRevision: nat, requestSequence: nat) returns (readRequest: nat)
      modifies this
      ensures State() == Issue(Fence(old(State()), receiptRevision, requestSequence))
      ensures readRequest == stateRequestSequence && notified == old(notified)
    {
      if receiptRevision > revision { revision := receiptRevision; }
      readableRequestSequenceFloor := stateRequestSequence + 1;
      acceptedStateRequestSequence := Base.Max(acceptedStateRequestSequence, requestSequence);
      readRequest := IssueRequest();
    }
  }
}
