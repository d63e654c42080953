/** The proposals store of the operator shell
 *  (apps/web/src/os/stores/proposalsStore.ts): each action returns a new
 *  list. The fresh id and the clock are parameters. */
module Proposals {
  datatype Status = Pending | Approved | Dismissed

  datatype Proposal = Proposal(
    id: string, kind: string, title: string, description: string, targetId: string, timestamp: int,
    status: Status, impact: string)

  /** The fields the caller supplies. */
  datatype Draft = Draft(kind: string, title: string, description: string, targetId: string, impact: string)

  /** `addProposal`: the draft, pending, with a fresh id and the time, at the
   *  end. */
  function AddProposal(proposals: seq<Proposal>, draft: Draft, id: string, now: int): (r: seq<Proposal>)
    ensures |r| == |proposals| + 1 && r[..|proposals|] == proposals
    ensures r[|proposals|] == Proposal(id, draft.kind, draft.title, draft.description, draft.targetId, now,
                                       Pending, draft.impact)
  {
    proposals + [Proposal(id, draft.kind, draft.title, draft.description, draft.targetId, now, Pending,
                          draft.impact)]
  }

  /** The `map` both transitions share: every proposal with the id gets the
   *  status. */
  function WithStatus(proposals: seq<Proposal>, id: string, status: Status): (r: seq<Proposal>)
    ensures |r| == |proposals|
    ensures forall i :: 0 <= i < |r| ==>
      r[i] == if proposals[i].id == id then proposals[i].(status := status) else proposals[i]
  {
    seq(|proposals|, i requires 0 <= i < |proposals| =>
      if proposals[i].id == id then proposals[i].(status := status) else proposals[i])
  }

  /** `approveProposal`. */
  function ApproveProposal(proposals: seq<Proposal>, id: string): (r: seq<Proposal>)
    ensures r == WithStatus(proposals, id, Approved)
  {
    WithStatus(proposals, id, Approved)
  }

  /** `dismissProposal`. */
  function DismissProposal(proposals: seq<Proposal>, id: string): (r: seq<Proposal>)
    ensures r == WithStatus(proposals, id, Dismissed)
  {
    WithStatus(proposals, id, Dismissed)
  }

  // ---------------------------------------------------------------- lemmas

  /** A transition changes only the status of the proposals with the id, and
   *  leaves every other proposal as it was. */
  lemma TransitionChangesOnlyStatus(proposals: seq<Proposal>, id: string, status: Status, i: nat)
    requires i < |proposals|
    ensures var r := WithStatus(proposals, id, status);
      && r[i].(status := proposals[i].status) == proposals[i]
      && (proposals[i].id == id ==> r[i].status == status)
      && (proposals[i].id != id ==> r[i] == proposals[i])
  {
  }

  /** An id no proposal has leaves the list as it was. */
  lemma UnknownIdChangesNothing(proposals: seq<Proposal>, id: string, status: Status)
    requires forall i :: 0 <= i < |proposals| ==> proposals[i].id != id
    ensures WithStatus(proposals, id, status) == proposals
  {
  }

  /** Nothing guards a second transition: an approved proposal can still be
   *  dismissed, and the last action wins. */
  lemma LastTransitionWins(proposals: seq<Proposal>, id: string, first: Status, second: Status)
    ensures WithStatus(WithStatus(proposals, id, first), id, second) == WithStatus(proposals, id, second)
  {
  }

  /** Approving a proposal right after adding it leaves the list one longer
   *  than before, with the new proposal, at the end, approved. */
  lemma AddThenApprove(proposals: seq<Proposal>, draft: Draft, id: string, now: int)
    ensures var r := ApproveProposal(AddProposal(proposals, draft, id, now), id);
      r[|proposals|].status == Approved && |r| == |proposals| + 1
  {
  }
}
