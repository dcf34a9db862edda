/** From a session to the chain: what a backend mint can meet at the block ceiling. */
module Settlement {
  import opened Evm
  import opened PrimToken
  import EndSession
  import Mining = MiningContract

  /** The ceiling that the deployment script sets: a million PRM per block. */
  const DEPLOYED_CEILING: nat := 1_000_000 * 1_000_000_000_000_000_000

  /** In every run of the backend: the mint it proposes for a session of at most 142,857
      seconds, alone in its block, is never turned away for the deployed ceiling. */
  lemma LoneSessionFitsBlock(
    net: EndSession.Network, steps: seq<EndSession.Step>, k: nat,
    s: Mining.Storage, l: Ledger, self: Address, env: Env, id: Bytes32)
    requires var backend := EndSession.Run(net, steps);
             && k < |backend.proposals|
             && var p := backend.proposals[k];
             && (p.session in backend.takenBy ==> backend.takenBy[p.session].Duration() <= 142_857)
             && s.Proposal(id).amount == p.amount
    requires s.ceiling == DEPLOYED_CEILING && At(s.mintedInBlock, env.number, 0) == 0
    ensures var r := Mining.ExecuteMint(s, l, self, env, id); r.Reverted? ==> !r.error.CeilingExceeded?
  {
    EndSession.ProposalBelowMillion(net, steps, k);
    Mining.FittingNotRefused(s, l, self, env, id);
  }
}
