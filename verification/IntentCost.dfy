/** What one intent can cost the party service, transport retries included. */
module IntentCost {
  import P = PatchProtocol
  import PatchTraffic
  import H = HttpRetry

  /** The transport has sent a request k times more than once: each of its first k attempts was one it recovers from. */
  ghost predicate Resends(transport: H.Config, env: H.Environment, k: nat) {
    forall j | 1 <= j <= k :: H.Recovers(transport, env, j)
  }

  /**
   Every request of the run is carried by one call of the transport: the r-th in the environment
   envs(r). Whenever the run sends a request again, that call has just recovered from an attempt.
   */
  ghost predicate Carried(cfg: P.Config, w: P.World, moves: seq<P.Move>, transport: H.Config,
                          envs: nat -> H.Environment) {
    forall n | 0 <= n <= |moves| ::
      var c := P.Run(cfg, w, moves[..n]).client; Resends(transport, envs(c.requests), c.resends)
  }

  lemma ResendsBounded(transport: H.Config, env: H.Environment, k: nat)
    requires transport.maxRetries >= 0 && Resends(transport, env, k)
    ensures k < transport.maxRetries + 2
  {
    hide H.Pause, H.Transient, H.AuthFails;
    assert !(H.Recovers(transport, env, transport.maxRetries + 1)
             && H.Recovers(transport, env, transport.maxRetries + 2));
  }

  /**
   However the service, the network and the other writers behave, and whatever the local party was
   at the start, one intent leads to at most 4 * (patch retries + 1) * (transport retries + 2) sends.
   */
  lemma IntentSends(cfg: P.Config, w: P.World, moves: seq<P.Move>, transport: H.Config, envs: nat -> H.Environment)
    requires P.Initial(cfg, w) && H.Configured(transport) && Carried(cfg, w, moves, transport, envs)
    ensures P.Run(cfg, w, moves).client.sends <= 4 * (cfg.maxRetries + 1) * (transport.maxRetries + 2)
  {
    hide P.Initial, P.Run, Resends;
    forall n | 0 <= n <= |moves|
      ensures P.Run(cfg, w, moves[..n]).client.resends < transport.maxRetries + 2
    {
      var c := P.Run(cfg, w, moves[..n]).client;
      ResendsBounded(transport, envs(c.requests), c.resends);
    }
    PatchTraffic.SendsBounded(cfg, w, moves, transport.maxRetries + 2);
  }
}
