/**
 What an accepted configuration buys the rest of the system: its fleet satisfies
 the assumptions of the anti-affinity and timer theorems, and its group totals
 count every device once.
 */
module Deployment {
  import opened Lifecycle
  import opened Config
  import opened Accounting
  import Protocol
  import Fleet
  import Routing
  import Ttl

  function ParamsOf(cfg: Config, m: ModelConfig, weights: int): Protocol.Params
    requires cfg.queueDepth >= 0
  {
    Protocol.Params(cfg.queueDepth, weights, if IsLlama(m) then LlamaCpp else VLLM, m.gpuGroup != "", Routing.Copies(m) > 1)
  }

  /** The members of the fleet: one per replica, with the model's index as replica set. */
  function Members(cfg: Config, models: seq<ModelConfig>, weights: seq<int>): (r: seq<Fleet.Member>)
    requires cfg.queueDepth >= 0 && |weights| == |models|
    ensures forall i | 0 <= i < |r| :: r[i].rset < |models| && r[i].params == ParamsOf(cfg, models[r[i].rset], weights[r[i].rset])
  {
    if models == [] then []
    else
      var n := |models| - 1;
      Members(cfg, models[..n], weights[..n])
        + seq(Routing.Copies(models[n]), _ => Fleet.Member(ParamsOf(cfg, models[n], weights[n]), n))
  }

  /** Two entries of one replica set exist only if the model is replicated. */
  lemma {:induction false} SiblingsAreReplicas(cfg: Config, models: seq<ModelConfig>, weights: seq<int>, i: int, j: int)
    requires cfg.queueDepth >= 0 && |weights| == |models|
    requires Fleet.Siblings(Members(cfg, models, weights), i, j)
    ensures Members(cfg, models, weights)[i].params.replicated
    decreases |models|
  {
    var n := |models| - 1;
    var front := Members(cfg, models[..n], weights[..n]);
    var all := Members(cfg, models, weights);
    assert forall k | 0 <= k < |front| :: all[k] == front[k] && front[k].rset < n;
    if i < |front| && j < |front| {
      SiblingsAreReplicas(cfg, models[..n], weights[..n], i, j);
    }
  }

  /** An accepted configuration gives a fleet in which no replica is pinned, so its replicas never share a group. */
  lemma AcceptedFleetIsValid(cfg: Config, disk: Disk, weights: seq<int>)
    requires Accepts(cfg, disk) && |weights| == |cfg.models|
    ensures Fleet.ValidFleet(Members(cfg, cfg.models, weights))
  {
    var ms := Members(cfg, cfg.models, weights);
    forall i | 0 <= i < |ms| ensures ms[i].params.replicated ==> !ms[i].params.pinned {
      assert ModelOk(cfg, cfg.models[ms[i].rset]);
    }
    forall i, j | Fleet.Siblings(ms, i, j) ensures ms[i].params.replicated {
      SiblingsAreReplicas(cfg, cfg.models, weights, i, j);
    }
  }

  /** In every run of an accepted configuration two replicas of one model are on different groups. */
  lemma AcceptedReplicasStayApart(cfg: Config, disk: Disk, weights: seq<int>, freeCpu: int, ss: seq<Fleet.Step>, i: nat, j: nat)
    requires Accepts(cfg, disk) && |weights| == |cfg.models|
    requires var ms := Members(cfg, cfg.models, weights);
             Fleet.ValidSteps(ms, Fleet.Start(ms, freeCpu), ss) && Fleet.Siblings(ms, i, j)
    ensures var ms := Members(cfg, cfg.models, weights);
            var f := Fleet.DoAll(ms, Fleet.Start(ms, freeCpu), ss);
            && |f.entries| == |ms|
            && (f.entries[i].core.group >= 0 ==> f.entries[i].core.group != f.entries[j].core.group)
  {
    AcceptedFleetIsValid(cfg, disk, weights);
    Fleet.ReplicasStayApart(Members(cfg, cfg.models, weights), freeCpu, ss, i, j);
  }

  /** With ample CPU RAM the models of an accepted configuration are never deeper asleep than their idle time warrants. */
  lemma AcceptedNeverTooDeep(cfg: Config, disk: Disk, m: ModelConfig, s: Ttl.Clocked, es: seq<Ttl.Event>, start: int)
    requires Accepts(cfg, disk) && m in cfg.models
    requires s.m.cfg.engine == if IsLlama(m) then LlamaCpp else VLLM
    requires Ttl.Tickable(s.m) && Ttl.InTime(es, start) && s.m.run.state == Active
    requires Ttl.Ample(s, es, TimersOf(cfg, m))
    ensures var s' := Ttl.History(s, es, TimersOf(cfg, m));
            var now := if es == [] then start else es[|es| - 1].now;
            Ttl.Depth(s'.m.run.state) <= Ttl.IdealDepth(s.m.cfg.engine, now - s'.lastCompleted, TimersOf(cfg, m))
  {
    hide Accepts, Ttl.Tickable;
    AcceptedTimersAreOrdered(cfg, disk, m);
    Ttl.AmpleNeverSlips(s, es, TimersOf(cfg, m));
    Ttl.NeverDeeperThanIdeal(s, es, TimersOf(cfg, m), start);
  }

  /** Group totals of an accepted configuration add up to the total over its distinct devices. */
  lemma AcceptedTotalsCountOnce(cfg: Config, disk: Disk, order: seq<int>)
    requires Accepts(cfg, disk) && Enumerates(order, cfg.gpuGroups)
    ensures CountedOnce(cfg.gpuGroups, order)
  {
    CountedOnceIffDisjoint(cfg.gpuGroups, order);
  }
}
