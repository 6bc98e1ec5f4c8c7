/**
  The captain's in-memory agent registry: a dictionary of agent records keyed by id, kept
  in insertion order, with a simulated embedding per agent, and a simulated vector search
  that may find nothing or a random selection of registered ids. Random draws are
  nondeterministic choices.
 */
module CaptainRegistry {
  import opened Json

  /** The length of a simulated embedding. */
  const EmbeddingSize := 384

  /** The record `{"id", "capabilities", "description"}` stored per agent. */
  datatype AgentRecord = AgentRecord(id: string, capabilities: seq<string>, description: string)

  /** `random.sample(population, k)`: `k` distinct members of the population. */
  predicate IsSample(picked: seq<string>, population: seq<string>, k: int)
  {
    && |picked| == k
    && (forall i :: 0 <= i < |picked| ==> picked[i] in population)
    && (forall i, j :: 0 <= i < j < |picked| ==> picked[i] != picked[j])
  }

  /** The result rows `[[id] for id in selected]`. */
  function Rows(selected: seq<string>): (rows: seq<seq<string>>)
    ensures |rows| == |selected|
    ensures forall i :: 0 <= i < |rows| ==> rows[i] == [selected[i]]
  {
    seq(|selected|, i requires 0 <= i < |selected| => [selected[i]])
  }

  /** `[random.random() for _ in range(384)]`: 384 draws from [0, 1). */
  method SimulatedEmbedding() returns (embedding: seq<real>)
    ensures |embedding| == EmbeddingSize
    ensures forall i :: 0 <= i < |embedding| ==> 0.0 <= embedding[i] < 1.0
  {
    embedding := [];
    while |embedding| < EmbeddingSize
      invariant |embedding| <= EmbeddingSize
      invariant forall i :: 0 <= i < |embedding| ==> 0.0 <= embedding[i] < 1.0
    {
      var x: real :| 0.0 <= x < 1.0;
      embedding := embedding + [x];
    }
  }

  /**
    Every registered agent has its own id in its record, appears once in the key order,
    and has an embedding of 384 values in [0, 1).
   */
  ghost predicate WellFormed(agents: map<string, AgentRecord>, order: seq<string>, embeddings: map<string, seq<real>>)
  {
    && agents.Keys == embeddings.Keys
    && (forall k :: k in order <==> k in agents)
    && (forall i, j :: 0 <= i < j < |order| ==> order[i] != order[j])
    && (forall k :: k in agents ==> agents[k].id == k)
    && (forall k :: k in embeddings ==> |embeddings[k]| == EmbeddingSize)
    && (forall k, i :: k in embeddings && 0 <= i < |embeddings[k]| ==> 0.0 <= embeddings[k][i] < 1.0)
  }

  /** Storing a record under its own id, with a well-formed embedding, keeps the registry well-formed. */
  lemma RegisterKeepsWellFormed(agents: map<string, AgentRecord>, order: seq<string>, embeddings: map<string, seq<real>>,
                                record: AgentRecord, embedding: seq<real>)
    requires WellFormed(agents, order, embeddings)
    requires |embedding| == EmbeddingSize && forall i :: 0 <= i < |embedding| ==> 0.0 <= embedding[i] < 1.0
    ensures WellFormed(agents[record.id := record], if record.id in agents then order else order + [record.id],
                       embeddings[record.id := embedding])
  {
    if record.id !in agents {
      assert record.id !in order;
    }
  }

  class Registry {
    var agents: map<string, AgentRecord>
    /** The keys of `agents` in insertion order, as Python's dict keeps them. */
    var order: seq<string>
    var embeddings: map<string, seq<real>>

    /** The registry's dictionaries agree with each other. */
    ghost predicate Valid()
      reads this
    {
      WellFormed(agents, order, embeddings)
    }

    constructor ()
      ensures Valid() && agents == map[] && order == [] && embeddings == map[]
    {
      agents := map[];
      order := [];
      embeddings := map[];
    }

    /**
      `get_agent_details`: the stored record, or `None` for an unknown id. In a valid
      registry a record is found exactly for the ids in the key order, and it carries the
      id it was looked up by.
     */
    function GetAgentDetails(agentId: string): (r: Option<AgentRecord>)
      reads this
      ensures Valid() ==> (r.Some? <==> agentId in order)
      ensures Valid() && r.Some? ==> r.value.id == agentId
    {
      if agentId in agents then Some(agents[agentId]) else None
    }

    /**
      `register_agent`: store the record under the id, replacing any earlier one, and give
      the agent a fresh simulated embedding; every other agent is left as it was.
     */
    method RegisterAgent(agentId: string, capabilities: seq<string>, description: string)
      requires Valid()
      modifies this
      ensures Valid()
      ensures GetAgentDetails(agentId) == Some(AgentRecord(agentId, capabilities, description))
      ensures agents == old(agents)[agentId := AgentRecord(agentId, capabilities, description)]
      ensures order == if agentId in old(agents) then old(order) else old(order) + [agentId]
      ensures agentId in embeddings && embeddings == old(embeddings)[agentId := embeddings[agentId]]
      ensures |embeddings[agentId]| == EmbeddingSize
    {
      var embedding := SimulatedEmbedding();
      var record := AgentRecord(agentId, capabilities, description);
      RegisterKeepsWellFormed(agents, order, embeddings, record, embedding);
      if agentId !in agents {
        order := order + [agentId];
      }
      agents := agents[agentId := record];
      embeddings := embeddings[agentId := embedding];
    }

    /**
      `_simulate_vector_search`: nothing, or singleton rows of distinct registered ids —
      exactly `topK` of them when more agents than that are registered, else all of them
      in registration order. A negative `topK` makes the sampling raise `ValueError`.
     */
    method SimulateVectorSearch(query: string, topK: int) returns (r: Result<seq<seq<string>>>)
      requires Valid()
      ensures r.Err? ==> r.error == ValueError && topK < 0 && agents != map[]
      ensures r.Ok? && r.value != [] ==>
                && (forall i :: 0 <= i < |r.value| ==> |r.value[i]| == 1 && r.value[i][0] in agents)
                && (forall i, j :: 0 <= i < j < |r.value| ==> r.value[i][0] != r.value[j][0])
                && (|order| > topK ==> |r.value| == topK)
                && (|order| <= topK ==> r.value == Rows(order))
    {
      var found: bool := *;
      if found && agents != map[] {
        var selected: seq<string>;
        if |order| > topK {
          if topK < 0 {
            return Err(ValueError);
          }
          assert IsSample(order[..topK], order, topK);
          selected :| IsSample(selected, order, topK);
          assert IsSample(selected, order, topK);
          assert |selected| == topK;
          assert forall i :: 0 <= i < |selected| ==> selected[i] in order;
        } else {
          selected := order;
          assert IsSample(selected, order, |selected|) by {
            forall i | 0 <= i < |order|
              ensures order[i] in order
            {
            }
          }
        }
        r := Ok(Rows(selected));
        assert IsSample(selected, order, |selected|);
        assert forall i :: 0 <= i < |r.value| ==> r.value[i][0] == selected[i];
      } else {
        r := Ok([]);
      }
    }

    /**
      `search_best_agent`: `None` for an empty query or an empty registry; otherwise the
      first id the search returns, or `None` when it returns nothing or raises. A found
      id is always registered; with no more agents than `topK` it is the first registered.
     */
    method SearchBestAgent(query: string, topK: int) returns (best: Option<string>)
      requires Valid()
      ensures query == "" ==> best == None
      ensures agents == map[] ==> best == None
      ensures topK <= 0 ==> best == None
      ensures best.Some? ==> best.value in agents
      ensures best.Some? && |order| <= topK ==> best.value == order[0]
    {
      if query == "" {
        return None;
      }
      if agents == map[] {
        return None;
      }
      var results := SimulateVectorSearch(query, topK);
      if results.Err? {
        return None;
      }
      var ids := results.value;
      if ids == [] {
        return None;
      }
      if |ids[0]| > 0 {
        return Some(ids[0][0]);
      }
      return None;
    }
  }
}
