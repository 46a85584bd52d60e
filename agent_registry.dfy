/**
 * The agent registry: a name-indexed table of agent instances and their
 * metadata dicts.
 *
 * The two Python dicts become two maps plus the insertion order of the
 * names, since `list_agents` reports the keys in the order a dict keeps
 * them: first registration position, unchanged by an overwrite, and gone
 * after a deletion. Agent instances are of any type, so the class is
 * generic in the instance type.
 */
module AgentRegistryModel {
  import opened Wrappers
  import opened JsonData

  /** `metadata or {}`: an absent (or empty) metadata dict is stored as `{}`. */
  function MetadataOr(metadata: Option<Fields>): (m: Fields)
    ensures metadata.None? ==> m == []
    ensures metadata.Some? ==> m == metadata.value
  {
    if metadata.Some? then metadata.value else []
  }

  /** A dict's key order after `d[name] = ...`: a new name goes last, an existing one stays put. */
  function Inserted(order: seq<string>, name: string): (r: seq<string>) {
    if name in order then order else order + [name]
  }

  /** A dict's key order after `del d[name]`. */
  function Without(order: seq<string>, name: string): (r: seq<string>)
    ensures |r| <= |order|
  {
    if order == [] then []
    else if order[0] == name then Without(order[1..], name)
    else [order[0]] + Without(order[1..], name)
  }

  predicate NoDuplicates(order: seq<string>) {
    forall i, j :: 0 <= i < j < |order| ==> order[i] != order[j]
  }

  /** Inserting keeps the names distinct, adds `name`, and keeps every other name. */
  lemma InsertedKeys(order: seq<string>, name: string)
    requires NoDuplicates(order)
    ensures NoDuplicates(Inserted(order, name))
    ensures forall x :: x in Inserted(order, name) <==> x in order || x == name
    ensures name in order ==> Inserted(order, name) == order
    ensures name !in order ==> Inserted(order, name)[..|order|] == order
  {
    if name !in order {
      var r := order + [name];
      assert r[..|order|] == order;
      forall i, j | 0 <= i < j < |r|
        ensures r[i] != r[j]
      {
        if j == |order| {
          assert r[i] == order[i];
        }
      }
    }
  }

  /** Deleting removes exactly `name` and leaves the other names distinct. */
  lemma {:induction false} WithoutKeys(order: seq<string>, name: string)
    requires NoDuplicates(order)
    ensures NoDuplicates(Without(order, name))
    ensures forall x :: x in Without(order, name) <==> x in order && x != name
  {
    if order != [] {
      var tail := order[1..];
      assert NoDuplicates(tail) by {
        forall i, j | 0 <= i < j < |tail|
          ensures tail[i] != tail[j]
        {
          assert tail[i] == order[i + 1] && tail[j] == order[j + 1];
        }
      }
      WithoutKeys(tail, name);
      assert order == [order[0]] + tail;
      if order[0] != name {
        var r := [order[0]] + Without(tail, name);
        assert order[0] !in tail by {
          forall j | 0 <= j < |tail|
            ensures tail[j] != order[0]
          {
            assert tail[j] == order[j + 1];
          }
        }
        forall i, j | 0 <= i < j < |r|
          ensures r[i] != r[j]
        {
          if i == 0 {
            assert r[j] == Without(tail, name)[j - 1];
            assert r[j] in tail;
          } else {
            assert r[i] == Without(tail, name)[i - 1] && r[j] == Without(tail, name)[j - 1];
          }
        }
      }
    }
  }

  /** Deleting a name that is not registered changes nothing. */
  lemma {:induction false} WithoutAbsent(order: seq<string>, name: string)
    requires name !in order
    ensures Without(order, name) == order
  {
    if order != [] {
      assert order[0] != name;
      WithoutAbsent(order[1..], name);
      assert order == [order[0]] + order[1..];
    }
  }

  /** Registering a new name and then unregistering it restores the original order. */
  lemma {:induction false} RegisterThenUnregister(order: seq<string>, name: string)
    requires name !in order
    ensures Without(Inserted(order, name), name) == order
  {
    if order == [] {
      assert Inserted(order, name) == [name];
      assert [name][1..] == [];
    } else {
      var r := order + [name];
      assert r[0] == order[0] != name;
      assert r[1..] == order[1..] + [name];
      RegisterThenUnregister(order[1..], name);
      assert Inserted(order[1..], name) == order[1..] + [name];
      assert order == [order[0]] + order[1..];
    }
  }

  class AgentRegistry<Agent> {
    var agents: map<string, Agent>
    var metadata: map<string, Fields>
    /** The names in the order `list(self._agents.keys())` reports them. */
    var order: seq<string>

    ghost predicate Valid()
      reads this
    {
      && agents.Keys == metadata.Keys
      && NoDuplicates(order)
      && (forall x :: x in order <==> x in agents)
    }

    constructor()
      ensures Valid()
      ensures agents == map[] && metadata == map[] && order == []
    {
      agents := map[];
      metadata := map[];
      order := [];
    }

    /** `register_agent(name, agent_instance, metadata)`: a re-registration overwrites both entries. */
    method RegisterAgent(name: string, agent: Agent, meta: Option<Fields>)
      requires Valid()
      modifies this
      ensures Valid()
      ensures agents == old(agents)[name := agent]
      ensures metadata == old(metadata)[name := MetadataOr(meta)]
      ensures order == Inserted(old(order), name)
    {
      InsertedKeys(order, name);
      agents := agents[name := agent];
      metadata := metadata[name := MetadataOr(meta)];
      order := Inserted(order, name);
    }

    /** `get_agent(name)`: the instance, or `None` for an unknown name. */
    method GetAgent(name: string) returns (r: Option<Agent>)
      ensures name in agents ==> r == Some(agents[name])
      ensures name !in agents ==> r.None?
    {
      if name in agents {
        r := Some(agents[name]);
      } else {
        r := None;
      }
    }

    /** `get_metadata(name)`: the metadata dict, or `None` for an unknown name. */
    method GetMetadata(name: string) returns (r: Option<Fields>)
      ensures name in metadata ==> r == Some(metadata[name])
      ensures name !in metadata ==> r.None?
    {
      if name in metadata {
        r := Some(metadata[name]);
      } else {
        r := None;
      }
    }

    /** `list_agents()`: every registered name once, in registration order. */
    method ListAgents() returns (names: seq<string>)
      requires Valid()
      ensures names == order
      ensures NoDuplicates(names) && forall x :: x in names <==> x in agents
    {
      names := order;
    }

    /** `unregister_agent(name)`: drops both entries; an unknown name is a no-op. */
    method UnregisterAgent(name: string)
      requires Valid()
      modifies this
      ensures Valid()
      ensures agents == old(agents) - {name}
      ensures metadata == old(metadata) - {name}
      ensures order == Without(old(order), name)
      ensures name !in old(agents) ==> agents == old(agents) && metadata == old(metadata) && order == old(order)
    {
      WithoutKeys(order, name);
      if name !in agents {
        WithoutAbsent(order, name);
      }
      if name in agents {
        agents := agents - {name};
        metadata := metadata - {name};
        order := Without(order, name);
      }
    }
  }
}
